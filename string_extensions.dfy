/**
 * `StringExtensions.RemoveWhitespace`: the string with every whitespace character
 * dropped, the others kept in order (a LINQ `Where` filter).
 */
module StringExtensions {
  import opened CharClasses

  /** The input without its whitespace characters. */
  function RemoveWhitespace(t: CharTable, input: string): (r: string)
    ensures |r| <= |input|
    ensures NoWhitespace(t, r)
    ensures forall c :: c in r <==> c in input && !t.isWhiteSpace(c)
  {
    if input == [] then []
    else if t.isWhiteSpace(input[0]) then RemoveWhitespace(t, input[1..])
    else [input[0]] + RemoveWhitespace(t, input[1..])
  }

  /** `idx` lists, strictly increasing, positions of `input` whose characters spell `r`. */
  ghost predicate Spells(input: string, r: string, idx: seq<nat>) {
    && |idx| == |r|
    && (forall k :: 0 <= k < |idx| ==> idx[k] < |input| && r[k] == input[idx[k]])
    && (forall k, l :: 0 <= k < l < |idx| ==> idx[k] < idx[l])
  }

  /** The positions in `idx` are exactly the non-whitespace positions of `input`. */
  ghost predicate CoversNonWhitespace(t: CharTable, input: string, idx: seq<nat>) {
    forall i :: 0 <= i < |input| ==> (i in idx <==> !t.isWhiteSpace(input[i]))
  }

  /**
   * The output is exactly the non-whitespace characters of the input, in their
   * original order: an order-preserving subsequence, witnessed by `idx`.
   */
  lemma {:induction false} RemoveWhitespaceKeepsOrder(t: CharTable, input: string) returns (idx: seq<nat>)
    ensures Spells(input, RemoveWhitespace(t, input), idx)
    ensures CoversNonWhitespace(t, input, idx)
  {
    if input == [] {
      idx := [];
    } else {
      var rest := RemoveWhitespaceKeepsOrder(t, input[1..]);
      var shifted := Shift(rest);
      var r, tail := RemoveWhitespace(t, input), RemoveWhitespace(t, input[1..]);
      var keep := !t.isWhiteSpace(input[0]);
      idx := if keep then [0] + shifted else shifted;
      if keep {
        assert r == [input[0]] + tail;
        ConsIndices(input, tail, rest, idx);
      } else {
        assert r == tail;
        SkipIndices(input, tail, rest, idx);
      }
      CoverAfterShift(t, input, rest, shifted, idx);
    }
  }

  /** Positions of the tail, shifted by one, cover the input's non-whitespace positions after the first. */
  lemma CoverAfterShift(t: CharTable, input: string, rest: seq<nat>, shifted: seq<nat>, idx: seq<nat>)
    requires input != [] && CoversNonWhitespace(t, input[1..], rest)
    requires forall i: nat :: i in shifted <==> i > 0 && (i - 1) in rest
    requires idx == if t.isWhiteSpace(input[0]) then shifted else [0] + shifted
    ensures CoversNonWhitespace(t, input, idx)
  {
    forall i | 0 <= i < |input|
      ensures i in idx <==> !t.isWhiteSpace(input[i])
    {
      if i > 0 {
        assert input[i] == input[1..][i - 1];
        assert i in idx <==> i in shifted;
      }
    }
  }

  /** Putting position 0 in front of the shifted positions of the tail spells the head and the tail. */
  lemma ConsIndices(input: string, tail: string, rest: seq<nat>, idx: seq<nat>)
    requires input != [] && Spells(input[1..], tail, rest)
    requires |idx| == |rest| + 1 && idx[0] == 0
    requires forall k :: 0 < k < |idx| ==> idx[k] == rest[k - 1] + 1
    ensures Spells(input, [input[0]] + tail, idx)
  {
    forall k | 0 < k < |idx|
      ensures idx[k] < |input| && ([input[0]] + tail)[k] == input[idx[k]]
    {
      assert ([input[0]] + tail)[k] == tail[k - 1] == input[1..][rest[k - 1]];
    }
    forall k, l | 0 <= k < l < |idx|
      ensures idx[k] < idx[l]
    {
      assert idx[l] == rest[l - 1] + 1;
      if k > 0 {
        assert idx[k] == rest[k - 1] + 1;
      }
    }
  }

  /** The shifted positions of the tail spell the tail within the whole input. */
  lemma SkipIndices(input: string, tail: string, rest: seq<nat>, idx: seq<nat>)
    requires input != [] && Spells(input[1..], tail, rest)
    requires |idx| == |rest|
    requires forall k :: 0 <= k < |idx| ==> idx[k] == rest[k] + 1
    ensures Spells(input, tail, idx)
  {
    forall k | 0 <= k < |idx|
      ensures idx[k] < |input| && tail[k] == input[idx[k]]
    {
      assert tail[k] == input[1..][rest[k]];
    }
  }

  /** Every index moved one place to the right. */
  lemma Shift(rest: seq<nat>) returns (shifted: seq<nat>)
    ensures |shifted| == |rest|
    ensures forall k :: 0 <= k < |rest| ==> shifted[k] == rest[k] + 1
    ensures forall i: nat :: i in shifted <==> i > 0 && (i - 1) in rest
  {
    shifted := seq(|rest|, k requires 0 <= k < |rest| => rest[k] + 1);
    forall i: nat
      ensures i in shifted <==> i > 0 && (i - 1) in rest
    {
      if i > 0 && (i - 1) in rest {
        var k :| 0 <= k < |rest| && rest[k] == i - 1;
        assert shifted[k] == i;
      }
    }
  }

  /** The length is kept exactly when the input holds no whitespace. */
  lemma {:induction false} LengthKeptIffNoWhitespace(t: CharTable, input: string)
    ensures |RemoveWhitespace(t, input)| == |input| <==> NoWhitespace(t, input)
  {
    if input != [] {
      LengthKeptIffNoWhitespace(t, input[1..]);
      if NoWhitespace(t, input[1..]) && !t.isWhiteSpace(input[0]) {
        assert forall i :: 1 <= i < |input| ==> input[i] == input[1..][i - 1];
      }
    }
  }

  /** A whitespace-free input comes back unchanged. */
  lemma {:induction false} RemoveWhitespaceOfCleanIsIdentity(t: CharTable, input: string)
    requires NoWhitespace(t, input)
    ensures RemoveWhitespace(t, input) == input
  {
    if input != [] {
      assert NoWhitespace(t, input[1..]) by {
        assert forall i :: 0 <= i < |input[1..]| ==> input[1..][i] == input[i + 1];
      }
      RemoveWhitespaceOfCleanIsIdentity(t, input[1..]);
      assert input == [input[0]] + input[1..];
    }
  }

  /** Removing whitespace twice is the same as removing it once. */
  lemma RemoveWhitespaceIdempotent(t: CharTable, input: string)
    ensures RemoveWhitespace(t, RemoveWhitespace(t, input)) == RemoveWhitespace(t, input)
  {
    RemoveWhitespaceOfCleanIsIdentity(t, RemoveWhitespace(t, input));
  }

  /** Removing whitespace distributes over concatenation. */
  lemma {:induction false} RemoveWhitespaceDistributes(t: CharTable, a: string, b: string)
    ensures RemoveWhitespace(t, a + b) == RemoveWhitespace(t, a) + RemoveWhitespace(t, b)
  {
    if a != [] {
      assert (a + b)[0] == a[0];
      assert (a + b)[1..] == a[1..] + b;
      RemoveWhitespaceDistributes(t, a[1..], b);
    } else {
      assert a + b == b;
    }
  }
}
