/**
 * The Luhn mod-10 formula (ISO/IEC 7812-1, Annex B) stated the usual way, from
 * the right: starting with the digit just left of the check digit, every second
 * digit is doubled and replaced by the sum of its decimal digits; the check
 * digit is what brings the total to a multiple of ten. This is the reference
 * the validator's left-to-right loop is proved against.
 */
module LuhnReference {

  /** Every entry is a decimal digit value 0..9. */
  predicate IsDecimalDigits(ds: seq<int>) {
    forall i :: 0 <= i < |ds| ==> 0 <= ds[i] <= 9
  }

  /** The sum of the decimal digits of `n`. */
  function DigitSum(n: nat): (r: nat)
    ensures r <= n
    ensures n < 10 ==> r == n
  {
    if n < 10 then n else n % 10 + DigitSum(n / 10)
  }

  /**
   * The Luhn weighted sum of `ds`, walking from its right end: the rightmost
   * entry is doubled when `doubleLast` holds, and doubling alternates from there.
   */
  function LuhnSum(ds: seq<int>, doubleLast: bool): (r: int)
    requires IsDecimalDigits(ds)
    decreases |ds|
  {
    if ds == [] then 0
    else
      var d := ds[|ds| - 1];
      (if doubleLast then DigitSum(2 * d) else d) + LuhnSum(ds[..|ds| - 1], !doubleLast)
  }

  /** The check digit that completes the payload `payload`. */
  function CheckDigit(payload: seq<int>): (r: int)
    requires IsDecimalDigits(payload)
  {
    (10 - LuhnSum(payload, true) % 10) % 10
  }

  /** A digit string passes the Luhn check when its last digit is the check digit of the rest. */
  predicate IsLuhnValid(ds: seq<int>)
    requires IsDecimalDigits(ds)
  {
    |ds| >= 1 && ds[|ds| - 1] == CheckDigit(ds[..|ds| - 1])
  }

  /** Doubling a digit and summing the digits of the result: 2d below 5, 2d - 9 from 5 on. */
  lemma DoubledDigitSum(d: int)
    requires 0 <= d <= 9
    ensures DigitSum(2 * d) == if d > 4 then 2 * d - 9 else 2 * d
  {
    if d > 4 {
      assert DigitSum(2 * d) == (2 * d) % 10 + DigitSum(1);
    }
  }

  /** Each position adds 0..9, so the sum of n digits is between 0 and 9n. */
  lemma {:induction false} LuhnSumBounds(ds: seq<int>, doubleLast: bool)
    requires IsDecimalDigits(ds)
    ensures 0 <= LuhnSum(ds, doubleLast) <= 9 * |ds|
  {
    if ds != [] {
      DoubledDigitSum(ds[|ds| - 1]);
      LuhnSumBounds(ds[..|ds| - 1], !doubleLast);
    }
  }

  /**
   * Every digit payload can be completed to a valid number, and its check digit is
   * the only decimal digit that does so.
   */
  lemma CheckDigitCompletes(payload: seq<int>, d: int)
    requires IsDecimalDigits(payload) && 0 <= d <= 9
    ensures IsDecimalDigits(payload + [CheckDigit(payload)])
    ensures IsLuhnValid(payload + [CheckDigit(payload)])
    ensures IsDecimalDigits(payload + [d]) && (IsLuhnValid(payload + [d]) <==> d == CheckDigit(payload))
  {
    var c := CheckDigit(payload);
    assert (payload + [c])[..|payload|] == payload;
    assert (payload + [d])[..|payload|] == payload;
  }

  /**
   * Equivalently: a non-empty digit string is Luhn-valid exactly when its full
   * weighted sum, check digit included and undoubled, is a multiple of ten.
   */
  lemma LuhnValidIffTotalIsMultipleOfTen(ds: seq<int>)
    requires IsDecimalDigits(ds) && |ds| >= 1
    ensures IsLuhnValid(ds) <==> LuhnSum(ds, false) % 10 == 0
  {
    var payload := ds[..|ds| - 1];
    LuhnSumBounds(payload, true);
    assert LuhnSum(ds, false) == ds[|ds| - 1] + LuhnSum(payload, true);
    CompletesToMultipleOfTen(ds[|ds| - 1], LuhnSum(payload, true));
  }

  /** A digit c equals (10 - s mod 10) mod 10 exactly when s + c is a multiple of ten. */
  lemma CompletesToMultipleOfTen(c: int, s: int)
    requires 0 <= c <= 9 && 0 <= s
    ensures c == (10 - s % 10) % 10 <==> (s + c) % 10 == 0
  {
    var q, m := s / 10, s % 10;
    assert s + c == 10 * q + (m + c);
    assert (s + c) % 10 == (m + c) % 10;
  }
}
