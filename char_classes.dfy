/**
 * The two character classes the validator depends on, .NET's `char.IsWhiteSpace`
 * and `char.IsDigit`. Their exact membership is a Unicode table held by the
 * runtime, so the model takes them as a parameter (a `CharTable`) and states,
 * in `Sound`, only the facts about them that the real tables satisfy.
 */
module CharClasses {

  /** A pair of character classifiers: the runtime's whitespace and decimal-digit tables. */
  datatype CharTable = CharTable(isWhiteSpace: char -> bool, isDigit: char -> bool)

  /** The whitespace characters of the Latin-1 range: U+0009..U+000D, U+0020, U+0085, U+00A0. */
  predicate IsLatin1WhiteSpace(c: char) {
    var n := c as int;
    (9 <= n <= 13) || n == 0x20 || n == 0x85 || n == 0xA0
  }

  /** The ASCII decimal digits '0'..'9'. */
  predicate IsAsciiDigit(c: char) {
    '0' <= c <= '9'
  }

  /**
   * What the runtime's tables are known to satisfy: on the Latin-1 range they are
   * exactly the whitespace characters and the ASCII digits listed above, and no
   * character is both a decimal digit and whitespace (the Unicode categories Nd
   * and Zs/Zl/Zp/Cc are disjoint).
   */
  ghost predicate Sound(t: CharTable) {
    && (forall c: char :: c as int < 0x100 ==> (t.isWhiteSpace(c) <==> IsLatin1WhiteSpace(c)))
    && (forall c: char :: c as int < 0x100 ==> (t.isDigit(c) <==> IsAsciiDigit(c)))
    && (forall c: char :: t.isDigit(c) ==> !t.isWhiteSpace(c))
  }

  /** A table that agrees with .NET on Latin-1 and classifies nothing beyond it. */
  const Latin1Table: CharTable :=
    CharTable(c => IsLatin1WhiteSpace(c), c => IsAsciiDigit(c))

  lemma Latin1TableIsSound()
    ensures Sound(Latin1Table)
  {
  }

  /** No character of `s` is whitespace. */
  predicate NoWhitespace(t: CharTable, s: string) {
    forall i :: 0 <= i < |s| ==> !t.isWhiteSpace(s[i])
  }

  /** Every character of `s` is a digit for the table (`s.All(char.IsDigit)`). */
  predicate AllDigits(t: CharTable, s: string) {
    forall i :: 0 <= i < |s| ==> t.isDigit(s[i])
  }

  /** Every character of `s` is one of '0'..'9'. */
  predicate AllAsciiDigits(s: string) {
    forall i :: 0 <= i < |s| ==> IsAsciiDigit(s[i])
  }

  /** Under a sound table, a string of ASCII digits is whitespace-free and passes the digit check. */
  lemma AsciiDigitsAreDigits(t: CharTable, s: string)
    requires Sound(t) && AllAsciiDigits(s)
    ensures NoWhitespace(t, s) && AllDigits(t, s)
  {
    forall i | 0 <= i < |s|
      ensures !t.isWhiteSpace(s[i]) && t.isDigit(s[i])
    {
      assert s[i] as int < 0x100;
    }
  }
}
