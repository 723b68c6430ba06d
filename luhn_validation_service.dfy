/**
 * `LuhnValidationService`: card-number validation as a short-circuiting
 * pipeline (strip whitespace, check the length, check the characters, check
 * the Luhn checksum) returning an immutable result record.
 */
module LuhnValidationService {
  import opened CharClasses
  import opened StringExtensions
  import opened LuhnReference

  /** The closed set of outcomes; `Unknown` is the success sentinel. */
  datatype LuhnValidationErrorType = Unknown | MalformedNumber | UnexpectedLength | InvalidCardNumber

  /** The immutable result record. */
  datatype LuhnValidationResult = LuhnValidationResult(isValid: bool, error: LuhnValidationErrorType)

  /** Accepted lengths of the whitespace-stripped number, inclusive. */
  const MinLength: nat := 13
  const MaxLength: nat := 19

  /** `c - '0'`: the code-point distance from '0'; a digit value exactly for '0'..'9'. */
  function CharToInt(c: char): (r: int)
    ensures IsAsciiDigit(c) <==> 0 <= r <= 9
  {
    c as int - '0' as int
  }

  /** The digit values of a string, position by position. */
  function Digits(s: string): (ds: seq<int>)
    ensures |ds| == |s|
    ensures forall i :: 0 <= i < |s| ==> ds[i] == CharToInt(s[i])
    ensures AllAsciiDigits(s) ==> IsDecimalDigits(ds)
  {
    seq(|s|, i requires 0 <= i < |s| => CharToInt(s[i]))
  }

  /** C#'s `%` on int: the remainder of division truncated toward zero, with the sign of `a`. */
  function TruncRem(a: int, b: int): (r: int)
    requires b > 0
    ensures -b < r < b
    ensures a >= 0 ==> 0 <= r && r == a % b
    ensures a <= 0 ==> r <= 0
  {
    if a >= 0 then a % b else -((-a) % b)
  }

  /** Truncating remainder is odd in its first argument, unlike Dafny's Euclidean `%`. */
  lemma TruncRemIsOdd(a: int, b: int)
    requires b > 0
    ensures TruncRem(-a, b) == -TruncRem(a, b)
  {
  }

  /**
   * What one loop step adds for a character of value `digit`: the value itself at an
   * undoubled position; at a doubled one the digit sum of its double (the source's
   * "2d - 9 above 4, else 2d").
   */
  function Contribution(digit: int, doubled: bool): (r: int)
    ensures 0 <= digit <= 9 ==> 0 <= r <= 9
  {
    if !doubled then digit
    else if digit > 4 then 2 * digit - 9
    else 2 * digit
  }

  /** For a decimal digit, the "subtract 9" shortcut is the digit sum of the doubled digit. */
  lemma ContributionIsDigitSum(digit: int, doubled: bool)
    requires 0 <= digit <= 9
    ensures Contribution(digit, doubled) == if doubled then DigitSum(2 * digit) else digit
  {
    DoubledDigitSum(digit);
  }

  /**
   * The running sum of `ValidateLuhn` after its first `n` steps: left to right,
   * position i doubled when i % 2 == parity.
   */
  function ParitySum(s: string, parity: int, n: nat): int
    requires n <= |s|
  {
    if n == 0 then 0
    else ParitySum(s, parity, n - 1) + Contribution(CharToInt(s[n - 1]), (n - 1) % 2 == parity)
  }

  /** Over ASCII digits each step adds 0..9, so after n steps the sum is between 0 and 9n. */
  lemma {:induction false} ParitySumBounds(s: string, parity: int, n: nat)
    requires n <= |s| && AllAsciiDigits(s)
    ensures 0 <= ParitySum(s, parity, n) <= 9 * n
  {
    if n > 0 {
      ParitySumBounds(s, parity, n - 1);
    }
  }

  /**
   * The outcome of `ValidateLuhn` on `s`: the last character's value against
   * `(10 - sum % 10) % 10`, with the sum over all other characters and the parity
   * taken from the length.
   */
  predicate ParityLuhn(s: string)
    requires |s| >= 1
  {
    CharToInt(s[|s| - 1]) == TruncRem(10 - TruncRem(ParitySum(s, |s| % 2, |s| - 1), 10), 10)
  }

  /** The checksum loop, left to right with a parity switch. */
  method ValidateLuhn(cardNumber: string) returns (valid: bool)
    requires |cardNumber| >= 1
    ensures valid == ParityLuhn(cardNumber)
    ensures AllAsciiDigits(cardNumber) ==> (valid <==> IsLuhnValid(Digits(cardNumber)))
  {
    var sum := 0;
    var parity := |cardNumber| % 2;
    for i := 0 to |cardNumber| - 1
      invariant sum == ParitySum(cardNumber, parity, i)
      invariant AllAsciiDigits(cardNumber) ==> 0 <= sum <= 9 * i
    {
      if AllAsciiDigits(cardNumber) {
        ParitySumBounds(cardNumber, parity, i + 1);
      }
      var digit := CharToInt(cardNumber[i]);
      if i % 2 != parity {
        sum := sum + digit;
      } else if digit > 4 {
        sum := sum + 2 * digit - 9;
      } else {
        sum := sum + 2 * digit;
      }
    }
    valid := CharToInt(cardNumber[|cardNumber| - 1]) == TruncRem(10 - TruncRem(sum, 10), 10);
    if AllAsciiDigits(cardNumber) {
      ParityLuhnIsStandardLuhn(cardNumber);
    }
  }

  /**
   * The whole pipeline. It uses `ParityLuhn`, the function `ValidateLuhn` is proved
   * to compute, since a function cannot call a method.
   */
  function ValidateCreditCardLuhn(t: CharTable, cardNumber: string): (r: LuhnValidationResult)
    ensures r.isValid <==> r.error == Unknown
    ensures r.isValid <==> var n := RemoveWhitespace(t, cardNumber);
      MinLength <= |n| <= MaxLength && AllDigits(t, n) && ParityLuhn(n)
  {
    var n := RemoveWhitespace(t, cardNumber);
    if |n| < MinLength || |n| > MaxLength then LuhnValidationResult(false, UnexpectedLength)
    else if !AllDigits(t, n) then LuhnValidationResult(false, MalformedNumber)
    else if !ParityLuhn(n) then LuhnValidationResult(false, InvalidCardNumber)
    else LuhnValidationResult(true, Unknown)
  }

  // ---------------------------------------------------------------------------
  // The parity loop is the standard right-to-left Luhn check

  /**
   * The first n steps of the loop sum the prefix of length n the right-to-left way,
   * its last position doubled exactly when (n + 1) % 2 == parity.
   */
  lemma {:induction false} ParitySumIsLuhnSum(s: string, parity: int, n: nat)
    requires parity == 0 || parity == 1
    requires n <= |s| && AllAsciiDigits(s)
    ensures IsDecimalDigits(Digits(s)[..n])
    ensures ParitySum(s, parity, n) == LuhnSum(Digits(s)[..n], (n + 1) % 2 == parity)
  {
    if n > 0 {
      ParitySumIsLuhnSum(s, parity, n - 1);
      var ds := Digits(s)[..n];
      var doubled := (n + 1) % 2 == parity;
      assert IsDecimalDigits(ds);
      assert ds[..n - 1] == Digits(s)[..n - 1];
      NeighbourParities(n);
      LuhnSumLastStep(ds, doubled);
      assert ds[n - 1] == CharToInt(s[n - 1]);
    }
  }

  /** n - 1 and n + 1 have the same parity, and n the other one. */
  lemma NeighbourParities(n: int)
    ensures (n - 1) % 2 == (n + 1) % 2 != n % 2
  {
    assert n + 1 == (n - 1) + 2;
  }

  /** Peeling the rightmost digit off a right-to-left Luhn sum is one loop step. */
  lemma LuhnSumLastStep(ds: seq<int>, doubled: bool)
    requires IsDecimalDigits(ds) && |ds| > 0
    ensures LuhnSum(ds, doubled) == Contribution(ds[|ds| - 1], doubled) + LuhnSum(ds[..|ds| - 1], !doubled)
  {
    ContributionIsDigitSum(ds[|ds| - 1], doubled);
  }

  /**
   * For a string of ASCII digits of either length parity, the left-to-right loop
   * agrees with the right-to-left Luhn definition.
   */
  lemma ParityLuhnIsStandardLuhn(s: string)
    requires |s| >= 1 && AllAsciiDigits(s)
    ensures IsDecimalDigits(Digits(s))
    ensures ParityLuhn(s) == IsLuhnValid(Digits(s))
  {
    var n := |s|;
    ParitySumIsLuhnSum(s, n % 2, n - 1);
    ParitySumBounds(s, n % 2, n - 1);
    assert Digits(s)[..n - 1] == Digits(s)[..|Digits(s)| - 1];
  }

  /** On ASCII digits the loop's result is: the full left-to-right sum is a multiple of ten. */
  lemma ParityLuhnIffTotalIsMultipleOfTen(s: string)
    requires |s| >= 1 && AllAsciiDigits(s)
    ensures ParityLuhn(s) <==> ParitySum(s, |s| % 2, |s|) % 10 == 0
  {
    ParityLuhnIsStandardLuhn(s);
    ParitySumIsLuhnSum(s, |s| % 2, |s|);
    assert Digits(s)[..|s|] == Digits(s);
    LuhnValidIffTotalIsMultipleOfTen(Digits(s));
  }

  // ---------------------------------------------------------------------------
  // Single-digit errors are detected

  /** Replacing the character at j changes the running sum by the difference of the two contributions. */
  lemma {:induction false} ParitySumUpdate(s: string, parity: int, n: nat, j: nat, c: char)
    requires n <= |s| && j < |s|
    ensures ParitySum(s[j := c], parity, n) == ParitySum(s, parity, n) +
      (if j < n then Contribution(CharToInt(c), j % 2 == parity) - Contribution(CharToInt(s[j]), j % 2 == parity) else 0)
  {
    if n > 0 {
      ParitySumUpdate(s, parity, n - 1, j, c);
    }
  }

  /** Adding a non-zero amount smaller than ten to a multiple of ten leaves a non-multiple. */
  lemma MultipleOfTenPlusSmall(total: int, delta: int)
    requires total % 10 == 0 && delta != 0 && -10 < delta < 10
    ensures (total + delta) % 10 != 0
  {
    assert total == 10 * (total / 10);
  }

  /** Distinct digits contribute distinct amounts, doubled or not. */
  lemma ContributionInjective(a: int, b: int, doubled: bool)
    requires 0 <= a <= 9 && 0 <= b <= 9 && a != b
    ensures Contribution(a, doubled) != Contribution(b, doubled)
  {
  }

  /**
   * Changing exactly one digit of a Luhn-valid ASCII digit string to another
   * digit makes the checksum fail.
   */
  lemma SingleDigitChangeDetected(s: string, j: nat, c: char)
    requires |s| >= 1 && AllAsciiDigits(s) && ParityLuhn(s)
    requires j < |s| && IsAsciiDigit(c) && c != s[j]
    ensures !ParityLuhn(s[j := c])
  {
    var s' := s[j := c];
    var p := |s| % 2;
    assert AllAsciiDigits(s');
    ParityLuhnIffTotalIsMultipleOfTen(s);
    ParityLuhnIffTotalIsMultipleOfTen(s');
    ParitySumUpdate(s, p, |s|, j, c);
    var now, was := Contribution(CharToInt(c), j % 2 == p), Contribution(CharToInt(s[j]), j % 2 == p);
    ContributionInjective(CharToInt(c), CharToInt(s[j]), j % 2 == p);
    var total := ParitySum(s, p, |s|);
    assert ParitySum(s', p, |s|) == total + (now - was);
    assert total % 10 == 0 && now != was && -10 < now - was < 10;
    MultipleOfTenPlusSmall(total, now - was);
  }

  // ---------------------------------------------------------------------------
  // The pipeline

  /**
   * A stripped length outside [13, 19] gives UnexpectedLength whatever the characters
   * are; so does any input shorter than 13 characters, the empty string included.
   */
  lemma LengthIsCheckedFirst(t: CharTable, cardNumber: string)
    requires var n := RemoveWhitespace(t, cardNumber); |n| < MinLength || |n| > MaxLength
    ensures ValidateCreditCardLuhn(t, cardNumber) == LuhnValidationResult(false, UnexpectedLength)
  {
  }

  /** An input shorter than 13 characters has an unexpected length, whatever it holds. */
  lemma ShortInputIsUnexpectedLength(t: CharTable, cardNumber: string)
    requires |cardNumber| < MinLength
    ensures ValidateCreditCardLuhn(t, cardNumber) == LuhnValidationResult(false, UnexpectedLength)
  {
  }

  /**
   * With the stripped length in range, a character of the input that is neither
   * whitespace nor a digit makes the number malformed.
   */
  lemma NonDigitIsMalformed(t: CharTable, cardNumber: string, i: nat)
    requires var n := RemoveWhitespace(t, cardNumber); MinLength <= |n| <= MaxLength
    requires i < |cardNumber| && !t.isWhiteSpace(cardNumber[i]) && !t.isDigit(cardNumber[i])
    ensures ValidateCreditCardLuhn(t, cardNumber) == LuhnValidationResult(false, MalformedNumber)
  {
    var n := RemoveWhitespace(t, cardNumber);
    assert cardNumber[i] in cardNumber;
    assert cardNumber[i] in n;
  }

  /** An input made only of whitespace and digits is never reported as malformed. */
  lemma DigitsAndWhitespaceAreNeverMalformed(t: CharTable, cardNumber: string)
    requires forall i :: 0 <= i < |cardNumber| ==> t.isWhiteSpace(cardNumber[i]) || t.isDigit(cardNumber[i])
    ensures ValidateCreditCardLuhn(t, cardNumber).error != MalformedNumber
  {
    var n := RemoveWhitespace(t, cardNumber);
    forall k | 0 <= k < |n|
      ensures t.isDigit(n[k])
    {
      assert n[k] in n;
      var i :| 0 <= i < |cardNumber| && cardNumber[i] == n[k];
    }
  }

  /**
   * For any character table: once the stripped length is in range and every
   * character passes the digit check, non-ASCII digits included, the checksum
   * loop alone decides between success and InvalidCardNumber.
   */
  lemma DigitsOfAcceptedLengthAreDecidedByLoop(t: CharTable, cardNumber: string)
    requires var n := RemoveWhitespace(t, cardNumber);
      MinLength <= |n| <= MaxLength && AllDigits(t, n)
    ensures var n := RemoveWhitespace(t, cardNumber);
      ValidateCreditCardLuhn(t, cardNumber) ==
        if ParityLuhn(n) then LuhnValidationResult(true, Unknown)
        else LuhnValidationResult(false, InvalidCardNumber)
  {
  }

  /**
   * For a stripped number of ASCII digits of valid length, the outcome is decided
   * by the standard Luhn check alone: valid with Unknown, or InvalidCardNumber.
   */
  lemma ChecksumDecides(t: CharTable, cardNumber: string)
    requires Sound(t)
    requires var n := RemoveWhitespace(t, cardNumber);
      MinLength <= |n| <= MaxLength && AllAsciiDigits(n)
    ensures var n := RemoveWhitespace(t, cardNumber);
      IsDecimalDigits(Digits(n)) &&
      ValidateCreditCardLuhn(t, cardNumber) ==
        if IsLuhnValid(Digits(n)) then LuhnValidationResult(true, Unknown)
        else LuhnValidationResult(false, InvalidCardNumber)
  {
    var n := RemoveWhitespace(t, cardNumber);
    AsciiDigitsAreDigits(t, n);
    ParityLuhnIsStandardLuhn(n);
  }

  /** Whitespace anywhere in the input never changes the outcome. */
  lemma WhitespaceDoesNotMatter(t: CharTable, cardNumber: string)
    ensures ValidateCreditCardLuhn(t, cardNumber) == ValidateCreditCardLuhn(t, RemoveWhitespace(t, cardNumber))
  {
    RemoveWhitespaceIdempotent(t, cardNumber);
  }

  /**
   * A valid card number of ASCII digits with one digit changed to another digit
   * is rejected as InvalidCardNumber.
   */
  lemma SingleDigitChangeIsInvalidCardNumber(t: CharTable, cardNumber: string, j: nat, c: char)
    requires Sound(t) && AllAsciiDigits(cardNumber)
    requires ValidateCreditCardLuhn(t, cardNumber).isValid
    requires j < |cardNumber| && IsAsciiDigit(c) && c != cardNumber[j]
    ensures ValidateCreditCardLuhn(t, cardNumber[j := c]) == LuhnValidationResult(false, InvalidCardNumber)
  {
    var changed := cardNumber[j := c];
    assert AllAsciiDigits(changed);
    AsciiDigitsAreDigits(t, cardNumber);
    AsciiDigitsAreDigits(t, changed);
    RemoveWhitespaceOfCleanIsIdentity(t, cardNumber);
    RemoveWhitespaceOfCleanIsIdentity(t, changed);
    SingleDigitChangeDetected(cardNumber, j, c);
  }
}
