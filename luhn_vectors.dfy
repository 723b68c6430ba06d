/**
 * The fixed inputs of the service's unit tests, each proved to give the expected
 * result under any character table that agrees with .NET's.
 */
module LuhnVectors {
  import opened CharClasses
  import opened StringExtensions
  import opened LuhnValidationService

  /** A whitespace-free string of ASCII digits of accepted length is decided by the checksum loop alone. */
  lemma CleanDigitsAreDecidedByChecksum(t: CharTable, s: string)
    requires Sound(t) && AllAsciiDigits(s) && MinLength <= |s| <= MaxLength
    ensures ValidateCreditCardLuhn(t, s) ==
      if ParityLuhn(s) then LuhnValidationResult(true, Unknown)
      else LuhnValidationResult(false, InvalidCardNumber)
  {
    AsciiDigitsAreDigits(t, s);
    RemoveWhitespaceOfCleanIsIdentity(t, s);
  }

  /** Under a sound table, printable ASCII other than the space is never whitespace, so it survives stripping. */
  lemma PrintableAsciiIsKept(t: CharTable, s: string)
    requires Sound(t)
    requires forall k :: 0 <= k < |s| ==> '!' <= s[k] <= '~'
    ensures RemoveWhitespace(t, s) == s
  {
    forall k | 0 <= k < |s|
      ensures !t.isWhiteSpace(s[k])
    {
      assert s[k] as int < 0x100;
    }
    RemoveWhitespaceOfCleanIsIdentity(t, s);
  }

  /** A printable input of accepted length with a non-digit at `i` is reported malformed. */
  lemma PrintableWithNonDigitIsMalformed(t: CharTable, cardNumber: string, i: nat)
    requires Sound(t)
    requires forall k :: 0 <= k < |cardNumber| ==> '!' <= cardNumber[k] <= '~'
    requires MinLength <= |cardNumber| <= MaxLength
    requires i < |cardNumber| && !IsAsciiDigit(cardNumber[i])
    ensures ValidateCreditCardLuhn(t, cardNumber) == LuhnValidationResult(false, MalformedNumber)
  {
    PrintableAsciiIsKept(t, cardNumber);
    assert cardNumber[i] as int < 0x100;
    NonDigitIsMalformed(t, cardNumber, i);
  }

  /** Test inputs of accepted length holding a letter or a symbol are malformed. */
  lemma MalformedVectors(t: CharTable, cardNumber: string)
    requires Sound(t)
    requires cardNumber in ["asd12asdas223456", "1234567890123asd", "asd78901d2345678", "123456789=01256789"]
    ensures ValidateCreditCardLuhn(t, cardNumber) == LuhnValidationResult(false, MalformedNumber)
  {
    if cardNumber == "asd12asdas223456" {
      PrintableWithNonDigitIsMalformed(t, cardNumber, 0);
    } else if cardNumber == "1234567890123asd" {
      PrintableWithNonDigitIsMalformed(t, cardNumber, 13);
    } else if cardNumber == "asd78901d2345678" {
      PrintableWithNonDigitIsMalformed(t, cardNumber, 0);
    } else {
      assert cardNumber == "123456789=01256789";
      PrintableWithNonDigitIsMalformed(t, cardNumber, 9);
    }
  }

  /** Test inputs that are empty, too short or too long are rejected for their length. */
  lemma UnexpectedLengthVectors(t: CharTable, cardNumber: string)
    requires Sound(t)
    requires cardNumber in ["", "123456789", "12345678901234567890"]
    ensures ValidateCreditCardLuhn(t, cardNumber) == LuhnValidationResult(false, UnexpectedLength)
  {
    if cardNumber == "12345678901234567890" {
      AsciiDigitsAreDigits(t, cardNumber);
      RemoveWhitespaceOfCleanIsIdentity(t, cardNumber);
    }
  }


  /** The numbers of the unit tests whose check digit is right are accepted. */
  lemma ValidChecksumVectors(t: CharTable, cardNumber: string)
    requires Sound(t)
    requires cardNumber in [
      "5328017940476466",
      "4929174520522064",
      "6011939908785655",
      "349514561709734",
      "3088689936484764",
      "5340328330477582",
      "4916303389920714",
      "370040022538449"
    ]
    ensures ValidateCreditCardLuhn(t, cardNumber) == LuhnValidationResult(true, Unknown)
  {
    if cardNumber == "5328017940476466" {
      Checksum5328017940476466(cardNumber);
    } else if cardNumber == "4929174520522064" {
      Checksum4929174520522064(cardNumber);
    } else if cardNumber == "6011939908785655" {
      Checksum6011939908785655(cardNumber);
    } else if cardNumber == "349514561709734" {
      Checksum349514561709734(cardNumber);
    } else if cardNumber == "3088689936484764" {
      Checksum3088689936484764(cardNumber);
    } else if cardNumber == "5340328330477582" {
      Checksum5340328330477582(cardNumber);
    } else if cardNumber == "4916303389920714" {
      Checksum4916303389920714(cardNumber);
    } else {
      Checksum370040022538449(cardNumber);
    }
    CleanDigitsAreDecidedByChecksum(t, cardNumber);
  }

  /** The same numbers with one digit changed are rejected as InvalidCardNumber. */
  lemma InvalidChecksumVectors(t: CharTable, cardNumber: string)
    requires Sound(t)
    requires cardNumber in [
      "2234567890123456",
      "5328117940476466",
      "4929174530522064",
      "6011939918785655",
      "349515561709734",
      "3088689936494764",
      "5340328330477592",
      "4916303389920715",
      "370040122538449"
    ]
    ensures ValidateCreditCardLuhn(t, cardNumber) == LuhnValidationResult(false, InvalidCardNumber)
  {
    if cardNumber == "2234567890123456" {
      Checksum2234567890123456(cardNumber);
    } else if cardNumber == "5328117940476466" {
      Checksum5328117940476466(cardNumber);
    } else if cardNumber == "4929174530522064" {
      Checksum4929174530522064(cardNumber);
    } else if cardNumber == "6011939918785655" {
      Checksum6011939918785655(cardNumber);
    } else if cardNumber == "349515561709734" {
      Checksum349515561709734(cardNumber);
    } else if cardNumber == "3088689936494764" {
      Checksum3088689936494764(cardNumber);
    } else if cardNumber == "5340328330477592" {
      Checksum5340328330477592(cardNumber);
    } else if cardNumber == "4916303389920715" {
      Checksum4916303389920715(cardNumber);
    } else {
      Checksum370040122538449(cardNumber);
    }
    CleanDigitsAreDecidedByChecksum(t, cardNumber);
  }

  // The loop sum of each test number, worked out one position at a time. For a
  // number of length L, parity is L % 2, and `ParitySum(cardNumber, parity, k)` is
  // the running sum after the first k characters: position i adds its digit d when
  // i % 2 != parity, and otherwise 2d, or 2d - 9 when d > 4. After L - 1 positions
  // the sum s is final. The number is valid when its last digit equals
  // TruncRem(10 - TruncRem(s, 10), 10). For 5328017940476466 below, s = 64, and
  // (10 - 4) % 10 = 6 matches the last digit 6.

  lemma Checksum5328017940476466(cardNumber: string)
    requires cardNumber == "5328017940476466"
    ensures AllAsciiDigits(cardNumber) && |cardNumber| == 16 && ParityLuhn(cardNumber)
  {
    assert ParitySum(cardNumber, 0, 15) == 64 by {
      assert ParitySum(cardNumber, 0, 1) == 1;
      assert ParitySum(cardNumber, 0, 2) == 4;
      assert ParitySum(cardNumber, 0, 3) == 8;
      assert ParitySum(cardNumber, 0, 4) == 16;
      assert ParitySum(cardNumber, 0, 5) == 16;
      assert ParitySum(cardNumber, 0, 6) == 17;
      assert ParitySum(cardNumber, 0, 7) == 22;
      assert ParitySum(cardNumber, 0, 8) == 31;
      assert ParitySum(cardNumber, 0, 9) == 39;
      assert ParitySum(cardNumber, 0, 10) == 39;
      assert ParitySum(cardNumber, 0, 11) == 47;
      assert ParitySum(cardNumber, 0, 12) == 54;
      assert ParitySum(cardNumber, 0, 13) == 57;
      assert ParitySum(cardNumber, 0, 14) == 61;
    }
    assert CharToInt(cardNumber[15]) == 6;
    assert TruncRem(64, 10) == 4;
    assert TruncRem(6, 10) == 6;
  }

  lemma Checksum4929174520522064(cardNumber: string)
    requires cardNumber == "4929174520522064"
    ensures AllAsciiDigits(cardNumber) && |cardNumber| == 16 && ParityLuhn(cardNumber)
  {
    assert ParitySum(cardNumber, 0, 15) == 66 by {
      assert ParitySum(cardNumber, 0, 1) == 8;
      assert ParitySum(cardNumber, 0, 2) == 17;
      assert ParitySum(cardNumber, 0, 3) == 21;
      assert ParitySum(cardNumber, 0, 4) == 30;
      assert ParitySum(cardNumber, 0, 5) == 32;
      assert ParitySum(cardNumber, 0, 6) == 39;
      assert ParitySum(cardNumber, 0, 7) == 47;
      assert ParitySum(cardNumber, 0, 8) == 52;
      assert ParitySum(cardNumber, 0, 9) == 56;
      assert ParitySum(cardNumber, 0, 10) == 56;
      assert ParitySum(cardNumber, 0, 11) == 57;
      assert ParitySum(cardNumber, 0, 12) == 59;
      assert ParitySum(cardNumber, 0, 13) == 63;
      assert ParitySum(cardNumber, 0, 14) == 63;
    }
    assert CharToInt(cardNumber[15]) == 4;
    assert TruncRem(66, 10) == 6;
    assert TruncRem(4, 10) == 4;
  }

  lemma Checksum6011939908785655(cardNumber: string)
    requires cardNumber == "6011939908785655"
    ensures AllAsciiDigits(cardNumber) && |cardNumber| == 16 && ParityLuhn(cardNumber)
  {
    assert ParitySum(cardNumber, 0, 15) == 65 by {
      assert ParitySum(cardNumber, 0, 1) == 3;
      assert ParitySum(cardNumber, 0, 2) == 3;
      assert ParitySum(cardNumber, 0, 3) == 5;
      assert ParitySum(cardNumber, 0, 4) == 6;
      assert ParitySum(cardNumber, 0, 5) == 15;
      assert ParitySum(cardNumber, 0, 6) == 18;
      assert ParitySum(cardNumber, 0, 7) == 27;
      assert ParitySum(cardNumber, 0, 8) == 36;
      assert ParitySum(cardNumber, 0, 9) == 36;
      assert ParitySum(cardNumber, 0, 10) == 44;
      assert ParitySum(cardNumber, 0, 11) == 49;
      assert ParitySum(cardNumber, 0, 12) == 57;
      assert ParitySum(cardNumber, 0, 13) == 58;
      assert ParitySum(cardNumber, 0, 14) == 64;
    }
    assert CharToInt(cardNumber[15]) == 5;
    assert TruncRem(65, 10) == 5;
    assert TruncRem(5, 10) == 5;
  }

  lemma Checksum349514561709734(cardNumber: string)
    requires cardNumber == "349514561709734"
    ensures AllAsciiDigits(cardNumber) && |cardNumber| == 15 && ParityLuhn(cardNumber)
  {
    assert ParitySum(cardNumber, 1, 14) == 66 by {
      assert ParitySum(cardNumber, 1, 1) == 3;
      assert ParitySum(cardNumber, 1, 2) == 11;
      assert ParitySum(cardNumber, 1, 3) == 20;
      assert ParitySum(cardNumber, 1, 4) == 21;
      assert ParitySum(cardNumber, 1, 5) == 22;
      assert ParitySum(cardNumber, 1, 6) == 30;
      assert ParitySum(cardNumber, 1, 7) == 35;
      assert ParitySum(cardNumber, 1, 8) == 38;
      assert ParitySum(cardNumber, 1, 9) == 39;
      assert ParitySum(cardNumber, 1, 10) == 44;
      assert ParitySum(cardNumber, 1, 11) == 44;
      assert ParitySum(cardNumber, 1, 12) == 53;
      assert ParitySum(cardNumber, 1, 13) == 60;
    }
    assert CharToInt(cardNumber[14]) == 4;
    assert TruncRem(66, 10) == 6;
    assert TruncRem(4, 10) == 4;
  }

  lemma Checksum3088689936484764(cardNumber: string)
    requires cardNumber == "3088689936484764"
    ensures AllAsciiDigits(cardNumber) && |cardNumber| == 16 && ParityLuhn(cardNumber)
  {
    assert ParitySum(cardNumber, 0, 15) == 96 by {
      assert ParitySum(cardNumber, 0, 1) == 6;
      assert ParitySum(cardNumber, 0, 2) == 6;
      assert ParitySum(cardNumber, 0, 3) == 13;
      assert ParitySum(cardNumber, 0, 4) == 21;
      assert ParitySum(cardNumber, 0, 5) == 24;
      assert ParitySum(cardNumber, 0, 6) == 32;
      assert ParitySum(cardNumber, 0, 7) == 41;
      assert ParitySum(cardNumber, 0, 8) == 50;
      assert ParitySum(cardNumber, 0, 9) == 56;
      assert ParitySum(cardNumber, 0, 10) == 62;
      assert ParitySum(cardNumber, 0, 11) == 70;
      assert ParitySum(cardNumber, 0, 12) == 78;
      assert ParitySum(cardNumber, 0, 13) == 86;
      assert ParitySum(cardNumber, 0, 14) == 93;
    }
    assert CharToInt(cardNumber[15]) == 4;
    assert TruncRem(96, 10) == 6;
    assert TruncRem(4, 10) == 4;
  }

  lemma Checksum5340328330477582(cardNumber: string)
    requires cardNumber == "5340328330477582"
    ensures AllAsciiDigits(cardNumber) && |cardNumber| == 16 && ParityLuhn(cardNumber)
  {
    assert ParitySum(cardNumber, 0, 15) == 68 by {
      assert ParitySum(cardNumber, 0, 1) == 1;
      assert ParitySum(cardNumber, 0, 2) == 4;
      assert ParitySum(cardNumber, 0, 3) == 12;
      assert ParitySum(cardNumber, 0, 4) == 12;
      assert ParitySum(cardNumber, 0, 5) == 18;
      assert ParitySum(cardNumber, 0, 6) == 20;
      assert ParitySum(cardNumber, 0, 7) == 27;
      assert ParitySum(cardNumber, 0, 8) == 30;
      assert ParitySum(cardNumber, 0, 9) == 36;
      assert ParitySum(cardNumber, 0, 10) == 36;
      assert ParitySum(cardNumber, 0, 11) == 44;
      assert ParitySum(cardNumber, 0, 12) == 51;
      assert ParitySum(cardNumber, 0, 13) == 56;
      assert ParitySum(cardNumber, 0, 14) == 61;
    }
    assert CharToInt(cardNumber[15]) == 2;
    assert TruncRem(68, 10) == 8;
    assert TruncRem(2, 10) == 2;
  }

  lemma Checksum4916303389920714(cardNumber: string)
    requires cardNumber == "4916303389920714"
    ensures AllAsciiDigits(cardNumber) && |cardNumber| == 16 && ParityLuhn(cardNumber)
  {
    assert ParitySum(cardNumber, 0, 15) == 76 by {
      assert ParitySum(cardNumber, 0, 1) == 8;
      assert ParitySum(cardNumber, 0, 2) == 17;
      assert ParitySum(cardNumber, 0, 3) == 19;
      assert ParitySum(cardNumber, 0, 4) == 25;
      assert ParitySum(cardNumber, 0, 5) == 31;
      assert ParitySum(cardNumber, 0, 6) == 31;
      assert ParitySum(cardNumber, 0, 7) == 37;
      assert ParitySum(cardNumber, 0, 8) == 40;
      assert ParitySum(cardNumber, 0, 9) == 47;
      assert ParitySum(cardNumber, 0, 10) == 56;
      assert ParitySum(cardNumber, 0, 11) == 65;
      assert ParitySum(cardNumber, 0, 12) == 67;
      assert ParitySum(cardNumber, 0, 13) == 67;
      assert ParitySum(cardNumber, 0, 14) == 74;
    }
    assert CharToInt(cardNumber[15]) == 4;
    assert TruncRem(76, 10) == 6;
    assert TruncRem(4, 10) == 4;
  }

  lemma Checksum370040022538449(cardNumber: string)
    requires cardNumber == "370040022538449"
    ensures AllAsciiDigits(cardNumber) && |cardNumber| == 15 && ParityLuhn(cardNumber)
  {
    assert ParitySum(cardNumber, 1, 14) == 41 by {
      assert ParitySum(cardNumber, 1, 1) == 3;
      assert ParitySum(cardNumber, 1, 2) == 8;
      assert ParitySum(cardNumber, 1, 3) == 8;
      assert ParitySum(cardNumber, 1, 4) == 8;
      assert ParitySum(cardNumber, 1, 5) == 12;
      assert ParitySum(cardNumber, 1, 6) == 12;
      assert ParitySum(cardNumber, 1, 7) == 12;
      assert ParitySum(cardNumber, 1, 8) == 16;
      assert ParitySum(cardNumber, 1, 9) == 18;
      assert ParitySum(cardNumber, 1, 10) == 19;
      assert ParitySum(cardNumber, 1, 11) == 22;
      assert ParitySum(cardNumber, 1, 12) == 29;
      assert ParitySum(cardNumber, 1, 13) == 33;
    }
    assert CharToInt(cardNumber[14]) == 9;
    assert TruncRem(41, 10) == 1;
    assert TruncRem(9, 10) == 9;
  }

  lemma Checksum2234567890123456(cardNumber: string)
    requires cardNumber == "2234567890123456"
    ensures AllAsciiDigits(cardNumber) && |cardNumber| == 16 && !ParityLuhn(cardNumber)
  {
    assert ParitySum(cardNumber, 0, 15) == 60 by {
      assert ParitySum(cardNumber, 0, 1) == 4;
      assert ParitySum(cardNumber, 0, 2) == 6;
      assert ParitySum(cardNumber, 0, 3) == 12;
      assert ParitySum(cardNumber, 0, 4) == 16;
      assert ParitySum(cardNumber, 0, 5) == 17;
      assert ParitySum(cardNumber, 0, 6) == 23;
      assert ParitySum(cardNumber, 0, 7) == 28;
      assert ParitySum(cardNumber, 0, 8) == 36;
      assert ParitySum(cardNumber, 0, 9) == 45;
      assert ParitySum(cardNumber, 0, 10) == 45;
      assert ParitySum(cardNumber, 0, 11) == 47;
      assert ParitySum(cardNumber, 0, 12) == 49;
      assert ParitySum(cardNumber, 0, 13) == 55;
      assert ParitySum(cardNumber, 0, 14) == 59;
    }
    assert CharToInt(cardNumber[15]) == 6;
    assert TruncRem(60, 10) == 0;
    assert TruncRem(10, 10) == 0;
  }

  lemma Checksum5328117940476466(cardNumber: string)
    requires cardNumber == "5328117940476466"
    ensures AllAsciiDigits(cardNumber) && |cardNumber| == 16 && !ParityLuhn(cardNumber)
  {
    assert ParitySum(cardNumber, 0, 15) == 66 by {
      assert ParitySum(cardNumber, 0, 1) == 1;
      assert ParitySum(cardNumber, 0, 2) == 4;
      assert ParitySum(cardNumber, 0, 3) == 8;
      assert ParitySum(cardNumber, 0, 4) == 16;
      assert ParitySum(cardNumber, 0, 5) == 18;
      assert ParitySum(cardNumber, 0, 6) == 19;
      assert ParitySum(cardNumber, 0, 7) == 24;
      assert ParitySum(cardNumber, 0, 8) == 33;
      assert ParitySum(cardNumber, 0, 9) == 41;
      assert ParitySum(cardNumber, 0, 10) == 41;
      assert ParitySum(cardNumber, 0, 11) == 49;
      assert ParitySum(cardNumber, 0, 12) == 56;
      assert ParitySum(cardNumber, 0, 13) == 59;
      assert ParitySum(cardNumber, 0, 14) == 63;
    }
    assert CharToInt(cardNumber[15]) == 6;
    assert TruncRem(66, 10) == 6;
    assert TruncRem(4, 10) == 4;
  }

  lemma Checksum4929174530522064(cardNumber: string)
    requires cardNumber == "4929174530522064"
    ensures AllAsciiDigits(cardNumber) && |cardNumber| == 16 && !ParityLuhn(cardNumber)
  {
    assert ParitySum(cardNumber, 0, 15) == 68 by {
      assert ParitySum(cardNumber, 0, 1) == 8;
      assert ParitySum(cardNumber, 0, 2) == 17;
      assert ParitySum(cardNumber, 0, 3) == 21;
      assert ParitySum(cardNumber, 0, 4) == 30;
      assert ParitySum(cardNumber, 0, 5) == 32;
      assert ParitySum(cardNumber, 0, 6) == 39;
      assert ParitySum(cardNumber, 0, 7) == 47;
      assert ParitySum(cardNumber, 0, 8) == 52;
      assert ParitySum(cardNumber, 0, 9) == 58;
      assert ParitySum(cardNumber, 0, 10) == 58;
      assert ParitySum(cardNumber, 0, 11) == 59;
      assert ParitySum(cardNumber, 0, 12) == 61;
      assert ParitySum(cardNumber, 0, 13) == 65;
      assert ParitySum(cardNumber, 0, 14) == 65;
    }
    assert CharToInt(cardNumber[15]) == 4;
    assert TruncRem(68, 10) == 8;
    assert TruncRem(2, 10) == 2;
  }

  lemma Checksum6011939918785655(cardNumber: string)
    requires cardNumber == "6011939918785655"
    ensures AllAsciiDigits(cardNumber) && |cardNumber| == 16 && !ParityLuhn(cardNumber)
  {
    assert ParitySum(cardNumber, 0, 15) == 67 by {
      assert ParitySum(cardNumber, 0, 1) == 3;
      assert ParitySum(cardNumber, 0, 2) == 3;
      assert ParitySum(cardNumber, 0, 3) == 5;
      assert ParitySum(cardNumber, 0, 4) == 6;
      assert ParitySum(cardNumber, 0, 5) == 15;
      assert ParitySum(cardNumber, 0, 6) == 18;
      assert ParitySum(cardNumber, 0, 7) == 27;
      assert ParitySum(cardNumber, 0, 8) == 36;
      assert ParitySum(cardNumber, 0, 9) == 38;
      assert ParitySum(cardNumber, 0, 10) == 46;
      assert ParitySum(cardNumber, 0, 11) == 51;
      assert ParitySum(cardNumber, 0, 12) == 59;
      assert ParitySum(cardNumber, 0, 13) == 60;
      assert ParitySum(cardNumber, 0, 14) == 66;
    }
    assert CharToInt(cardNumber[15]) == 5;
    assert TruncRem(67, 10) == 7;
    assert TruncRem(3, 10) == 3;
  }

  lemma Checksum349515561709734(cardNumber: string)
    requires cardNumber == "349515561709734"
    ensures AllAsciiDigits(cardNumber) && |cardNumber| == 15 && !ParityLuhn(cardNumber)
  {
    assert ParitySum(cardNumber, 1, 14) == 59 by {
      assert ParitySum(cardNumber, 1, 1) == 3;
      assert ParitySum(cardNumber, 1, 2) == 11;
      assert ParitySum(cardNumber, 1, 3) == 20;
      assert ParitySum(cardNumber, 1, 4) == 21;
      assert ParitySum(cardNumber, 1, 5) == 22;
      assert ParitySum(cardNumber, 1, 6) == 23;
      assert ParitySum(cardNumber, 1, 7) == 28;
      assert ParitySum(cardNumber, 1, 8) == 31;
      assert ParitySum(cardNumber, 1, 9) == 32;
      assert ParitySum(cardNumber, 1, 10) == 37;
      assert ParitySum(cardNumber, 1, 11) == 37;
      assert ParitySum(cardNumber, 1, 12) == 46;
      assert ParitySum(cardNumber, 1, 13) == 53;
    }
    assert CharToInt(cardNumber[14]) == 4;
    assert TruncRem(59, 10) == 9;
    assert TruncRem(1, 10) == 1;
  }

  lemma Checksum3088689936494764(cardNumber: string)
    requires cardNumber == "3088689936494764"
    ensures AllAsciiDigits(cardNumber) && |cardNumber| == 16 && !ParityLuhn(cardNumber)
  {
    assert ParitySum(cardNumber, 0, 15) == 97 by {
      assert ParitySum(cardNumber, 0, 1) == 6;
      assert ParitySum(cardNumber, 0, 2) == 6;
      assert ParitySum(cardNumber, 0, 3) == 13;
      assert ParitySum(cardNumber, 0, 4) == 21;
      assert ParitySum(cardNumber, 0, 5) == 24;
      assert ParitySum(cardNumber, 0, 6) == 32;
      assert ParitySum(cardNumber, 0, 7) == 41;
      assert ParitySum(cardNumber, 0, 8) == 50;
      assert ParitySum(cardNumber, 0, 9) == 56;
      assert ParitySum(cardNumber, 0, 10) == 62;
      assert ParitySum(cardNumber, 0, 11) == 70;
      assert ParitySum(cardNumber, 0, 12) == 79;
      assert ParitySum(cardNumber, 0, 13) == 87;
      assert ParitySum(cardNumber, 0, 14) == 94;
    }
    assert CharToInt(cardNumber[15]) == 4;
    assert TruncRem(97, 10) == 7;
    assert TruncRem(3, 10) == 3;
  }

  lemma Checksum5340328330477592(cardNumber: string)
    requires cardNumber == "5340328330477592"
    ensures AllAsciiDigits(cardNumber) && |cardNumber| == 16 && !ParityLuhn(cardNumber)
  {
    assert ParitySum(cardNumber, 0, 15) == 70 by {
      assert ParitySum(cardNumber, 0, 1) == 1;
      assert ParitySum(cardNumber, 0, 2) == 4;
      assert ParitySum(cardNumber, 0, 3) == 12;
      assert ParitySum(cardNumber, 0, 4) == 12;
      assert ParitySum(cardNumber, 0, 5) == 18;
      assert ParitySum(cardNumber, 0, 6) == 20;
      assert ParitySum(cardNumber, 0, 7) == 27;
      assert ParitySum(cardNumber, 0, 8) == 30;
      assert ParitySum(cardNumber, 0, 9) == 36;
      assert ParitySum(cardNumber, 0, 10) == 36;
      assert ParitySum(cardNumber, 0, 11) == 44;
      assert ParitySum(cardNumber, 0, 12) == 51;
      assert ParitySum(cardNumber, 0, 13) == 56;
      assert ParitySum(cardNumber, 0, 14) == 61;
    }
    assert CharToInt(cardNumber[15]) == 2;
    assert TruncRem(70, 10) == 0;
    assert TruncRem(10, 10) == 0;
  }

  lemma Checksum4916303389920715(cardNumber: string)
    requires cardNumber == "4916303389920715"
    ensures AllAsciiDigits(cardNumber) && |cardNumber| == 16 && !ParityLuhn(cardNumber)
  {
    assert ParitySum(cardNumber, 0, 15) == 76 by {
      assert ParitySum(cardNumber, 0, 1) == 8;
      assert ParitySum(cardNumber, 0, 2) == 17;
      assert ParitySum(cardNumber, 0, 3) == 19;
      assert ParitySum(cardNumber, 0, 4) == 25;
      assert ParitySum(cardNumber, 0, 5) == 31;
      assert ParitySum(cardNumber, 0, 6) == 31;
      assert ParitySum(cardNumber, 0, 7) == 37;
      assert ParitySum(cardNumber, 0, 8) == 40;
      assert ParitySum(cardNumber, 0, 9) == 47;
      assert ParitySum(cardNumber, 0, 10) == 56;
      assert ParitySum(cardNumber, 0, 11) == 65;
      assert ParitySum(cardNumber, 0, 12) == 67;
      assert ParitySum(cardNumber, 0, 13) == 67;
      assert ParitySum(cardNumber, 0, 14) == 74;
    }
    assert CharToInt(cardNumber[15]) == 5;
    assert TruncRem(76, 10) == 6;
    assert TruncRem(4, 10) == 4;
  }

  lemma Checksum370040122538449(cardNumber: string)
    requires cardNumber == "370040122538449"
    ensures AllAsciiDigits(cardNumber) && |cardNumber| == 15 && !ParityLuhn(cardNumber)
  {
    assert ParitySum(cardNumber, 1, 14) == 42 by {
      assert ParitySum(cardNumber, 1, 1) == 3;
      assert ParitySum(cardNumber, 1, 2) == 8;
      assert ParitySum(cardNumber, 1, 3) == 8;
      assert ParitySum(cardNumber, 1, 4) == 8;
      assert ParitySum(cardNumber, 1, 5) == 12;
      assert ParitySum(cardNumber, 1, 6) == 12;
      assert ParitySum(cardNumber, 1, 7) == 13;
      assert ParitySum(cardNumber, 1, 8) == 17;
      assert ParitySum(cardNumber, 1, 9) == 19;
      assert ParitySum(cardNumber, 1, 10) == 20;
      assert ParitySum(cardNumber, 1, 11) == 23;
      assert ParitySum(cardNumber, 1, 12) == 30;
      assert ParitySum(cardNumber, 1, 13) == 34;
    }
    assert CharToInt(cardNumber[14]) == 9;
    assert TruncRem(42, 10) == 2;
    assert TruncRem(8, 10) == 8;
  }
}
