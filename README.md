# Luhn card-number validation, modelled in Dafny

This project models the card-number validator of the ZeilCodingExercise service.

`LuhnValidationService.ValidateCreditCardLuhn` takes a candidate card number and runs a short-circuiting pipeline:

1. It strips every whitespace character, using `StringExtensions.RemoveWhitespace`.
2. It rejects a stripped length outside 13..19 with `UnexpectedLength`.
3. It rejects any character that is not a digit with `MalformedNumber`.
4. It rejects a failed Luhn mod-10 checksum with `InvalidCardNumber`.
5. Otherwise it answers `(true, Unknown)`.

The checksum is `ValidateLuhn`. It walks the number from left to right, and `parity = Length % 2` decides which positions are doubled.

Files:

- `char_classes.dfy` — the two character classes the service depends on, `char.IsWhiteSpace` and `char.IsDigit`. They are a `CharTable` parameter, and `Sound` states the facts that .NET's tables satisfy:
  - on Latin-1, whitespace is exactly U+0009..U+000D, U+0020, U+0085 and U+00A0;
  - on Latin-1, the digits are exactly '0'..'9';
  - no digit is whitespace.

  `Latin1Table` is a concrete table that satisfies `Sound`.
- `string_extensions.dfy` — `RemoveWhitespace` as a recursive filter, with its properties.
- `luhn_reference.dfy` — the Luhn formula of ISO/IEC 7812-1, Annex B, stated the usual way: from the right, doubling every second digit starting next to the check digit. This is the independent definition that the loop is proved against.
- `luhn_validation_service.dfy` — the service itself:
  - the error enum and the result record;
  - `CharToInt`;
  - `ValidateLuhn`, a method with its loop;
  - `ParityLuhn`, the function that specifies the loop;
  - `ValidateCreditCardLuhn`, the pipeline;
  - the lemmas that relate them.
- `luhn_vectors.dfy` — every fixed input of the service's unit tests, proved to give the expected result under any sound character table.

The charset check calls `char.IsDigit`, which accepts every Unicode decimal digit (Arabic-Indic, Devanagari, …), not only '0'..'9'. The model keeps `IsDigit` as the table's digit class, so:

- a non-ASCII digit passes the charset check;
- `CharToInt` then gives it a value above 9, as `c - '0'` does in C#;
- the checksum is computed on that value.

The equivalence with the standard Luhn check is proved for ASCII digits, where it is meaningful.

## Model

| member | source | states |
|---|---|---|
| LuhnValidationService.ValidateCreditCardLuhn | ZeilCodingExercise/Services/LuhnValidationService.cs:19-35 | The result is valid exactly when its error is `Unknown`. It is valid exactly when the stripped number has length 13..19, holds only digits (for any character table) and passes the checksum loop. |
| LuhnValidationService.LengthIsCheckedFirst | ZeilCodingExercise/Services/LuhnValidationService.cs:20-24 | A stripped length outside 13..19 gives `(false, UnexpectedLength)`, whatever the characters are. The length check therefore takes precedence over the charset check. |
| LuhnValidationService.ShortInputIsUnexpectedLength | ZeilCodingExercise/Services/LuhnValidationService.cs:22-24 | Any input of fewer than 13 characters, the empty string included, gives `(false, UnexpectedLength)`. |
| LuhnValidationService.NonDigitIsMalformed | ZeilCodingExercise/Services/LuhnValidationService.cs:26-28 | When the stripped length is in range, one character that is neither whitespace nor a digit gives `(false, MalformedNumber)`. |
| LuhnValidationService.DigitsAndWhitespaceAreNeverMalformed | ZeilCodingExercise/Services/LuhnValidationService.cs:20-28 | An input made only of whitespace and digits is never reported as `MalformedNumber`. |
| LuhnValidationService.DigitsOfAcceptedLengthAreDecidedByLoop | ZeilCodingExercise/Services/LuhnValidationService.cs:30-34 | For any character table, non-ASCII digits included: if the stripped number has length 13..19 and passes the digit check, the outcome is `(true, Unknown)` when the checksum loop passes and `(false, InvalidCardNumber)` when it fails. |
| LuhnValidationService.ChecksumDecides | ZeilCodingExercise/Services/LuhnValidationService.cs:30-34 | If the stripped number has length 13..19 and holds only ASCII digits, the outcome is `(true, Unknown)` when the standard Luhn check passes and `(false, InvalidCardNumber)` when it fails. |
| LuhnValidationService.WhitespaceDoesNotMatter | ZeilCodingExercise/Services/LuhnValidationService.cs:20 | Validating an input gives the same result as validating the input with its whitespace removed. |
| LuhnValidationService.CharToInt | ZeilCodingExercise/Services/LuhnValidationService.cs:38 | The value is in 0..9 exactly when the character is an ASCII digit. |
| LuhnValidationService.TruncRem | ZeilCodingExercise/Services/LuhnValidationService.cs:53 | C#'s `%`: the remainder lies strictly between -b and b. It agrees with the mathematical remainder for a non-negative dividend and is never positive for a non-positive one. |
| LuhnValidationService.TruncRemIsOdd | ZeilCodingExercise/Services/LuhnValidationService.cs:53 | Negating the dividend negates C#'s remainder. This is where it differs from Euclidean `%`. |
| LuhnValidationService.Contribution | ZeilCodingExercise/Services/LuhnValidationService.cs:44-50 | One loop step adds 0..9 for a decimal digit, doubled or not. |
| LuhnValidationService.ContributionIsDigitSum | ZeilCodingExercise/Services/LuhnValidationService.cs:46-49 | The "2d - 9 above 4, else 2d" shortcut is the digit sum of the doubled digit. |
| LuhnValidationService.ParitySumBounds | ZeilCodingExercise/Services/LuhnValidationService.cs:40-51 | Over ASCII digits, the running sum after i steps lies in 0..9i. |
| LuhnValidationService.ValidateLuhn | ZeilCodingExercise/Services/LuhnValidationService.cs:39-54 | The loop's answer is `ParityLuhn` of the input. On ASCII digits, it is true exactly when the digits pass the standard right-to-left Luhn check. The loop keeps the running sum equal to the closed form and within 0..9i. |
| LuhnValidationService.ParitySumIsLuhnSum | ZeilCodingExercise/Services/LuhnValidationService.cs:41-51 | The first n steps of the left-to-right parity loop equal the right-to-left Luhn sum of the first n digits. That sum's last position is doubled exactly when (n + 1) % 2 equals the parity. |
| LuhnValidationService.ParityLuhnIsStandardLuhn | ZeilCodingExercise/Services/LuhnValidationService.cs:39-53 | For ASCII digit strings of either length parity, the left-to-right check equals ISO/IEC 7812-1 Luhn validity. |
| LuhnValidationService.ParityLuhnIffTotalIsMultipleOfTen | ZeilCodingExercise/Services/LuhnValidationService.cs:53 | On ASCII digits, the check passes exactly when the full weighted sum, check digit included, is a multiple of ten. |
| LuhnValidationService.ParitySumUpdate | ZeilCodingExercise/Services/LuhnValidationService.cs:42-51 | Replacing one character changes the running sum by exactly the difference of that position's two contributions, and only once the loop has passed that position. |
| LuhnValidationService.ContributionInjective | ZeilCodingExercise/Services/LuhnValidationService.cs:44-50 | Distinct digits contribute distinct amounts at the same position. |
| LuhnValidationService.SingleDigitChangeDetected | ZeilCodingExercise/Services/LuhnValidationService.cs:39-53 | Changing exactly one digit of a string that passes the check, to another digit, makes the check fail. |
| LuhnValidationService.SingleDigitChangeIsInvalidCardNumber | ZeilCodingExercise.Tests/Services/LuhnValidationServiceTests.cs:53-68 | A valid card number with one digit changed to another digit is rejected with `(false, InvalidCardNumber)`. |
| LuhnReference.DigitSum | ZeilCodingExercise/Services/LuhnValidationService.cs:46-49 | The digit sum is at most the number, and a single digit is its own digit sum. |
| LuhnReference.DoubledDigitSum | ZeilCodingExercise/Services/LuhnValidationService.cs:46-49 | The digit sum of 2d is 2d - 9 for d above 4, and 2d otherwise. |
| LuhnReference.LuhnSumBounds | ZeilCodingExercise/Services/LuhnValidationService.cs:40-51 | The right-to-left Luhn sum of n digits lies in 0..9n. |
| LuhnReference.CheckDigitCompletes | ZeilCodingExercise/Services/LuhnValidationService.cs:53 | Appending a payload's check digit always gives a Luhn-valid number. Among the digits 0..9, the check digit is the only one that does. |
| LuhnReference.LuhnValidIffTotalIsMultipleOfTen | ZeilCodingExercise/Services/LuhnValidationService.cs:53 | A digit string is Luhn-valid exactly when its full Luhn sum, check digit undoubled, is a multiple of ten. |
| LuhnReference.CompletesToMultipleOfTen | ZeilCodingExercise/Services/LuhnValidationService.cs:53 | A digit c equals `(10 - s % 10) % 10` exactly when s + c is a multiple of ten. |
| StringExtensions.RemoveWhitespace | ZeilCodingExercise/Extensions/StringExtensions.cs:4-5 | The output is no longer than the input and holds no whitespace. A character occurs in the output exactly when it occurs in the input and is not whitespace. |
| StringExtensions.RemoveWhitespaceKeepsOrder | ZeilCodingExercise/Extensions/StringExtensions.cs:5 | The output is spelled by a strictly increasing sequence of input positions. Those positions are exactly the non-whitespace ones, so the output is the order-preserving subsequence of non-whitespace characters. |
| StringExtensions.LengthKeptIffNoWhitespace | ZeilCodingExercise/Extensions/StringExtensions.cs:5 | The length is unchanged exactly when the input holds no whitespace. |
| StringExtensions.RemoveWhitespaceOfCleanIsIdentity | ZeilCodingExercise/Extensions/StringExtensions.cs:5 | A whitespace-free input comes back unchanged. |
| StringExtensions.RemoveWhitespaceIdempotent | ZeilCodingExercise/Extensions/StringExtensions.cs:5 | Stripping twice is the same as stripping once. |
| StringExtensions.RemoveWhitespaceDistributes | ZeilCodingExercise/Extensions/StringExtensions.cs:5 | Stripping distributes over concatenation. |
| CharClasses.AsciiDigitsAreDigits | ZeilCodingExercise/Services/LuhnValidationService.cs:26 | Under a sound table, a string of '0'..'9' contains no whitespace and passes the `char.IsDigit` check. |
| LuhnVectors.CleanDigitsAreDecidedByChecksum | ZeilCodingExercise/Services/LuhnValidationService.cs:19-35 | A whitespace-free ASCII digit string of length 13..19 is decided by the checksum loop alone. |
| LuhnVectors.MalformedVectors | ZeilCodingExercise.Tests/Services/LuhnValidationServiceTests.cs:15-25 | Each of the four malformed test inputs gives `(false, MalformedNumber)`. |
| LuhnVectors.UnexpectedLengthVectors | ZeilCodingExercise.Tests/Services/LuhnValidationServiceTests.cs:27-35 | `""`, `"123456789"` and `"12345678901234567890"` each give `(false, UnexpectedLength)`. |
| LuhnVectors.ValidChecksumVectors | ZeilCodingExercise.Tests/Services/LuhnValidationServiceTests.cs:37-51 | Each of the eight valid test numbers gives `(true, Unknown)`. |
| LuhnVectors.InvalidChecksumVectors | ZeilCodingExercise.Tests/Services/LuhnValidationServiceTests.cs:53-68 | Each of the nine altered test numbers gives `(false, InvalidCardNumber)`. |

## Left out

- `char.IsWhiteSpace` and `char.IsDigit` are not encoded with their full Unicode membership. They are the `CharTable` parameter, constrained by `Sound`, and facts that need more than `Sound` are not available.
- Strings are sequences of Unicode scalar values, not UTF-16 code units. A character outside the Basic Multilingual Plane counts once here, but .NET counts it as two code units. .NET's `char.IsWhiteSpace` and `char.IsDigit` also classify each surrogate half on its own.
- LuhnValidationService.ValidateLuhn: requires a non-empty string. The C# method would throw on `cardNumber[^1]` for an empty string, but its only caller reaches it with at least 13 characters.
- LuhnValidationService.ValidateCreditCardLuhn: it is a function, and it uses `ParityLuhn` where the source calls `ValidateLuhn`. `ValidateLuhn` is proved to return exactly `ParityLuhn`.
- Overflow of C#'s 32-bit `int` is not modelled. A stripped number has at most 19 characters by the time the loop runs, so the sum stays far below 2^31.
- The `ILuhnValidationService` interface (LuhnValidationService.cs:5-7) has no behaviour and is not part of this model.
- The HTTP controllers `CreditCardValidationController` and `AntiPatternLuhnValidationController` are not part of this model. One delegates to a third-party library whose code is not available; the other only wraps the service.
- The randomized test at LuhnValidationServiceTests.cs:70-82 uses `Random` and a third-party card generator and checker. `LuhnValidationService.ChecksumDecides` and `LuhnValidationService.ParityLuhnIsStandardLuhn` state its claim, that the service agrees with a standard Luhn check. They state it for every whitespace-stripped input of ASCII digits with length 13..19. Outside that length, the service answers `UnexpectedLength` whatever the checksum is.
- A `null` input cannot be represented: the model's strings are values. In C#, `input.Where` at StringExtensions.cs:5 would throw `ArgumentNullException` on `null`.
