# CPF/CNPJ masks and CPF validation, in Dafny

A model of the string core of react-brazilian-documents, a React library of
inputs for Brazilian taxpayer numbers. The core has two halves.

- The mask engine (`src/utils/masks.tsx`) has three parts. `cleanCpfCnpj`
  keeps the ASCII digits of a string and cuts them to 11 digits (a CPF,
  individual taxpayer number) or 14 digits (a CNPJ, company number).
  `calcCpfCharacters` and `calcCnpjCharacters` lay a string out as
  `###.###.###-##` or `##.###.###/####-##`, cut short after the last
  character. `cpfMask`, `cnpjMask` and `cpfCnpjMask` combine the two.
- The CPF validator (`src/utils/validation.tsx`) works in four steps.
  `calcDigit` computes a modulo-11 check digit from a weighted sum.
  `calcVerificationDigits` computes both check digits of a nine-digit base.
  `isCPFValid` and `validateCpf` accept a string when its digits are exactly
  eleven, are not one digit repeated, and end in the right check digits. The
  file also exports the regular expressions `maskPatterns.CPF` and
  `maskPatterns.CNPJ`.

`src/components/masks.tsx` and `src/components/validation.tsx` repeat both
halves statement for statement; `patterns` there equals `maskPatterns`. The
model defines each function once, as a pure function:

- `Digits` holds the `replace(/\D/g, "")` filter and digit/character conversion.
- `Masks` models `src/utils/masks.tsx`.
- `Validation` models `src/utils/validation.tsx`.

The copies in `src/components` are modelled as methods that follow their
loops. These are `ComponentMasks` and `ComponentValidation`, each proved equal
to the functional definition. The properties live in `MaskProperties`,
`ValidationProperties` and `PatternProperties`.

Each layout loop is compared with an independent reference, `CpfLayout` or
`CnpjLayout`. These are written with slices, one branch per number of
separators. Likewise `calcDigit` is compared with the usual statement of the
CPF algorithm, `ReferenceCheckDigit`: ascending weights, the remainder modulo
11, then modulo 10. The two agree because descending and ascending weights
add up to 11 at every position.

## Model

| member | source | states |
|---|---|---|
| Digits.StripNonDigits | src/utils/masks.tsx:19 | the filter keeps only the characters '0' to '9' and never lengthens the string |
| Digits.StripFixedPointIsDigits | src/utils/masks.tsx:19 | the filter leaves a string unchanged exactly when the string is all digits |
| Digits.StripIdempotent | src/utils/masks.tsx:19 | filtering twice is filtering once |
| Digits.StripConcat | src/utils/masks.tsx:19 | the filter works character by character: it distributes over concatenation |
| Digits.StripPrefix | src/utils/masks.tsx:19 | the digits of a prefix of the input are a prefix of the digits of the input |
| Digits.ReplaceNonDigits | src/components/masks.tsx:3 | scanning left to right and keeping digits yields exactly the filtered string |
| Digits.DigitChar | src/utils/validation.tsx:24 | printing a number in 0..9 gives a digit whose value is that number |
| Masks.CleanCpfCnpj | src/utils/masks.tsx:17-22 | the result is all digits, at most 11 (CPF) or 14 (CNPJ) long, and is the prefix of length min(digits, limit) of the input's digits in order |
| Masks.MaskLoop | src/utils/masks.tsx:29-37 | the string either layout loop has built after n iterations; it has no contract of its own and is characterised by Masks.MaskLoopIsLayout and Masks.StripMaskLoop |
| Masks.CalcCpfCharacters | src/utils/masks.tsx:24-40 | `calcCpfCharacters`: the early return for up to 3 characters, then the loop; it has no contract of its own and is characterised by Masks.CalcCpfCharactersLayout |
| Masks.CalcCnpjCharacters | src/utils/masks.tsx:42-62 | `calcCnpjCharacters`: the early return for up to 2 characters, then the loop; it has no contract of its own and is characterised by Masks.CalcCnpjCharactersLayout |
| Masks.MaskLoopIsLayout | src/utils/masks.tsx:29-37 | after n iterations either loop has built the reference layout of the first n characters |
| Masks.CpfLayoutSnoc | src/utils/masks.tsx:30-36 | one more character extends the CPF layout by the separator the loop adds before that index, then the character |
| Masks.CnpjLayoutSnoc | src/utils/masks.tsx:48-58 | one more character extends the CNPJ layout by the separator the loop adds before that index, then the character |
| Masks.CalcCpfCharactersLayout | src/utils/masks.tsx:24-40 | for every string, '.' goes before indices 3 and 6 and '-' before 9; strings of up to 3 characters are returned unchanged |
| Masks.CalcCnpjCharactersLayout | src/utils/masks.tsx:42-62 | for every string, '.' goes before indices 2 and 5, '/' before 8 and '-' before 12; strings of up to 2 characters are returned unchanged |
| Masks.StripMaskLoop | src/utils/masks.tsx:29-37 | the loops add no digits: the digits of their output are the digits of what they have read |
| Masks.StripLayout | src/utils/masks.tsx:24-62 | filtering a laid-out string gives the digits of the string laid out |
| Masks.CpfMask | src/utils/masks.tsx:75-81 | the mask is the CPF layout of the cleaned value, at most 14 characters, and its digits are the cleaned value |
| Masks.CnpjMask | src/utils/masks.tsx:94-100 | the mask is the CNPJ layout of the cleaned value, at most 18 characters, and its digits are the cleaned value |
| Masks.CpfCnpjMask | src/utils/masks.tsx:115-124 | below 12 cleaned digits the raw argument gets the CPF layout, otherwise the raw argument gets the CNPJ layout |
| Masks.CpfCnpjMaskCleaned | src/utils/masks.tsx:102-113 | the documented behaviour: below 12 digits it is `cpfMask`, otherwise `cnpjMask`, and its digits are the cleaned CNPJ value |
| MaskProperties.CleanDigitString | src/utils/masks.tsx:17-22 | a digit string within the limit is its own cleaned value |
| MaskProperties.CleanIdempotent | src/utils/masks.tsx:17-22 | cleaning twice is cleaning once |
| MaskProperties.CleanPrefix | src/utils/masks.tsx:19 | cleaning a prefix of the input gives a prefix of the cleaned input |
| MaskProperties.CleanExamples | src/utils/masks.tsx:10-13 | the four documented `cleanCpfCnpj` examples, including the default kind and letters mixed into the input |
| MaskProperties.StripOfLayout | src/utils/masks.tsx:24-62 | filtering the layout of a digit string gives back the digit string |
| MaskProperties.LayoutPrefix | src/utils/masks.tsx:29-37 | laying out a prefix gives a prefix of the layout |
| MaskProperties.CpfMaskPrefix | src/utils/masks.tsx:75-81 | while a CPF is typed, each mask shown is a prefix of the next |
| MaskProperties.CnpjMaskPrefix | src/utils/masks.tsx:94-100 | while a CNPJ is typed, each mask shown is a prefix of the next |
| MaskProperties.CpfMaskRoundTrip | src/utils/masks.tsx:75-81 | a digit string of at most 11 digits is recovered from its mask by filtering and by cleaning |
| MaskProperties.CnpjMaskRoundTrip | src/utils/masks.tsx:94-100 | a digit string of at most 14 digits is recovered from its mask by filtering and by cleaning |
| MaskProperties.CpfMaskIdempotent | src/utils/masks.tsx:75-81 | masking a CPF mask again changes nothing |
| MaskProperties.CnpjMaskIdempotent | src/utils/masks.tsx:94-100 | masking a CNPJ mask again changes nothing |
| MaskProperties.CpfLayoutPositions | src/utils/masks.tsx:24-40 | the length is the input's plus one per separator reached; '.' sits at 3 and 7 and '-' at 11 exactly when a character follows; every other position holds the input's characters in order |
| MaskProperties.CnpjLayoutPositions | src/utils/masks.tsx:42-62 | the length is the input's plus one per separator reached; '.' sits at 2 and 6, '/' at 10 and '-' at 15 exactly when a character follows; every other position holds the input's characters in order |
| MaskProperties.CpfMaskDigits | src/utils/masks.tsx:75-81 | every character of a CPF mask outside the separator positions is a digit |
| MaskProperties.CnpjMaskDigits | src/utils/masks.tsx:94-100 | every character of a CNPJ mask outside the separator positions is a digit |
| MaskProperties.CpfCnpjMaskOnDigits | src/utils/masks.tsx:115-124 | on at most 14 plain digits `cpfCnpjMask` is `cpfMask` below 12 digits and `cnpjMask` from 12 on |
| MaskProperties.CpfCnpjMaskOnCleanedInput | src/utils/masks.tsx:115-124 | a caller that cleans first gets the documented behaviour |
| MaskProperties.CpfMaskExamples | src/utils/masks.tsx:69-72 | `cpfMask` on 11 ones, on 14 ones (cut to 11 first), and on 3 and 4 ones |
| MaskProperties.CnpjMaskExamples | src/utils/masks.tsx:88-91 | `cnpjMask` on 14 ones, on 11 ones (an incomplete CNPJ), and on 2 and 3 ones |
| MaskProperties.CpfCnpjMaskExamples | src/utils/masks.tsx:107-112 | the four documented `cpfCnpjMask` examples |
| MaskProperties.CpfCnpjMaskRawArgument | src/utils/masks.tsx:115-124 | a punctuated CPF is punctuated again, and 15 digits keep all 15, where `cnpjMask` keeps 14 |
| Validation.JsRemainder | src/utils/validation.tsx:14 | the truncating remainder agrees with Euclidean `%` on non-negative dividends and lies in (-b, 0] on negative ones |
| Validation.JsRemainderEleven | src/utils/validation.tsx:14 | for divisor 11 the truncating remainder differs from the dividend by a multiple of 11 and is the Euclidean one shifted by 11 when negative |
| Validation.WeightedSum | src/utils/validation.tsx:10-13 | the `reduce` of `calcDigit`, weights falling by one from the first weight; it has no contract of its own and is characterised by ValidationProperties.WeightsAddUp and the loop invariant of ComponentValidation.CalcDigit |
| Validation.CalcDigit | src/utils/validation.tsx:9-16 | the digit is in 0..9; it is 0 when the weighted sum is negative or leaves remainder 0 or 1 modulo 11; otherwise adding it makes the weighted sum a multiple of 11 |
| Validation.DigitValues | src/utils/validation.tsx:19 | one number in 0..9 per character, each printing back as that character |
| Validation.CalcVerificationDigits | src/utils/validation.tsx:18-25 | two digit characters: the check digit of the base from weight 10, then the check digit of the base followed by the first digit from weight 11 |
| Validation.IsCpfValid | src/utils/validation.tsx:27-36 | `isCPFValid`; it has no contract of its own and is characterised by ValidationProperties.ValidateCpfIff and ValidationProperties.ValidateCpfIgnoresNonDigits |
| Validation.ValidateCpf | src/utils/validation.tsx:50-52 | `validateCpf`, which forwards to `isCPFValid`; it has no contract of its own and is characterised by ValidationProperties.ValidateCpfIff |
| ValidationProperties.WeightsAddUp | src/utils/validation.tsx:10-13 | the weighted sum from weight w plus the ascending sum from 11 - w is 11 times the plain sum |
| ValidationProperties.CalcDigitIsReference | src/utils/validation.tsx:9-16 | on up to w digits `calcDigit` equals the usual CPF check digit: ascending weights, remainder modulo 11, 10 written as 0 |
| ValidationProperties.ValidateCpfIff | src/utils/validation.tsx:27-36 | a string is accepted if and only if its digits are exactly eleven, not one digit repeated, and digits 10 and 11 are the check digits of the first nine and the first ten |
| ValidationProperties.ValidateCpfIgnoresNonDigits | src/utils/validation.tsx:28 | the verdict on a string is the verdict on its digits |
| ValidationProperties.RepeatedDigitPassesCheck | src/utils/validation.tsx:29 | eleven copies of any digit carry correct check digits, yet are rejected |
| ValidationProperties.ValidateCpfAcceptsExample | src/utils/validation.tsx:43-44 | '127.408.170-02' and '12740817002' are accepted |
| ValidationProperties.ValidateCpfRejectsExamples | src/utils/validation.tsx:45-46 | '111.111.111-11' and '123.456.789-01' are rejected |
| PatternProperties.CpfPatternOfMask | src/utils/validation.tsx:5 | the CPF pattern, as written and escaped, accepts the CPF mask of a value exactly when the value holds at least 11 digits |
| PatternProperties.CnpjPatternOfMask | src/utils/validation.tsx:6 | the CNPJ pattern, as written and escaped, accepts the CNPJ mask of a value exactly when the value holds at least 14 digits |
| PatternProperties.StrictCpfPatternIsMask | src/utils/validation.tsx:5 | with its dots escaped the CPF pattern accepts exactly the 14-character strings that are their own CPF mask |
| PatternProperties.StrictCnpjPatternIsMask | src/utils/validation.tsx:6 | with its dots escaped the CNPJ pattern accepts exactly the 18-character strings that are their own CNPJ mask |
| PatternProperties.CpfPatternAcceptsOtherSeparators | src/utils/validation.tsx:5 | the CPF pattern as written accepts '111a111b111-11', which the escaped pattern rejects |
| PatternProperties.CnpjPatternAcceptsOtherSeparators | src/utils/validation.tsx:6 | the CNPJ pattern as written accepts '11a111b111/1111-11', which the escaped pattern rejects |
| ComponentMasks.CleanCpfCnpj | src/components/masks.tsx:1-6 | the component copy computes the same cleaned value: digits only, a prefix of the input's digits |
| ComponentMasks.CalcCpfCharacters | src/components/masks.tsx:8-24 | the component loop, with its early return, produces the CPF layout of any string |
| ComponentMasks.CalcCnpjCharacters | src/components/masks.tsx:26-46 | the component loop, with its early return, produces the CNPJ layout of any string |
| ComponentMasks.CpfMask | src/components/masks.tsx:48-54 | the component `cpfMask` equals the one in src/utils/masks.tsx, and its digits are the cleaned value |
| ComponentMasks.CnpjMask | src/components/masks.tsx:56-62 | the component `cnpjMask` equals the one in src/utils/masks.tsx, and its digits are the cleaned value |
| ComponentMasks.CpfCnpjMask | src/components/masks.tsx:64-73 | the component `cpfCnpjMask` equals the one in src/utils/masks.tsx and lays out the raw argument |
| ComponentValidation.CalcDigit | src/components/validation.tsx:6-13 | the `reduce` loop and remainder test give the same digit in 0..9 as `calcDigit` in src/utils/validation.tsx |
| ComponentValidation.CalcVerificationDigits | src/components/validation.tsx:15-22 | the parse loop and the two `calcDigit` calls give the same two check digits |
| ComponentValidation.IsCpfValid | src/components/validation.tsx:24-33 | the component `isCPFValid` gives the same verdict, and accepts only eleven digits that are not one digit repeated |
| ComponentValidation.ValidateCpf | src/components/validation.tsx:35-37 | the component `validateCpf` equals the one in src/utils/validation.tsx on every input |

## Left out

- The React components (src/components/CpfInput/CpfInput.tsx and src/components/CnpjInput/CnpjInput.tsx) are view code. They hold refs, effects and form registration. Their one piece of logic, `getValues`, cleans a value and masks it, which the model covers.
- The type files (src/components/types.tsx, src/components/CpfInput/types.tsx) and the re-export file src/components/index.tsx hold no logic.
- `validateCnpj` is imported by src/components/CnpjInput/CnpjInput.tsx, but none of the files modelled here defines it. A CNPJ check-digit validator is therefore not part of this model.
- Regular-expression engines are not modelled. Each expression becomes a predicate:
  - `/\D/g` without the `u` flag is `Digits.StripNonDigits`.
  - `/^(\d)\1{10}$/` is `Validation.RepeatedDigit`.
  - The two mask patterns are `Validation.CpfPattern` and `Validation.CnpjPattern`; their unescaped `.` is `Validation.RegexDot`.
- JavaScript strings are sequences of UTF-16 code units. The model's strings are sequences of Unicode scalar values. The two agree on strings of Basic Multilingual Plane characters, where each character is one code unit. The digit filter and everything computed from its output (cleaning, `cpfMask`, `cnpjMask`, the validator) agree on every string, because a surrogate half is no digit and is dropped just as the whole character is.
- Masks.CpfCnpjMask: lays out the raw argument by characters, where the source lays it out by UTF-16 code units (`length` and `charAt`). With a character outside the Basic Multilingual Plane in the argument the separators land elsewhere. For example, the source turns "\U{1F600}1111" into "\U{1F600}1.111", but the model gives "\U{1F600}11.11". With two such characters the source can put a separator between the halves of a surrogate pair, which a Dafny string cannot hold. The same holds for ComponentMasks.CpfCnpjMask.
- Validation.CpfPattern: counts characters, where the regular expression, which has no `u` flag, counts code units. An unescaped `.` there matches a single code unit, so "111\U{1F600}111.111-11" satisfies the predicate but not the pattern. The model agrees with the pattern on strings of Basic Multilingual Plane characters.
- Validation.CnpjPattern: the same difference as Validation.CpfPattern, for the CNPJ pattern.
- Validation.CalcVerificationDigits: requires a digit string. `parseInt` of a non-digit would give `NaN`, but the only caller passes the first nine of exactly eleven digits.
- Validation.CalcDigit: takes `w` as 10 or 11, the only values the parameter's type admits.
- Template-string printing of a number is modelled by `Digits.DigitChar` only. That is enough because `calcDigit` always returns a single digit.
- The doc comment of `cpfMask` at src/utils/masks.tsx:72 writes `cnpjMask('11111111111111')` where the surrounding text and the stated result describe `cpfMask`. The model follows the code: `cpfMask` of 14 ones is '111.111.111-11' and `cnpjMask` of 14 ones is '11.111.111/1111-11'.

## Findings

| source | as written | input that shows it | evidently intended | confidence | as-written member | corrected member |
|---|---|---|---|---|---|---|
| src/utils/masks.tsx:115-124 | `cpfCnpjMask` picks the layout from the cleaned value but lays out the raw `value` | '111.111.111-11' gives '111..11.1.1-11-11'; fifteen 1s give '11.111.111/1111-111' | lay out the cleaned value, as `cpfMask` and `cnpjMask` do: '111.111.111-11' and '11.111.111/1111-11' | medium, not executed | MaskProperties.CpfCnpjMaskRawArgument | Masks.CpfCnpjMaskCleaned |
| src/utils/validation.tsx:5 | the CPF pattern's `.` is unescaped and matches any character but a line terminator | '111a111b111-11' matches but is not a CPF mask | `\.`, so that the pattern accepts exactly the complete CPF masks | high, not executed | PatternProperties.CpfPatternAcceptsOtherSeparators | PatternProperties.StrictCpfPatternIsMask |
| src/utils/validation.tsx:6 | the CNPJ pattern's `.` is unescaped and matches any character but a line terminator | '11a111b111/1111-11' matches but is not a CNPJ mask | `\.`, so that the pattern accepts exactly the complete CNPJ masks | high, not executed | PatternProperties.CnpjPatternAcceptsOtherSeparators | PatternProperties.StrictCnpjPatternIsMask |
