/**
  The CPF check-digit validator and the mask patterns of src/utils/validation.tsx.

  A CPF has nine base digits and two check digits. `calcDigit` computes one
  check digit from a weighted sum modulo 11; `calcVerificationDigits` computes
  both (the second over the base digits followed by the first check digit);
  `isCPFValid` keeps the digits of its argument, rejects anything that is not
  exactly 11 digits or is one digit repeated 11 times, and compares the last
  two digits with the computed ones.
 */
module Validation {
  import opened Digits

  // ---------------------------------------------------------------------------
  // Check digits
  // ---------------------------------------------------------------------------

  /**
    JavaScript's `%` on integers: the remainder takes the sign of the dividend
    (it truncates toward zero), where Dafny's `%` never returns a negative value.
   */
  function JsRemainder(a: int, b: int): (r: int)
    requires b > 0
    ensures a >= 0 ==> r == a % b
    ensures a < 0 ==> -b < r <= 0
  {
    if a >= 0 then a % b else -((-a) % b)
  }

  /**
    For the divisor 11 of `calcDigit`: on a negative dividend the JavaScript
    remainder is the Euclidean one shifted down by 11, unless both are 0.
   */
  lemma JsRemainderEleven(a: int)
    ensures a < 0 ==> JsRemainder(a, 11) == (if a % 11 == 0 then 0 else a % 11 - 11)
    ensures (a - JsRemainder(a, 11)) % 11 == 0
  {
    var r := JsRemainder(a, 11);
    if a < 0 {
      var q, m := (-a) / 11, (-a) % 11;
      assert -a == 11 * q + m && r == -m;
      assert a - r == 11 * -q;
      if m != 0 {
        assert a == 11 * (-q - 1) + (11 - m);
      }
    }
  }

  /**
    The sum `calcDigit` folds over its numbers, starting from 0:
    the sum of the numbers, the first weighted by `w`, each next one by one less.
    The fold runs from the left, so the last number carries the last weight.
   */
  function WeightedSum(nums: seq<int>, w: int): int {
    if |nums| == 0 then 0
    else WeightedSum(nums[..|nums| - 1], w) + nums[|nums| - 1] * (w - (|nums| - 1))
  }

  /** `calcDigit(partialCPF, pesoInicial)`, where the parameter's type admits only 10 and 11. */
  function CalcDigit(nums: seq<int>, w: int): (r: int)
    requires w == 10 || w == 11
    ensures 0 <= r <= 9
    ensures WeightedSum(nums, w) < 0 ==> r == 0
    ensures WeightedSum(nums, w) >= 0 && WeightedSum(nums, w) % 11 < 2 ==> r == 0
    ensures WeightedSum(nums, w) >= 0 && WeightedSum(nums, w) % 11 >= 2 ==>
              r > 0 && (WeightedSum(nums, w) + r) % 11 == 0
  {
    var rest := JsRemainder(WeightedSum(nums, w), 11);
    if rest < 2 then 0 else 11 - rest
  }

  /** The numbers `calcVerificationDigits` parses from the base, one per character of a digit string. */
  function DigitValues(s: string): (nums: seq<int>)
    requires IsDigitString(s)
    ensures |nums| == |s|
    ensures forall i :: 0 <= i < |s| ==> 0 <= nums[i] <= 9 && DigitChar(nums[i]) == s[i]
  {
    seq(|s|, i requires 0 <= i < |s| => DigitValue(s[i]))
  }

  /**
    `calcVerificationDigits(baseCPF)`: the first check digit over the base with
    weights from 10 down, the second over the base followed by the first with
    weights from 11 down, printed one after the other.
   */
  function CalcVerificationDigits(base: string): (r: string)
    requires IsDigitString(base)
    ensures |r| == 2 && IsDigitString(r)
    ensures DigitValue(r[0]) == CalcDigit(DigitValues(base), 10)
    ensures DigitValue(r[1]) == CalcDigit(DigitValues(base + [r[0]]), 11)
  {
    var nums := DigitValues(base);
    var first := CalcDigit(nums, 10);
    var second := CalcDigit(nums + [first], 11);
    assert DigitValues(base + [DigitChar(first)]) == nums + [first];
    [DigitChar(first), DigitChar(second)]
  }

  // ---------------------------------------------------------------------------
  // The validator
  // ---------------------------------------------------------------------------

  /** `/^(\d)\1{10}$/`: exactly eleven characters, all the same digit. */
  predicate RepeatedDigit(s: string) {
    |s| == 11 && IsDigit(s[0]) && forall i :: 0 < i < 11 ==> s[i] == s[0]
  }

  /** `isCPFValid(cpf)`. */
  predicate IsCpfValid(cpf: string) {
    var clean := StripNonDigits(cpf);
    if |clean| != 11 || RepeatedDigit(clean) then false
    else clean[9..11] == CalcVerificationDigits(clean[..9])
  }

  /** `validateCpf(cpf)`, the exported entry point; it only forwards to `isCPFValid`. */
  predicate ValidateCpf(cpf: string) {
    IsCpfValid(cpf)
  }

  // ---------------------------------------------------------------------------
  // The mask patterns
  // ---------------------------------------------------------------------------

  /**
    An unescaped `.` in a JavaScript regular expression without the `s` flag:
    any character except the four line terminators.
   */
  predicate RegexDot(c: char) {
    c != '\n' && c != '\r' && c != '\U{2028}' && c != '\U{2029}'
  }

  /** `maskPatterns.CPF`, `^[0-9]{3}.[0-9]{3}.[0-9]{3}-[0-9]{2}$`, as written. */
  predicate CpfPattern(s: string) {
    && |s| == 14
    && IsDigitString(s[..3]) && RegexDot(s[3])
    && IsDigitString(s[4..7]) && RegexDot(s[7])
    && IsDigitString(s[8..11]) && s[11] == '-'
    && IsDigitString(s[12..])
  }

  /** `maskPatterns.CNPJ`, `^[0-9]{2}.[0-9]{3}.[0-9]{3}/[0-9]{4}-[0-9]{2}$`, as written. */
  predicate CnpjPattern(s: string) {
    && |s| == 18
    && IsDigitString(s[..2]) && RegexDot(s[2])
    && IsDigitString(s[3..6]) && RegexDot(s[6])
    && IsDigitString(s[7..10]) && s[10] == '/'
    && IsDigitString(s[11..15]) && s[15] == '-'
    && IsDigitString(s[16..])
  }

  /** The CPF pattern with its dots escaped (`\.`), as the mask it checks writes them. */
  predicate StrictCpfPattern(s: string) {
    CpfPattern(s) && s[3] == '.' && s[7] == '.'
  }

  /** The CNPJ pattern with its dots escaped. */
  predicate StrictCnpjPattern(s: string) {
    CnpjPattern(s) && s[2] == '.' && s[6] == '.'
  }
}
