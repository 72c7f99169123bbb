/**
  src/components/validation.tsx repeats the CPF validator of
  src/utils/validation.tsx. This module follows its statements as methods (the
  `reduce` as a loop, the `map` of `parseInt` as a loop, the early return) and
  proves each equal to the functional definition in `Validation`. Its `patterns`
  object holds the same two regular expressions as `maskPatterns`, modelled by
  `Validation.CpfPattern` and `Validation.CnpjPattern`.
 */
module ComponentValidation {
  import opened Digits
  import Validation

  /** `calcDigit`: the `reduce` over the numbers, then the remainder test. */
  method CalcDigit(partialCpf: seq<int>, pesoInicial: int) returns (digit: int)
    requires pesoInicial == 10 || pesoInicial == 11
    ensures digit == Validation.CalcDigit(partialCpf, pesoInicial)
    ensures 0 <= digit <= 9
  {
    var sum := 0;
    for index := 0 to |partialCpf|
      invariant sum == Validation.WeightedSum(partialCpf[..index], pesoInicial)
    {
      assert partialCpf[..index + 1][..index] == partialCpf[..index];
      sum := sum + partialCpf[index] * (pesoInicial - index);
    }
    assert partialCpf[..|partialCpf|] == partialCpf;
    var rest := Validation.JsRemainder(sum, 11);
    digit := if rest < 2 then 0 else 11 - rest;
  }

  /** `calcVerificationDigits`: parse the base digit by digit, then compute both check digits. */
  method CalcVerificationDigits(baseCpf: string) returns (digits: string)
    requires IsDigitString(baseCpf)
    ensures digits == Validation.CalcVerificationDigits(baseCpf)
  {
    var cpfNumbers: seq<int> := [];
    for i := 0 to |baseCpf|
      invariant cpfNumbers == Validation.DigitValues(baseCpf)[..i]
    {
      cpfNumbers := cpfNumbers + [DigitValue(baseCpf[i])];
    }
    assert cpfNumbers == Validation.DigitValues(baseCpf);
    var firstDigit := CalcDigit(cpfNumbers, 10);
    var secondDigit := CalcDigit(cpfNumbers + [firstDigit], 11);
    digits := [DigitChar(firstDigit), DigitChar(secondDigit)];
  }

  /** `isCPFValid`, with the early return for the wrong length or one repeated digit. */
  method IsCpfValid(cpf: string) returns (valid: bool)
    ensures valid == Validation.IsCpfValid(cpf)
    ensures valid ==> |StripNonDigits(cpf)| == 11 && !Validation.RepeatedDigit(StripNonDigits(cpf))
  {
    var cleanCpf := ReplaceNonDigits(cpf);
    if |cleanCpf| != 11 || Validation.RepeatedDigit(cleanCpf) {
      return false;
    }
    var baseCpf := cleanCpf[..9];
    var verificationDigits := cleanCpf[9..11];
    var digitsCalculated := CalcVerificationDigits(baseCpf);
    valid := verificationDigits == digitsCalculated;
  }

  method ValidateCpf(v: string) returns (valid: bool)
    ensures valid == Validation.ValidateCpf(v)
  {
    valid := IsCpfValid(v);
  }
}
