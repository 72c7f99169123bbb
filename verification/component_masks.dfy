/**
  src/components/masks.tsx repeats the mask engine of src/utils/masks.tsx
  statement for statement. This module follows those statements as methods
  (the `for` loops, the early returns, the `+=` on the mask) and proves each
  equal to the functional definition in `Masks`, so both copies share one model.
 */
module ComponentMasks {
  import opened Digits
  import Masks

  /** `cleanCpfCnpj`: drop the non-digits, then keep at most the kind's maximum length from the start. */
  method CleanCpfCnpj(value: string, kind: Masks.Kind) returns (realValue: string)
    ensures realValue == Masks.CleanCpfCnpj(value, kind)
    ensures IsDigitString(realValue) && realValue <= StripNonDigits(value)
  {
    var maxLength := if kind == Masks.Cnpj then 14 else 11;
    var digits := ReplaceNonDigits(value);
    realValue := if |digits| <= maxLength then digits else digits[..maxLength];
  }

  /** The `calcCpfCharacters` loop, which produces the CPF layout of any string. */
  method CalcCpfCharacters(value: string) returns (maskValue: string)
    ensures maskValue == Masks.CpfLayout(value)
  {
    maskValue := "";
    if |value| <= 3 {
      return value;
    }
    for i := 0 to |value|
      invariant maskValue == Masks.MaskLoop(Masks.Cpf, value, i)
    {
      if i == 3 || i == 6 {
        maskValue := maskValue + ".";
      }
      if i == 9 {
        maskValue := maskValue + "-";
      }
      maskValue := maskValue + [value[i]];
    }
    Masks.CalcCpfCharactersLayout(value);
  }

  /** The `calcCnpjCharacters` loop, which produces the CNPJ layout of any string. */
  method CalcCnpjCharacters(value: string) returns (maskValue: string)
    ensures maskValue == Masks.CnpjLayout(value)
  {
    maskValue := "";
    if |value| <= 2 {
      return value;
    }
    for i := 0 to |value|
      invariant maskValue == Masks.MaskLoop(Masks.Cnpj, value, i)
    {
      if i > 0 && (i == 2 || i == 5) {
        maskValue := maskValue + ".";
      }
      if i > 0 && i == 8 {
        maskValue := maskValue + "/";
      }
      if i > 0 && i == 12 {
        maskValue := maskValue + "-";
      }
      maskValue := maskValue + [value[i]];
    }
    Masks.CalcCnpjCharactersLayout(value);
  }

  method CpfMask(value: string) returns (maskValue: string)
    ensures maskValue == Masks.CpfMask(value)
    ensures StripNonDigits(maskValue) == Masks.CleanCpfCnpj(value, Masks.Cpf)
  {
    var realValue := CleanCpfCnpj(value, Masks.Cpf);
    maskValue := CalcCpfCharacters(realValue);
  }

  method CnpjMask(value: string) returns (maskValue: string)
    ensures maskValue == Masks.CnpjMask(value)
    ensures StripNonDigits(maskValue) == Masks.CleanCpfCnpj(value, Masks.Cnpj)
  {
    var realValue := CleanCpfCnpj(value, Masks.Cnpj);
    maskValue := CalcCnpjCharacters(realValue);
  }

  /** `cpfCnpjMask`: the length of the cleaned value picks the layout, the raw value is laid out. */
  method CpfCnpjMask(value: string) returns (maskValue: string)
    ensures maskValue == Masks.CpfCnpjMask(value)
    ensures |StripNonDigits(value)| < 12 ==> maskValue == Masks.CpfLayout(value)
    ensures |StripNonDigits(value)| >= 12 ==> maskValue == Masks.CnpjLayout(value)
  {
    var realValue := CleanCpfCnpj(value, Masks.Cnpj);
    if |realValue| < 12 {
      maskValue := CalcCpfCharacters(value);
    } else {
      maskValue := CalcCnpjCharacters(value);
    }
  }
}
