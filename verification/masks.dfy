/**
  The sanitiser and mask engine of src/utils/masks.tsx.

  `cleanCpfCnpj` keeps the digits of a raw string and cuts them to the length of
  a CPF (11) or a CNPJ (14). `calcCpfCharacters` and `calcCnpjCharacters` walk a
  string once and put a separator in front of fixed indices; `cpfMask` and
  `cnpjMask` clean first and then lay out; `cpfCnpjMask` chooses the layout from
  the cleaned length but lays out the argument it was given.
 */
module Masks {
  import opened Digits

  /** The `type` argument of `cleanCpfCnpj`; the source defaults it to "cpf". */
  datatype Kind = Cpf | Cnpj

  function MaxLength(kind: Kind): nat {
    if kind == Cnpj then 14 else 11
  }

  function Min(a: nat, b: nat): nat {
    if a <= b then a else b
  }

  /** `cleanCpfCnpj(value, type)`: the leading digits of `value`, at most as many as the kind allows. */
  function CleanCpfCnpj(value: string, kind: Kind): (r: string)
    ensures IsDigitString(r)
    ensures |r| <= MaxLength(kind)
    ensures |r| == Min(|StripNonDigits(value)|, MaxLength(kind))
    ensures r <= StripNonDigits(value)
  {
    var digits := StripNonDigits(value);
    if |digits| <= MaxLength(kind) then digits else digits[..MaxLength(kind)]
  }

  // ---------------------------------------------------------------------------
  // The two layout loops
  // ---------------------------------------------------------------------------

  /**
    What one iteration of the `calcCpfCharacters` loop appends before the
    character at index `i`. The loop body first tests for index 3 or 6 (a dot),
    then for index 9 (a hyphen); the tests exclude one another, so at most
    one separator is appended.
   */
  function CpfSeparator(i: nat): string {
    if i == 3 || i == 6 then "."
    else if i == 9 then "-"
    else ""
  }

  /**
    What one iteration of the `calcCnpjCharacters` loop appends before the
    character at index `i`. Its three tests (each guarded by `i > 0`) exclude
    one another as well.
   */
  function CnpjSeparator(i: nat): string {
    if i > 0 && (i == 2 || i == 5) then "."
    else if i > 0 && i == 8 then "/"
    else if i > 0 && i == 12 then "-"
    else ""
  }

  function Separator(kind: Kind, i: nat): string {
    match kind
    case Cpf => CpfSeparator(i)
    case Cnpj => CnpjSeparator(i)
  }

  /** The string a layout loop has built after its first `n` iterations over `value`. */
  function MaskLoop(kind: Kind, value: string, n: nat): string
    requires n <= |value|
  {
    if n == 0 then ""
    else MaskLoop(kind, value, n - 1) + Separator(kind, n - 1) + [value[n - 1]]
  }

  /** `calcCpfCharacters`: short strings are returned as they are, longer ones go through the loop. */
  function CalcCpfCharacters(value: string): string {
    if |value| <= 3 then value else MaskLoop(Cpf, value, |value|)
  }

  /** `calcCnpjCharacters`: short strings are returned as they are, longer ones go through the loop. */
  function CalcCnpjCharacters(value: string): string {
    if |value| <= 2 then value else MaskLoop(Cnpj, value, |value|)
  }

  // ---------------------------------------------------------------------------
  // Reference layouts: ###.###.###-## and ##.###.###/####-##, cut short after
  // the last available character. Characters past the last separator are kept.
  // ---------------------------------------------------------------------------

  function CpfLayout(d: string): string {
    if |d| <= 3 then d
    else if |d| <= 6 then d[..3] + "." + d[3..]
    else if |d| <= 9 then d[..3] + "." + d[3..6] + "." + d[6..]
    else d[..3] + "." + d[3..6] + "." + d[6..9] + "-" + d[9..]
  }

  function CnpjLayout(d: string): string {
    if |d| <= 2 then d
    else if |d| <= 5 then d[..2] + "." + d[2..]
    else if |d| <= 8 then d[..2] + "." + d[2..5] + "." + d[5..]
    else if |d| <= 12 then d[..2] + "." + d[2..5] + "." + d[5..8] + "/" + d[8..]
    else d[..2] + "." + d[2..5] + "." + d[5..8] + "/" + d[8..12] + "-" + d[12..]
  }

  function Layout(kind: Kind, d: string): string {
    match kind
    case Cpf => CpfLayout(d)
    case Cnpj => CnpjLayout(d)
  }

  /** One more character extends the CPF layout the way one more loop iteration does. */
  lemma CpfLayoutSnoc(d: string, n: nat)
    requires n < |d|
    ensures CpfLayout(d[..n + 1]) == CpfLayout(d[..n]) + CpfSeparator(n) + [d[n]]
  {
    var p, q := d[..n], d[..n + 1];
    assert q == p + [d[n]];
    if n < 3 {
    } else if n == 3 {
      assert q[..3] == p && q[3..] == [d[n]];
    } else if n < 6 {
      assert q[..3] == p[..3] && q[3..] == p[3..] + [d[n]];
    } else if n == 6 {
      assert q[..3] == p[..3] && q[3..6] == p[3..] && q[6..] == [d[n]];
    } else if n < 9 {
      assert q[..3] == p[..3] && q[3..6] == p[3..6] && q[6..] == p[6..] + [d[n]];
    } else if n == 9 {
      assert q[..3] == p[..3] && q[3..6] == p[3..6] && q[6..9] == p[6..] && q[9..] == [d[n]];
    } else {
      assert q[..3] == p[..3] && q[3..6] == p[3..6] && q[6..9] == p[6..9] && q[9..] == p[9..] + [d[n]];
    }
  }

  /** One more character extends the CNPJ layout the way one more loop iteration does. */
  lemma CnpjLayoutSnoc(d: string, n: nat)
    requires n < |d|
    ensures CnpjLayout(d[..n + 1]) == CnpjLayout(d[..n]) + CnpjSeparator(n) + [d[n]]
  {
    var p, q := d[..n], d[..n + 1];
    assert q == p + [d[n]];
    if n < 2 {
    } else if n == 2 {
      assert q[..2] == p && q[2..] == [d[n]];
    } else if n < 5 {
      assert q[..2] == p[..2] && q[2..] == p[2..] + [d[n]];
    } else if n == 5 {
      assert q[..2] == p[..2] && q[2..5] == p[2..] && q[5..] == [d[n]];
    } else if n < 8 {
      assert q[..2] == p[..2] && q[2..5] == p[2..5] && q[5..] == p[5..] + [d[n]];
    } else if n == 8 {
      assert q[..2] == p[..2] && q[2..5] == p[2..5] && q[5..8] == p[5..] && q[8..] == [d[n]];
    } else if n < 12 {
      assert q[..2] == p[..2] && q[2..5] == p[2..5] && q[5..8] == p[5..8] && q[8..] == p[8..] + [d[n]];
    } else if n == 12 {
      assert q[..2] == p[..2] && q[2..5] == p[2..5] && q[5..8] == p[5..8] && q[8..12] == p[8..] && q[12..] == [d[n]];
    } else {
      assert q[..2] == p[..2] && q[2..5] == p[2..5] && q[5..8] == p[5..8] && q[8..12] == p[8..12] && q[12..] == p[12..] + [d[n]];
    }
  }

  /** One more character extends the layout the way one more loop iteration does. */
  lemma LayoutSnoc(kind: Kind, d: string, n: nat)
    requires n < |d|
    ensures Layout(kind, d[..n + 1]) == Layout(kind, d[..n]) + Separator(kind, n) + [d[n]]
  {
    match kind
    case Cpf => CpfLayoutSnoc(d, n);
    case Cnpj => CnpjLayoutSnoc(d, n);
  }

  /** After `n` iterations the loop has produced the layout of the first `n` characters. */
  lemma {:induction false} MaskLoopIsLayout(kind: Kind, value: string, n: nat)
    requires n <= |value|
    ensures MaskLoop(kind, value, n) == Layout(kind, value[..n])
  {
    if n > 0 {
      MaskLoopIsLayout(kind, value, n - 1);
      LayoutSnoc(kind, value, n - 1);
    }
  }

  /**
    `calcCpfCharacters` puts '.' before indices 3 and 6 and '-' before index 9 of
    any string, leaves strings of up to 3 characters untouched, and copies the
    characters after index 9 without further separators.
   */
  lemma CalcCpfCharactersLayout(value: string)
    ensures CalcCpfCharacters(value) == CpfLayout(value)
  {
    MaskLoopIsLayout(Cpf, value, |value|);
    assert value[..|value|] == value;
  }

  /**
    `calcCnpjCharacters` puts '.' before indices 2 and 5, '/' before 8 and '-'
    before 12 of any string, and leaves strings of up to 2 characters untouched.
   */
  lemma CalcCnpjCharactersLayout(value: string)
    ensures CalcCnpjCharacters(value) == CnpjLayout(value)
  {
    MaskLoopIsLayout(Cnpj, value, |value|);
    assert value[..|value|] == value;
  }

  /** Separators are never digits. */
  lemma StripSeparator(kind: Kind, i: nat)
    ensures StripNonDigits(Separator(kind, i)) == ""
  {
    StripNoDigits(Separator(kind, i));
  }

  /** Appending a separator and one character adds that character's digits only. */
  lemma StripSeparatorAndChar(prefix: string, kind: Kind, i: nat, c: char)
    ensures StripNonDigits(prefix + Separator(kind, i) + [c])
         == StripNonDigits(prefix) + (if IsDigit(c) then [c] else "")
  {
    StripSeparator(kind, i);
    StripConcat(prefix, Separator(kind, i));
    StripSnoc(prefix + Separator(kind, i), c);
  }

  /** One loop iteration adds the digits of one input character and nothing else. */
  lemma StripMaskLoopStep(kind: Kind, value: string, n: nat)
    requires 0 < n <= |value|
    ensures StripNonDigits(MaskLoop(kind, value, n))
         == StripNonDigits(MaskLoop(kind, value, n - 1)) + (if IsDigit(value[n - 1]) then [value[n - 1]] else "")
    ensures StripNonDigits(value[..n])
         == StripNonDigits(value[..n - 1]) + (if IsDigit(value[n - 1]) then [value[n - 1]] else "")
  {
    StripSeparatorAndChar(MaskLoop(kind, value, n - 1), kind, n - 1, value[n - 1]);
    StripSnoc(value[..n - 1], value[n - 1]);
    assert value[..n - 1] + [value[n - 1]] == value[..n];
  }

  /** The loop adds no digits: filtering its output gives the digits of what it has read. */
  lemma {:induction false} StripMaskLoop(kind: Kind, value: string, n: nat)
    requires n <= |value|
    ensures StripNonDigits(MaskLoop(kind, value, n)) == StripNonDigits(value[..n])
  {
    if n > 0 {
      StripMaskLoop(kind, value, n - 1);
      StripMaskLoopStep(kind, value, n);
    }
  }

  /** The separators add no digits: filtering a laid-out string gives back the digits put in. */
  lemma StripLayout(kind: Kind, d: string)
    ensures StripNonDigits(Layout(kind, d)) == StripNonDigits(d)
  {
    StripMaskLoop(kind, d, |d|);
    MaskLoopIsLayout(kind, d, |d|);
    assert d[..|d|] == d;
  }

  // ---------------------------------------------------------------------------
  // The public masks
  // ---------------------------------------------------------------------------

  /**
    `cpfMask(value)`: the cleaned CPF digits of `value` in the layout
    ###.###.###-##, cut after the last digit. Removing the separators gives the
    cleaned digits back.
   */
  function CpfMask(value: string): (r: string)
    ensures r == CpfLayout(CleanCpfCnpj(value, Cpf))
    ensures StripNonDigits(r) == CleanCpfCnpj(value, Cpf)
    ensures |r| <= 14
  {
    var realValue := CleanCpfCnpj(value, Cpf);
    CalcCpfCharactersLayout(realValue);
    StripLayout(Cpf, realValue);
    StripDigitString(realValue);
    CalcCpfCharacters(realValue)
  }

  /**
    `cnpjMask(value)`: the cleaned CNPJ digits of `value` in the layout
    ##.###.###/####-##, cut after the last digit. Removing the separators gives
    the cleaned digits back.
   */
  function CnpjMask(value: string): (r: string)
    ensures r == CnpjLayout(CleanCpfCnpj(value, Cnpj))
    ensures StripNonDigits(r) == CleanCpfCnpj(value, Cnpj)
    ensures |r| <= 18
  {
    var realValue := CleanCpfCnpj(value, Cnpj);
    CalcCnpjCharactersLayout(realValue);
    StripLayout(Cnpj, realValue);
    StripDigitString(realValue);
    CalcCnpjCharacters(realValue)
  }

  /**
    `cpfCnpjMask(value)` as written: the cleaned length (as a CNPJ) picks the
    layout, and the layout is applied to `value` itself, punctuation and extra
    digits included.
   */
  function CpfCnpjMask(value: string): (r: string)
    ensures |CleanCpfCnpj(value, Cnpj)| < 12 ==> r == CpfLayout(value)
    ensures |CleanCpfCnpj(value, Cnpj)| >= 12 ==> r == CnpjLayout(value)
  {
    var realValue := CleanCpfCnpj(value, Cnpj);
    CalcCpfCharactersLayout(value);
    CalcCnpjCharactersLayout(value);
    if |realValue| < 12 then CalcCpfCharacters(value) else CalcCnpjCharacters(value)
  }

  /**
    `cpfCnpjMask` as its documentation describes it: clean first, then choose
    the CPF or CNPJ mask by the number of digits.
   */
  function CpfCnpjMaskCleaned(value: string): (r: string)
    ensures |StripNonDigits(value)| < 12 ==> r == CpfMask(value)
    ensures |StripNonDigits(value)| >= 12 ==> r == CnpjMask(value)
    ensures StripNonDigits(r) == CleanCpfCnpj(value, Cnpj)
  {
    var realValue := CleanCpfCnpj(value, Cnpj);
    assert |StripNonDigits(value)| < 12 ==> realValue == CleanCpfCnpj(value, Cpf);
    StripLayout(Cpf, realValue);
    StripLayout(Cnpj, realValue);
    StripDigitString(realValue);
    CalcCpfCharactersLayout(realValue);
    CalcCnpjCharactersLayout(realValue);
    if |realValue| < 12 then CalcCpfCharacters(realValue) else CalcCnpjCharacters(realValue)
  }
}
