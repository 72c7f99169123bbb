/**
  Properties of the sanitiser and the masks of src/utils/masks.tsx: the
  sanitiser is idempotent, masking round-trips, separators sit exactly where
  the layouts put them, partial input gives a prefix of the full mask, and the
  documentation examples hold.
 */
module MaskProperties {
  import opened Digits
  import opened Masks

  // ---------------------------------------------------------------------------
  // The sanitiser
  // ---------------------------------------------------------------------------

  /** A digit string that already fits is its own cleaned value. */
  lemma CleanDigitString(d: string, kind: Kind)
    requires IsDigitString(d) && |d| <= MaxLength(kind)
    ensures CleanCpfCnpj(d, kind) == d
  {
    StripDigitString(d);
  }

  /** Cleaning twice is cleaning once. */
  lemma CleanIdempotent(value: string, kind: Kind)
    ensures CleanCpfCnpj(CleanCpfCnpj(value, kind), kind) == CleanCpfCnpj(value, kind)
  {
    CleanDigitString(CleanCpfCnpj(value, kind), kind);
  }

  /** Cleaning as a CPF keeps the first 11 of the digits cleaning as a CNPJ keeps. */
  lemma CleanCpfOfCnpj(value: string)
    ensures CleanCpfCnpj(value, Cpf) <= CleanCpfCnpj(value, Cnpj)
    ensures |CleanCpfCnpj(value, Cnpj)| <= 11 ==> CleanCpfCnpj(value, Cpf) == CleanCpfCnpj(value, Cnpj)
  {
  }

  /** Cleaning a prefix of the input gives a prefix of the cleaned input. */
  lemma CleanPrefix(value: string, k: nat, kind: Kind)
    requires k <= |value|
    ensures CleanCpfCnpj(value[..k], kind) <= CleanCpfCnpj(value, kind)
  {
    StripPrefix(value, k);
  }

  /** The digits of the noisy `cleanCpfCnpj` example, a few characters at a time. */
  lemma StripNoisyPart1()
    ensures StripNonDigits("11.a111") == "11111"
  {
    StripSnoc("", '1');
    var p1 := "" + ['1'];
    StripSnoc(p1, '1');
    var p2 := p1 + ['1'];
    StripSnoc(p2, '.');
    var p3 := p2 + ['.'];
    StripSnoc(p3, 'a');
    var p4 := p3 + ['a'];
    StripSnoc(p4, '1');
    var p5 := p4 + ['1'];
    StripSnoc(p5, '1');
    var p6 := p5 + ['1'];
    StripSnoc(p6, '1');
    assert "11.a111" == p6 + ['1'];
  }

  /** Its second part. */
  lemma StripNoisyPart2()
    ensures StripNonDigits(".111b/") == "111"
  {
    StripSnoc("", '.');
    var p1 := "" + ['.'];
    StripSnoc(p1, '1');
    var p2 := p1 + ['1'];
    StripSnoc(p2, '1');
    var p3 := p2 + ['1'];
    StripSnoc(p3, '1');
    var p4 := p3 + ['1'];
    StripSnoc(p4, 'b');
    var p5 := p4 + ['b'];
    StripSnoc(p5, '/');
    assert ".111b/" == p5 + ['/'];
  }

  /** Its third part. */
  lemma StripNoisyPart3()
    ensures StripNonDigits("1111-11") == "111111"
  {
    StripSnoc("", '1');
    var p1 := "" + ['1'];
    StripSnoc(p1, '1');
    var p2 := p1 + ['1'];
    StripSnoc(p2, '1');
    var p3 := p2 + ['1'];
    StripSnoc(p3, '1');
    var p4 := p3 + ['1'];
    StripSnoc(p4, '-');
    var p5 := p4 + ['-'];
    StripSnoc(p5, '1');
    var p6 := p5 + ['1'];
    StripSnoc(p6, '1');
    assert "1111-11" == p6 + ['1'];
  }

  /** Its last part. */
  lemma StripNoisyPart4()
    ensures StripNonDigits("b1111") == "1111"
  {
    StripSnoc("", 'b');
    var p1 := "" + ['b'];
    StripSnoc(p1, '1');
    var p2 := p1 + ['1'];
    StripSnoc(p2, '1');
    var p3 := p2 + ['1'];
    StripSnoc(p3, '1');
    var p4 := p3 + ['1'];
    StripSnoc(p4, '1');
    assert "b1111" == p4 + ['1'];
  }

  /** Filtering a laid-out digit string gives the digit string. */
  lemma StripOfLayout(kind: Kind, d: string, m: string)
    requires IsDigitString(d) && Layout(kind, d) == m
    ensures StripNonDigits(m) == d
  {
    StripLayout(kind, d);
    StripDigitString(d);
  }

  lemma CleanPunctuatedCpf()
    ensures StripNonDigits("111.111.111-11") == "11111111111"
  {
    CpfLayoutOf11Digits();
    StripOfLayout(Cpf, "11111111111", "111.111.111-11");
  }

  lemma CleanPunctuatedCnpj()
    ensures StripNonDigits("11.111.111/1111-11") == "11111111111111"
  {
    CnpjLayoutOf14Digits();
    StripOfLayout(Cnpj, "11111111111111", "11.111.111/1111-11");
  }

  lemma CleanNoisyCnpj()
    ensures StripNonDigits("11.a111.111b/1111-11b1111") == "111111111111111111"
  {
    StripNoisyPart1();
    StripNoisyPart2();
    StripNoisyPart3();
    StripNoisyPart4();
    StripConcat("11.a111", ".111b/");
    StripConcat("11.a111" + ".111b/", "1111-11");
    StripConcat("11.a111" + ".111b/" + "1111-11", "b1111");
    assert "11.a111.111b/1111-11b1111" == "11.a111" + ".111b/" + "1111-11" + "b1111";
  }

  // ---------------------------------------------------------------------------
  // Masks of partial input
  // ---------------------------------------------------------------------------

  lemma {:induction false} MaskLoopPrefix(kind: Kind, value: string, n: nat, m: nat)
    requires n <= m <= |value|
    ensures MaskLoop(kind, value, n) <= MaskLoop(kind, value, m)
  {
    if n < m {
      MaskLoopPrefix(kind, value, n, m - 1);
    }
  }

  /** Laying out a prefix gives a prefix of the layout. */
  lemma LayoutPrefix(kind: Kind, p: string, q: string)
    requires p <= q
    ensures Layout(kind, p) <= Layout(kind, q)
  {
    MaskLoopIsLayout(kind, q, |p|);
    MaskLoopIsLayout(kind, q, |q|);
    MaskLoopPrefix(kind, q, |p|, |q|);
    assert q[..|p|] == p;
    assert q[..|q|] == q;
  }

  /** While a CPF is being typed, each mask shown is a prefix of the next. */
  lemma CpfMaskPrefix(value: string, k: nat)
    requires k <= |value|
    ensures CpfMask(value[..k]) <= CpfMask(value)
  {
    CleanPrefix(value, k, Cpf);
    LayoutPrefix(Cpf, CleanCpfCnpj(value[..k], Cpf), CleanCpfCnpj(value, Cpf));
  }

  /** While a CNPJ is being typed, each mask shown is a prefix of the next. */
  lemma CnpjMaskPrefix(value: string, k: nat)
    requires k <= |value|
    ensures CnpjMask(value[..k]) <= CnpjMask(value)
  {
    CleanPrefix(value, k, Cnpj);
    LayoutPrefix(Cnpj, CleanCpfCnpj(value[..k], Cnpj), CleanCpfCnpj(value, Cnpj));
  }

  // ---------------------------------------------------------------------------
  // Round trips
  // ---------------------------------------------------------------------------

  /** A CPF digit string of at most 11 digits survives masking and cleaning. */
  lemma CpfMaskRoundTrip(d: string)
    requires IsDigitString(d) && |d| <= 11
    ensures StripNonDigits(CpfMask(d)) == d
    ensures CleanCpfCnpj(CpfMask(d), Cpf) == d
  {
    CleanDigitString(d, Cpf);
  }

  /** A CNPJ digit string of at most 14 digits survives masking and cleaning. */
  lemma CnpjMaskRoundTrip(d: string)
    requires IsDigitString(d) && |d| <= 14
    ensures StripNonDigits(CnpjMask(d)) == d
    ensures CleanCpfCnpj(CnpjMask(d), Cnpj) == d
  {
    CleanDigitString(d, Cnpj);
  }

  /** Masking an already masked value changes nothing. */
  lemma CpfMaskIdempotent(value: string)
    ensures CpfMask(CpfMask(value)) == CpfMask(value)
  {
    CleanDigitString(CleanCpfCnpj(value, Cpf), Cpf);
  }

  lemma CnpjMaskIdempotent(value: string)
    ensures CnpjMask(CnpjMask(value)) == CnpjMask(value)
  {
    CleanDigitString(CleanCpfCnpj(value, Cnpj), Cnpj);
  }

  // ---------------------------------------------------------------------------
  // Where the separators are
  // ---------------------------------------------------------------------------

  function Count(b: bool): nat {
    if b then 1 else 0
  }

  /** The index in the digits of the character at position `i` of a CPF mask, `i` not a separator. */
  function CpfDigitIndex(i: int): int {
    if i < 3 then i else if i < 7 then i - 1 else if i < 11 then i - 2 else i - 3
  }

  /** The index in the digits of the character at position `i` of a CNPJ mask, `i` not a separator. */
  function CnpjDigitIndex(i: int): int {
    if i < 2 then i else if i < 6 then i - 1 else if i < 10 then i - 2 else if i < 15 then i - 3 else i - 4
  }

  /**
    The CPF layout of `d` has '.' at positions 3 and 7 and '-' at position 11,
    each present exactly when a character of `d` follows it, and the characters
    of `d`, in order, everywhere else.
   */
  lemma CpfLayoutPositions(d: string)
    ensures var r := CpfLayout(d);
      && |r| == |d| + Count(|d| > 3) + Count(|d| > 6) + Count(|d| > 9)
      && (|d| > 3 ==> r[3] == '.')
      && (|d| > 6 ==> r[7] == '.')
      && (|d| > 9 ==> r[11] == '-')
      && forall i :: 0 <= i < |r| && i != 3 && i != 7 && i != 11 ==>
           0 <= CpfDigitIndex(i) < |d| && r[i] == d[CpfDigitIndex(i)]
  {
    var r := CpfLayout(d);
    forall i | 0 <= i < |r| && i != 3 && i != 7 && i != 11
      ensures 0 <= CpfDigitIndex(i) < |d| && r[i] == d[CpfDigitIndex(i)]
    {
    }
  }

  /**
    The CNPJ layout of `d` has '.' at positions 2 and 6, '/' at 10 and '-' at
    15, each present exactly when a character of `d` follows it, and the
    characters of `d`, in order, everywhere else.
   */
  lemma CnpjLayoutPositions(d: string)
    ensures var r := CnpjLayout(d);
      && |r| == |d| + Count(|d| > 2) + Count(|d| > 5) + Count(|d| > 8) + Count(|d| > 12)
      && (|d| > 2 ==> r[2] == '.')
      && (|d| > 5 ==> r[6] == '.')
      && (|d| > 8 ==> r[10] == '/')
      && (|d| > 12 ==> r[15] == '-')
      && forall i :: 0 <= i < |r| && i != 2 && i != 6 && i != 10 && i != 15 ==>
           0 <= CnpjDigitIndex(i) < |d| && r[i] == d[CnpjDigitIndex(i)]
  {
    var r := CnpjLayout(d);
    forall i | 0 <= i < |r| && i != 2 && i != 6 && i != 10 && i != 15
      ensures 0 <= CnpjDigitIndex(i) < |d| && r[i] == d[CnpjDigitIndex(i)]
    {
    }
  }

  /** Every character of a CPF mask that is not a separator is a digit. */
  lemma CpfMaskDigits(value: string)
    ensures var r := CpfMask(value);
      forall i :: 0 <= i < |r| && i != 3 && i != 7 && i != 11 ==> IsDigit(r[i])
  {
    CpfLayoutPositions(CleanCpfCnpj(value, Cpf));
  }

  /** Every character of a CNPJ mask that is not a separator is a digit. */
  lemma CnpjMaskDigits(value: string)
    ensures var r := CnpjMask(value);
      forall i :: 0 <= i < |r| && i != 2 && i != 6 && i != 10 && i != 15 ==> IsDigit(r[i])
  {
    CnpjLayoutPositions(CleanCpfCnpj(value, Cnpj));
  }

  // ---------------------------------------------------------------------------
  // The combined mask
  // ---------------------------------------------------------------------------

  /** On up to 14 plain digits `cpfCnpjMask` is `cpfMask` below 12 digits and `cnpjMask` from 12 on. */
  lemma CpfCnpjMaskOnDigits(d: string)
    requires IsDigitString(d) && |d| <= 14
    ensures |d| < 12 ==> CpfCnpjMask(d) == CpfMask(d)
    ensures |d| >= 12 ==> CpfCnpjMask(d) == CnpjMask(d)
  {
    CleanDigitString(d, Cnpj);
    if |d| < 12 {
      CleanDigitString(d, Cpf);
    }
  }

  /** Callers that clean before calling see no difference between the two. */
  lemma CpfCnpjMaskOnCleanedInput(value: string)
    ensures CpfCnpjMask(CleanCpfCnpj(value, Cnpj)) == CpfCnpjMaskCleaned(value)
  {
    var d := CleanCpfCnpj(value, Cnpj);
    CleanDigitString(d, Cnpj);
    CalcCpfCharactersLayout(d);
    CalcCnpjCharactersLayout(d);
  }

  // ---------------------------------------------------------------------------
  // The documentation examples. Each layout of a literal is proved piece by
  // piece; each mask example then reduces to the layout of its cleaned value.
  // ---------------------------------------------------------------------------

  lemma CpfLayoutOf4Digits()
    ensures CpfLayout("1111") == "111.1"
  {
    var d := "1111";
    assert d[..3] == "111";
    assert d[3..] == "1";
  }

  lemma CpfLayoutOf9Digits()
    ensures CpfLayout("111111111") == "111.111.111"
  {
    var d := "111111111";
    assert d[..3] == "111";
    assert d[3..6] == "111";
    assert d[6..] == "111";
  }

  lemma CpfLayoutOf11Digits()
    ensures CpfLayout("11111111111") == "111.111.111-11"
  {
    var d := "11111111111";
    assert d[..3] == "111";
    assert d[3..6] == "111";
    assert d[6..9] == "111";
    assert d[9..] == "11";
  }

  lemma CpfLayoutOfPunctuatedCpf()
    ensures CpfLayout("111.111.111-11") == "111..11.1.1-11-11"
  {
    var d := "111.111.111-11";
    assert d[..3] == "111";
    assert d[3..6] == ".11";
    assert d[6..9] == "1.1";
    assert d[9..] == "11-11";
  }

  lemma CnpjLayoutOf3Digits()
    ensures CnpjLayout("111") == "11.1"
  {
    var d := "111";
    assert d[..2] == "11";
    assert d[2..] == "1";
  }

  lemma CnpjLayoutOf11Digits()
    ensures CnpjLayout("11111111111") == "11.111.111/111"
  {
    var d := "11111111111";
    assert d[..2] == "11";
    assert d[2..5] == "111";
    assert d[5..8] == "111";
    assert d[8..] == "111";
  }

  lemma CnpjLayoutOf12Digits()
    ensures CnpjLayout("111111111111") == "11.111.111/1111"
  {
    var d := "111111111111";
    assert d[..2] == "11";
    assert d[2..5] == "111";
    assert d[5..8] == "111";
    assert d[8..] == "1111";
  }

  lemma CnpjLayoutOf14Digits()
    ensures CnpjLayout("11111111111111") == "11.111.111/1111-11"
  {
    var d := "11111111111111";
    assert d[..2] == "11";
    assert d[2..5] == "111";
    assert d[5..8] == "111";
    assert d[8..12] == "1111";
    assert d[12..] == "11";
  }

  lemma CnpjLayoutOf15Digits()
    ensures CnpjLayout("111111111111111") == "11.111.111/1111-111"
  {
    var d := "111111111111111";
    assert d[..2] == "11";
    assert d[2..5] == "111";
    assert d[5..8] == "111";
    assert d[8..12] == "1111";
    assert d[12..] == "111";
  }

  /** The examples in the documentation of `cleanCpfCnpj`. */
  lemma CleanExamples()
    ensures CleanCpfCnpj("111.111.111-11", Cpf) == "11111111111"
    ensures CleanCpfCnpj("11.111.111/1111-11", Cpf) == "11111111111"
    ensures CleanCpfCnpj("11.111.111/1111-11", Cnpj) == "11111111111111"
    ensures CleanCpfCnpj("11.a111.111b/1111-11b1111", Cnpj) == "11111111111111"
  {
    CleanPunctuatedCpf();
    CleanPunctuatedCnpj();
    CleanNoisyCnpj();
  }

  lemma CpfMaskOf11Digits()
    ensures CpfMask("11111111111") == "111.111.111-11"
  {
    StripDigitString("11111111111");
    assert CleanCpfCnpj("11111111111", Cpf) == "11111111111";
    CpfLayoutOf11Digits();
  }

  lemma CpfMaskOf14Digits()
    ensures CpfMask("11111111111111") == "111.111.111-11"
  {
    StripDigitString("11111111111111");
    assert "11111111111111"[..11] == "11111111111";
    CpfLayoutOf11Digits();
  }

  lemma CpfMaskOfShortInput()
    ensures CpfMask("111") == "111"
    ensures CpfMask("1111") == "111.1"
  {
    StripDigitString("111");
    StripDigitString("1111");
    CpfLayoutOf4Digits();
  }

  /** `cpfMask` on 11 digits, and on 14 digits, which it cuts to 11 before masking. */
  lemma CpfMaskExamples()
    ensures CpfMask("11111111111") == "111.111.111-11"
    ensures CpfMask("11111111111111") == "111.111.111-11"
    ensures CpfMask("111") == "111"
    ensures CpfMask("1111") == "111.1"
  {
    CpfMaskOf11Digits();
    CpfMaskOf14Digits();
    CpfMaskOfShortInput();
  }

  /** `cnpjMask` on 14 digits, and on the 11 digits of a CPF, which give an incomplete CNPJ. */
  lemma CnpjMaskExamples()
    ensures CnpjMask("11111111111111") == "11.111.111/1111-11"
    ensures CnpjMask("11111111111") == "11.111.111/111"
    ensures CnpjMask("11") == "11"
    ensures CnpjMask("111") == "11.1"
  {
    StripDigitString("11111111111111");
    CnpjLayoutOf14Digits();
    StripDigitString("11111111111");
    CnpjLayoutOf11Digits();
    StripDigitString("11");
    StripDigitString("111");
    CnpjLayoutOf3Digits();
  }

  /** The examples in the documentation of `cpfCnpjMask`. */
  lemma CpfCnpjMaskExamples()
    ensures CpfCnpjMask("11111111111") == "111.111.111-11"
    ensures CpfCnpjMask("11111111111111") == "11.111.111/1111-11"
    ensures CpfCnpjMask("111111111") == "111.111.111"
    ensures CpfCnpjMask("111111111111") == "11.111.111/1111"
  {
    StripDigitString("11111111111");
    CpfLayoutOf11Digits();
    StripDigitString("11111111111111");
    CnpjLayoutOf14Digits();
    StripDigitString("111111111");
    CpfLayoutOf9Digits();
    StripDigitString("111111111111");
    CnpjLayoutOf12Digits();
  }

  /**
    `cpfCnpjMask` as written lays out the raw argument: a punctuated CPF is
    punctuated a second time, so the result is not a CPF mask, while the
    documented behaviour gives the CPF mask. Digits past the fourteenth are
    kept: the mask of 15 digits holds 15 digits, where `cnpjMask` keeps 14.
   */
  lemma CpfCnpjMaskRawArgument()
    ensures CpfCnpjMask("111.111.111-11") == "111..11.1.1-11-11"
    ensures CpfCnpjMaskCleaned("111.111.111-11") == "111.111.111-11"
    ensures CpfCnpjMask("111111111111111") == "11.111.111/1111-111"
    ensures CnpjMask("111111111111111") == "11.111.111/1111-11"
  {
    CleanPunctuatedCpf();
    CpfLayoutOfPunctuatedCpf();
    CpfLayoutOf11Digits();
    StripDigitString("111111111111111");
    CnpjLayoutOf15Digits();
    assert "111111111111111"[..14] == "11111111111111";
    CnpjLayoutOf14Digits();
  }
}
