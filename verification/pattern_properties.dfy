/**
  How the mask patterns of src/utils/validation.tsx relate to the masks of
  src/utils/masks.tsx. A mask matches its pattern exactly when it is complete;
  with its dots escaped, a pattern matches exactly the complete masks; as
  written, the unescaped dots also let other separators through.
 */
module PatternProperties {
  import opened Digits
  import opened Masks
  import opened MaskProperties
  import opened Validation

  /** The pattern accepts the CPF mask of `value` exactly when `value` holds at least 11 digits. */
  lemma CpfPatternOfMask(value: string)
    ensures CpfPattern(CpfMask(value)) <==> |CleanCpfCnpj(value, Cpf)| == 11
    ensures StrictCpfPattern(CpfMask(value)) <==> |CleanCpfCnpj(value, Cpf)| == 11
  {
    var d := CleanCpfCnpj(value, Cpf);
    var r := CpfMask(value);
    CpfLayoutPositions(d);
    if |d| == 11 {
      assert forall i :: 0 <= i < 3 ==> r[..3][i] == d[i];
      assert forall i :: 0 <= i < 3 ==> r[4..7][i] == d[i + 3];
      assert forall i :: 0 <= i < 3 ==> r[8..11][i] == d[i + 6];
      assert forall i :: 0 <= i < 2 ==> r[12..][i] == d[i + 9];
    }
  }

  /** The pattern accepts the CNPJ mask of `value` exactly when `value` holds at least 14 digits. */
  lemma CnpjPatternOfMask(value: string)
    ensures CnpjPattern(CnpjMask(value)) <==> |CleanCpfCnpj(value, Cnpj)| == 14
    ensures StrictCnpjPattern(CnpjMask(value)) <==> |CleanCpfCnpj(value, Cnpj)| == 14
  {
    var d := CleanCpfCnpj(value, Cnpj);
    var r := CnpjMask(value);
    CnpjLayoutPositions(d);
    if |d| == 14 {
      assert forall i :: 0 <= i < 2 ==> r[..2][i] == d[i];
      assert forall i :: 0 <= i < 3 ==> r[3..6][i] == d[i + 2];
      assert forall i :: 0 <= i < 3 ==> r[7..10][i] == d[i + 5];
      assert forall i :: 0 <= i < 4 ==> r[11..15][i] == d[i + 8];
      assert forall i :: 0 <= i < 2 ==> r[16..][i] == d[i + 12];
    }
  }

  /** With its dots escaped, the CPF pattern accepts exactly the complete CPF masks. */
  lemma StrictCpfPatternIsMask(s: string)
    ensures StrictCpfPattern(s) <==> |s| == 14 && CpfMask(s) == s
  {
    if StrictCpfPattern(s) {
      var d := s[..3] + s[4..7] + s[8..11] + s[12..];
      assert d[..3] == s[..3] && d[3..6] == s[4..7] && d[6..9] == s[8..11] && d[9..] == s[12..];
      assert s == s[..3] + "." + s[4..7] + "." + s[8..11] + "-" + s[12..];
      StripOfLayout(Cpf, d, s);
    }
    if |s| == 14 && CpfMask(s) == s {
      CpfPatternOfMask(s);
      CpfLayoutPositions(CleanCpfCnpj(s, Cpf));
    }
  }

  /** With its dots escaped, the CNPJ pattern accepts exactly the complete CNPJ masks. */
  lemma StrictCnpjPatternIsMask(s: string)
    ensures StrictCnpjPattern(s) <==> |s| == 18 && CnpjMask(s) == s
  {
    if StrictCnpjPattern(s) {
      var d := s[..2] + s[3..6] + s[7..10] + s[11..15] + s[16..];
      assert d[..2] == s[..2] && d[2..5] == s[3..6] && d[5..8] == s[7..10];
      assert d[8..12] == s[11..15] && d[12..] == s[16..];
      assert s == s[..2] + "." + s[3..6] + "." + s[7..10] + "/" + s[11..15] + "-" + s[16..];
      StripOfLayout(Cnpj, d, s);
    }
    if |s| == 18 && CnpjMask(s) == s {
      CnpjPatternOfMask(s);
      CnpjLayoutPositions(CleanCpfCnpj(s, Cnpj));
    }
  }

  /**
    As written, the CPF pattern accepts letters where the mask writes dots. The
    escaped pattern rejects the string, so by `StrictCpfPatternIsMask` it is not
    a CPF mask.
   */
  lemma CpfPatternAcceptsOtherSeparators()
    ensures CpfPattern("111a111b111-11")
    ensures !StrictCpfPattern("111a111b111-11")
  {
    var s := "111a111b111-11";
    assert s[..3] == "111" && s[4..7] == "111" && s[8..11] == "111" && s[12..] == "11";
  }

  /** As written, the CNPJ pattern accepts letters where the mask writes dots. */
  lemma CnpjPatternAcceptsOtherSeparators()
    ensures CnpjPattern("11a111b111/1111-11")
    ensures !StrictCnpjPattern("11a111b111/1111-11")
  {
    var s := "11a111b111/1111-11";
    assert s[..2] == "11" && s[3..6] == "111" && s[7..10] == "111" && s[11..15] == "1111" && s[16..] == "11";
  }
}
