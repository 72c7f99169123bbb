/**
  Properties of the CPF validator of src/utils/validation.tsx: its check digits
  agree with the usual statement of the CPF algorithm, a string is accepted
  exactly when its eleven digits carry the right check digits and are not all
  the same, punctuation is irrelevant, and the documentation examples hold.
 */
module ValidationProperties {
  import opened Digits
  import opened Validation
  import opened MaskProperties

  // ---------------------------------------------------------------------------
  // The check digit as usually stated
  // ---------------------------------------------------------------------------

  /** The sum of the numbers, the first weighted by `start`, each next one by one more. */
  function AscendingSum(nums: seq<int>, start: int): int {
    if |nums| == 0 then 0
    else AscendingSum(nums[..|nums| - 1], start) + nums[|nums| - 1] * (start + |nums| - 1)
  }

  function Sum(nums: seq<int>): int {
    if |nums| == 0 then 0 else Sum(nums[..|nums| - 1]) + nums[|nums| - 1]
  }

  predicate AllDigitValues(nums: seq<int>) {
    forall i :: 0 <= i < |nums| ==> 0 <= nums[i] <= 9
  }

  /**
    The check digit as the CPF algorithm is usually stated: weight the digits
    1, 2, 3, ... (first check digit) or 0, 1, 2, ... (second check digit),
    take the remainder modulo 11, and write a remainder of 10 as 0.
   */
  function ReferenceCheckDigit(nums: seq<int>, w: int): int
    requires w == 10 || w == 11
  {
    (AscendingSum(nums, 11 - w) % 11) % 10
  }

  /** Descending weights from `w` and ascending weights from `11 - w` add up to 11 at every position. */
  lemma {:induction false} WeightsAddUp(nums: seq<int>, w: int)
    ensures WeightedSum(nums, w) + AscendingSum(nums, 11 - w) == 11 * Sum(nums)
  {
    if |nums| > 0 {
      var n := |nums|;
      WeightsAddUp(nums[..n - 1], w);
      assert nums[n - 1] * (w - (n - 1)) + nums[n - 1] * (11 - w + n - 1) == 11 * nums[n - 1];
    }
  }

  lemma {:induction false} WeightedSumNonNegative(nums: seq<int>, w: int)
    requires AllDigitValues(nums) && |nums| <= w + 1
    ensures WeightedSum(nums, w) >= 0
  {
    if |nums| > 0 {
      var n := |nums|;
      var prefix := nums[..n - 1];
      assert AllDigitValues(prefix) by {
        forall i | 0 <= i < |prefix| ensures 0 <= prefix[i] <= 9 {
          assert prefix[i] == nums[i];
        }
      }
      WeightedSumNonNegative(prefix, w);
      var x, y := nums[n - 1], w - (n - 1);
      assert 0 <= x && 0 <= y;
      assert x * y >= 0;
    }
  }

  lemma {:induction false} AscendingSumNonNegative(nums: seq<int>, start: int)
    requires AllDigitValues(nums) && start >= 0
    ensures AscendingSum(nums, start) >= 0
  {
    if |nums| > 0 {
      var n := |nums|;
      var prefix := nums[..n - 1];
      assert AllDigitValues(prefix) by {
        forall i | 0 <= i < |prefix| ensures 0 <= prefix[i] <= 9 {
          assert prefix[i] == nums[i];
        }
      }
      AscendingSumNonNegative(prefix, start);
      var x, y := nums[n - 1], start + n - 1;
      assert 0 <= x && 0 <= y;
      assert x * y >= 0;
    }
  }

  /** The remainder modulo 11 of a multiple of 11 plus a small number is that number. */
  lemma ModElevenOf(k: int, m: int)
    requires 0 <= m < 11
    ensures (11 * k + m) % 11 == m
  {
  }

  /**
    If two non-negative sums add up to a multiple of 11, the remainder of one
    determines the remainder of the other: they add up to 11, or both are 0.
   */
  lemma ComplementRemainder(s: int, t: int, n: int)
    requires s >= 0 && t >= 0 && s + t == 11 * n
    ensures t % 11 == (if s % 11 == 0 then 0 else 11 - s % 11)
  {
    var q, m := s / 11, s % 11;
    if m == 0 {
      ModElevenOf(n - q, 0);
    } else {
      assert t == 11 * (n - q - 1) + (11 - m);
      ModElevenOf(n - q - 1, 11 - m);
    }
  }

  /**
    On digits, with no more digits than the first weight, `calcDigit` computes
    the check digit of the usual statement of the algorithm. This covers both
    calls the validator makes: 9 digits from weight 10, 10 digits from weight 11.
   */
  lemma CalcDigitIsReference(nums: seq<int>, w: int)
    requires w == 10 || w == 11
    requires AllDigitValues(nums) && |nums| <= w
    ensures CalcDigit(nums, w) == ReferenceCheckDigit(nums, w)
  {
    var s, t := WeightedSum(nums, w), AscendingSum(nums, 11 - w);
    WeightsAddUp(nums, w);
    WeightedSumNonNegative(nums, w);
    AscendingSumNonNegative(nums, 11 - w);
    ComplementRemainder(s, t, Sum(nums));
    assert JsRemainder(s, 11) == s % 11;
  }

  // ---------------------------------------------------------------------------
  // What the validator accepts
  // ---------------------------------------------------------------------------

  /** The digit values of a prefix are the prefix of the digit values. */
  lemma DigitValuesPrefix(s: string, k: nat)
    requires IsDigitString(s) && k <= |s|
    ensures DigitValues(s[..k]) == DigitValues(s)[..k]
  {
  }

  /** Two digits with the same value are the same digit. */
  lemma DigitValueInjective(a: char, b: char)
    requires IsDigit(a) && IsDigit(b)
    ensures DigitValue(a) == DigitValue(b) <==> a == b
  {
  }

  /**
    `validateCpf` accepts exactly the strings whose digits are eleven, not one
    digit repeated, whose tenth digit is the check digit of the first nine and
    whose eleventh digit is the check digit of the first ten. In particular
    fewer or more than eleven digits are always rejected: nothing is cut off.
   */
  lemma ValidateCpfIff(cpf: string)
    ensures var d := StripNonDigits(cpf);
      ValidateCpf(cpf) <==>
        && |d| == 11
        && !RepeatedDigit(d)
        && DigitValue(d[9]) == ReferenceCheckDigit(DigitValues(d[..9]), 10)
        && DigitValue(d[10]) == ReferenceCheckDigit(DigitValues(d[..10]), 11)
  {
    var d := StripNonDigits(cpf);
    if |d| == 11 && !RepeatedDigit(d) {
      var base := d[..9];
      var r := CalcVerificationDigits(base);
      assert d[..10] == base + [d[9]];
      DigitValuesPrefix(d, 9);
      DigitValuesPrefix(d, 10);
      CalcDigitIsReference(DigitValues(base), 10);
      CalcDigitIsReference(DigitValues(d[..10]), 11);
      DigitValueInjective(d[9], r[0]);
      DigitValueInjective(d[10], r[1]);
      assert d[9..11] == r <==> d[9] == r[0] && d[10] == r[1];
    }
  }

  /** Punctuation and any other non-digit characters do not change the verdict. */
  lemma ValidateCpfIgnoresNonDigits(cpf: string)
    ensures ValidateCpf(cpf) == ValidateCpf(StripNonDigits(cpf))
  {
    StripIdempotent(cpf);
  }

  // ---------------------------------------------------------------------------
  // One digit repeated eleven times
  // ---------------------------------------------------------------------------

  function Repeat(c: char, n: nat): (s: string)
    ensures |s| == n && forall i :: 0 <= i < n ==> s[i] == c
  {
    seq(n, _ => c)
  }

  /** The sum of the weights `w`, `w - 1`, ... of `n` positions. */
  function WeightTotal(n: nat, w: int): int {
    if n == 0 then 0 else WeightTotal(n - 1, w) + (w - (n - 1))
  }

  lemma {:induction false} WeightedSumOfRepeat(n: nat, v: int, w: int)
    ensures WeightedSum(seq(n, _ => v), w) == v * WeightTotal(n, w)
  {
    if n > 0 {
      WeightedSumOfRepeat(n - 1, v, w);
      assert seq(n, _ => v)[..n - 1] == seq(n - 1, _ => v);
      assert v * WeightTotal(n - 1, w) + v * (w - (n - 1)) == v * WeightTotal(n, w);
    }
  }

  /** The check digit of `n` copies of the digit value `v`, for the two lengths the validator uses. */
  lemma CheckDigitOfRepeat(v: int, n: nat, w: int)
    requires 0 <= v <= 9
    requires (n == 9 && w == 10) || (n == 10 && w == 11)
    ensures CalcDigit(seq(n, _ => v), w) == v
  {
    WeightedSumOfRepeat(n, v, w);
    var total := WeightTotal(n, w);
    assert total == (if n == 9 then 54 else 65);
    if v > 0 {
      var k := if n == 9 then 5 * v - 1 else 6 * v - 1;
      assert v * total == 11 * k + (11 - v);
      ModElevenOf(k, 11 - v);
    }
  }

  /**
    Eleven copies of one digit always carry the right check digits: the weights
    of the first digit add up to 54 and those of the second to 65, both 10
    modulo 11, so each check digit comes out as the repeated digit itself.
    This is why `isCPFValid` has to reject such strings separately.
   */
  lemma RepeatedDigitPassesCheck(c: char)
    requires IsDigit(c)
    ensures var d := Repeat(c, 11);
      d[9..11] == CalcVerificationDigits(d[..9]) && !ValidateCpf(d)
  {
    var d := Repeat(c, 11);
    var v := DigitValue(c);
    var base := d[..9];
    assert DigitValues(base) == seq(9, _ => v);
    CheckDigitOfRepeat(v, 9, 10);
    var r := CalcVerificationDigits(base);
    DigitValueInjective(r[0], c);
    assert base + [r[0]] == d[..10];
    assert DigitValues(d[..10]) == seq(10, _ => v);
    CheckDigitOfRepeat(v, 10, 11);
    DigitValueInjective(r[1], c);
    assert d[9..11] == r;
    StripDigitString(d);
  }

  // ---------------------------------------------------------------------------
  // The documentation examples
  // ---------------------------------------------------------------------------

  /** The digits of the first half of "127.408.170-02". */
  lemma StripFirstExampleHead()
    ensures StripNonDigits("127.408") == "127408"
  {
    StripSnoc("", '1');
    var p1 := "" + ['1'];
    StripSnoc(p1, '2');
    var p2 := p1 + ['2'];
    StripSnoc(p2, '7');
    var p3 := p2 + ['7'];
    StripSnoc(p3, '.');
    var p4 := p3 + ['.'];
    StripSnoc(p4, '4');
    var p5 := p4 + ['4'];
    StripSnoc(p5, '0');
    var p6 := p5 + ['0'];
    StripSnoc(p6, '8');
    assert "127.408" == p6 + ['8'];
  }

  /** The digits of its second half. */
  lemma StripFirstExampleTail()
    ensures StripNonDigits(".170-02") == "17002"
  {
    StripSnoc("", '.');
    var p1 := "" + ['.'];
    StripSnoc(p1, '1');
    var p2 := p1 + ['1'];
    StripSnoc(p2, '7');
    var p3 := p2 + ['7'];
    StripSnoc(p3, '0');
    var p4 := p3 + ['0'];
    StripSnoc(p4, '-');
    var p5 := p4 + ['-'];
    StripSnoc(p5, '0');
    var p6 := p5 + ['0'];
    StripSnoc(p6, '2');
    assert ".170-02" == p6 + ['2'];
  }

  /** The digits of the first documentation example. */
  lemma StripFirstExample()
    ensures StripNonDigits("127.408.170-02") == "12740817002"
  {
    StripFirstExampleHead();
    StripFirstExampleTail();
    StripConcat("127.408", ".170-02");
    assert "127.408.170-02" == "127.408" + ".170-02";
  }

  /** The digits of the first half of "123.456.789-01". */
  lemma StripLastExampleHead()
    ensures StripNonDigits("123.456") == "123456"
  {
    StripSnoc("", '1');
    var p1 := "" + ['1'];
    StripSnoc(p1, '2');
    var p2 := p1 + ['2'];
    StripSnoc(p2, '3');
    var p3 := p2 + ['3'];
    StripSnoc(p3, '.');
    var p4 := p3 + ['.'];
    StripSnoc(p4, '4');
    var p5 := p4 + ['4'];
    StripSnoc(p5, '5');
    var p6 := p5 + ['5'];
    StripSnoc(p6, '6');
    assert "123.456" == p6 + ['6'];
  }

  /** The digits of its second half. */
  lemma StripLastExampleTail()
    ensures StripNonDigits(".789-01") == "78901"
  {
    StripSnoc("", '.');
    var p1 := "" + ['.'];
    StripSnoc(p1, '7');
    var p2 := p1 + ['7'];
    StripSnoc(p2, '8');
    var p3 := p2 + ['8'];
    StripSnoc(p3, '9');
    var p4 := p3 + ['9'];
    StripSnoc(p4, '-');
    var p5 := p4 + ['-'];
    StripSnoc(p5, '0');
    var p6 := p5 + ['0'];
    StripSnoc(p6, '1');
    assert ".789-01" == p6 + ['1'];
  }

  /** The digits of the last documentation example. */
  lemma StripLastExample()
    ensures StripNonDigits("123.456.789-01") == "12345678901"
  {
    StripLastExampleHead();
    StripLastExampleTail();
    StripConcat("123.456", ".789-01");
    assert "123.456.789-01" == "123.456" + ".789-01";
  }

  /** The weighted sum of "127408170" from weight 10 is 177, so the first check digit is 0. */
  lemma CheckDigitsOfFirstExampleFirst()
    ensures CalcDigit(DigitValues("127408170"), 10) == 0
  {
    assert DigitValues("127408170") == [1, 2, 7, 4, 0, 8, 1, 7, 0];
    assert WeightedSum([1], 10) == 10;
    assert [1, 2][..1] == [1];
    assert WeightedSum([1, 2], 10) == 28;
    assert [1, 2, 7][..2] == [1, 2];
    assert WeightedSum([1, 2, 7], 10) == 84;
    assert [1, 2, 7, 4][..3] == [1, 2, 7];
    assert WeightedSum([1, 2, 7, 4], 10) == 112;
    assert [1, 2, 7, 4, 0][..4] == [1, 2, 7, 4];
    assert WeightedSum([1, 2, 7, 4, 0], 10) == 112;
    assert [1, 2, 7, 4, 0, 8][..5] == [1, 2, 7, 4, 0];
    assert WeightedSum([1, 2, 7, 4, 0, 8], 10) == 152;
    assert [1, 2, 7, 4, 0, 8, 1][..6] == [1, 2, 7, 4, 0, 8];
    assert WeightedSum([1, 2, 7, 4, 0, 8, 1], 10) == 156;
    assert [1, 2, 7, 4, 0, 8, 1, 7][..7] == [1, 2, 7, 4, 0, 8, 1];
    assert WeightedSum([1, 2, 7, 4, 0, 8, 1, 7], 10) == 177;
    assert [1, 2, 7, 4, 0, 8, 1, 7, 0][..8] == [1, 2, 7, 4, 0, 8, 1, 7];
    assert WeightedSum([1, 2, 7, 4, 0, 8, 1, 7, 0], 10) == 177;
  }

  /** The weighted sum of "1274081700" from weight 11 is 207, so the second check digit is 2. */
  lemma CheckDigitsOfFirstExampleSecond()
    ensures CalcDigit(DigitValues("1274081700"), 11) == 2
  {
    assert DigitValues("1274081700") == [1, 2, 7, 4, 0, 8, 1, 7, 0, 0];
    assert WeightedSum([1], 11) == 11;
    assert [1, 2][..1] == [1];
    assert WeightedSum([1, 2], 11) == 31;
    assert [1, 2, 7][..2] == [1, 2];
    assert WeightedSum([1, 2, 7], 11) == 94;
    assert [1, 2, 7, 4][..3] == [1, 2, 7];
    assert WeightedSum([1, 2, 7, 4], 11) == 126;
    assert [1, 2, 7, 4, 0][..4] == [1, 2, 7, 4];
    assert WeightedSum([1, 2, 7, 4, 0], 11) == 126;
    assert [1, 2, 7, 4, 0, 8][..5] == [1, 2, 7, 4, 0];
    assert WeightedSum([1, 2, 7, 4, 0, 8], 11) == 174;
    assert [1, 2, 7, 4, 0, 8, 1][..6] == [1, 2, 7, 4, 0, 8];
    assert WeightedSum([1, 2, 7, 4, 0, 8, 1], 11) == 179;
    assert [1, 2, 7, 4, 0, 8, 1, 7][..7] == [1, 2, 7, 4, 0, 8, 1];
    assert WeightedSum([1, 2, 7, 4, 0, 8, 1, 7], 11) == 207;
    assert [1, 2, 7, 4, 0, 8, 1, 7, 0][..8] == [1, 2, 7, 4, 0, 8, 1, 7];
    assert WeightedSum([1, 2, 7, 4, 0, 8, 1, 7, 0], 11) == 207;
    assert [1, 2, 7, 4, 0, 8, 1, 7, 0, 0][..9] == [1, 2, 7, 4, 0, 8, 1, 7, 0];
    assert WeightedSum([1, 2, 7, 4, 0, 8, 1, 7, 0, 0], 11) == 207;
  }

  lemma CheckDigitsOfFirstExample()
    ensures CalcVerificationDigits("127408170") == "02"
  {
    CheckDigitsOfFirstExampleFirst();
    assert "127408170" + ["0"[0]] == "1274081700";
    CheckDigitsOfFirstExampleSecond();
  }

  /** The weighted sum of "123456789" from weight 10 is 210, so the first check digit is 0. */
  lemma CheckDigitsOfLastExampleFirst()
    ensures CalcDigit(DigitValues("123456789"), 10) == 0
  {
    assert DigitValues("123456789") == [1, 2, 3, 4, 5, 6, 7, 8, 9];
    assert WeightedSum([1], 10) == 10;
    assert [1, 2][..1] == [1];
    assert WeightedSum([1, 2], 10) == 28;
    assert [1, 2, 3][..2] == [1, 2];
    assert WeightedSum([1, 2, 3], 10) == 52;
    assert [1, 2, 3, 4][..3] == [1, 2, 3];
    assert WeightedSum([1, 2, 3, 4], 10) == 80;
    assert [1, 2, 3, 4, 5][..4] == [1, 2, 3, 4];
    assert WeightedSum([1, 2, 3, 4, 5], 10) == 110;
    assert [1, 2, 3, 4, 5, 6][..5] == [1, 2, 3, 4, 5];
    assert WeightedSum([1, 2, 3, 4, 5, 6], 10) == 140;
    assert [1, 2, 3, 4, 5, 6, 7][..6] == [1, 2, 3, 4, 5, 6];
    assert WeightedSum([1, 2, 3, 4, 5, 6, 7], 10) == 168;
    assert [1, 2, 3, 4, 5, 6, 7, 8][..7] == [1, 2, 3, 4, 5, 6, 7];
    assert WeightedSum([1, 2, 3, 4, 5, 6, 7, 8], 10) == 192;
    assert [1, 2, 3, 4, 5, 6, 7, 8, 9][..8] == [1, 2, 3, 4, 5, 6, 7, 8];
    assert WeightedSum([1, 2, 3, 4, 5, 6, 7, 8, 9], 10) == 210;
  }

  /** The weighted sum of "1234567890" from weight 11 is 255, so the second check digit is 9. */
  lemma CheckDigitsOfLastExampleSecond()
    ensures CalcDigit(DigitValues("1234567890"), 11) == 9
  {
    assert DigitValues("1234567890") == [1, 2, 3, 4, 5, 6, 7, 8, 9, 0];
    assert WeightedSum([1], 11) == 11;
    assert [1, 2][..1] == [1];
    assert WeightedSum([1, 2], 11) == 31;
    assert [1, 2, 3][..2] == [1, 2];
    assert WeightedSum([1, 2, 3], 11) == 58;
    assert [1, 2, 3, 4][..3] == [1, 2, 3];
    assert WeightedSum([1, 2, 3, 4], 11) == 90;
    assert [1, 2, 3, 4, 5][..4] == [1, 2, 3, 4];
    assert WeightedSum([1, 2, 3, 4, 5], 11) == 125;
    assert [1, 2, 3, 4, 5, 6][..5] == [1, 2, 3, 4, 5];
    assert WeightedSum([1, 2, 3, 4, 5, 6], 11) == 161;
    assert [1, 2, 3, 4, 5, 6, 7][..6] == [1, 2, 3, 4, 5, 6];
    assert WeightedSum([1, 2, 3, 4, 5, 6, 7], 11) == 196;
    assert [1, 2, 3, 4, 5, 6, 7, 8][..7] == [1, 2, 3, 4, 5, 6, 7];
    assert WeightedSum([1, 2, 3, 4, 5, 6, 7, 8], 11) == 228;
    assert [1, 2, 3, 4, 5, 6, 7, 8, 9][..8] == [1, 2, 3, 4, 5, 6, 7, 8];
    assert WeightedSum([1, 2, 3, 4, 5, 6, 7, 8, 9], 11) == 255;
    assert [1, 2, 3, 4, 5, 6, 7, 8, 9, 0][..9] == [1, 2, 3, 4, 5, 6, 7, 8, 9];
    assert WeightedSum([1, 2, 3, 4, 5, 6, 7, 8, 9, 0], 11) == 255;
  }

  lemma CheckDigitsOfLastExample()
    ensures CalcVerificationDigits("123456789") == "09"
  {
    CheckDigitsOfLastExampleFirst();
    assert "123456789" + ["0"[0]] == "1234567890";
    CheckDigitsOfLastExampleSecond();
  }

  /** A CPF with correct check digits passes, with or without its punctuation. */
  lemma ValidateCpfAcceptsExample()
    ensures ValidateCpf("127.408.170-02")
    ensures ValidateCpf("12740817002")
  {
    StripFirstExample();
    StripDigitString("12740817002");
    var d := "12740817002";
    assert d[..9] == "127408170" && d[9..11] == "02";
    CheckDigitsOfFirstExample();
  }

  /** One digit repeated is rejected, and so is a wrong second check digit. */
  lemma ValidateCpfRejectsExamples()
    ensures !ValidateCpf("111.111.111-11")
    ensures !ValidateCpf("123.456.789-01")
  {
    CleanPunctuatedCpf();
    StripLastExample();
    var d := "12345678901";
    assert d[..9] == "123456789" && d[9..11] == "01";
    CheckDigitsOfLastExample();
  }
}
