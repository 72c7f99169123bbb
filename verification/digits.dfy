/**
  Decimal digits as the library's regular expressions see them. `\d`, `[0-9]`
  and the complement `\D` (all used without the `u` flag) speak only of the ten
  ASCII characters '0' to '9'; replacing every match of `/\D/g` by nothing
  therefore keeps exactly those characters of a string, in order.
 */
module Digits {

  predicate IsDigit(c: char) {
    '0' <= c <= '9'
  }

  predicate IsDigitString(s: string) {
    forall i :: 0 <= i < |s| ==> IsDigit(s[i])
  }

  /** The numeric value of a digit character, as a base-10 parse of that one character gives it. */
  function DigitValue(c: char): (n: int)
    requires IsDigit(c)
    ensures 0 <= n <= 9
  {
    c as int - '0' as int
  }

  /** The character a template string prints for a number in 0..9. */
  function DigitChar(n: int): (c: char)
    requires 0 <= n <= 9
    ensures IsDigit(c)
    ensures DigitValue(c) == n
  {
    ('0' as int + n) as char
  }

  lemma DigitCharOfValue(c: char)
    requires IsDigit(c)
    ensures DigitChar(DigitValue(c)) == c
  {
  }

  /** The non-digit filter of `cleanCpfCnpj` and `isCPFValid`: the digits of `s`, in their original order. */
  function StripNonDigits(s: string): (r: string)
    ensures IsDigitString(r)
    ensures |r| <= |s|
  {
    if |s| == 0 then ""
    else StripNonDigits(s[..|s| - 1]) + (if IsDigit(s[|s| - 1]) then [s[|s| - 1]] else "")
  }

  /** A string that is already all digits is left alone. */
  lemma {:induction false} StripDigitString(s: string)
    requires IsDigitString(s)
    ensures StripNonDigits(s) == s
  {
    if |s| > 0 {
      StripDigitString(s[..|s| - 1]);
      assert s[..|s| - 1] + [s[|s| - 1]] == s;
    }
  }

  /** Only strings made of digits are left alone. */
  lemma StripFixedPointIsDigits(s: string)
    ensures StripNonDigits(s) == s <==> IsDigitString(s)
  {
    if IsDigitString(s) {
      StripDigitString(s);
    }
  }

  /** Filtering distributes over concatenation: the filter works character by character. */
  lemma {:induction false} StripConcat(a: string, b: string)
    ensures StripNonDigits(a + b) == StripNonDigits(a) + StripNonDigits(b)
  {
    if |b| == 0 {
      assert a + b == a;
    } else {
      var c := b[|b| - 1];
      var b' := b[..|b| - 1];
      assert (a + b)[..|a + b| - 1] == a + b';
      StripConcat(a, b');
    }
  }

  /** A string without digits disappears completely. */
  lemma {:induction false} StripNoDigits(s: string)
    requires forall i :: 0 <= i < |s| ==> !IsDigit(s[i])
    ensures StripNonDigits(s) == ""
  {
    if |s| > 0 {
      StripNoDigits(s[..|s| - 1]);
    }
  }

  /** Appending one character appends it to the digits exactly when it is a digit. */
  lemma StripSnoc(p: string, c: char)
    ensures StripNonDigits(p + [c]) == StripNonDigits(p) + (if IsDigit(c) then [c] else "")
  {
    assert (p + [c])[..|p|] == p;
  }

  lemma StripIdempotent(s: string)
    ensures StripNonDigits(StripNonDigits(s)) == StripNonDigits(s)
  {
    StripDigitString(StripNonDigits(s));
  }

  /** Filtering a prefix of `s` gives a prefix of the filtered `s`. */
  lemma StripPrefix(s: string, k: nat)
    requires k <= |s|
    ensures StripNonDigits(s[..k]) <= StripNonDigits(s)
  {
    assert s == s[..k] + s[k..];
    StripConcat(s[..k], s[k..]);
  }

  /** The non-digit filter written as the left-to-right scan a regular-expression engine performs. */
  method ReplaceNonDigits(s: string) returns (digits: string)
    ensures digits == StripNonDigits(s)
  {
    digits := "";
    for i := 0 to |s|
      invariant digits == StripNonDigits(s[..i])
    {
      assert s[..i + 1][..i] == s[..i];
      if IsDigit(s[i]) {
        digits := digits + [s[i]];
      }
    }
    assert s[..|s|] == s;
  }
}
