/** Decimal digit strings: the rendering Rust's `Display` gives an unsigned
    integer, the value a digit string denotes, and the padding and trimming
    that the balance formatter applies to them. */
module Decimal {

  predicate IsDigit(c: char) {
    '0' <= c <= '9'
  }

  predicate AllDigits(s: string) {
    forall i :: 0 <= i < |s| ==> IsDigit(s[i])
  }

  function DigitValue(c: char): (d: nat)
    requires IsDigit(c)
    ensures d < 10
  {
    c as int - '0' as int
  }

  function DigitChar(d: nat): (c: char)
    requires d < 10
    ensures IsDigit(c) && DigitValue(c) == d
  {
    (d + '0' as int) as char
  }

  function Pow10(k: nat): (p: nat)
    ensures p >= 1
  {
    if k == 0 then 1 else 10 * Pow10(k - 1)
  }

  /** A string of `m` zero digits. */
  function Zeros(m: nat): string {
    seq(m, _ => '0')
  }

  /** Decimal rendering of `n` without leading zeros, as `to_string()` and
      `format!("{}", ..)` print an unsigned integer. */
  function NatToString(n: nat): (s: string)
    ensures |s| >= 1 && AllDigits(s)
    ensures s[0] == '0' <==> n == 0
    decreases n
  {
    if n < 10 then [DigitChar(n)] else NatToString(n / 10) + [DigitChar(n % 10)]
  }

  /** The number a digit string denotes, most significant digit first. */
  function DigitsValue(s: string): nat
    requires AllDigits(s)
  {
    if s == [] then 0 else DigitsValue(s[..|s| - 1]) * 10 + DigitValue(s[|s| - 1])
  }

  /** `format!("{:0width$}", ..)` applied to the text `s`: zeros are added on the
      left up to `width` characters; a longer text is left as it is. */
  function PadLeft(s: string, width: nat): (r: string)
    ensures |r| == if |s| >= width then |s| else width
    ensures r[|r| - |s|..] == s
    ensures forall i :: 0 <= i < |r| - |s| ==> r[i] == '0'
  {
    if |s| >= width then s else Zeros(width - |s|) + s
  }

  /** `str::trim_end_matches('0')`: the longest prefix not ending in a zero
      digit; everything removed is a zero digit. */
  function TrimTrailingZeros(s: string): (t: string)
    ensures |t| <= |s| && t == s[..|t|]
    ensures forall i :: |t| <= i < |s| ==> s[i] == '0'
    ensures t == [] || t[|t| - 1] != '0'
  {
    if s != [] && s[|s| - 1] == '0' then TrimTrailingZeros(s[..|s| - 1]) else s
  }

  /** Rendering and reading back are inverse: the text printed for `n` denotes `n`. */
  lemma {:induction false} NatToStringValue(n: nat)
    ensures DigitsValue(NatToString(n)) == n
    decreases n
  {
    if n >= 10 {
      var s := NatToString(n);
      assert s[..|s| - 1] == NatToString(n / 10);
      NatToStringValue(n / 10);
    }
  }

  /** Different numbers are printed differently. */
  lemma NatToStringInjective(a: nat, b: nat)
    requires NatToString(a) == NatToString(b)
    ensures a == b
  {
    NatToStringValue(a);
    NatToStringValue(b);
  }

  /** A number below 10^k (k at least one) is printed with at most k digits. */
  lemma {:induction false} NatToStringLengthBound(n: nat, k: nat)
    requires k >= 1 && n < Pow10(k)
    ensures |NatToString(n)| <= k
    decreases k
  {
    if n >= 10 {
      assert k >= 2;
      NatToStringLengthBound(n / 10, k - 1);
    }
  }

  /** 10^k is printed with exactly k + 1 digits. */
  lemma {:induction false} Pow10Length(k: nat)
    ensures |NatToString(Pow10(k))| == k + 1
  {
    if k > 0 {
      assert Pow10(k) / 10 == Pow10(k - 1);
      Pow10Length(k - 1);
    }
  }

  lemma {:induction false} ZerosValue(m: nat)
    ensures AllDigits(Zeros(m)) && DigitsValue(Zeros(m)) == 0
  {
    if m > 0 {
      assert Zeros(m)[..m - 1] == Zeros(m - 1);
      ZerosValue(m - 1);
    }
  }

  /** Leading zeros do not change the value of a digit string. */
  lemma {:induction false} LeadingZerosValue(m: nat, s: string)
    requires AllDigits(s)
    ensures AllDigits(Zeros(m) + s) && DigitsValue(Zeros(m) + s) == DigitsValue(s)
    decreases |s|
  {
    var t := Zeros(m) + s;
    if s == [] {
      assert t == Zeros(m);
      ZerosValue(m);
    } else {
      assert t[..|t| - 1] == Zeros(m) + s[..|s| - 1];
      LeadingZerosValue(m, s[..|s| - 1]);
    }
  }

  /** The value of two digit strings written one after the other. */
  lemma {:induction false} ConcatValue(a: string, b: string)
    requires AllDigits(a) && AllDigits(b)
    ensures AllDigits(a + b) && DigitsValue(a + b) == DigitsValue(a) * Pow10(|b|) + DigitsValue(b)
    decreases |b|
  {
    if b == [] {
      assert a + b == a;
    } else {
      var b' := b[..|b| - 1];
      assert (a + b)[..|a + b| - 1] == a + b';
      ConcatValue(a, b');
      var x, p, y, d := DigitsValue(a), Pow10(|b'|), DigitsValue(b'), DigitValue(b[|b| - 1]);
      assert DigitsValue(a + b) == (x * p + y) * 10 + d;
      assert DigitsValue(b) == y * 10 + d;
      assert Pow10(|b|) == p * 10;
      ShiftDigit(x, p, y, d);
    }
  }

  lemma ShiftDigit(x: nat, p: nat, y: nat, d: nat)
    ensures (x * p + y) * 10 + d == x * (p * 10) + (y * 10 + d)
  {
  }

  /** Padding a text no wider than `width` puts exactly the missing zeros in front. */
  lemma PadLeftZeros(s: string, width: nat)
    requires |s| <= width
    ensures PadLeft(s, width) == Zeros(width - |s|) + s
  {
    if |s| == width {
      assert Zeros(0) + s == s;
    }
  }

  /** A text is its trimmed form followed by the zeros that were trimmed. */
  lemma TrimmedPlusZeros(s: string)
    ensures s == TrimTrailingZeros(s) + Zeros(|s| - |TrimTrailingZeros(s)|)
  {
    var t := TrimTrailingZeros(s);
    assert forall i :: 0 <= i < |s| ==> s[i] == (t + Zeros(|s| - |t|))[i];
  }

  /** Appending a digit to a number that has no leading zero appends its character. */
  lemma AppendDigit(n: nat, d: nat)
    requires 1 <= n && d < 10
    ensures NatToString(n * 10 + d) == NatToString(n) + [DigitChar(d)]
  {
    assert (n * 10 + d) / 10 == n && (n * 10 + d) % 10 == d;
  }
}
