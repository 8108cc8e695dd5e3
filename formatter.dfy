/** The balance formatter: renders a raw token amount, given the divisor
    10^decimals, as exact decimal text with no rounding and no exponent. */
module Formatter {
  import opened Common
  import opened Decimal

  /** The digits written after the point: the remainder zero-padded to one
      digit fewer than the divisor has, with trailing zeros trimmed. */
  function FractionText(remainder: nat, divisor: nat): (t: string)
    requires divisor > 0
    ensures AllDigits(t)
    ensures t == [] || t[|t| - 1] != '0'
  {
    TrimTrailingZeros(PadLeft(NatToString(remainder), |NatToString(divisor)| - 1))
  }

  /** `CompoundMonitor::format_balance`. The text is digits with at most one
      point, and it starts and ends with a digit. */
  function FormatBalance(balance: U256, divisor: U256): (r: string)
    ensures r != [] && IsDigit(r[0]) && IsDigit(r[|r| - 1])
    ensures forall i :: 0 <= i < |r| ==> IsDigit(r[i]) || r[i] == '.'
    ensures multiset(r)['.'] <= 1
  {
    if divisor == 0 then
      PlainShape(NatToString(balance));
      NatToString(balance)
    else
      var whole := NatToString(balance / divisor);
      var remainder := balance % divisor;
      PlainShape(whole);
      if remainder == 0 then
        whole
      else
        var trimmed := FractionText(remainder, divisor);
        FractionNonEmpty(remainder, divisor);
        DottedShape(whole, trimmed);
        if trimmed == [] then whole else whole + "." + trimmed
  }

  lemma PlainShape(w: string)
    requires w != [] && AllDigits(w)
    ensures IsDigit(w[0]) && IsDigit(w[|w| - 1]) && multiset(w)['.'] == 0
    ensures forall i :: 0 <= i < |w| ==> IsDigit(w[i]) || w[i] == '.'
  {
    assert '.' !in w;
  }

  lemma DottedShape(w: string, f: string)
    requires w != [] && f != [] && AllDigits(w) && AllDigits(f)
    ensures var r := w + "." + f;
      IsDigit(r[0]) && IsDigit(r[|r| - 1]) &&
      (forall i :: 0 <= i < |r| ==> IsDigit(r[i]) || r[i] == '.') &&
      multiset(r)['.'] == 1
  {
    var r := w + "." + f;
    assert multiset(r) == multiset(w) + multiset{'.'} + multiset(f);
    assert '.' !in w && '.' !in f;
  }

  /** Splits a text at its first point: the part before it and, when there is
      a point, the part after it. */
  function SplitAtDot(s: string): (string, Option<string>) {
    if s == [] then ([], None)
    else if s[0] == '.' then ([], Some(s[1..]))
    else
      var (w, f) := SplitAtDot(s[1..]);
      ([s[0]] + w, f)
  }

  /** Reference reader of decimal amount text with `k` decimals: "<w>" or
      "<w>.<f>" with at most `k` fraction digits. The amount in base units is
      the number whose digits are `w`, then `f`, then zeros up to `k` places. */
  function ParseAmount(s: string, k: nat): Option<nat> {
    var (w, f) := SplitAtDot(s);
    if w == [] || !AllDigits(w) then None
    else
      match f
      case None => Some(DigitsValue(w + Zeros(k)))
      case Some(frac) =>
        if frac == [] || !AllDigits(frac) || |frac| > k then None
        else Some(DigitsValue(w + frac + Zeros(k - |frac|)))
  }

  lemma {:induction false} SplitDigits(w: string, f: string)
    requires AllDigits(w)
    ensures SplitAtDot(w) == (w, None)
    ensures SplitAtDot(w + "." + f) == (w, Some(f))
  {
    if w != [] {
      assert (w + "." + f)[1..] == w[1..] + "." + f;
      SplitDigits(w[1..], f);
      assert [w[0]] + w[1..] == w;
    } else {
      assert w + "." + f == ['.'] + f;
    }
  }

  /** The text of a non-zero remainder never trims away to nothing: its first
      digit is not zero. So the branch of the formatter that tests for an empty
      fraction is never taken. */
  lemma FractionNonEmpty(remainder: nat, divisor: nat)
    requires divisor > 0 && remainder > 0
    ensures FractionText(remainder, divisor) != []
    ensures AllDigits(FractionText(remainder, divisor))
  {
    var s := NatToString(remainder);
    var padded := PadLeft(s, |NatToString(divisor)| - 1);
    var t := TrimTrailingZeros(padded);
    var j := |padded| - |s|;
    assert padded[j] == s[0] != '0';
    assert |t| > j;
    assert forall i :: 0 <= i < |t| ==> t[i] == padded[i];
  }

  /** The formatted text of a zero divisor is the plain decimal text of the
      balance and reads back as the balance. */
  lemma ZeroDivisorIsPlain(balance: U256)
    ensures FormatBalance(balance, 0) == NatToString(balance)
    ensures AllDigits(FormatBalance(balance, 0))
    ensures DigitsValue(FormatBalance(balance, 0)) == balance
  {
    NatToStringValue(balance);
  }

  /** For every non-zero divisor: the text before the point is the quotient's
      decimal text, a point appears exactly when the division leaves a
      remainder, and the digits after it are non-empty and do not end in zero. */
  lemma FormatShape(balance: U256, divisor: U256)
    requires divisor > 0
    ensures SplitAtDot(FormatBalance(balance, divisor)).0 == NatToString(balance / divisor)
    ensures SplitAtDot(FormatBalance(balance, divisor)).1.Some? <==> balance % divisor != 0
    ensures SplitAtDot(FormatBalance(balance, divisor)).1.Some? ==>
              var f := SplitAtDot(FormatBalance(balance, divisor)).1.value;
              f != [] && AllDigits(f) && f[|f| - 1] != '0'
  {
    var whole := NatToString(balance / divisor);
    var remainder := balance % divisor;
    if remainder == 0 {
      SplitDigits(whole, []);
    } else {
      FractionNonEmpty(remainder, divisor);
      SplitDigits(whole, FractionText(remainder, divisor));
    }
  }

  /** With divisor 10^k the formatted text reads back, at k decimals, as
      exactly the balance: no digit is lost and nothing is rounded. */
  lemma FormatRoundTrip(balance: U256, k: nat)
    requires Pow10(k) < TWO_256
    ensures ParseAmount(FormatBalance(balance, Pow10(k)), k) == Some(balance)
  {
    var d := Pow10(k);
    var q, remainder := DivMod(balance, d);
    FormatCases(balance, d);
    if remainder == 0 {
      ReadBackWhole(q, k);
    } else {
      ReadBackFraction(q, remainder, k);
    }
  }

  /** Quotient and remainder with the division identity, stated on `nat` so
      that the round trip does not reason about division of bounded integers. */
  lemma DivMod(n: nat, d: nat) returns (q: nat, r: nat)
    requires d > 0
    ensures q == n / d && r == n % d && r < d && q * d + r == n
  {
    q, r := n / d, n % d;
  }

  lemma ReadBackWhole(q: nat, k: nat)
    ensures ParseAmount(NatToString(q), k) == Some(q * Pow10(k))
  {
    var w := NatToString(q);
    SplitDigits(w, []);
    ZerosValue(k);
    ConcatValue(w, Zeros(k));
    NatToStringValue(q);
  }

  lemma ReadBackFraction(q: nat, remainder: nat, k: nat)
    requires 0 < remainder < Pow10(k)
    ensures ParseAmount(NatToString(q) + "." + FractionText(remainder, Pow10(k)), k) == Some(q * Pow10(k) + remainder)
  {
    var w := NatToString(q);
    var t := FractionText(remainder, Pow10(k));
    var padded := FractionDigits(remainder, k, t);
    ParseFraction(w, t, k, padded);
    ConcatValue(w, padded);
    NatToStringValue(q);
  }

  lemma ParseFraction(w: string, t: string, k: nat, padded: string)
    requires w != [] && AllDigits(w) && t != [] && AllDigits(t) && |t| <= k
    requires padded == t + Zeros(k - |t|)
    ensures AllDigits(w + padded)
    ensures ParseAmount(w + "." + t, k) == Some(DigitsValue(w + padded))
  {
    SplitDigits(w, t);
    assert w + t + Zeros(k - |t|) == w + padded;
  }

  /** The two shapes the formatter produces for a non-zero divisor. */
  lemma FormatCases(balance: U256, divisor: U256)
    requires divisor > 0
    ensures balance % divisor == 0 ==> FormatBalance(balance, divisor) == NatToString(balance / divisor)
    ensures balance % divisor != 0 ==>
      FormatBalance(balance, divisor) == NatToString(balance / divisor) + "." + FractionText(balance % divisor, divisor)
  {
    if balance % divisor != 0 {
      FractionNonEmpty(balance % divisor, divisor);
    }
  }

  /** The fraction digits of a remainder below 10^k are at most k digits; padded
      back on the right to k digits they denote the remainder. */
  lemma FractionDigits(remainder: nat, k: nat, t: string) returns (padded: string)
    requires 0 < remainder < Pow10(k) && t == FractionText(remainder, Pow10(k))
    ensures t != [] && |t| <= k && AllDigits(t)
    ensures padded == t + Zeros(k - |t|) && |padded| == k
    ensures AllDigits(padded) && DigitsValue(padded) == remainder
  {
    assert k >= 1;
    Pow10Length(k);
    var s := NatToString(remainder);
    NatToStringLengthBound(remainder, k);
    padded := PadLeft(s, k);
    PadLeftZeros(s, k);
    LeadingZerosValue(k - |s|, s);
    NatToStringValue(remainder);
    assert t == TrimTrailingZeros(padded);
    FractionNonEmpty(remainder, Pow10(k));
    TrimmedPlusZeros(padded);
  }

  /** 1.5 units of a six-decimal token. */
  lemma ExampleOneAndAHalf()
    ensures FormatBalance(1_500_000, 1_000_000) == "1.5"
  {
    FormatCases(1_500_000, 1_000_000);
    assert NatToString(1) == "1";
    assert Pow10(6) == 1_000_000;
    Pow10Length(6);
    HalfFraction();
    assert PadLeft("500000", 6) == "500000";
  }

  lemma HalfFraction()
    ensures NatToString(500_000) == "500000"
    ensures TrimTrailingZeros("500000") == "5"
  {
    assert DigitChar(0) == '0' && NatToString(5) == "5";
    AppendDigit(5, 0);
    assert NatToString(50) == "50";
    AppendDigit(50, 0);
    assert NatToString(500) == "500";
    AppendDigit(500, 0);
    assert NatToString(5000) == "5000";
    AppendDigit(5000, 0);
    assert NatToString(50000) == "50000";
    AppendDigit(50000, 0);
    assert TrimTrailingZeros("5") == "5";
    assert TrimTrailingZeros("50") == "5";
    assert TrimTrailingZeros("500") == "5";
    assert TrimTrailingZeros("5000") == "5";
    assert TrimTrailingZeros("50000") == "5";
  }

  /** Whole amounts and zero print without a point. */
  lemma ExampleWholeAndZero()
    ensures FormatBalance(2_000_000, 1_000_000) == "2"
    ensures FormatBalance(0, 1_000_000) == "0"
  {
    FormatCases(2_000_000, 1_000_000);
    FormatCases(0, 1_000_000);
    assert NatToString(2) == "2";
    assert NatToString(0) == "0";
  }
}
