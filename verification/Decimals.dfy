/** Decimal strings: the scaling and printing that every balance and amount of
    the cutover passes through (amount-conversion.ts and runtime-services.ts).

    A decimal string denotes the rational Numerator(v) / Denominator(v); the
    theorems compare the string algorithms with exact integer division on it. */
module Decimals {
  import opened Common
  import opened Division

  datatype AmountError = InvalidAmount

  // ---------------------------------------------------------------------------
  // Digits

  predicate IsDigit(c: char) { '0' <= c <= '9' }

  predicate AllDigits(s: string) { forall i :: 0 <= i < |s| ==> IsDigit(s[i]) }

  function DigitOf(c: char): (r: nat)
    requires IsDigit(c)
    ensures r < 10
  {
    (c as int) - ('0' as int)
  }

  /** BigInt(s) on a string of digits; the empty string counts as 0. */
  function DigitsValue(s: string): nat
    requires AllDigits(s)
  {
    if s == "" then 0 else 10 * DigitsValue(s[..|s| - 1]) + DigitOf(s[|s| - 1])
  }

  /** BigInt.toString(). */
  function Show(n: nat): (s: string)
    ensures AllDigits(s) && s != ""
  {
    if n < 10 then [('0' as int + n) as char] else Show(n / 10) + [('0' as int + n % 10) as char]
  }

  lemma {:induction false} ShowValue(n: nat)
    ensures DigitsValue(Show(n)) == n
  {
    if n >= 10 {
      ShowValue(n / 10);
      assert Show(n)[..|Show(n)| - 1] == Show(n / 10);
    }
  }

  function Zeros(n: nat): (s: string)
    ensures |s| == n && forall i :: 0 <= i < n ==> s[i] == '0'
  {
    if n == 0 then "" else Zeros(n - 1) + "0"
  }

  function StripZeros(s: string): (r: string)
    ensures r <= s && (r != "" ==> r[|r| - 1] != '0')
    ensures |r| < |s| ==> s[|s| - 1] == '0'
  {
    if s != "" && s[|s| - 1] == '0' then StripZeros(s[..|s| - 1]) else s
  }

  lemma {:induction false} StripAppended(s: string, t: string)
    requires s != "" && s[|s| - 1] != '0'
    ensures StripZeros(s + t) == if StripZeros(t) == "" then s else s + StripZeros(t)
  {
    if t == "" {
      assert s + t == s;
    } else if t[|t| - 1] == '0' {
      assert (s + t)[..|s + t| - 1] == s + t[..|t| - 1];
      StripAppended(s, t[..|t| - 1]);
    }
  }

  lemma {:induction false} ConcatValue(a: string, b: string)
    requires AllDigits(a) && AllDigits(b)
    ensures DigitsValue(a + b) == Shift(DigitsValue(a), |b|) + DigitsValue(b)
  {
    if b == "" {
      assert a + b == a;
    } else {
      ConcatValue(a, b[..|b| - 1]);
      assert (a + b)[..|a + b| - 1] == a + b[..|b| - 1];
    }
  }

  lemma {:induction false} AppendZeros(s: string, k: nat)
    requires AllDigits(s)
    ensures AllDigits(s + Zeros(k)) && DigitsValue(s + Zeros(k)) == Shift(DigitsValue(s), k)
  {
    if k == 0 {
      assert s + Zeros(k) == s;
    } else {
      AppendZeros(s, k - 1);
      assert (s + Zeros(k))[..|s| + k - 1] == s + Zeros(k - 1);
    }
  }

  lemma {:induction false} LeadingZeros(k: nat, s: string)
    requires AllDigits(s)
    ensures AllDigits(Zeros(k) + s) && DigitsValue(Zeros(k) + s) == DigitsValue(s)
  {
    if s == "" {
      assert Zeros(k) + s == Zeros(k) == "" + Zeros(k);
      AppendZeros("", k);
      ShiftZero(k);
    } else {
      LeadingZeros(k, s[..|s| - 1]);
      assert (Zeros(k) + s)[..k + |s| - 1] == Zeros(k) + s[..|s| - 1];
    }
  }

  /** Dropping trailing zeros behind a prefix divides by that many tens. */
  lemma {:induction false} StrippedValue(prefix: string, s: string)
    requires AllDigits(prefix) && AllDigits(s)
    ensures AllDigits(StripZeros(s))
    ensures DigitsValue(prefix + s) == Shift(DigitsValue(prefix + StripZeros(s)), |s| - |StripZeros(s)|)
  {
    if s != "" && s[|s| - 1] == '0' {
      StrippedValue(prefix, s[..|s| - 1]);
      assert (prefix + s)[..|prefix + s| - 1] == prefix + s[..|s| - 1];
    }
  }

  /** Dropping the last k digits is division by 10^k. */
  lemma {:induction false} PrefixValue(s: string, k: nat)
    requires AllDigits(s) && k <= |s|
    ensures AllDigits(s[..|s| - k])
    ensures DigitsValue(s[..|s| - k]) == DigitsValue(s) / Pow10(k)
  {
    if k == 0 {
      assert s[..|s|] == s;
    } else {
      var t := s[..|s| - 1];
      PrefixValue(t, k - 1);
      assert t[..|t| - (k - 1)] == s[..|s| - k];
      NestedFloor(DigitsValue(s), 10, 0, Pow10(k - 1));
    }
  }

  /** The first dropped digit alone decides how the dropped part rounds. */
  lemma {:induction false} PrefixRounds(s: string, k: nat)
    requires AllDigits(s) && 0 < k <= |s|
    ensures AllDigits(s[..|s| - k])
    ensures RoundHalfUp(DigitsValue(s), Pow10(k))
         == DigitsValue(s[..|s| - k]) + if DigitOf(s[|s| - k]) >= 5 then 1 else 0
  {
    PrefixValue(s, k - 1);
    var t := s[..|s| - k + 1];
    assert t[..|t| - 1] == s[..|s| - k];
    RoundHalfUpByDigit(DigitsValue(s), Pow10(k - 1));
  }

  // ---------------------------------------------------------------------------
  // Decimal strings

  function Dot(v: string): (d: nat)
    ensures d <= |v| && (d < |v| ==> v[d] == '.')
    ensures forall i :: 0 <= i < d ==> v[i] != '.'
  {
    DotFrom(v, 0)
  }

  function DotFrom(v: string, start: nat): (d: nat)
    requires start <= |v|
    ensures start <= d <= |v| && (d < |v| ==> v[d] == '.')
    ensures forall i :: start <= i < d ==> v[i] != '.'
    decreases |v| - start
  {
    if start == |v| || v[start] == '.' then start else DotFrom(v, start + 1)
  }

  predicate HasPoint(v: string) { Dot(v) < |v| }

  function Whole(v: string): string { v[..Dot(v)] }

  function Fraction(v: string): string { if HasPoint(v) then v[Dot(v) + 1..] else "" }

  /** The pattern ^\d+(\.\d+)?$ */
  predicate IsDecimal(v: string) {
    && Whole(v) != "" && AllDigits(Whole(v)) && AllDigits(Fraction(v))
    && (HasPoint(v) ==> Fraction(v) != "")
  }

  function Numerator(v: string): nat
    requires IsDecimal(v)
  {
    DigitsValue(Whole(v) + Fraction(v))
  }

  function Denominator(v: string): (d: nat)
    ensures d > 0
  {
    Pow10(|Fraction(v)|)
  }

  predicate SameValue(a: string, b: string)
    requires IsDecimal(a) && IsDecimal(b)
  {
    Numerator(a) * Denominator(b) == Numerator(b) * Denominator(a)
  }

  lemma {:induction false} SplitAtPoint(w: string, f: string)
    requires AllDigits(w)
    ensures Dot(w + "." + f) == |w| && Whole(w + "." + f) == w && Fraction(w + "." + f) == f
  {
    var v := w + "." + f;
    assert v[|w|] == '.';
    assert forall i :: 0 <= i < |w| ==> v[i] == w[i] && IsDigit(w[i]);
  }

  lemma {:induction false} NoPoint(w: string)
    requires AllDigits(w)
    ensures Dot(w) == |w| && Whole(w) == w && Fraction(w) == ""
    ensures w != "" ==> IsDecimal(w) && Numerator(w) == DigitsValue(w) && Denominator(w) == 1
  {
    assert forall i :: 0 <= i < |w| ==> IsDigit(w[i]);
    assert Whole(w) + Fraction(w) == w;
  }

  // ---------------------------------------------------------------------------
  // Scaling: pad the fraction, cut it at the scale, look at one rounding digit

  /** The part both scalers share, as the integer before it is printed. */
  function Scaled(v: string, scale: nat, round: bool): nat
    requires IsDecimal(v)
  {
    var padded := (Fraction(v) + Zeros(scale + 1))[..scale + 1];
    var roundingDigit := DigitOf(padded[scale]);
    DigitsValue(Whole(v)) * Pow10(scale) + DigitsValue(padded[..scale])
    + if round && roundingDigit >= 5 then 1 else 0
  }

  /** decimalToScaledInteger of amount-conversion.ts. */
  function ToScaledInteger(v: string, scale: nat): Result<string, AmountError> {
    if !IsDecimal(v) then Err(InvalidAmount) else Ok(Show(Scaled(v, scale, true)))
  }

  lemma {:induction false} ScaledDigits(v: string, scale: nat, round: bool)
    requires IsDecimal(v)
    ensures var padded := (Fraction(v) + Zeros(scale + 1))[..scale + 1];
            && AllDigits(Whole(v) + padded[..scale])
            && Scaled(v, scale, round)
            == DigitsValue(Whole(v) + padded[..scale])
               + if round && DigitOf(padded[scale]) >= 5 then 1 else 0
  {
    var padded := (Fraction(v) + Zeros(scale + 1))[..scale + 1];
    ConcatValue(Whole(v), padded[..scale]);
    ShiftIsProduct(DigitsValue(Whole(v)), scale);
  }

  lemma {:induction false} ScaledShortFraction(v: string, scale: nat, round: bool)
    requires IsDecimal(v) && |Fraction(v)| <= scale
    ensures Scaled(v, scale, round) == Shift(Numerator(v), scale - |Fraction(v)|)
  {
    var f, w := Fraction(v), Whole(v);
    var padded := (f + Zeros(scale + 1))[..scale + 1];
    assert padded[scale] == '0';
    assert w + padded[..scale] == (w + f) + Zeros(scale - |f|);
    ScaledDigits(v, scale, round);
    AppendZeros(w + f, scale - |f|);
  }

  lemma {:induction false} ScaledLongFraction(v: string, scale: nat, round: bool)
    requires IsDecimal(v) && |Fraction(v)| > scale
    ensures Scaled(v, scale, round)
         == if round then RoundHalfUp(Numerator(v), Pow10(|Fraction(v)| - scale))
            else Numerator(v) / Pow10(|Fraction(v)| - scale)
  {
    var f, w := Fraction(v), Whole(v);
    var padded := (f + Zeros(scale + 1))[..scale + 1];
    var k := |f| - scale;
    assert w + padded[..scale] == (w + f)[..|w + f| - k];
    assert padded[scale] == (w + f)[|w + f| - k];
    ScaledDigits(v, scale, round);
    PrefixValue(w + f, k);
    PrefixRounds(w + f, k);
  }

  /** Scaling is exact on digit strings of any length: the floor without rounding,
      round-half-up with it. */
  lemma {:induction false} ScaledIsExact(v: string, scale: nat)
    requires IsDecimal(v)
    ensures Scaled(v, scale, false) == Numerator(v) * Pow10(scale) / Denominator(v)
    ensures Scaled(v, scale, true) == RoundHalfUp(Numerator(v) * Pow10(scale), Denominator(v))
  {
    var places := |Fraction(v)|;
    ScaleQuotient(Numerator(v), places, scale);
    if places > scale {
      ScaledLongFraction(v, scale, false);
      ScaledLongFraction(v, scale, true);
    } else {
      ScaledShortFraction(v, scale, false);
      ScaledShortFraction(v, scale, true);
    }
  }

  // ---------------------------------------------------------------------------
  // Printing a scaled integer

  /** Digits with a point put in and the trailing zeros of the fraction dropped. */
  function Joined(whole: string, tail: string): string {
    var fraction := StripZeros(tail);
    if fraction != "" then whole + "." + fraction else whole
  }

  function PadStart(s: string, width: nat): (r: string)
    ensures |r| >= width && |r| >= |s|
  {
    if |s| < width then Zeros(width - |s|) + s else s
  }

  function WithPoint(digits: string, scale: nat): string
    requires |digits| > scale
  {
    Joined(digits[..|digits| - scale], digits[|digits| - scale..])
  }

  /** scaledIntegerToDecimal of runtime-services.ts. */
  function FromScaledInteger(amount: string, scale: nat): string {
    if scale == 0 then amount else WithPoint(PadStart(amount, scale + 1), scale)
  }

  lemma {:induction false} JoinedValue(digits: string, whole: string, tail: string)
    requires AllDigits(digits) && digits == whole + tail && whole != ""
    ensures var v := Joined(whole, tail);
            && IsDecimal(v) && |Fraction(v)| <= |tail|
            && DigitsValue(digits) == Shift(Numerator(v), |tail| - |Fraction(v)|)
  {
    var fraction := StripZeros(tail);
    assert forall i :: 0 <= i < |whole| ==> whole[i] == digits[i];
    assert forall i :: 0 <= i < |tail| ==> tail[i] == digits[|whole| + i];
    StrippedValue(whole, tail);
    if fraction == "" {
      NoPoint(whole);
      assert whole + fraction == whole;
    } else {
      SplitAtPoint(whole, fraction);
    }
  }

  lemma {:induction false} PaddedValue(s: string, width: nat)
    requires AllDigits(s)
    ensures AllDigits(PadStart(s, width)) && DigitsValue(PadStart(s, width)) == DigitsValue(s)
  {
    if |s| < width { LeadingZeros(width - |s|, s); }
  }

  lemma {:induction false} WithPointValue(digits: string, scale: nat)
    requires AllDigits(digits) && |digits| > scale
    ensures var v := WithPoint(digits, scale);
            && IsDecimal(v) && |Fraction(v)| <= scale
            && DigitsValue(digits) == Shift(Numerator(v), scale - |Fraction(v)|)
  {
    var at := |digits| - scale;
    assert digits == digits[..at] + digits[at..];
    JoinedValue(digits, digits[..at], digits[at..]);
  }

  /** What is printed denotes amount / 10^scale, in at most `scale` places. */
  lemma {:induction false} PrintedValue(amount: string, scale: nat, padded: string)
    requires AllDigits(amount) && padded == PadStart(amount, scale + 1)
    ensures var v := WithPoint(padded, scale);
            && IsDecimal(v) && |Fraction(v)| <= scale
            && DigitsValue(amount) == Shift(Numerator(v), scale - |Fraction(v)|)
  {
    PaddedValue(amount, scale + 1);
    WithPointValue(padded, scale);
  }

  lemma {:induction false} ParsePrinted(n: nat, digits: string, scale: nat, padded: string)
    requires AllDigits(digits) && DigitsValue(digits) == n && padded == PadStart(digits, scale + 1)
    ensures ToScaledInteger(WithPoint(padded, scale), scale) == Ok(Show(n))
  {
    PrintedValue(digits, scale, padded);
    ParseShort(WithPoint(padded, scale), scale, n);
  }

  lemma {:induction false} ParseShort(v: string, scale: nat, n: nat)
    requires IsDecimal(v) && |Fraction(v)| <= scale && n == Shift(Numerator(v), scale - |Fraction(v)|)
    ensures ToScaledInteger(v, scale) == Ok(Show(n))
  {
    ScaledShortFraction(v, scale, true);
  }

  lemma {:induction false} ParseWhole(n: nat)
    ensures ToScaledInteger(Show(n), 0) == Ok(Show(n))
  {
    ShowValue(n);
    NoPoint(Show(n));
    ScaledShortFraction(Show(n), 0, true);
  }

  /** Printing a scaled integer and parsing it at the same scale is the identity. */
  lemma {:induction false} PrintThenParse(n: nat, scale: nat)
    ensures ToScaledInteger(FromScaledInteger(Show(n), scale), scale) == Ok(Show(n))
  {
    ShowValue(n);
    if scale > 0 { ParsePrinted(n, Show(n), scale, PadStart(Show(n), scale + 1)); } else { ParseWhole(n); }
  }

  // ---------------------------------------------------------------------------
  // Normalising, and the scaler of runtime-services.ts

  /** replace(/\.?0+$/, "") with "0" for an empty result. */
  function Normalize(v: string): string {
    var t := StripZeros(v);
    var cut := if t != v && t != "" && t[|t| - 1] == '.' then t[..|t| - 1] else t;
    if cut == "" then "0" else cut
  }

  /** decimalToScaledInteger of runtime-services.ts, before it is printed. */
  function RuntimeScaled(v: string, scale: nat, round: bool): Result<nat, AmountError> {
    var n := Normalize(v);
    if !IsDecimal(n) then Err(InvalidAmount) else Ok(Scaled(n, scale, round))
  }

  lemma {:induction false} NormalizeDropsZeros(w: string, f: string)
    requires AllDigits(w) && w != "" && AllDigits(f) && f != ""
    ensures Normalize(w + "." + f) == Joined(w, f)
  {
    var s, g := w + ".", StripZeros(f);
    StripAppended(s, f);
    assert s[..|w|] == w;
    if g != "" {
      assert (s + g)[|s + g| - 1] == g[|g| - 1] == f[|g| - 1];
      assert IsDigit(f[|g| - 1]);
    } else {
      assert s != w + "." + f;
    }
  }

  lemma {:induction false} PointSplits(v: string)
    requires HasPoint(v)
    ensures v == Whole(v) + "." + Fraction(v)
  {}

  lemma {:induction false} NormalizeJoins(v: string, w: string, f: string)
    requires IsDecimal(v) && HasPoint(v) && w == Whole(v) && f == Fraction(v)
    ensures Normalize(v) == Joined(w, f)
  {
    PointSplits(v);
    NormalizeDropsZeros(w, f);
  }

  lemma {:induction false} JoinedShortens(v: string, w: string, f: string, n: string)
    requires IsDecimal(v) && w == Whole(v) && f == Fraction(v) && n == Joined(w, f)
    ensures IsDecimal(n) && |Fraction(n)| <= |f|
    ensures Numerator(v) == Shift(Numerator(n), |f| - |Fraction(n)|)
  {
    JoinedValue(w + f, w, f);
  }

  /** With a point, normalising only drops trailing zero places. */
  lemma {:induction false} NormalizeWithPoint(v: string, n: string)
    requires IsDecimal(v) && HasPoint(v) && n == Normalize(v)
    ensures IsDecimal(n) && |Fraction(n)| <= |Fraction(v)|
    ensures Numerator(v) == Shift(Numerator(n), |Fraction(v)| - |Fraction(n)|)
  {
    NormalizeJoins(v, Whole(v), Fraction(v));
    JoinedShortens(v, Whole(v), Fraction(v), n);
  }

  lemma {:induction false} StrippedDigits(v: string, t: string)
    requires AllDigits(v) && t == StripZeros(v)
    ensures AllDigits(t) && DigitsValue(v) == Shift(DigitsValue(t), |v| - |t|)
    ensures DigitsValue(v) > 0 ==> t != ""
  {
    assert "" + v == v && "" + t == t;
    StrippedValue("", v);
    if t == "" { ShiftZero(|v|); }
  }

  lemma {:induction false} NormalizeStrips(v: string, t: string)
    requires t == StripZeros(v) && t != "" && AllDigits(t)
    ensures Normalize(v) == t
  {
    assert IsDigit(t[|t| - 1]);
  }

  lemma {:induction false} NormalizeDigits(v: string, t: string)
    requires AllDigits(v) && v != "" && DigitsValue(v) > 0 && t == StripZeros(v)
    ensures t != "" && AllDigits(t) && Normalize(v) == t
    ensures DigitsValue(t) == DigitsValue(v) <==> v[|v| - 1] != '0'
  {
    StrippedDigits(v, t);
    NormalizeStrips(v, t);
    ShiftGrows(DigitsValue(t), |v| - |t|);
  }

  lemma {:induction false} NormalizeZero(v: string)
    requires AllDigits(v) && DigitsValue(v) == 0
    ensures StripZeros(v) == "" && (v != "" ==> Normalize(v) == "0") && DigitsValue("0") == 0
  {
    assert "0"[..0] == "";
    if v != "" { NormalizeZero(v[..|v| - 1]); }
  }

  lemma {:induction false} NormalizeWithoutPoint(v: string)
    requires IsDecimal(v) && !HasPoint(v)
    ensures IsDecimal(Normalize(v))
    ensures SameValue(Normalize(v), v) <==> v[|v| - 1] != '0' || Numerator(v) == 0
  {
    assert v == Whole(v);
    NoPoint(v);
    if DigitsValue(v) == 0 {
      NormalizeZero(v);
      NoPoint("0");
    } else {
      NormalizeDigits(v, StripZeros(v));
      NoPoint(Normalize(v));
    }
  }

  /** Normalising keeps a decimal's value exactly when it has a point, does not end
      in a zero, or is zero: "100" is read as 1. */
  lemma {:induction false} NormalizeKeepsValueIff(v: string)
    requires IsDecimal(v)
    ensures IsDecimal(Normalize(v))
    ensures SameValue(Normalize(v), v) <==> HasPoint(v) || v[|v| - 1] != '0' || Numerator(v) == 0
  {
    if HasPoint(v) {
      var n := Normalize(v);
      NormalizeWithPoint(v, n);
      SameValueShifted(n, v);
    } else {
      NormalizeWithoutPoint(v);
    }
  }

  lemma {:induction false} SameValueShifted(n: string, v: string)
    requires IsDecimal(n) && IsDecimal(v) && |Fraction(n)| <= |Fraction(v)|
    requires Numerator(v) == Shift(Numerator(n), |Fraction(v)| - |Fraction(n)|)
    ensures SameValue(n, v)
  {
    SameRatio(Numerator(n), |Fraction(n)|, |Fraction(v)|);
  }

  lemma {:induction false} NormalizeReadsHundredAsOne()
    ensures IsDecimal("100") && Normalize("100") == "1" && !SameValue(Normalize("100"), "100")
  {
    var v := "100";
    NoPoint(v);
    assert v[..2][..1] == "1" && v[..2][..1][..0] == "";
    assert DigitsValue(v[..2][..1]) == 1;
    assert DigitsValue(v[..2]) == 10;
    assert DigitsValue(v) > 0;
    assert StripZeros(v) == StripZeros(v[..2]) == StripZeros(v[..2][..1]);
    NormalizeKeepsValueIff(v);
  }

  /** The runtime scaler agrees with exact division on every decimal with a point,
      which is the form toFixed(12) gives. */
  lemma {:induction false} RuntimeScalingIsExact(v: string, scale: nat, power: nat)
    requires IsDecimal(v) && HasPoint(v) && power == Pow10(scale)
    ensures RuntimeScaled(v, scale, false) == Ok(Numerator(v) * power / Denominator(v))
    ensures RuntimeScaled(v, scale, true) == Ok(RoundHalfUp(Numerator(v) * power, Denominator(v)))
  {
    var n := Normalize(v);
    NormalizeWithPoint(v, n);
    ScaledShifted(n, v, scale, power);
  }

  lemma {:induction false} ScaledShifted(n: string, v: string, scale: nat, power: nat)
    requires IsDecimal(n) && IsDecimal(v) && |Fraction(n)| <= |Fraction(v)| && power == Pow10(scale)
    requires Numerator(v) == Shift(Numerator(n), |Fraction(v)| - |Fraction(n)|)
    ensures Scaled(n, scale, false) == Numerator(v) * power / Denominator(v)
    ensures Scaled(n, scale, true) == RoundHalfUp(Numerator(v) * power, Denominator(v))
  {
    ScaledIsExact(n, scale);
    SameQuotient(Numerator(n), Numerator(v), |Fraction(n)|, |Fraction(v)|, power);
  }

  /** ibexUsdDollarsToPreciseCents: eight dollar places, printed as cents. */
  function PreciseCents(dollars: string): Result<string, AmountError> {
    match RuntimeScaled(dollars, 8, false)
    case Err(e) => Err(e)
    case Ok(units) => Ok(FromScaledInteger(Show(units), 6))
  }

  lemma {:induction false} PreciseCentsTruncate(dollars: string, units: nat)
    requires IsDecimal(dollars) && HasPoint(dollars) && units == Numerator(dollars) * 100000000 / Denominator(dollars)
    ensures PreciseCents(dollars) == Ok(FromScaledInteger(Show(units), 6))
  {
    Powers();
    RuntimeScalingIsExact(dollars, 8, 100000000);
  }

  lemma {:induction false} CentsRound(v: string, cents: nat, micros: nat, units: nat)
    requires IsDecimal(v) && cents == 6 && micros == 4
    requires |Fraction(v)| <= cents && units == Shift(Numerator(v), cents - |Fraction(v)|)
    ensures Scaled(v, micros, true) == (units + 50) / 100
  {
    Powers();
    ScaledIsExact(v, micros);
    SameQuotient(Numerator(v), units, |Fraction(v)|, cents, 10000);
  }

  /** Cents printed with six places and scaled by four: the last two places round. */
  lemma {:induction false} CentsToMicros(units: nat)
    ensures ToScaledInteger(FromScaledInteger(Show(units), 6), 4) == Ok(Show((units + 50) / 100))
  {
    var v := FromScaledInteger(Show(units), 6);
    PrintedValue(Show(units), 6, PadStart(Show(units), 7));
    ShowValue(units);
    CentsRound(v, 6, 4, units);
  }

  /** Reading a dollar balance as precise cents and converting those to micros is
      the same as rounding the exact balance to micros once: the intermediate
      truncation never shows. */
  lemma {:induction false} ChainRoundsOnce(dollars: string)
    requires IsDecimal(dollars) && HasPoint(dollars)
    ensures PreciseCents(dollars).Ok?
    ensures ToScaledInteger(PreciseCents(dollars).value, 4)
         == Ok(Show(RoundHalfUp(Numerator(dollars) * 1000000, Denominator(dollars))))
  {
    var num, den := Numerator(dollars), Denominator(dollars);
    TruncateThenRound(num, den);
    ChainOf(dollars, num * 100000000 / den, RoundHalfUp(num * 1000000, den));
  }

  lemma {:induction false} ChainOf(dollars: string, units: nat, micros: nat)
    requires IsDecimal(dollars) && HasPoint(dollars) && units == Numerator(dollars) * 100000000 / Denominator(dollars)
    requires micros == (units + 50) / 100
    ensures PreciseCents(dollars).Ok? && ToScaledInteger(PreciseCents(dollars).value, 4) == Ok(Show(micros))
  {
    PreciseCentsTruncate(dollars, units);
    CentsToMicros(units);
  }

  /** So the micros are the true value of the dollars up to half a micro, rounded up on
      a tie: with num / den dollars, -1/2 < micros - 10^6 num / den <= 1/2. */
  lemma {:induction false} ChainError(dollars: string) returns (micros: nat)
    requires IsDecimal(dollars) && HasPoint(dollars)
    ensures PreciseCents(dollars).Ok? && ToScaledInteger(PreciseCents(dollars).value, 4) == Ok(Show(micros))
    ensures var num, den := Numerator(dollars) * 1000000, Denominator(dollars);
            -(den as int) < 2 * (micros * den - num) <= den
  {
    ChainRoundsOnce(dollars);
    micros := RoundHalfUp(Numerator(dollars) * 1000000, Denominator(dollars));
    RoundHalfUpError(Numerator(dollars) * 1000000, Denominator(dollars));
  }
}
