/** Floors, rounding and powers of ten: the integer facts under the decimal and
    wallet arithmetic. */
module Division {

  function Pow10(n: nat): (r: nat)
    ensures r > 0
  {
    if n == 0 then 1 else 10 * Pow10(n - 1)
  }

  /** n followed by k zeros. */
  function Shift(n: nat, k: nat): nat {
    if k == 0 then n else 10 * Shift(n, k - 1)
  }

  /** floor(num / den + 1/2) */
  function RoundHalfUp(num: nat, den: nat): nat
    requires den > 0
  {
    (2 * num + den) / (2 * den)
  }

  lemma {:induction false} Pow10Add(a: nat, b: nat, sum: nat)
    requires sum == a + b
    ensures Pow10(sum) == Pow10(a) * Pow10(b)
  {
    if a != 0 { Pow10Add(a - 1, b, sum - 1); }
  }

  lemma {:induction false} ShiftIsProduct(n: nat, k: nat)
    ensures Shift(n, k) == n * Pow10(k)
  {
    if k != 0 { ShiftIsProduct(n, k - 1); }
  }

  lemma {:induction false} ShiftZero(k: nat)
    ensures Shift(0, k) == 0
  {
    if k != 0 { ShiftZero(k - 1); }
  }

  lemma {:induction false} ShiftGrows(n: nat, k: nat)
    ensures Shift(n, k) >= n && (k > 0 && Shift(n, k) > 0 ==> Shift(n, k) > n > 0)
  {
    if k != 0 { ShiftGrows(n, k - 1); }
  }

  lemma {:induction false} MulLe(a: int, b: int, k: nat)
    ensures a <= b ==> a * k <= b * k
  {}

  lemma {:induction false} MulAdd(a: int, b: int, k: int)
    ensures (a + b) * k == a * k + b * k
  {}

  lemma {:induction false} MulSwap(a: int, b: int, c: int)
    ensures (a * b) * c == a * (b * c) == (a * c) * b
  {}

  lemma {:induction false} DivBounds(n: int, d: nat)
    requires d > 0
    ensures (n / d) * d <= n < (n / d) * d + d
  {}

  lemma {:induction false} QuotientIs(n: int, d: nat, q: int)
    requires d > 0 && q * d <= n < q * d + d
    ensures n / d == q
  {
    var p := n / d;
    DivBounds(n, d);
    MulLe(p + 1, q, d);
    MulLe(q + 1, p, d);
    MulAdd(p, 1, d);
    MulAdd(q, 1, d);
  }

  /** Taking a floor, shifting by whole units and dividing again is one division. */
  lemma {:induction false} NestedFloor(a: nat, b: nat, c: nat, d: nat)
    requires b > 0 && d > 0
    ensures b * d > 0 && (a / b + c) / d == (a + c * b) / (b * d)
  {
    var u := a / b;
    var q := (u + c) / d;
    DivBounds(a, b);
    DivBounds(u + c, d);
    MulLe(q * d, u + c, b);
    MulLe(u + c + 1, q * d + d, b);
    MulAdd(u, c, b);
    MulAdd(u + c, 1, b);
    MulAdd(q * d, d, b);
    MulSwap(q, d, b);
    assert b * d == d * b;
    assert b * d > 0 by { MulLe(1, b, d); }
    QuotientIs(a + c * b, b * d, q);
  }

  lemma {:induction false} CancelFactor(n: nat, d: nat, k: nat)
    requires d > 0 && k > 0
    ensures d * k > 0 && (n * k) / (d * k) == n / d
  {
    var q := n / d;
    DivBounds(n, d);
    MulLe(q * d, n, k);
    MulLe(n + 1, q * d + d, k);
    MulAdd(n, 1, k);
    MulAdd(q * d, d, k);
    MulSwap(q, d, k);
    assert d * k > 0 by { MulLe(1, d, k); }
    QuotientIs(n * k, d * k, q);
  }

  lemma {:induction false} RoundHalfUpCancels(num: nat, den: nat, k: nat)
    requires den > 0 && k > 0
    ensures den * k > 0 && RoundHalfUp(num * k, den * k) == RoundHalfUp(num, den)
  {
    MulAdd(2 * num, den, k);
    MulSwap(2, num, k);
    MulSwap(2, den, k);
    CancelFactor(2 * num + den, 2 * den, k);
    CancelFactor(num, den, k);
  }

  /** Rounding at 10h looks only at the digit of weight h. */
  lemma {:induction false} RoundHalfUpByDigit(n: nat, h: nat)
    requires h > 0
    ensures RoundHalfUp(n, 10 * h) == n / h / 10 + if (n / h) % 10 >= 5 then 1 else 0
  {
    NestedFloor(n, h, 5, 10);
    CancelFactor(n + 5 * h, 10 * h, 2);
  }

  /** num / 10^places scaled by 10^scale, with the common power cancelled. */
  lemma {:induction false} ScaleQuotient(num: nat, places: nat, scale: nat)
    ensures var n := num * Pow10(scale);
            && n / Pow10(places)
            == (if places > scale then num / Pow10(places - scale) else Shift(num, scale - places))
            && RoundHalfUp(n, Pow10(places))
            == (if places > scale then RoundHalfUp(num, Pow10(places - scale))
                else Shift(num, scale - places))
  {
    if places > scale {
      Pow10Add(places - scale, scale, places);
      CancelFactor(num, Pow10(places - scale), Pow10(scale));
      RoundHalfUpCancels(num, Pow10(places - scale), Pow10(scale));
    } else {
      Pow10Add(scale - places, places, scale);
      ShiftIsProduct(num, scale - places);
      MulSwap(num, Pow10(scale - places), Pow10(places));
      WholeQuotient(Shift(num, scale - places), Pow10(places));
    }
  }

  lemma {:induction false} WholeQuotient(q: nat, d: nat)
    requires d > 0
    ensures q * d / d == q && RoundHalfUp(q * d, d) == q
  {
    QuotientIs(q * d, d, q);
    MulSwap(q, 2, d);
    QuotientIs(2 * (q * d) + d, 2 * d, q);
  }

  /** A fraction and the same fraction with zeros appended. */
  lemma {:induction false} SameRatio(num: nat, places: nat, more: nat)
    requires places <= more
    ensures num * Pow10(more) == Shift(num, more - places) * Pow10(places)
  {
    Pow10Add(more - places, places, more);
    ShiftIsProduct(num, more - places);
    MulSwap(num, Pow10(more - places), Pow10(places));
  }

  lemma {:induction false} SameQuotient(num: nat, longer: nat, places: nat, more: nat, p: nat)
    requires places <= more && longer == Shift(num, more - places)
    ensures num * p / Pow10(places) == longer * p / Pow10(more)
    ensures RoundHalfUp(num * p, Pow10(places)) == RoundHalfUp(longer * p, Pow10(more))
  {
    Pow10Add(places, more - places, more);
    ShiftIsProduct(num, more - places);
    CommonFactor(num, longer, p, Pow10(places), Pow10(more), Pow10(more - places));
  }

  lemma {:induction false} CommonFactor(a: nat, longer: nat, p: nat, b: nat, d: nat, k: nat)
    requires b > 0 && d > 0 && k > 0 && longer == a * k && d == b * k
    ensures a * p / b == longer * p / d && RoundHalfUp(a * p, b) == RoundHalfUp(longer * p, d)
  {
    MulSwap(a, p, k);
    assert longer * p == (a * p) * k;
    CancelFactor(a * p, b, k);
    RoundHalfUpCancels(a * p, b, k);
  }

  lemma {:induction false} Powers()
    ensures Pow10(2) == 100 && Pow10(4) == 10000 && Pow10(6) == 1000000 && Pow10(8) == 100000000
    ensures Pow10(12) == 1000000000000
  {
    Pow10Add(2, 2, 4);
    Pow10Add(4, 2, 6);
    Pow10Add(4, 4, 8);
    Pow10Add(6, 6, 12);
  }

  /** Truncating to two extra places first does not change the rounded result. */
  lemma {:induction false} TruncateThenRound(n: nat, d: nat)
    requires d > 0
    ensures (n * 100000000 / d + 50) / 100 == RoundHalfUp(n * 1000000, d)
  {
    NestedFloor(n * 100000000, d, 50, 100);
    CancelFactor(2 * (n * 1000000) + d, 2 * d, 50);
  }

  /** As an error bound: the rounded value minus the true one lies in (-1/2, 1/2]. */
  lemma {:induction false} RoundHalfUpError(num: nat, den: nat)
    requires den > 0
    ensures -(den as int) < 2 * (RoundHalfUp(num, den) * den - num) <= den
  {
    var q := RoundHalfUp(num, den);
    DivBounds(2 * num + den, 2 * den);
    MulSwap(q, 2, den);
  }
}
