/** Half-up rounding of exact fractions, and what it means for currency conversion. */
module Rounding {

  function Pow10(k: nat): (p: nat)
    ensures p > 0
  {
    if k == 0 then 1 else 10 * Pow10(k - 1)
  }

  function Abs(x: int): nat { if x < 0 then -x else x }

  /** numer/denom to `scale` decimal places, ties away from zero. */
  function RoundHalfUp(numer: int, denom: int, scale: nat): int
    requires denom > 0
  {
    var quotient := (Abs(numer) * Pow10(scale) + denom / 2) / denom;
    if numer < 0 then -quotient else quotient
  }

  /** q is the integer nearest to n/d, and on a tie the one further from zero. */
  ghost predicate NearestHalfUp(q: int, n: int, d: int) {
    && d > 0
    && 2 * Abs(q * d - n) <= d
    && (2 * Abs(q * d - n) == d ==> Abs(q) * d > Abs(n))
  }

  lemma {:induction false} DivisionBounds(x: int, d: int)
    requires d > 0
    ensures x / d * d <= x < x / d * d + d
  {
  }

  /** For every positive denominator the code's quotient is the nearest integer. */
  lemma {:induction false} RoundHalfUpIsNearest(numer: int, denom: int, scale: nat)
    requires denom > 0
    ensures NearestHalfUp(RoundHalfUp(numer, denom, scale), numer * Pow10(scale), denom)
  {
    var n := Abs(numer) * Pow10(scale);
    var q := (n + denom / 2) / denom;
    DivisionBounds(n + denom / 2, denom);
    NonNegative(Abs(numer), Pow10(scale));
    NearestOfBounds(q, n, denom);
    if numer < 0 {
      assert numer * Pow10(scale) == -n;
      NearestNegated(q, n, denom);
    }
  }

  lemma {:induction false} NonNegative(a: nat, b: nat)
    ensures a * b >= 0
  {
  }

  lemma {:induction false} NearestOfBounds(q: int, n: int, d: int)
    requires d > 0 && n >= 0
    requires q * d <= n + d / 2 < q * d + d
    ensures q >= 0 && NearestHalfUp(q, n, d)
  {
    if q < 0 {
      MonotoneTimes(q + 1, 0, d);
      assert false;
    }
  }

  lemma {:induction false} NearestNegated(q: int, n: int, d: int)
    requires NearestHalfUp(q, n, d)
    ensures NearestHalfUp(-q, -n, d)
  {
    assert (-q) * d - (-n) == -(q * d - n);
  }

  /** The rule picks one integer: any two that meet it are equal. */
  lemma {:induction false} NearestIsUnique(q: int, r: int, n: int, d: int)
    requires NearestHalfUp(q, n, d) && NearestHalfUp(r, n, d)
    ensures q == r
  {
    if q < r {
      NearestNotBelow(q, r, n, d);
    } else if r < q {
      NearestNotBelow(r, q, n, d);
    }
  }

  lemma {:induction false} NearestNotBelow(q: int, r: int, n: int, d: int)
    requires q < r && NearestHalfUp(q, n, d)
    ensures !NearestHalfUp(r, n, d)
  {
    StepUp(q, r, d);
    AbsTimes(q, d);
    AbsTimes(r, d);
    MonotoneTimes(q, if q < 0 then -1 else q, d);
    NonNegative(Abs(q), d);
    NotBothNearest(q * d, r * d, n, d);
  }

  /** Two multiples of d cannot both be within half of d, each further from zero on a tie. */
  lemma {:induction false} NotBothNearest(qd: int, rd: int, n: int, d: int)
    requires d > 0 && rd >= qd + d && (qd >= 0 || qd <= -d)
    requires 2 * Abs(qd - n) <= d && (2 * Abs(qd - n) == d ==> Abs(qd) > Abs(n))
    ensures !(2 * Abs(rd - n) <= d && (2 * Abs(rd - n) == d ==> Abs(rd) > Abs(n)))
  {
  }

  lemma {:induction false} StepUp(q: int, r: int, d: int)
    requires q < r && d > 0
    ensures r * d >= q * d + d
  {
    assert r * d - q * d == (r - q) * d;
    assert (r - q) * d >= 1 * d by { MonotoneTimes(1, r - q, d); }
  }

  lemma {:induction false} MonotoneTimes(a: int, b: int, d: int)
    requires a <= b && d >= 0
    ensures a * d <= b * d
  {
  }

  lemma {:induction false} AbsTimes(q: int, d: int)
    requires d > 0
    ensures Abs(q) * d == Abs(q * d)
  {
    if q < 0 {
      assert (-q) * d == -(q * d);
      assert q * d < 0;
    }
  }

  /** Rounding commutes with negation. */
  lemma {:induction false} RoundHalfUpOdd(numer: int, denom: int, scale: nat)
    requires denom > 0
    ensures RoundHalfUp(-numer, denom, scale) == -RoundHalfUp(numer, denom, scale)
  {
    if numer == 0 {
      assert (0 + denom / 2) / denom == 0;
    }
  }

  /** Rounding never reorders values. */
  lemma {:induction false} RoundHalfUpMonotone(a: int, b: int, denom: int, scale: nat)
    requires denom > 0 && a <= b
    ensures RoundHalfUp(a, denom, scale) <= RoundHalfUp(b, denom, scale)
  {
    var q, r := RoundHalfUp(a, denom, scale), RoundHalfUp(b, denom, scale);
    RoundHalfUpIsNearest(a, denom, scale);
    RoundHalfUpIsNearest(b, denom, scale);
    MonotoneTimes(a, b, Pow10(scale));
    if r < q {
      NearestCrossing(r, q, b * Pow10(scale), a * Pow10(scale), denom);
    }
  }

  /** Two nearest integers cannot cross: if r < q then r's value lies below q's. */
  lemma {:induction false} NearestCrossing(r: int, q: int, m: int, n: int, d: int)
    requires r < q && NearestHalfUp(r, m, d) && NearestHalfUp(q, n, d)
    ensures m < n
  {
    StepUp(r, q, d);
    if m >= n {
      assert 2 * (m - r * d) == d && 2 * (q * d - n) == d && m == n;
      NearestNotBelow(r, q, m, d);
    }
  }

  /** Scaling numerator and denominator alike changes nothing. */
  lemma {:induction false} RoundHalfUpScaleFree(numer: int, denom: int, k: int)
    requires denom > 0 && k > 0 && denom * k > 0
    ensures RoundHalfUp(numer * k, denom * k, 0) == RoundHalfUp(numer, denom, 0)
  {
    var q := RoundHalfUp(numer, denom, 0);
    RoundHalfUpIsNearest(numer, denom, 0);
    RoundHalfUpIsNearest(numer * k, denom * k, 0);
    NearestScaled(q, numer, denom, k);
    NearestIsUnique(q, RoundHalfUp(numer * k, denom * k, 0), numer * k, denom * k);
  }

  lemma {:induction false} NearestScaled(q: int, n: int, d: int, k: int)
    requires NearestHalfUp(q, n, d) && k > 0 && d * k > 0
    ensures NearestHalfUp(q, n * k, d * k)
  {
    var e := q * d - n;
    Factor(q, n, d, k);
    AbsTimes(e, k);
    AbsTimes(n, k);
    MonotoneTimes(2 * Abs(e), d, k);
    Associate(2, Abs(e), k);
    if 2 * Abs(e * k) == d * k {
      Cancel(2 * Abs(e), d, k);
      StrictTimes(Abs(n), Abs(q) * d, k);
      Associate(Abs(q), d, k);
    }
  }

  lemma {:induction false} Factor(q: int, n: int, d: int, k: int)
    ensures q * (d * k) - n * k == (q * d - n) * k
  {
    Associate(q, d, k);
  }

  lemma {:induction false} Associate(a: int, b: int, c: int)
    ensures a * b * c == a * (b * c)
  {
  }

  lemma {:induction false} Cancel(a: int, b: int, k: int)
    requires a * k == b * k && k > 0
    ensures a == b
  {
    if a < b { StepUp(a, b, k); } else if b < a { StepUp(b, a, k); }
  }

  lemma {:induction false} StrictTimes(a: int, b: int, k: int)
    requires a < b && k > 0
    ensures a * k < b * k
  {
    StepUp(a, b, k);
  }

  // ----- splitting an amount -----

  function Sum(xs: seq<int>): int {
    if xs == [] then 0 else Sum(xs[..|xs| - 1]) + xs[|xs| - 1]
  }

  function Converted(xs: seq<int>, rate: int, denom: int): int
    requires denom > 0
  {
    if xs == [] then 0
    else Converted(xs[..|xs| - 1], rate, denom) + RoundHalfUp(xs[|xs| - 1] * rate, denom, 0)
  }

  /** The converted parts stray from the exact product by at most half a unit each. */
  lemma {:induction false} ConvertedPartsDrift(xs: seq<int>, rate: int, denom: int)
    requires denom > 0
    ensures 2 * Abs(Converted(xs, rate, denom) * denom - Sum(xs) * rate) <= |xs| * denom
  {
    if xs != [] {
      var front, last := xs[..|xs| - 1], xs[|xs| - 1];
      ConvertedPartsDrift(front, rate, denom);
      RoundHalfUpIsNearest(last * rate, denom, 0);
      var c, r := Converted(front, rate, denom), RoundHalfUp(last * rate, denom, 0);
      Distribute(c, r, denom);
      Distribute(Sum(front), last, rate);
      Distribute(|front|, 1, denom);
    }
  }

  lemma {:induction false} Distribute(a: int, b: int, c: int)
    ensures (a + b) * c == a * c + b * c
  {
  }

  /** Splitting an amount into n parts moves the converted total by at most (n + 1) / 2 units. */
  lemma {:induction false} SplitConversionBound(xs: seq<int>, rate: int, denom: int)
    requires denom > 0
    ensures 2 * Abs(Converted(xs, rate, denom) - RoundHalfUp(Sum(xs) * rate, denom, 0)) <= |xs| + 1
  {
    ConvertedPartsDrift(xs, rate, denom);
    RoundHalfUpIsNearest(Sum(xs) * rate, denom, 0);
    GapBound(Converted(xs, rate, denom), RoundHalfUp(Sum(xs) * rate, denom, 0), Sum(xs) * rate, |xs|, denom);
  }

  lemma {:induction false} GapBound(c: int, r: int, exact: int, n: nat, denom: int)
    requires denom > 0
    requires 2 * Abs(c * denom - exact) <= n * denom
    requires 2 * Abs(r * denom - exact) <= denom
    ensures 2 * Abs(c - r) <= n + 1
  {
    Distribute(c - r, r, denom);
    AbsTimes(c - r, denom);
    var gap := 2 * Abs(c - r);
    Associate(2, Abs(c - r), denom);
    Distribute(n, 1, denom);
    assert gap * denom <= (n + 1) * denom;
    if gap > n + 1 {
      StepUp(n + 1, gap, denom);
    }
  }
}
