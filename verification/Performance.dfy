/** Latency bands, the percentage change of a controlled pair, and when it counts as a regression. */
module Performance {
  import opened Arithmetic
  import opened Wrappers

  datatype Band = Target | Good | Acceptable | Slow | Bad {
    function Rank(): nat {
      match this case Target => 0 case Good => 1 case Acceptable => 2 case Slow => 3 case Bad => 4
    }
  }

  function Classify(latency: int): Band {
    if latency <= 1000 then Target
    else if latency <= 2000 then Good
    else if latency <= 5000 then Acceptable
    else if latency <= 10000 then Slow
    else Bad
  }

  /** `n / d` rounded to a whole number, halves away from zero. */
  function HalfUp(n: int, d: nat): int
    requires d > 0
  {
    if n >= 0 then (2 * n + d) / (2 * d) else -((-2 * n + d) / (2 * d))
  }

  /** `latency_percent_delta`, in hundredths of a percent. */
  function PercentDelta(baseline: Option<int>, current: Option<int>): Option<int> {
    if baseline.None? || current.None? || baseline.value <= 0 then None
    else Some(HalfUp(10000 * (current.value - baseline.value), baseline.value))
  }

  datatype State = Improved | Stable | Regressed | Unknown

  datatype Comparison = Comparison(delta: Option<int>, percent: Option<int>, state: State, degraded: bool)

  /** `performance_comparison` */
  function Compare(baseline: Option<int>, current: Option<int>): Comparison {
    if baseline.None? || current.None? then Comparison(None, None, Unknown, false)
    else
      var delta := current.value - baseline.value;
      var percent := PercentDelta(baseline, current);
      var regressed := delta >= 500 && percent.Some? && percent.value >= 2500;
      Comparison(Some(delta), percent, if regressed then Regressed else if delta < 0 then Improved else Stable,
                 Classify(current.value).Rank() > Classify(baseline.value).Rank())
  }

  // ---------- rounding ----------

  /** The rounded value is within half a unit: for a percentage in hundredths, within 0.005. */
  lemma HalfUpError(n: int, d: nat)
    requires d > 0
    ensures -(d as int) <= 2 * (HalfUp(n, d) * d - n) <= d
  {
    var a := if n >= 0 then 2 * n + d else -2 * n + d;
    var q := a / (2 * d);
    QuotientBounds(a, 2 * d);
    assert 2 * d * q == 2 * (q * d);
  }

  lemma HalfUpMonotone(m: int, n: int, d: nat)
    requires d > 0 && m <= n
    ensures HalfUp(m, d) <= HalfUp(n, d)
  {
    if m >= 0 {
      QuotientMonotone(2 * m + d, 2 * n + d, 2 * d);
    } else if n >= 0 {
      QuotientAtLeast(-2 * m + d, 2 * d, 0);
      QuotientAtLeast(2 * n + d, 2 * d, 0);
    } else {
      QuotientMonotone(-2 * n + d, -2 * m + d, 2 * d);
    }
  }

  // ---------- what a comparison says ----------

  /** A regression is half a second and, with the rounding made exact, 24.995 percent or more of a positive baseline. */
  lemma RegressedIff(baseline: Option<int>, current: Option<int>)
    ensures Compare(baseline, current).state == Regressed <==>
      && baseline.Some? && current.Some? && baseline.value > 0
      && current.value - baseline.value >= 500
      && 20000 * (current.value - baseline.value) >= 4999 * baseline.value
  {
    if baseline.Some? && current.Some? && baseline.value > 0 && current.value - baseline.value >= 500 {
      var b, delta := baseline.value, current.value - baseline.value;
      QuotientAtLeast(2 * (10000 * delta) + b, 2 * b, 2500);
    }
  }

  /** Rounding reaches below the documented 25 percent. */
  lemma RegressedBelowAQuarter()
    ensures Compare(Some(20000), Some(24999)).state == Regressed && 4 * (24999 - 20000) < 20000
  {
    RegressedIff(Some(20000), Some(24999));
  }

  /** The percentage is within 0.005 of the true one and grows with the current latency, and so does regression. */
  lemma PercentIsAccurate(baseline: int, current: int, later: int)
    requires baseline > 0 && current <= later
    ensures var p, q := PercentDelta(Some(baseline), Some(current)), PercentDelta(Some(baseline), Some(later));
      && p.Some? && q.Some? && p.value <= q.value
      && -baseline <= 2 * (p.value * baseline - 10000 * (current - baseline)) <= baseline
    ensures Compare(Some(baseline), Some(current)).state == Regressed ==>
      Compare(Some(baseline), Some(later)).state == Regressed
  {
    HalfUpError(10000 * (current - baseline), baseline);
    HalfUpMonotone(10000 * (current - baseline), 10000 * (later - baseline), baseline);
  }

  lemma BandsAreOrdered(a: int, b: int)
    requires a <= b
    ensures Classify(a).Rank() <= Classify(b).Rank()
  {
  }

  /** One, two, five and ten seconds, which the bands end with. */
  const LIMITS: seq<int> := [1000, 2000, 5000, 10000]

  /** A latency is beyond as many bands as it exceeds limits. */
  lemma BandByLimits(latency: int, k: nat)
    requires k < 4
    ensures Classify(latency).Rank() > k <==> latency > LIMITS[k]
    ensures Classify(latency).Rank() <= 4
  {
  }

  /** A pair is in a worse band exactly when a limit lies between its latencies. */
  lemma DegradedIff(baseline: Option<int>, current: Option<int>)
    ensures Compare(baseline, current).degraded <==>
      && baseline.Some? && current.Some?
      && exists k :: 0 <= k < 4 && baseline.value <= LIMITS[k] < current.value
  {
    if baseline.Some? && current.Some? {
      var b, c := Classify(baseline.value).Rank(), Classify(current.value).Rank();
      forall k: nat | k < 4 ensures (b > k <==> baseline.value > LIMITS[k]) && (c > k <==> current.value > LIMITS[k]) {
        BandByLimits(baseline.value, k);
        BandByLimits(current.value, k);
      }
      if b < c {
        BandByLimits(current.value, 0);
        assert baseline.value <= LIMITS[b] < current.value;
      }
    }
  }

  /** What is recorded of a pair: the difference of two known latencies, its percentage of a positive baseline, and an
      improvement exactly when it is negative. */
  lemma DeltaIsDifference(baseline: Option<int>, current: Option<int>)
    ensures Compare(baseline, current).delta ==
      if baseline.Some? && current.Some? then Some(current.value - baseline.value) else None
    ensures Compare(baseline, current).state == Improved <==>
      baseline.Some? && current.Some? && current.value < baseline.value
    ensures Compare(baseline, current).percent == PercentDelta(baseline, current)
    ensures PercentDelta(baseline, current).Some? <==> baseline.Some? && current.Some? && baseline.value > 0
  {
  }

  /** An improvement is never a worse band, and without both latencies nothing is said. */
  lemma ImprovedKeepsBand(baseline: Option<int>, current: Option<int>)
    ensures var c := Compare(baseline, current);
      && (c.state == Improved ==> !c.degraded && current.value < baseline.value)
      && (c.state == Unknown <==> baseline.None? || current.None?)
      && (c.degraded ==> c.delta.Some? && c.delta.value > 0)
  {
    if baseline.Some? && current.Some? && current.value <= baseline.value {
      BandsAreOrdered(current.value, baseline.value);
    }
  }

  // ---------- the intermediate quotient ----------

  function Pow10(s: nat): (p: nat)
    ensures p > 0
  {
    if s == 0 then 1 else 10 * Pow10(s - 1)
  }

  const DIGITS_28 := 10000000000000000000000000000
  const DIGITS_27 := 1000000000000000000000000000

  /** `r / 10^s` is what the division `n / b` leaves at 28 significant digits: the exact quotient or the nearest one. */
  predicate Quotient28(n: nat, b: nat, r: nat, s: nat) {
    || r * b == n * Pow10(s)
    || (DIGITS_27 <= r <= DIGITS_28 && -(b as int) <= 2 * (r * b - n * Pow10(s)) <= b)
  }

  lemma {:induction false} Pow10Grows(s: nat, t: nat)
    requires s <= t
    ensures Pow10(s) <= Pow10(t) && (Pow10(t) % Pow10(s) == 0)
    decreases t
  {
    if s < t {
      Pow10Grows(s, t - 1);
      var k := Pow10(t - 1) / Pow10(s);
      assert Pow10(t - 1) == k * Pow10(s);
      assert Pow10(t) == (10 * k) * Pow10(s);
      MultipleOf(10 * k, Pow10(s));
    } else {
      MultipleOf(1, Pow10(s));
    }
  }

  lemma MultipleOf(k: nat, m: nat)
    requires m > 0
    ensures (k * m) % m == 0
  {
    QuotientBounds(k * m, m);
    QuotientAtLeast(k * m, m, k);
    QuotientAtLeast(k * m, m, k + 1);
  }

  lemma Pow10Values()
    ensures Pow10(3) == 1000 && Pow10(15) == 1000000000000000 && Pow10(16) == 10000000000000000
  {
    assert Pow10(3) == 1000;
    assert Pow10(6) == 1000000;
    assert Pow10(9) == 1000000000;
    assert Pow10(12) == 1000000000000;
    assert Pow10(15) == 1000000000000000;
  }

  lemma Grows(u: nat, x: int, y: int)
    requires x <= y
    ensures u * x <= u * y
  {
    assert u * (y - x) >= 0;
  }

  lemma Boundary(u: nat, b: nat, h: int, offset: int)
    ensures (u * (2 * h + offset)) * b == 2 * (u * (b * h)) + offset * (u * b)
  {
    calc {
      (u * (2 * h + offset)) * b;
      (2 * (u * h) + u * offset) * b;
      2 * ((u * h) * b) + (u * offset) * b;
      { assert (u * h) * b == u * (b * h); assert (u * offset) * b == offset * (u * b); }
      2 * (u * (b * h)) + offset * (u * b);
    }
  }

  /** A quotient at or above a rounding boundary is still there at 28 digits: boundaries are whole multiples of its last
      digit. */
  lemma LowerBoundary(n: nat, b: nat, r: nat, u: nat, h: int)
    requires b > 0 && 200 * n + b >= 2 * (b * h) && 2 * (r * b) >= 400 * (u * n) - b
    ensures r >= u * (2 * h - 1)
  {
    Grows(u, 2 * (b * h), 200 * n + b);
    LowerProducts(n, b, u, b * h);
    Boundary(u, b, h, -1);
    AtLeast(r, u * (2 * h - 1), b);
  }

  lemma OneApart(j: int, k: int, b: nat)
    requires j < k
    ensures j * b + b <= k * b
  {
    Grows(b, j + 1, k);
    assert b * (j + 1) == j * b + b && b * k == k * b;
  }

  lemma LowerProducts(n: nat, b: nat, u: nat, p: int)
    ensures u * (2 * p) == 2 * (u * p) && u * (200 * n + b) == 200 * (u * n) + u * b
  {
  }

  lemma AtLeast(r: int, k: int, b: nat)
    requires b > 0 && 2 * (r * b) >= 2 * (k * b) - b
    ensures r >= k
  {
    if r < k { OneApart(r, k, b); }
  }

  /** A quotient below a boundary stays below it: it is further away than the last digit reaches. */
  lemma UpperBoundary(n: nat, b: nat, r: nat, u: nat, h: int)
    requires b > 0 && 2 * u > b && 200 * n + b + 1 <= 2 * (b * h) + 2 * b && 2 * (r * b) <= 400 * (u * n) + b
    ensures r < u * (2 * h + 1)
  {
    Grows(u, 200 * n + b + 1, 2 * (b * h) + 2 * b);
    UpperProducts(n, b, u, b * h);
    Boundary(u, b, h, 1);
    Below(r, u * (2 * h + 1), b);
  }

  lemma UpperProducts(n: nat, b: nat, u: nat, p: int)
    ensures u * (2 * p + 2 * b) == 2 * (u * p) + 2 * (u * b)
    ensures u * (200 * n + b + 1) == 200 * (u * n) + u * b + u
  {
  }

  lemma Below(r: int, k: int, b: nat)
    requires b > 0 && r * b < k * b
    ensures r < k
  {
    if r > k { OneApart(k, r, b); }
  }

  lemma BetweenBoundaries(r: nat, u: nat, h: int)
    requires u > 0 && u * (2 * h - 1) <= r < u * (2 * h + 1)
    ensures HalfUp(100 * r, 200 * u) == h
  {
    var a, m := 200 * r + 200 * u, 400 * u;
    assert u * (2 * h - 1) == 2 * (u * h) - u && u * (2 * h + 1) == 2 * (u * h) + u;
    assert h * m == 400 * (u * h) && (h + 1) * m == 400 * (u * h) + 400 * u;
    QuotientAtLeast(a, m, h);
    QuotientAtLeast(a, m, h + 1);
  }

  /** Rounding in two steps, to 28 digits and then to hundredths, is rounding once. */
  lemma TwoRoundingsAreOne(n: nat, b: nat, r: nat, u: nat)
    requires b > 0 && 2 * u > b
    requires -(b as int) <= 2 * (r * b - 200 * (u * n)) <= b
    ensures HalfUp(100 * r, 200 * u) == HalfUp(100 * n, b)
  {
    var h := HalfUp(100 * n, b);
    RoundedBounds(n, b, h);
    LowerBoundary(n, b, r, u, h);
    UpperBoundary(n, b, r, u, h);
    BetweenBoundaries(r, u, h);
  }

  lemma ScaleOut(n: nat, u: nat)
    ensures n * (200 * u) == 200 * (u * n)
  {
  }

  lemma RoundedBounds(n: nat, b: nat, h: int)
    requires b > 0 && h == HalfUp(100 * n, b)
    ensures 2 * (b * h) <= 200 * n + b < 2 * (b * h) + 2 * b
  {
    QuotientBounds(200 * n + b, 2 * b);
    assert 2 * b * h == 2 * (b * h);
  }

  lemma ExactQuotient(n: nat, b: nat, r: nat, scale: nat)
    requires b > 0 && scale > 0 && r * b == n * scale
    ensures HalfUp(100 * r, scale) == HalfUp(100 * n, b)
  {
    var h := HalfUp(100 * n, b);
    QuotientBounds(200 * n + b, 2 * b);
    QuotientAtLeast(200 * r + scale, 2 * scale, h);
    QuotientAtLeast(200 * r + scale, 2 * scale, h + 1);
    ScaledUp(200 * n + b, 200 * r + scale, b, scale, n, r);
    Scaling(200 * n + b, 200 * r + scale, b, scale, 2 * h);
    Scaling(200 * n + b, 200 * r + scale, b, scale, 2 * h + 2);
  }

  lemma ScaledUp(a: int, c: int, b: nat, scale: nat, n: nat, r: nat)
    requires a == 200 * n + b && c == 200 * r + scale && r * b == n * scale
    ensures a * scale == c * b
  {
    assert a * scale == 200 * (n * scale) + b * scale;
    assert c * b == 200 * (r * b) + scale * b;
  }

  /** Comparing with a multiple of the denominator does not depend on the scale of the fraction. */
  lemma Scaling(a: int, c: int, b: nat, scale: nat, k: int)
    requires b > 0 && scale > 0 && a * scale == c * b
    ensures a >= k * b <==> c >= k * scale
  {
    if a >= k * b {
      assert (a - k * b) * scale >= 0;
      assert (c - k * scale) * b == (a - k * b) * scale;
    } else {
      assert (k * b - a) * scale > 0;
      assert (k * scale - c) * b == (k * b - a) * scale;
    }
  }

  /** For latencies of 31 bits the 28-digit quotient never changes the rounded percentage, in either direction. */
  lemma QuotientDigitsSuffice(baseline: nat, current: nat, r: nat, s: nat)
    requires 0 < baseline < 0x8000_0000 && current < 0x8000_0000
    requires var delta := if current >= baseline then current - baseline else baseline - current;
      Quotient28(100 * delta, baseline, r, s)
    ensures var rounded := HalfUp(100 * r, Pow10(s));
      PercentDelta(Some(baseline), Some(current)) == Some(if current >= baseline then rounded else -rounded)
  {
    var delta := if current >= baseline then current - baseline else baseline - current;
    var n := 100 * delta;
    if r * baseline == n * Pow10(s) {
      ExactQuotient(n, baseline, r, Pow10(s));
    } else {
      EnoughDigits(n, baseline, r, s);
      var u := Pow10(s) / 200;
      assert Pow10(s) == 200 * u;
      ScaleOut(n, u);
      TwoRoundingsAreOne(n, baseline, r, u);
    }
  }

  lemma EnoughDigits(n: nat, b: nat, r: nat, s: nat)
    requires 0 < b < 0x8000_0000 && n <= 100 * 0x8000_0000 && DIGITS_27 <= r
    requires 2 * (r * b - n * Pow10(s)) <= b
    ensures Pow10(s) > 100 * b && Pow10(s) % 200 == 0
  {
    FewDigitsAreShort(n, b, r, s);
    LongEnough(s);
    DivisibleBy200(s);
  }

  lemma LongEnough(s: nat)
    requires s >= 16
    ensures Pow10(s) >= 10000000000000000
  {
    Pow10Values();
    Pow10Grows(16, s);
  }

  lemma DivisibleBy200(s: nat)
    requires s >= 3
    ensures Pow10(s) % 200 == 0
  {
    Pow10Values();
    Pow10Grows(3, s);
    var q := Pow10(s) / 1000;
    assert Pow10(s) == 1000 * q;
    assert (1000 * q) % 200 == 0;
  }

  lemma FewDigitsAreShort(n: nat, b: nat, r: nat, s: nat)
    requires 0 < b < 0x8000_0000 && n <= 100 * 0x8000_0000 && DIGITS_27 <= r
    requires 2 * (r * b - n * Pow10(s)) <= b
    ensures s >= 16
  {
    Pow10Values();
    if s <= 15 {
      Pow10Grows(s, 15);
      Grows(n, Pow10(s), Pow10(15));
      Grows(Pow10(15), n, 100 * 0x8000_0000);
      Grows(r, 1, b);
      assert false;
    }
  }
}
