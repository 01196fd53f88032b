/** How far rounding up can move a fare, and in what it is monotone. */
module FareBounds {
  import opened Basics
  import opened Fare

  /** The fare without any rounding: so much a kilometer and a minute, times two multipliers in basis points. */
  function ExactSubtotal(m: Metering<int>, r: Rules<int>): real {
    r.baseFare as real + (m.distance * r.perKilometer) as real / 1_000.0 + (m.duration * r.perMinute) as real / 60.0
  }

  function Factor(bps: int): real {
    bps as real / 10_000.0
  }

  /** The requested surge where the rules allow it, else the bound that it passes. */
  function AllowedSurge(m: Metering<int>, r: Rules<int>): int {
    if m.surgeBps < r.minimumSurgeBps then r.minimumSurgeBps
    else if m.surgeBps > r.maximumSurgeBps then r.maximumSurgeBps
    else m.surgeBps
  }

  function ExactFare(m: Metering<int>, r: Rules<int>): real {
    ExactSubtotal(m, r) * Factor(r.serviceBps) * Factor(AllowedSurge(m, r))
  }

  // ---- What a price is, and when there is one

  /** The largest integer that a double holds together with all below it. */
  predicate Amount(n: int) {
    0 <= n <= 9_007_199_254_740_991
  }

  predicate Chargeable(m: Metering<int>, r: Rules<int>) {
    && Amount(m.distance) && Amount(m.duration) && Amount(m.surgeBps) && m.surgeBps != 0
    && Amount(r.baseFare) && Amount(r.perKilometer) && Amount(r.perMinute)
    && Amount(r.serviceBps) && r.serviceBps != 0 && Amount(r.minimumSurgeBps) && r.minimumSurgeBps != 0
    && Amount(r.maximumSurgeBps) && r.minimumSurgeBps <= r.maximumSurgeBps
    && (exists i :: 0 <= i < |r.version| && !IsSpace(r.version[i]))
    && (exists i :: 0 <= i < |r.currency| && !IsSpace(r.currency[i]))
    && (exists i :: 0 <= i < |r.serviceType| && !IsSpace(r.serviceType[i]))
  }

  /** q is n / d rounded up. */
  predicate RoundedUp(q: int, n: int, d: int) {
    (q - 1) * d < n <= q * d
  }

  /** b is the price of the metering, rounded up at each of the four quotients. */
  predicate IsPrice(b: Breakdown<int>, m: Metering<int>, r: Rules<int>) {
    && b.currency == r.currency && b.baseFare == r.baseFare && b.serviceBps == r.serviceBps
    && RoundedUp(b.distanceFare, m.distance * r.perKilometer, 1_000)
    && RoundedUp(b.durationFare, m.duration * r.perMinute, 60)
    && b.subtotal == b.baseFare + b.distanceFare + b.durationFare
    && RoundedUp(b.serviceAdjusted, b.subtotal * b.serviceBps, 10_000)
    && b.appliedSurgeBps == AllowedSurge(m, r)
    && RoundedUp(b.total, b.serviceAdjusted * b.appliedSurgeBps, 10_000)
  }

  /** Everything that is computed on the way is a safe integer. */
  predicate Fits(b: Breakdown<int>, m: Metering<int>, r: Rules<int>) {
    && Amount(m.distance * r.perKilometer) && Amount(m.duration * r.perMinute) && Amount(b.subtotal)
    && Amount(b.subtotal * b.serviceBps) && Amount(b.serviceAdjusted * b.appliedSurgeBps)
  }

  /**
   * The inputs that are chargeable and whose price fits have exactly this price, and no others have one.
   * So the requested surge is applied wherever the rules allow it.
   */
  lemma PriceIff(m: Metering<int>, r: Rules<int>, b: Breakdown<int>)
    ensures Price(m, r) == Some(b) <==> Chargeable(m, r) && IsPrice(b, m, r) && Fits(b, m, r)
  {
    ChargeableIff(m, r);
    hide ValidMetering, ValidRules, Blank, CeilDiv;
    if Chargeable(m, r) {
      var distance, duration := m.distance * r.perKilometer, m.duration * r.perMinute;
      RoundsUp(distance, METERS_PER_KILOMETER, b.distanceFare);
      RoundsUp(duration, SECONDS_PER_MINUTE, b.durationFare);
      RoundsUp(b.subtotal * b.serviceBps, BASIS_POINTS, b.serviceAdjusted);
      RoundsUp(b.serviceAdjusted * b.appliedSurgeBps, BASIS_POINTS, b.total);
      NotNegative(m, r, b);
    }
  }

  lemma ChargeableIff(m: Metering<int>, r: Rules<int>)
    ensures ValidMetering(m) && ValidRules(r) <==> Chargeable(m, r)
  {
    hide IsSpace;
  }

  lemma NotNegative(m: Metering<int>, r: Rules<int>, b: Breakdown<int>)
    requires Chargeable(m, r)
    ensures m.distance * r.perKilometer >= 0 && m.duration * r.perMinute >= 0 && AllowedSurge(m, r) > 0
    ensures IsPrice(b, m, r) ==>
              && b.subtotal >= 0 && b.subtotal * b.serviceBps >= 0
              && b.serviceAdjusted >= 0 && b.serviceAdjusted * b.appliedSurgeBps >= 0
  {
    hide IsSpace;
    Product(m.distance, r.perKilometer);
    Product(m.duration, r.perMinute);
    if IsPrice(b, m, r) {
      QuotientNotNegative(b.distanceFare, m.distance * r.perKilometer, 1_000);
      QuotientNotNegative(b.durationFare, m.duration * r.perMinute, 60);
      Product(b.subtotal, b.serviceBps);
      QuotientNotNegative(b.serviceAdjusted, b.subtotal * b.serviceBps, 10_000);
      Product(b.serviceAdjusted, b.appliedSurgeBps);
    }
  }

  lemma Product(a: int, b: int)
    requires a >= 0 && b >= 0
    ensures a * b >= 0
  {
  }

  lemma QuotientNotNegative(q: int, n: int, d: int)
    requires d > 0 && n >= 0 && RoundedUp(q, n, d)
    ensures q >= 0
  {
    if q < 0 { SmallerFactor(0, q + 1, d); }
  }

  lemma RoundsUp(n: int, d: int, q: int)
    requires d > 0
    ensures q == CeilDiv(n, d) <==> RoundedUp(q, n, d)
  {
    hide CeilDiv;
    var c := CeilDiv(n, d);
    if RoundedUp(q, n, d) {
      SmallerFactor(q - 1, c, d);
      SmallerFactor(c - 1, q, d);
    }
  }

  lemma SmallerFactor(a: int, b: int, d: int)
    requires d > 0 && a * d < b * d
    ensures a < b
  {
  }

  lemma CeilWithin(n: int, d: int)
    requires d > 0
    ensures n as real / d as real <= CeilDiv(n, d) as real < n as real / d as real + 1.0
  {
    var q, x := CeilDiv(n, d), n as real / d as real;
    assert x * d as real == n as real;
    assert (q * d) as real == q as real * d as real && ((q - 1) * d) as real == (q - 1) as real * d as real;
    AtMost(x, q as real, d as real);
    Below((q - 1) as real, x, d as real);
  }

  lemma AtMost(a: real, b: real, c: real)
    requires c > 0.0 && a * c <= b * c
    ensures a <= b
  {
    if a > b { ScalesBelow(b, a, c); }
  }

  lemma Below(a: real, b: real, c: real)
    requires c > 0.0 && a * c < b * c
    ensures a < b
  {
    if a >= b { Scales(b, a, c); }
  }

  lemma Scales(a: real, b: real, c: real)
    requires a <= b && c > 0.0
    ensures a * c <= b * c
  {
  }

  lemma ScalesBelow(a: real, b: real, c: real)
    requires a < b && c > 0.0
    ensures a * c < b * c
  {
  }

  /** One amount scaled by basis points and rounded up. */
  lemma ScaledWithin(a: int, bps: int)
    requires bps > 0
    ensures a as real * Factor(bps) <= CeilDiv(a * bps, BASIS_POINTS) as real < a as real * Factor(bps) + 1.0
  {
    CeilWithin(a * bps, BASIS_POINTS);
    assert (a * bps) as real == a as real * bps as real;
    assert (a as real * bps as real) / BASIS_POINTS as real == a as real * (bps as real / BASIS_POINTS as real);
  }

  /** An amount within a margin stays within the scaled margin plus one. */
  lemma MarginGrows(exact: real, margin: real, a: int, bps: int)
    requires bps > 0 && exact <= a as real < exact + margin
    ensures exact * Factor(bps) <= CeilDiv(a * bps, BASIS_POINTS) as real
    ensures CeilDiv(a * bps, BASIS_POINTS) as real < exact * Factor(bps) + (margin * Factor(bps) + 1.0)
  {
    var f := Factor(bps);
    ScaledWithin(a, bps);
    Scales(exact, a as real, f);
    ScalesBelow(a as real, exact + margin, f);
    assert (exact + margin) * f == exact * f + margin * f;
  }

  lemma SubtotalWithin(m: Metering<int>, r: Rules<int>)
    requires Price(m, r).Some?
    ensures ExactSubtotal(m, r) <= Price(m, r).value.subtotal as real < ExactSubtotal(m, r) + 2.0
  {
    hide Blank, CeilDiv, Clamp, Safe;
    CeilWithin(m.distance * r.perKilometer, METERS_PER_KILOMETER);
    CeilWithin(m.duration * r.perMinute, SECONDS_PER_MINUTE);
  }

  /** What a successful price is made of. */
  lemma PriceParts(m: Metering<int>, r: Rules<int>)
    requires Price(m, r).Some?
    ensures var p := Price(m, r).value;
            && r.serviceBps > 0 && p.appliedSurgeBps > 0
            && p.serviceAdjusted == CeilDiv(p.subtotal * r.serviceBps, BASIS_POINTS)
            && p.appliedSurgeBps == AllowedSurge(m, r)
            && p.total == CeilDiv(p.serviceAdjusted * p.appliedSurgeBps, BASIS_POINTS)
  {
    hide Blank, CeilDiv, Safe;
  }

  /** The total is never below the exact fare, and exceeds it by less than this many minor units. */
  lemma TotalWithin(m: Metering<int>, r: Rules<int>)
    requires Price(m, r).Some?
    ensures ExactFare(m, r) <= Price(m, r).value.total as real
    ensures Price(m, r).value.total as real
            < ExactFare(m, r) + ((2.0 * Factor(r.serviceBps) + 1.0) * Factor(Price(m, r).value.appliedSurgeBps) + 1.0)
  {
    hide Price, CeilDiv, Factor, AllowedSurge, ExactSubtotal;
    SubtotalWithin(m, r);
    PriceParts(m, r);
    var p := Price(m, r).value;
    MarginGrows(ExactSubtotal(m, r), 2.0, p.subtotal, r.serviceBps);
    MarginGrows(ExactSubtotal(m, r) * Factor(r.serviceBps), 2.0 * Factor(r.serviceBps) + 1.0, p.serviceAdjusted,
                p.appliedSurgeBps);
  }

  // ---- Monotonicity

  lemma ScaledMonotone(a: int, a': int, b: int, b': int, d: int)
    requires 0 <= a <= a' && 0 <= b <= b' && d > 0 && Scaled(a', b', d).Some?
    ensures Scaled(a, b, d).Some? && 0 <= Scaled(a, b, d).value <= Scaled(a', b', d).value
  {
    assert 0 <= a * b && a * (b' - b) >= 0 && (a' - a) * b' >= 0;
    assert a * b <= a' * b';
    CeilMonotone(a * b, a' * b', d);
    CeilMonotone(0, a * b, d);
  }

  lemma CeilMonotone(n: int, n': int, d: int)
    requires n <= n' && d > 0
    ensures CeilDiv(n, d) <= CeilDiv(n', d)
    ensures CeilDiv(0, d) == 0
  {
    var q, q' := CeilDiv(n, d), CeilDiv(n', d);
    Smaller(q - 1, q', d);
    Smaller(-1, CeilDiv(0, d), d);
    Smaller(CeilDiv(0, d) - 1, 0, d);
  }

  lemma Smaller(a: int, b: int, d: int)
    requires d > 0 && a * d < b * d
    ensures a < b
  {
  }

  lemma ClampMonotone(v: int, v': int, low: int, high: int)
    requires v <= v' && low <= high
    ensures low <= Clamp(v, low, high) <= Clamp(v', low, high)
  {
  }

  /** Driving less, for less long, or asking for less surge is never refused when more is not, nor dearer. */
  lemma TotalMonotone(m: Metering<int>, m': Metering<int>, r: Rules<int>)
    requires Price(m', r).Some? && ValidMetering(m)
    requires m.distance <= m'.distance && m.duration <= m'.duration && m.surgeBps <= m'.surgeBps
    ensures Price(m, r).Some? && 0 <= Price(m, r).value.total <= Price(m', r).value.total
  {
    hide CeilDiv, Scaled, Clamp, Blank;
    var p' := Price(m', r).value;
    ScaledMonotone(m.distance, m'.distance, r.perKilometer, r.perKilometer, METERS_PER_KILOMETER);
    ScaledMonotone(m.duration, m'.duration, r.perMinute, r.perMinute, SECONDS_PER_MINUTE);
    var subtotal := r.baseFare + Scaled(m.distance, r.perKilometer, METERS_PER_KILOMETER).value
                    + Scaled(m.duration, r.perMinute, SECONDS_PER_MINUTE).value;
    ScaledMonotone(subtotal, p'.subtotal, r.serviceBps, r.serviceBps, BASIS_POINTS);
    ClampMonotone(m.surgeBps, m'.surgeBps, r.minimumSurgeBps, r.maximumSurgeBps);
    ScaledMonotone(Scaled(subtotal, r.serviceBps, BASIS_POINTS).value, p'.serviceAdjusted,
                   Clamp(m.surgeBps, r.minimumSurgeBps, r.maximumSurgeBps), p'.appliedSurgeBps, BASIS_POINTS);
  }
}
