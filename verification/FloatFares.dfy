/** The whole fare calculation in double arithmetic computes Price, rejections included. */
module FloatFares {
  import opened Basics
  import opened Fare
  import opened Doubles

  const RANGE := SIGNIFICANDS as real * SIGNIFICANDS as real

  /** What the program's +, * and / do to their exact results; 2^106 is the largest that can occur. */
  ghost predicate Rounding(fl: real -> real) {
    forall x: real :: 0.0 <= x <= RANGE ==> RoundsTo(x, fl(x))
  }

  function CheckedMultiply(left: real, right: real, fl: real -> real): Option<real> {
    var result := fl(left * right);
    if IsSafeInteger(result) then Some(result) else None
  }

  /** values.reduce((sum, value) => sum + value, sum) */
  function SumFrom(sum: real, values: seq<real>, fl: real -> real): real
    decreases |values|
  {
    if values == [] then sum else SumFrom(fl(sum + values[0]), values[1..], fl)
  }

  function CheckedSum(values: seq<real>, fl: real -> real): Option<real> {
    var result := SumFrom(0.0, values, fl);
    if IsSafeInteger(result) then Some(result) else None
  }

  function CeilRatio(numerator: real, denominator: real, fl: real -> real): real
    requires denominator != 0.0
  {
    Ceil(fl(numerator / denominator)) as real
  }

  /** A checked product over a constant denominator. */
  function ScaledFloat(left: real, right: real, denominator: real, fl: real -> real): Option<real>
    requires denominator != 0.0
  {
    var product := CheckedMultiply(left, right, fl);
    if product.None? then None else Some(CeilRatio(product.value, denominator, fl))
  }

  predicate NonNegativeInteger(x: real) {
    IsSafeInteger(x) && x >= 0.0
  }

  predicate PositiveInteger(x: real) {
    IsSafeInteger(x) && x > 0.0
  }

  predicate ValidFloats(m: Metering<real>, r: Rules<real>) {
    && NonNegativeInteger(m.distance) && NonNegativeInteger(m.duration) && PositiveInteger(m.surgeBps)
    && !Blank(r.version) && !Blank(r.currency) && !Blank(r.serviceType)
    && NonNegativeInteger(r.baseFare) && NonNegativeInteger(r.perKilometer) && NonNegativeInteger(r.perMinute)
    && PositiveInteger(r.serviceBps) && PositiveInteger(r.minimumSurgeBps) && PositiveInteger(r.maximumSurgeBps)
    && r.minimumSurgeBps <= r.maximumSurgeBps
  }

  function ClampFloat(value: real, low: real, high: real): real {
    var least := if value < low then low else value;
    if high < least then high else least
  }

  /** quoteInitialFare and calculateFinalFare, operation by operation. */
  function FloatPrice(m: Metering<real>, r: Rules<real>, fl: real -> real): Option<Breakdown<real>> {
    if !ValidFloats(m, r) then None else
    var distanceFare := ScaledFloat(m.distance, r.perKilometer, METERS_PER_KILOMETER as real, fl);
    if distanceFare.None? then None else
    var durationFare := ScaledFloat(m.duration, r.perMinute, SECONDS_PER_MINUTE as real, fl);
    if durationFare.None? then None else
    var subtotal := CheckedSum([r.baseFare, distanceFare.value, durationFare.value], fl);
    if subtotal.None? then None else
    var adjusted := ScaledFloat(subtotal.value, r.serviceBps, BASIS_POINTS as real, fl);
    if adjusted.None? then None else
    var surge := ClampFloat(m.surgeBps, r.minimumSurgeBps, r.maximumSurgeBps);
    var total := ScaledFloat(adjusted.value, surge, BASIS_POINTS as real, fl);
    if total.None? then None else
    Some(Breakdown(r.currency, r.baseFare, distanceFare.value, durationFare.value, subtotal.value,
                   r.serviceBps, adjusted.value, surge, total.value))
  }

  // ---- Operation by operation

  function Lifted(x: Option<int>): Option<real> {
    match x
    case None => None
    case Some(n) => Some(n as real)
  }

  lemma SafeIntegers(n: int)
    ensures IsSafeInteger(n as real) <==> Safe(n)
  {
  }

  lemma InRange(a: int, b: int)
    requires 0 <= a <= SIGNIFICANDS && 0 <= b <= SIGNIFICANDS
    ensures 0.0 <= (a * b) as real <= RANGE && a as real * b as real == (a * b) as real
  {
    assert a * b >= 0 && a * (SIGNIFICANDS - b) >= 0;
    assert a * b <= a * SIGNIFICANDS <= SIGNIFICANDS * SIGNIFICANDS;
  }

  lemma MultiplyIsExact(a: int, b: int, fl: real -> real)
    requires Rounding(fl) && 0 <= a && Safe(a) && 0 <= b && Safe(b)
    ensures CheckedMultiply(a as real, b as real, fl) == if Safe(a * b) then Some((a * b) as real) else None
  {
    InRange(a, b);
    CheckedIsExact(a * b, fl(a as real * b as real));
  }

  /** One product and quotient: as computed exactly, whatever was rounded on the way. */
  lemma ScaledIsExact(a: int, b: int, d: int, fl: real -> real)
    requires Rounding(fl) && 0 <= a && Safe(a) && 0 <= b && Safe(b) && 1 <= d && Safe(d)
    ensures ScaledFloat(a as real, b as real, d as real, fl) == Lifted(Scaled(a, b, d))
    ensures Scaled(a, b, d).Some? ==> Safe(Scaled(a, b, d).value) && Scaled(a, b, d).value >= 0
  {
    MultiplyIsExact(a, b, fl);
    assert a * b >= 0;
    if Safe(a * b) {
      QuotientInRange(a * b, d);
      CeilRatioIsExact(a * b, d, fl((a * b) as real / d as real));
      CeilBounds(a * b, d);
    }
  }

  lemma QuotientInRange(n: int, d: int)
    requires 0 <= n <= SIGNIFICANDS && 1 <= d
    ensures 0.0 <= n as real / d as real <= RANGE
  {
    var x := n as real / d as real;
    assert x * d as real == n as real;
    if x > n as real { TimesAtMost(1.0, d as real, x); }
  }

  function Sum(values: seq<int>): int {
    if values == [] then 0 else values[0] + Sum(values[1..])
  }

  function Reals(values: seq<int>): (r: seq<real>)
    ensures |r| == |values|
  {
    if values == [] then [] else [values[0] as real] + Reals(values[1..])
  }

  ghost predicate Amounts(values: seq<int>) {
    forall i | 0 <= i < |values| :: 0 <= values[i] && Safe(values[i])
  }

  /** Where a running sum stands: exact while it is safe, and beyond the safe range from then on. */
  ghost predicate Running(sum: real, exact: int, count: nat) {
    && exact >= 0 && 0.0 <= sum <= (count * SIGNIFICANDS) as real
    && if Safe(exact) then sum == exact as real else sum >= SIGNIFICANDS as real
  }

  lemma AddKeeps(sum: real, exact: int, count: nat, v: int, fl: real -> real)
    requires Rounding(fl) && Running(sum, exact, count) && 0 <= v && Safe(v) && count < 0x1_0000_0000
    ensures Running(fl(sum + v as real), exact + v, count + 1)
  {
    var x, bound := sum + v as real, ((count + 1) * SIGNIFICANDS) as real;
    assert bound == (count + 1) as real * SIGNIFICANDS as real;
    assert x <= bound <= RANGE;
    Pow53();
    assert Encodes(bound, count + 1, 53);
    StaysBelow(x, fl(x), bound);
    IntegerIsDouble(0);
    StaysAbove(x, fl(x), 0.0);
    if Safe(exact) {
      assert x == (exact + v) as real;
      CheckedIsExact(exact + v, fl(x));
      if !Safe(exact + v) { PastSafe(x, fl(x)); }
    } else {
      PastSafe(x, fl(x));
    }
  }

  lemma {:induction false} SumKeeps(sum: real, exact: int, count: nat, values: seq<int>, fl: real -> real)
    requires Rounding(fl) && Running(sum, exact, count) && Amounts(values) && count + |values| <= 0x1_0000_0000
    ensures Running(SumFrom(sum, Reals(values), fl), exact + Sum(values), count + |values|)
    decreases |values|
  {
    if values != [] {
      AddKeeps(sum, exact, count, values[0], fl);
      assert Reals(values)[0] == values[0] as real && Reals(values)[1..] == Reals(values[1..]);
      SumKeeps(fl(sum + values[0] as real), exact + values[0], count + 1, values[1..], fl);
    }
  }

  /** The checked sum of amounts accepts exactly the safe sums, and is exact, though partial sums round. */
  lemma SumIsExact(values: seq<int>, fl: real -> real)
    requires Rounding(fl) && Amounts(values) && |values| < 0x1_0000_0000
    ensures CheckedSum(Reals(values), fl) == if Safe(Sum(values)) then Some(Sum(values) as real) else None
  {
    SumKeeps(0.0, 0, 0, values, fl);
    SafeIntegers(Sum(values));
  }

  // ---- The whole calculation

  function FloatMetering(m: Metering<int>): Metering<real> {
    Metering(m.distance as real, m.duration as real, m.surgeBps as real)
  }

  function FloatRules(r: Rules<int>): Rules<real> {
    Rules(r.version, r.currency, r.serviceType, r.baseFare as real, r.perKilometer as real, r.perMinute as real,
          r.serviceBps as real, r.minimumSurgeBps as real, r.maximumSurgeBps as real)
  }

  function FloatBreakdown(b: Option<Breakdown<int>>): Option<Breakdown<real>> {
    match b
    case None => None
    case Some(b) => Some(Breakdown(b.currency, b.baseFare as real, b.distanceFare as real, b.durationFare as real,
                                   b.subtotal as real, b.serviceBps as real, b.serviceAdjusted as real,
                                   b.appliedSurgeBps as real, b.total as real))
  }

  lemma ClampIsExact(value: int, low: int, high: int)
    ensures ClampFloat(value as real, low as real, high as real) == Clamp(value, low, high) as real
  {
  }

  lemma Subtotal(base: int, distance: int, duration: int, fl: real -> real)
    requires Rounding(fl) && Amounts([base, distance, duration])
    ensures CheckedSum([base as real, distance as real, duration as real], fl)
            == Lifted(if Safe(base + distance + duration) then Some(base + distance + duration) else None)
  {
    var values := [base, distance, duration];
    SumIsExact(values, fl);
    var rest := values[1..];
    var last := rest[1..];
    assert last[1..] == [];
    assert Sum(last) == duration && Sum(rest) == distance + duration;
    assert Reals(last) == [duration as real] && Reals(rest) == [distance as real, duration as real];
    assert Reals(values) == [base as real, distance as real, duration as real];
  }

  /** For whole inputs the double calculation is the exact one, amount by amount and rejection by rejection. */
  lemma FareIsExact(m: Metering<int>, r: Rules<int>, fl: real -> real)
    requires Rounding(fl)
    ensures FloatPrice(FloatMetering(m), FloatRules(r), fl) == FloatBreakdown(Price(m, r))
  {
    hide Rounding, Blank, CheckedSum, ScaledFloat, Scaled, Clamp, ClampFloat;
    if ValidMetering(m) && ValidRules(r) {
      ScaledIsExact(m.distance, r.perKilometer, METERS_PER_KILOMETER, fl);
      ScaledIsExact(m.duration, r.perMinute, SECONDS_PER_MINUTE, fl);
      var distanceFare, durationFare :=
        Scaled(m.distance, r.perKilometer, METERS_PER_KILOMETER), Scaled(m.duration, r.perMinute, SECONDS_PER_MINUTE);
      if distanceFare.Some? && durationFare.Some? {
        Subtotal(r.baseFare, distanceFare.value, durationFare.value, fl);
        var subtotal := r.baseFare + distanceFare.value + durationFare.value;
        if Safe(subtotal) {
          ScaledIsExact(subtotal, r.serviceBps, BASIS_POINTS, fl);
          var adjusted := Scaled(subtotal, r.serviceBps, BASIS_POINTS);
          ClampIsExact(m.surgeBps, r.minimumSurgeBps, r.maximumSurgeBps);
          ClampWithin(m.surgeBps, r.minimumSurgeBps, r.maximumSurgeBps);
          if adjusted.Some? {
            ScaledIsExact(adjusted.value, Clamp(m.surgeBps, r.minimumSurgeBps, r.maximumSurgeBps), BASIS_POINTS, fl);
          }
        }
      }
    }
  }

  lemma ClampWithin(value: int, low: int, high: int)
    requires low <= high
    ensures low <= Clamp(value, low, high) <= high
  {
  }

  /** Nothing but whole inputs is ever priced. */
  lemma OnlyWholeInputs(m: Metering<real>, r: Rules<real>, fl: real -> real)
    requires FloatPrice(m, r, fl).Some?
    ensures exists n: Metering<int>, s: Rules<int> :: m == FloatMetering(n) && r == FloatRules(s)
  {
    hide Blank;
    var n := Metering(m.distance.Floor, m.duration.Floor, m.surgeBps.Floor);
    var s := Rules(r.version, r.currency, r.serviceType, r.baseFare.Floor, r.perKilometer.Floor, r.perMinute.Floor,
                   r.serviceBps.Floor, r.minimumSurgeBps.Floor, r.maximumSurgeBps.Floor);
    assert m == FloatMetering(n) && r == FloatRules(s);
  }
}
