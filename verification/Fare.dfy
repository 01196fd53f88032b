/**
 * Fares in whole minor units (apps/api/src/pricing/fare-quote.ts), computed exactly.
 * Module Doubles shows that the program's double arithmetic computes these values.
 */
module Fare {
  import opened Basics

  const BASIS_POINTS := 10_000
  const METERS_PER_KILOMETER := 1_000
  const SECONDS_PER_MINUTE := 60
  const MAX_SAFE_INTEGER := 9_007_199_254_740_991

  /** A pricing rule snapshot; N is int here and real where doubles are modelled. */
  datatype Rules<+N> = Rules(
    version: string, currency: string, serviceType: string,
    baseFare: N, perKilometer: N, perMinute: N,
    serviceBps: N, minimumSurgeBps: N, maximumSurgeBps: N)

  datatype Metering<+N> = Metering(distance: N, duration: N, surgeBps: N)

  datatype Breakdown<+N> = Breakdown(
    currency: string, baseFare: N, distanceFare: N, durationFare: N, subtotal: N,
    serviceBps: N, serviceAdjusted: N, appliedSurgeBps: N, total: N)

  /** White space as `String.prototype.trim` sees it. */
  predicate IsSpace(c: char) {
    || '\t' <= c <= '\r' || c == ' ' || c == '\U{00A0}' || c == '\U{1680}'
    || '\U{2000}' <= c <= '\U{200A}' || c == '\U{2028}' || c == '\U{2029}'
    || c == '\U{202F}' || c == '\U{205F}' || c == '\U{3000}' || c == '\U{FEFF}'
  }

  predicate Blank(s: string) {
    forall i | 0 <= i < |s| :: IsSpace(s[i])
  }

  predicate Safe(n: int) {
    -MAX_SAFE_INTEGER <= n <= MAX_SAFE_INTEGER
  }

  predicate ValidMetering(m: Metering<int>) {
    && Safe(m.distance) && m.distance >= 0
    && Safe(m.duration) && m.duration >= 0
    && Safe(m.surgeBps) && m.surgeBps > 0
  }

  predicate ValidRules(r: Rules<int>) {
    && !Blank(r.version) && !Blank(r.currency) && !Blank(r.serviceType)
    && Safe(r.baseFare) && r.baseFare >= 0
    && Safe(r.perKilometer) && r.perKilometer >= 0
    && Safe(r.perMinute) && r.perMinute >= 0
    && Safe(r.serviceBps) && r.serviceBps > 0
    && Safe(r.minimumSurgeBps) && r.minimumSurgeBps > 0
    && Safe(r.maximumSurgeBps) && r.maximumSurgeBps > 0
    && r.minimumSurgeBps <= r.maximumSurgeBps
  }

  /** The least integer not below n / d. */
  function CeilDiv(n: int, d: int): (q: int)
    requires d > 0
    ensures q * d >= n && (q - 1) * d < n
  {
    (n + d - 1) / d
  }

  function Clamp(value: int, low: int, high: int): int {
    Min(Max(value, low), high)
  }

  /** CeilDiv(a * b / d) when the product is a safe integer. */
  function Scaled(a: int, b: int, d: int): Option<int>
    requires d > 0
  {
    if Safe(a * b) then Some(CeilDiv(a * b, d)) else None
  }

  /** The fare for a metering, or None when an input is invalid or a step leaves the safe range. */
  function Price(m: Metering<int>, r: Rules<int>): Option<Breakdown<int>> {
    if !ValidMetering(m) || !ValidRules(r) then None else
    var distanceFare := Scaled(m.distance, r.perKilometer, METERS_PER_KILOMETER);
    if distanceFare.None? then None else
    var durationFare := Scaled(m.duration, r.perMinute, SECONDS_PER_MINUTE);
    if durationFare.None? then None else
    var subtotal := r.baseFare + distanceFare.value + durationFare.value;
    if !Safe(subtotal) then None else
    var adjusted := Scaled(subtotal, r.serviceBps, BASIS_POINTS);
    if adjusted.None? then None else
    var surge := Clamp(m.surgeBps, r.minimumSurgeBps, r.maximumSurgeBps);
    var total := Scaled(adjusted.value, surge, BASIS_POINTS);
    if total.None? then None else
    Some(Breakdown(r.currency, r.baseFare, distanceFare.value, durationFare.value, subtotal,
                   r.serviceBps, adjusted.value, surge, total.value))
  }

}
