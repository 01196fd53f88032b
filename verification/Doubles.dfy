/**
 * The fare in double arithmetic. Each operation of apps/api/src/pricing/fare-quote.ts is rounded to
 * a nearest double (section 4.3.1 of IEEE 754-2019, under any rule for ties), and the result is
 * shown to be the exact one.
 */
module Doubles {
  import opened Basics
  import opened Fare

  function Abs(x: real): real {
    if x < 0.0 then -x else x
  }

  function Pow2(e: int): real
    decreases if e < 0 then -e else e
  {
    if e == 0 then 1.0 else if e > 0 then 2.0 * Pow2(e - 1) else Pow2(e + 1) / 2.0
  }

  const SIGNIFICANDS := 0x20_0000_0000_0000

  /** f is m * 2^e for a 53-bit significand and an exponent of the format. */
  ghost predicate Encodes(f: real, m: int, e: int) {
    -SIGNIFICANDS < m < SIGNIFICANDS && -1074 <= e <= 971 && f == m as real * Pow2(e)
  }

  /** The finite doubles. */
  ghost predicate IsDouble(f: real) {
    exists m: int, e: int :: Encodes(f, m, e)
  }

  /** f is a double, and no double is nearer to x. */
  ghost predicate RoundsTo(x: real, f: real) {
    IsDouble(f) && forall g: real :: IsDouble(g) ==> Abs(x - f) <= Abs(x - g)
  }

  // ---- Powers of two

  lemma {:induction false} PowPositive(e: int)
    ensures Pow2(e) > 0.0
    decreases if e < 0 then -e else e
  {
    if e > 0 { PowPositive(e - 1); } else if e < 0 { PowPositive(e + 1); }
  }

  lemma PowNext(e: int)
    ensures Pow2(e + 1) == 2.0 * Pow2(e)
  {
  }

  lemma {:induction false} PowSum(a: int, b: nat)
    ensures Pow2(a + b) == Pow2(a) * Pow2(b)
    decreases b
  {
    if b > 0 {
      PowSum(a, b - 1);
      PowNext(a + b - 1);
      PowNext(b - 1);
      assert Pow2(a + b) == 2.0 * (Pow2(a) * Pow2(b - 1)) == Pow2(a) * (2.0 * Pow2(b - 1));
    }
  }

  lemma Pow53()
    ensures Pow2(53) == SIGNIFICANDS as real && Pow2(52) == (SIGNIFICANDS / 2) as real
  {
    assert Pow2(8) == 256.0;
    PowSum(8, 8);
    assert Pow2(16) == 65536.0;
    PowSum(16, 16);
    assert Pow2(32) == 4294967296.0;
    assert Pow2(4) == 16.0;
    PowSum(16, 4);
    assert Pow2(20) == 1048576.0;
    PowSum(32, 20);
    PowNext(52);
  }

  // ---- Integers and their successors are doubles

  lemma IntegerIsDouble(n: int)
    requires -SIGNIFICANDS <= n <= SIGNIFICANDS
    ensures IsDouble(n as real)
  {
    if n == SIGNIFICANDS {
      Pow53();
      assert Encodes(n as real, 1, 53);
    } else if n == -SIGNIFICANDS {
      Pow53();
      assert Encodes(n as real, -1, 53);
    } else {
      assert Encodes(n as real, n, 0);
    }
  }

  /** The power of two that a positive integer lies above. */
  lemma {:induction false} Magnitude(n: int) returns (e: nat)
    requires 1 <= n < SIGNIFICANDS
    ensures e <= 52 && Pow2(e) <= n as real < Pow2(e + 1)
  {
    e := 0;
    while !((n as real) < Pow2(e + 1))
      invariant e <= 52 && Pow2(e) <= n as real
      decreases 52 - e
    {
      if e == 52 { Pow53(); }
      e := e + 1;
    }
  }

  /** An integer below 2^(e+1), in units of 2^(e-52). */
  lemma InUnits(n: int, e: nat) returns (s: int)
    requires 1 <= n && e <= 52 && n as real < Pow2(e + 1)
    ensures n * s < SIGNIFICANDS && s >= 1
    ensures s as real * Pow2(e - 52) == 1.0
  {
    hide Pow2;
    WholePower(52 - e);
    PowPositive(52 - e);
    s := Pow2(52 - e).Floor;
    PowSum(e - 52, 52 - e);
    PowZero();
    Swap(s as real, Pow2(e - 52));
    PowSum(e + 1, 52 - e);
    Pow53();
    Times(n as real, Pow2(e + 1), s as real);
    WholeProduct(n, s);
  }

  lemma PowZero()
    ensures Pow2(0) == 1.0
  {
  }

  lemma Swap(a: real, b: real)
    ensures a * b == b * a
  {
  }

  lemma WholeProduct(n: int, s: int)
    ensures (n * s) as real == n as real * s as real
  {
  }

  /** Above an integer of this magnitude there is a double this close. */
  lemma NextDouble(n: int, e: nat)
    requires 1 <= n && e <= 52 && n as real < Pow2(e + 1)
    ensures IsDouble(n as real + Pow2(e - 52))
  {
    hide Pow2;
    var s := InUnits(n, e);
    WholeProduct(n, s);
    AtLeast(n, s);
    var m, g := n * s + 1, n as real + Pow2(e - 52);
    Distribute(n as real, s as real, Pow2(e - 52));
    assert m as real == n as real * s as real + 1.0;
    assert g == m as real * Pow2(e - 52);
    if m == SIGNIFICANDS {
      PowSum(e - 52, 53);
      Pow53();
      Swap(Pow2(e - 52), SIGNIFICANDS as real);
      assert Encodes(g, 1, e + 1);
    } else {
      assert Encodes(g, m, e - 52);
    }
  }

  lemma AtLeast(n: int, s: int)
    requires n >= 1 && s >= 1
    ensures n * s >= n
  {
  }

  lemma Times(a: real, b: real, c: real)
    requires a < b && c > 0.0
    ensures a * c < b * c
  {
  }

  lemma Distribute(n: real, s: real, p: real)
    requires s * p == 1.0
    ensures (n * s + 1.0) * p == n + p
  {
    assert (n * s + 1.0) * p == n * (s * p) + p;
  }

  lemma {:induction false} WholePower(b: nat)
    ensures Pow2(b).Floor as real == Pow2(b)
  {
    if b > 0 {
      WholePower(b - 1);
      PowNext(b - 1);
      var k := Pow2(b - 1).Floor;
      assert Pow2(b) == (2 * k) as real;
    }
  }

  // ---- One operation

  /** A result that is itself a double is not rounded. */
  lemma ExactIsExact(x: real, f: real)
    requires RoundsTo(x, f) && IsDouble(x)
    ensures f == x
  {
    assert Abs(x - f) <= Abs(x - x);
  }

  /** Rounding does not cross a double. */
  lemma StaysBelow(x: real, f: real, bound: real)
    requires RoundsTo(x, f) && IsDouble(bound) && x <= bound
    ensures f <= bound
  {
    assert Abs(x - f) <= Abs(x - bound);
  }

  lemma StaysAbove(x: real, f: real, bound: real)
    requires RoundsTo(x, f) && IsDouble(bound) && bound <= x
    ensures bound <= f
  {
    assert Abs(x - f) <= Abs(x - bound);
  }

  /** Number.isSafeInteger */
  predicate IsSafeInteger(x: real) {
    x.Floor as real == x && Safe(x.Floor)
  }

  /** A non-negative integer result passes the check exactly when it is safe, and then it is exact. */
  lemma CheckedIsExact(n: int, f: real)
    requires n >= 0 && RoundsTo(n as real, f)
    ensures IsSafeInteger(f) <==> Safe(n)
    ensures Safe(n) ==> f == n as real
  {
    if Safe(n) {
      IntegerIsDouble(n);
      ExactIsExact(n as real, f);
    } else {
      IntegerIsDouble(SIGNIFICANDS);
      StaysAbove(n as real, f, SIGNIFICANDS as real);
    }
  }

  /** A sum that has left the safe range does not come back. */
  lemma PastSafe(x: real, f: real)
    requires RoundsTo(x, f) && x >= SIGNIFICANDS as real
    ensures f >= SIGNIFICANDS as real && !IsSafeInteger(f)
  {
    IntegerIsDouble(SIGNIFICANDS);
    StaysAbove(x, f, SIGNIFICANDS as real);
  }

  // ---- Math.ceil(n / d)

  function Ceil(x: real): int {
    -((-x).Floor)
  }

  /** A quotient strictly between two integers does not round to the lower one. */
  lemma LeavesFloor(n: int, d: int, k: int, x: real, f: real)
    requires 0 <= n < SIGNIFICANDS && 1 <= d < SIGNIFICANDS && k >= 0 && x * d as real == n as real
    requires k * d < n && RoundsTo(x, f)
    ensures k as real < f
  {
    Gap(n, d, k, x);
    if k == 0 {
      PowPositive(-53);
      TinyBelow(n, d, x);
      assert Encodes(Pow2(-53), 1, -53);
      Nearer(x, f, 0.0, Pow2(-53));
    } else {
      assert k * d >= k;
      var e: int := Magnitude(k);
      NextDouble(k, e);
      PowPositive(e - 52);
      StepBelow(n, d, k, e, x);
      Nearer(x, f, k as real, k as real + Pow2(e - 52));
    }
  }

  /** A double g above k, but nearer to x than k, keeps the rounding above k. */
  lemma Nearer(x: real, f: real, k: real, g: real)
    requires RoundsTo(x, f) && IsDouble(g) && k < g < k + 2.0 * (x - k) && k < x
    ensures k < f
  {
    assert Abs(x - f) <= Abs(x - g) < x - k;
  }

  /** The quotient lies at least 1/d above the integer. */
  lemma Gap(n: int, d: int, k: int, x: real)
    requires d >= 1 && k * d < n && x * d as real == n as real
    ensures (x - k as real) * d as real >= 1.0 && k as real < x
  {
    assert (k * d) as real == k as real * d as real;
    assert (x - k as real) * d as real == x * d as real - k as real * d as real;
  }

  lemma TinyBelow(n: int, d: int, x: real)
    requires 0 < n && 1 <= d < SIGNIFICANDS && x * d as real == n as real
    ensures Pow2(-53) < 2.0 * x
  {
    PowSum(-53, 53);
    Pow53();
    PowPositive(-53);
    if Pow2(-53) >= 2.0 * x { Product(Pow2(-53), d as real, SIGNIFICANDS as real, x); }
  }

  lemma StepBelow(n: int, d: int, k: int, e: nat, x: real)
    requires 1 <= k && k * d < n < SIGNIFICANDS && d >= 1 && e <= 52 && Pow2(e) <= k as real
    requires x * d as real == n as real
    ensures Pow2(e - 52) < 2.0 * (x - k as real)
  {
    Gap(n, d, k, x);
    var q := Pow2(53 - e);
    PowSum(e - 52, 53 - e);
    PowPositive(e - 52);
    SmallDivisor(d, k, e);
    if Pow2(e - 52) >= 2.0 * (x - k as real) { Product(Pow2(e - 52), d as real, q, x - k as real); }
  }

  lemma SmallDivisor(d: int, k: int, e: nat)
    requires 1 <= k && k * d < SIGNIFICANDS && d >= 1 && e <= 52 && Pow2(e) <= k as real
    ensures d as real < Pow2(53 - e)
  {
    hide Pow2;
    PowSum(e, 53 - e);
    PowPositive(e);
    Pow53();
    assert (k * d) as real == k as real * d as real;
    SmallFactor(Pow2(e), Pow2(53 - e), k as real, d as real);
  }

  lemma SmallFactor(p: real, q: real, k: real, d: real)
    requires 0.0 < p <= k && d > 0.0 && k * d < p * q
    ensures d < q
  {
    assert p * q == q * p && p * d == d * p;
    if d >= q {
      TimesAtMost(q, d, p);
      TimesAtMost(p, k, d);
    }
  }

  lemma TimesAtMost(a: real, b: real, c: real)
    requires a <= b && c > 0.0
    ensures a * c <= b * c
  {
  }

  /** Were p at least 2 * y, p * q would exceed 2. */
  lemma Product(p: real, d: real, q: real, y: real)
    requires p > 0.0 && 0.0 < d < q && p >= 2.0 * y && y * d >= 1.0
    ensures p * q > 2.0
  {
    calc {
      p * q;
    ==
      q * p;
    >  { Times(d, q, p); }
      d * p;
    ==
      p * d;
    >= { TimesAtMost(2.0 * y, p, d); }
      (2.0 * y) * d;
    ==
      2.0 * (y * d);
    >=
      2.0;
    }
  }

  lemma CeilIs(x: real, k: int)
    requires (k - 1) as real < x <= k as real
    ensures Ceil(x) == k
  {
  }

  /** Math.ceil of the rounded quotient is the integer ceiling of the quotient. */
  lemma CeilRatioIsExact(n: int, d: int, f: real)
    requires Safe(n) && n >= 0 && Safe(d) && d >= 1 && RoundsTo(n as real / d as real, f)
    ensures Ceil(f) == CeilDiv(n, d)
  {
    var k, x := CeilDiv(n, d), n as real / d as real;
    assert x * d as real == n as real;
    assert 0 <= k <= n by { CeilBounds(n, d); }
    IntegerIsDouble(k);
    assert x <= k as real by { UpTo(n, d, k); }
    StaysBelow(x, f, k as real);
    if k == 0 {
      IntegerIsDouble(0);
      StaysAbove(x, f, 0.0);
      assert f == 0.0;
    } else {
      LeavesFloor(n, d, k - 1, x, f);
    }
    CeilIs(f, k);
  }

  lemma CeilBounds(n: int, d: int)
    requires n >= 0 && d >= 1
    ensures 0 <= CeilDiv(n, d) <= n
  {
    assert n * d >= n;
  }

  lemma UpTo(n: int, d: int, k: int)
    requires d >= 1 && n <= k * d
    ensures n as real / d as real <= k as real
  {
    var x := n as real / d as real;
    assert x * d as real == n as real <= (k * d) as real == k as real * d as real;
    if x > k as real { assert x * d as real > k as real * d as real; }
  }

  // ---- Every number in range has a nearest double

  /** u is the spacing of the doubles around x. */
  ghost predicate Spacing(x: real, e: int) {
    && -1074 <= e <= 900 && 0.0 <= x < SIGNIFICANDS as real * Pow2(e)
    && (e > -1074 ==> (SIGNIFICANDS / 2) as real * Pow2(e) <= x)
  }

  lemma {:induction false} HasSpacing(x: real, e: int) returns (e': int)
    requires -1074 <= e <= 900 && 0.0 <= x < SIGNIFICANDS as real * Pow2(e)
    ensures Spacing(x, e')
    decreases e + 1074
  {
    if e == -1074 || (SIGNIFICANDS / 2) as real * Pow2(e) <= x {
      e' := e;
    } else {
      PowNext(e - 1);
      e' := HasSpacing(x, e - 1);
    }
  }

  /** Every double lies at or below m * 2^e, or at or above the next multiple. */
  lemma NoneBetween(x: real, e: int, m: int, g: real)
    requires Spacing(x, e) && m as real * Pow2(e) <= x && 0 <= m && (e > -1074 ==> m >= SIGNIFICANDS / 2) && IsDouble(g)
    ensures g <= m as real * Pow2(e) || g >= m as real * Pow2(e) + Pow2(e)
  {
    hide Pow2;
    var a: int, b: int :| Encodes(g, a, b);
    PowPositive(e);
    if b >= e {
      var k := Multiple(a, b, e);
      OnGrid(g, k, m, Pow2(e));
    } else {
      calc {
        g;
      <= { Finer(a, b, e); }
        (SIGNIFICANDS / 2) as real * Pow2(e);
      <= { Ordered(SIGNIFICANDS / 2, m, Pow2(e)); }
        m as real * Pow2(e);
      }
    }
  }

  lemma OnGrid(g: real, k: int, m: int, u: real)
    requires u > 0.0 && g == k as real * u
    ensures g <= m as real * u || g >= m as real * u + u
  {
    var a, b := k as real, m as real;
    if k <= m {
      TimesAtMost(a, b, u);
    } else {
      assert b + 1.0 <= a;
      TimesAtMost(b + 1.0, a, u);
      assert (b + 1.0) * u == b * u + u;
    }
  }

  /** A coarser double is a multiple of the spacing. */
  lemma Multiple(a: int, b: int, e: int) returns (k: int)
    requires b >= e
    ensures a as real * Pow2(b) == k as real * Pow2(e)
  {
    PowSum(e, b - e);
    WholePower(b - e);
    var s := Pow2(b - e).Floor;
    k := a * s;
    assert k as real == a as real * s as real;
    Regroup(a as real, Pow2(e), s as real);
  }

  lemma Regroup(a: real, u: real, s: real)
    ensures a * (u * s) == (a * s) * u
  {
  }

  /** A finer double is below half the range of the coarser ones. */
  lemma Finer(a: int, b: int, e: int)
    requires b < e && a < SIGNIFICANDS
    ensures a as real * Pow2(b) <= (SIGNIFICANDS / 2) as real * Pow2(e)
  {
    hide Pow2;
    PowSum(b, e - b);
    PowAtLeast(e - b);
    PowPositive(b);
    FinerThanHalf(a as real, Pow2(b), Pow2(e - b), (SIGNIFICANDS / 2) as real);
  }

  lemma FinerThanHalf(a: real, p: real, q: real, h: real)
    requires p > 0.0 && q >= 2.0 && h > 0.0 && a <= 2.0 * h
    ensures a * p <= h * (p * q)
  {
    TimesAtMost(a, 2.0 * h, p);
    TimesAtMost(2.0, q, p);
    TimesAtMost(2.0 * p, q * p, h);
    assert (2.0 * h) * p == (2.0 * p) * h && (q * p) * h == h * (p * q);
  }

  lemma Ordered(k: int, m: int, u: real)
    requires k <= m && u > 0.0
    ensures k as real * u <= m as real * u
  {
    TimesAtMost(k as real, m as real, u);
  }

  lemma {:induction false} PowAtLeast(b: int)
    requires b >= 1
    ensures Pow2(b) >= 2.0
  {
    if b > 1 {
      PowAtLeast(b - 1);
      PowNext(b - 1);
    }
  }

  lemma NextGridPoint(m: int, e: int)
    requires 0 <= m < SIGNIFICANDS && -1074 <= e <= 900
    ensures IsDouble(m as real * Pow2(e) + Pow2(e))
  {
    var a, u := m as real, Pow2(e);
    assert (a + 1.0) * u == a * u + u;
    assert (m + 1) as real == a + 1.0;
    GridPoint(a * u + u, m + 1, e);
  }

  lemma GridPoint(g: real, m: int, e: int)
    requires 0 <= m <= SIGNIFICANDS && -1074 <= e <= 900 && g == m as real * Pow2(e)
    ensures IsDouble(g)
  {
    if m == SIGNIFICANDS {
      Pow53();
      PowSum(e, 53);
      assert Encodes(g, 1, e + 53);
    } else {
      assert Encodes(g, m, e);
    }
  }

  /** So the theorems about rounded operations speak of something. */
  lemma NearestExists(x: real) returns (f: real)
    requires 0.0 <= x <= SIGNIFICANDS as real * SIGNIFICANDS as real
    ensures RoundsTo(x, f)
  {
    hide Pow2;
    Pow53();
    PowNext(53);
    var e := HasSpacing(x, 54);
    var u := Pow2(e);
    PowPositive(e);
    var m := (x / u).Floor;
    Quotient(x, u, m);
    if e > -1074 { Quotients(x, u, m); }
    NotPast(x, u, m);
    GridPoint(m as real * u, m, e);
    NextGridPoint(m, e);
    forall g: real | IsDouble(g) ensures g <= m as real * u || g >= m as real * u + u { NoneBetween(x, e, m, g); }
    f := NearerEnd(x, m as real * u, m as real * u + u);
  }

  lemma NearerEnd(x: real, low: real, high: real) returns (f: real)
    requires IsDouble(low) && IsDouble(high) && low <= x < high
    requires forall g: real | IsDouble(g) :: g <= low || g >= high
    ensures RoundsTo(x, f)
  {
    f := if x - low <= high - x then low else high;
  }

  lemma NonNegative(q: real, u: real)
    requires u > 0.0 && q * u >= 0.0
    ensures q >= 0.0
  {
  }

  lemma Quotient(x: real, u: real, m: int)
    requires u > 0.0 && x >= 0.0 && m == (x / u).Floor
    ensures m as real * u <= x
    ensures x < m as real * u + u
    ensures m >= 0
  {
    var q, a := x / u, m as real;
    assert q * u == x;
    NonNegative(q, u);
    TimesAtMost(a, q, u);
    Times(q, a + 1.0, u);
    assert (a + 1.0) * u == a * u + u;
    assert x < a * u + u;
  }

  lemma Quotients(x: real, u: real, m: int)
    requires u > 0.0 && (SIGNIFICANDS / 2) as real * u <= x < m as real * u + u
    ensures m >= SIGNIFICANDS / 2
  {
    var a := m as real;
    assert (a + 1.0) * u == a * u + u;
    Cancel((SIGNIFICANDS / 2) as real, a + 1.0, u);
  }

  lemma Cancel(a: real, b: real, u: real)
    requires u > 0.0 && a * u < b * u
    ensures a < b
  {
    if a >= b { TimesAtMost(b, a, u); }
  }

  lemma NotPast(x: real, u: real, m: int)
    requires u > 0.0 && m as real * u <= x < SIGNIFICANDS as real * u
    ensures m < SIGNIFICANDS
  {
    if m >= SIGNIFICANDS { Ordered(SIGNIFICANDS, m, u); }
  }
}
