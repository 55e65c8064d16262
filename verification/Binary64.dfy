/** The running program divides in binary64. Within the stated magnitudes the rounded
    quotients lead to the same parts as exact arithmetic; beyond them a unit can be lost. */
module Binary64 {
  import opened Money
  import opened Allocation

  /** 2^53: integers below it have a significand of 53 bits. */
  const TWO53: nat := 0x20_0000_0000_0000

  function Pow2(k: nat): (p: nat)
    ensures p > 0
  {
    if k == 0 then 1 else 2 * Pow2(k - 1)
  }

  function Doubled(x: real, e: nat): real {
    if e == 0 then x else 2.0 * Doubled(x, e - 1)
  }

  function Halved(x: real, e: nat): real {
    if e == 0 then x else Halved(x, e - 1) / 2.0
  }

  /** x == m * 2^e or x == m * 2^-e with a 53-bit m. */
  ghost predicate HasForm(x: real, m: nat, e: nat) {
    m < TWO53 && (x == Halved(m as real, e) || x == Doubled(m as real, e))
  }

  ghost predicate Representable(x: real) {
    exists m: nat, e: nat :: HasForm(x, m, e)
  }

  function Distance(x: real, y: real): real { if x < y then y - x else x - y }

  /** r is a representable value nearest to q (section 4.3.1 of IEEE 754-2019, either way of
      breaking ties). */
  ghost predicate Nearest(q: real, r: real) {
    Representable(r) && forall x :: Representable(x) ==> Distance(r, q) <= Distance(x, q)
  }

  ghost predicate IsQuotient(q: real, n: int, d: int) {
    q * d as real == n as real
  }

  /** r is the correctly rounded n/d. */
  ghost predicate RoundedQuotient(n: int, d: int, r: real) {
    exists q: real :: IsQuotient(q, n, d) && Nearest(q, r)
  }

  ghost predicate IsBinary64Division(divide: Division) {
    forall n: nat, d: nat :: d > 0 ==> RoundedQuotient(n, d, divide(n, d))
  }

  lemma {:induction false} HalvedTimesPower(m: nat, e: nat)
    ensures Halved(m as real, e) * Pow2(e) as real == m as real
  {
    if e > 0 {
      HalvedTimesPower(m, e - 1);
      var h, p := Halved(m as real, e - 1), Pow2(e - 1) as real;
      assert (h / 2.0) * (2.0 * p) == h * p;
    }
  }

  lemma {:induction false} DoubledIsProduct(m: nat, e: nat)
    ensures Doubled(m as real, e) == (m * Pow2(e)) as real
  {
    if e > 0 {
      DoubledIsProduct(m, e - 1);
      assert m * Pow2(e) == 2 * (m * Pow2(e - 1));
    }
  }

  // --- the rounding error -----------------------------------------------------------------

  lemma {:induction false} PowerAround(n: nat) returns (k: nat)
    requires n > 0
    ensures Pow2(k) <= n < 2 * Pow2(k)
  {
    k := 0;
    while 2 * Pow2(k) <= n
      invariant Pow2(k) <= n
      decreases n - Pow2(k)
    {
      k := k + 1;
    }
  }

  lemma IntegerRepresentable(m: nat)
    requires m < TWO53
    ensures Representable(m as real)
  {
    assert HasForm(m as real, m, 0);
  }

  lemma HalfIntegerRepresentable(m: nat)
    requires m < TWO53
    ensures Representable(m as real / 2.0)
  {
    assert Halved(m as real, 1) == Halved(m as real, 0) / 2.0;
    assert HasForm(m as real / 2.0, m, 1);
  }

  lemma NearestOfRepresentable(q: real, r: real)
    requires Nearest(q, r) && Representable(q)
    ensures r == q
  {
    assert Distance(r, q) <= Distance(q, q);
  }

  lemma RealAssociate(x: real, y: real, z: real)
    ensures (x * y) * z == (x * z) * y
  {
  }

  /** v is the error of x as a value of n/d, scaled by d. */
  ghost predicate HasError(x: real, n: int, d: int, v: real) {
    v == x * d as real - n as real
  }

  /** The scaled error bound: one, or one half when there is a bit to spare. */
  function Limit(spare: bool): real { if spare then 0.5 else 1.0 }

  function Spared(spare: bool, n: int): int { if spare then 2 * n else n }

  /** The grid of 1/P with P <= d < 2*P (twice that with a spare bit) has a representable
      point whose scaled error is below the limit. */
  lemma GridNeighbour(n: nat, d: nat, spare: bool) returns (x: real, v: real)
    requires d > 0 && Spared(spare, n) < TWO53
    ensures Representable(x) && HasError(x, n, d, v)
    ensures -Limit(spare) < v < Limit(spare)
  {
    var D, N := d as real, n as real;
    var Q: real, M: real;
    x, Q, M := GridPoint(n, d, spare, D, N);
    v := x * D - N;
    if spare {
      GridError(v, x, D, N, 0.5, Q, M);
    } else {
      GridError(v, x, D, N, 1.0, Q, M);
    }
  }

  lemma GridPoint(n: nat, d: nat, spare: bool, D: real, N: real) returns (x: real, Q: real, M: real)
    requires d > 0 && Spared(spare, n) < TWO53 && D == d as real && N == n as real
    ensures Representable(x)
    ensures Q > 0.0 && x * Q == M && D < if spare then Q else 2.0 * Q
    ensures -D <= 2.0 * (M * D - N * Q) <= D
  {
    var k := PowerAround(Spared(spare, d));
    Q := Pow2(k) as real;
    var m: nat;
    m, M := GridNumerator(n, Pow2(k), d, spare, D, N, Q);
    x := GridCoordinates(m, k, M, Q);
  }

  lemma GridCoordinates(m: nat, k: nat, M: real, Q: real) returns (x: real)
    requires m < TWO53 && Q == Pow2(k) as real && M == m as real
    ensures Representable(x) && x * Q == M
  {
    x := Halved(m as real, k);
    assert HasForm(x, m, k);
    HalvedTimesPower(m, k);
  }

  lemma GridNumerator(n: nat, P: nat, d: nat, spare: bool, D: real, N: real, Q: real)
    returns (m: nat, M: real)
    requires d > 0 && P <= Spared(spare, d)
    requires D == d as real && N == n as real && Q == P as real
    ensures m <= Spared(spare, n) && M == m as real
    ensures -D <= 2.0 * (M * D - N * Q) <= D
  {
    RoundHalfUpBelow(n, P, d, spare);
    m := RoundHalfUp(n * P, d);
    M := m as real;
    RealOfProduct(m, d);
    RealOfProduct(n, P);
    assert m * d == d * m;
  }

  lemma RoundHalfUpBelow(n: nat, P: nat, d: nat, spare: bool)
    requires d > 0 && P <= Spared(spare, d)
    ensures 0 <= RoundHalfUp(n * P, d) <= Spared(spare, n)
  {
    var m, top := RoundHalfUp(n * P, d), Spared(spare, n);
    ProductOrder(n, P, Spared(spare, d));
    ProductOrder(n, 0, P);
    SparedProduct(spare, n, d);
    ProductStep(d, m);
    ProductStep(d, top);
    if m < 0 { ProductOrder(d, m + 1, 0); }
    if m > top { ProductOrder(d, top + 1, m); }
  }

  lemma SparedProduct(spare: bool, n: int, d: int)
    ensures n * Spared(spare, d) == d * Spared(spare, n)
  {
  }

  lemma GridError(v: real, x: real, D: real, N: real, limit: real, Q: real, M: real)
    requires Q > 0.0 && D < 2.0 * (limit * Q)
    requires v == x * D - N && x * Q == M
    requires -D <= 2.0 * (M * D - N * Q) <= D
    ensures -limit < v < limit
  {
    RealAssociate(x, D, Q);
    RealDifference(v, x * D, N, Q);
    RealProductOrder(Q, v, limit);
    RealProductOrder(Q, -limit, v);
  }

  lemma ScaleMagnitude(u: real, v: real, D: real)
    requires D > 0.0 && Distance(u, 0.0) <= Distance(v, 0.0)
    ensures Distance(u * D, 0.0) <= Distance(v * D, 0.0)
  {
    RealProductOrder(D, u, v);
    RealProductOrder(D, u, -v);
    RealProductOrder(D, -v, u);
    RealProductOrder(D, v, u);
    RealProductOrder(D, u, 0.0);
    RealProductOrder(D, v, 0.0);
    RealDifference(-v, 0.0, v, D);
  }

  /** Being nearer to the exact quotient means erring less. */
  lemma NearerErrsLess(r: real, u: real, x: real, v: real, q: real, D: real, N: real)
    requires D > 0.0 && q * D == N
    requires u == r * D - N && v == x * D - N
    requires Distance(r, q) <= Distance(x, q)
    ensures Distance(u, 0.0) <= Distance(v, 0.0)
  {
    RealDifference(r - q, r, q, D);
    RealDifference(x - q, x, q, D);
    ScaleMagnitude(r - q, x - q, D);
  }

  /** The scaled error of the rounded quotient is below the limit. */
  lemma QuotientError(n: nat, d: nat, spare: bool, r: real) returns (u: real)
    requires d > 0 && Spared(spare, n) < TWO53
    requires RoundedQuotient(n, d, r)
    ensures HasError(r, n, d, u) && -Limit(spare) < u < Limit(spare)
  {
    var x, v := GridNeighbour(n, d, spare);
    u := NearestError(n, d, r, x, v);
  }

  lemma NearestError(n: nat, d: nat, r: real, x: real, v: real) returns (u: real)
    requires d > 0 && RoundedQuotient(n, d, r)
    requires Representable(x) && HasError(x, n, d, v)
    ensures HasError(r, n, d, u) && Distance(u, 0.0) <= Distance(v, 0.0)
  {
    var q := NearestDistance(n, d, r, x);
    var D, N := d as real, n as real;
    u := r * D - N;
    NearerErrsLess(r, u, x, v, q, D, N);
  }

  lemma NearestDistance(n: nat, d: nat, r: real, x: real) returns (q: real)
    requires d > 0 && RoundedQuotient(n, d, r) && Representable(x)
    ensures IsQuotient(q, n, d) && Distance(r, q) <= Distance(x, q)
  {
    q :| IsQuotient(q, n, d) && Nearest(q, r);
  }

  /** Rounding never reaches the next integer and never moves off an integer. */
  lemma QuotientClose(n: nat, d: nat, r: real)
    requires d > 0 && n < TWO53
    requires RoundedQuotient(n, d, r)
    ensures CloseQuotient(n, d, r)
    ensures r == r.Floor as real <==> n % d == 0
  {
    var u := QuotientError(n, d, false, r);
    if n % d == 0 {
      IntegerQuotient(n / d, d, n, r);
    }
    CloseQuotientFloor(n, d, r);
    CloseFraction(n, d, r);
  }

  lemma IntegerQuotient(f: nat, d: nat, n: nat, r: real)
    requires d > 0 && n < TWO53 && n == f * d
    requires RoundedQuotient(n, d, r)
    ensures r * d as real == n as real
  {
    var q: real :| IsQuotient(q, n, d) && Nearest(q, r);
    QuotientIsInteger(q, f, d, n);
    ProductOrder(f, 1, d);
    IntegerRepresentable(f);
    NearestOfRepresentable(f as real, r);
  }

  lemma QuotientIsInteger(q: real, f: nat, d: nat, n: nat)
    requires d > 0 && n == f * d && IsQuotient(q, n, d)
    ensures q == f as real
  {
    RealOfProduct(f, d);
    RealProductOrder(d as real, f as real, q);
  }

  /** The fractional part of a close quotient, scaled: the remainder plus the rounding error. */
  lemma CloseFraction(n: nat, d: nat, r: real)
    requires d > 0 && CloseQuotient(n, d, r)
    ensures var x := r - r.Floor as real;
            x * d as real == (n % d) as real + (r * d as real - n as real) && (x == 0.0 <==> n % d == 0)
  {
    CloseQuotientFloor(n, d, r);
    var f, D := n / d, d as real;
    assert n == f * d + n % d;
    RealOfProduct(f, d);
    RealDifference(r - f as real, r, f as real, D);
    RealProductOrder(D, r - f as real, 0.0);
  }

  /** The subtraction raw - floor is itself representable, so IEEE arithmetic computes it exactly. */
  lemma FractionRepresentable(r: real)
    requires r >= 0.0 && Representable(r)
    ensures Representable(r - r.Floor as real)
  {
    var m: nat, e: nat :| HasForm(r, m, e);
    if r == Doubled(m as real, e) {
      DoubledIsProduct(m, e);
      assert r == r.Floor as real;
      IntegerRepresentable(0);
    } else {
      HalvedFraction(r, m, e);
    }
  }

  lemma HalvedFraction(r: real, m: nat, e: nat)
    requires r >= 0.0 && m < TWO53 && r == Halved(m as real, e)
    ensures Representable(r - r.Floor as real)
  {
    HalvedTimesPower(m, e);
    var k := FractionForm(r, m, Pow2(e));
    HalvedTimesPower(k, e);
    EqualByScale(r - r.Floor as real, Halved(k as real, e), Pow2(e) as real, k as real);
    assert HasForm(r - r.Floor as real, k, e);
  }

  lemma EqualByScale(x: real, y: real, P: real, K: real)
    requires P > 0.0 && x * P == K && y * P == K
    ensures x == y
  {
    RealProductOrder(P, x, y);
  }

  lemma FractionForm(r: real, m: nat, P: nat) returns (k: nat)
    requires r >= 0.0 && P > 0 && r * P as real == m as real
    ensures k <= m && (r - r.Floor as real) * P as real == k as real
  {
    var f, Q := r.Floor, P as real;
    RealOfProduct(f, P);
    RealDifference(r - f as real, r, f as real, Q);
    RealProductOrder(Q, f as real, r);
    ProductOrder(P, 0, f);
    assert f * P == P * f;
    k := m - f * P;
  }

  // --- allocation in binary64 -----------------------------------------------------------------

  /** c * total * weight stays below 2^53 for every weight. */
  ghost predicate Fits(c: nat, total: int, weights: seq<int>) {
    forall i :: 0 <= i < |weights| ==> c * (total * weights[i]) < TWO53
  }

  /** Within 2^53 no unit is lost, every part is the floor of its exact share or one more,
      and a zero weight gets nothing. */
  lemma FloatAllocationExact(total: int, weights: seq<int>, divide: Division, parts: seq<int>)
    requires Allocatable(total, weights) && IsBinary64Division(divide) && Fits(1, total, weights)
    requires IsAllocation(total, weights, divide, parts)
    ensures SumOf(parts) == total
    ensures var a, W := Numerators(total, weights), SumOf(weights);
            forall i :: 0 <= i < |parts| ==> a[i] / W <= parts[i] <= a[i] / W + 1
    ensures forall i :: 0 <= i < |parts| && weights[i] == 0 ==> parts[i] == 0
  {
    FloatFractions(total, weights, divide);
    CloseFloors(total, weights, divide);
    forall z | 0 <= z < |parts| && weights[z] == 0 ensures parts[z] == 0 {
      FloatZeroWeight(total, weights, divide, parts, z);
    }
  }

  lemma FloatFractions(total: int, weights: seq<int>, divide: Division)
    requires Allocatable(total, weights) && IsBinary64Division(divide) && Fits(1, total, weights)
    ensures CloseOn(total, weights, divide)
    ensures var a, W := Numerators(total, weights), SumOf(weights);
            forall i :: 0 <= i < |weights| ==>
                          (Fractions(total, weights, divide)[i] == 0.0 <==> a[i] % W == 0)
  {
    var W := SumOf(weights);
    forall i | 0 <= i < |weights|
      ensures var n := total * weights[i];
              CloseQuotient(n, W, divide(n, W))
              && (Fractions(total, weights, divide)[i] == 0.0 <==> n % W == 0)
    {
      ProductOrder(total, 0, weights[i]);
      var n := total * weights[i];
      assert 1 * (total * weights[i]) < TWO53;
      assert RoundedQuotient(n, W, divide(n, W));
      QuotientClose(n, W, divide(n, W));
    }
  }

  lemma FloatZeroWeight(total: int, weights: seq<int>, divide: Division, parts: seq<int>, z: nat)
    requires Allocatable(total, weights) && IsBinary64Division(divide) && Fits(1, total, weights)
    requires IsAllocation(total, weights, divide, parts) && SumOf(parts) == total
    requires z < |weights| && weights[z] == 0
    ensures parts[z] == 0
  {
    FloatFractions(total, weights, divide);
    CloseFloors(total, weights, divide);
    var a, W, keys := Numerators(total, weights), SumOf(weights), Fractions(total, weights, divide);
    assert a[z] == 0;
    if parts[z] != 0 {
      var gaps := seq(|parts|, i requires 0 <= i < |parts| => W * parts[i] - a[i]);
      RemaindersBalance(total, weights, parts, gaps);
      forall i | 0 <= i < |parts| ensures gaps[i] >= 0 && (i == z ==> gaps[i] > 0) {
        GapOf(W, a[i], parts[i]);
        if parts[i] == a[i] / W {
          assert Precedes(keys, z, i);
          assert keys[i] >= 0.0;
        }
      }
      PositiveSum(gaps, z);
    }
  }

  /** Distinct fractions with the same denominator stay in order after rounding. */
  lemma FractionOrderKept(n: nat, m: nat, d: nat, r: real, s: real)
    requires d > 0 && 2 * n < TWO53 && 2 * m < TWO53
    requires RoundedQuotient(n, d, r) && RoundedQuotient(m, d, s)
    requires n % d < m % d
    ensures r - r.Floor as real < s - s.Floor as real
  {
    var D := d as real;
    var x, ex, i := RoundedFraction(n, d, r, D);
    var y, ey, j := RoundedFraction(m, d, s, D);
    FractionOrder(x, y, D, ex, ey, i, j);
  }

  lemma RoundedFraction(n: nat, d: nat, r: real, D: real) returns (x: real, e: real, i: int)
    requires d > 0 && D == d as real && 2 * n < TWO53 && RoundedQuotient(n, d, r)
    ensures x == r - r.Floor as real && i == n % d
    ensures x * D == i as real + e && -0.5 < e < 0.5
  {
    e := QuotientError(n, d, true, r);
    x, i := r - r.Floor as real, n % d;
    QuotientClose(n, d, r);
    CloseFraction(n, d, r);
  }

  lemma FractionOrder(x: real, y: real, D: real, ex: real, ey: real, i: int, j: int)
    requires D > 0.0 && i < j
    requires x * D == i as real + ex && y * D == j as real + ey
    requires -0.5 < ex < 0.5 && -0.5 < ey < 0.5
    ensures x < y
  {
    RealProductOrder(D, x, y);
  }

  /** Within 2^52 the binary64 result is still a closest split to the exact shares. */
  lemma FloatAllocationOptimal(total: int, weights: seq<int>, divide: Division, parts: seq<int>)
    requires Allocatable(total, weights) && IsBinary64Division(divide) && Fits(2, total, weights)
    requires IsAllocation(total, weights, divide, parts)
    ensures IsRemainderSplit(total, weights, parts)
    ensures forall other: seq<int> :: |other| == |weights| && SumOf(other) == total ==>
                                        Deviation(total, weights, parts) <= Deviation(total, weights, other)
  {
    var a, W := Numerators(total, weights), SumOf(weights);
    forall i | 0 <= i < |weights| ensures a[i] >= 0 && 2 * a[i] < TWO53 {
      ProductOrder(total, 0, weights[i]);
      assert 2 * (total * weights[i]) < TWO53;
    }
    forall i | 0 <= i < |weights| ensures CloseQuotient(a[i], W, divide(a[i], W)) {
      QuotientClose(a[i], W, divide(a[i], W));
    }
    CloseFloors(total, weights, divide);
    var keys := Fractions(total, weights, divide);
    forall i, j | 0 <= i < |parts| && 0 <= j < |parts| && parts[i] == a[i] / W + 1 && parts[j] == a[j] / W
      ensures a[i] % W >= a[j] % W
    {
      assert Precedes(keys, i, j);
      if a[i] % W < a[j] % W {
        FractionOrderKept(a[i], a[j], W, divide(a[i], W), divide(a[j], W));
      }
    }
    forall other: seq<int> | |other| == |weights| && SumOf(other) == total
      ensures Deviation(total, weights, parts) <= Deviation(total, weights, other)
    {
      RemainderSplitOptimal(total, weights, parts, other);
    }
  }

  /** A refund's two-way split comes out of binary64 exactly as out of exact arithmetic. */
  lemma FloatTwoWayIsRoundHalfUp(total: int, first: int, second: int, divide: Division, parts: seq<int>)
    requires total >= 0 && first >= 0 && second >= 0 && first + second > 0
    requires IsBinary64Division(divide) && Fits(2, total, [first, second])
    requires IsAllocation(total, [first, second], divide, parts)
    ensures parts == [RoundHalfUp(total * first, first + second),
                      total - RoundHalfUp(total * first, first + second)]
  {
    TwoWayIsRoundHalfUp(total, first, second, parts);
    FloatTwoWayStable(total, first, second, divide, parts);
  }

  lemma FloatTwoWayStable(total: int, first: int, second: int, divide: Division, parts: seq<int>)
    requires Allocatable(total, [first, second])
    requires IsBinary64Division(divide) && Fits(2, total, [first, second])
    requires IsAllocation(total, [first, second], divide, parts)
    ensures IsLargestRemainder(total, [first, second], parts)
  {
    var weights := [first, second];
    FloatAllocationOptimal(total, weights, divide, parts);
    var a, W := Numerators(total, weights), SumOf(weights);
    forall i, j | 0 <= i < 2 && 0 <= j < 2 && parts[i] == a[i] / W + 1 && parts[j] == a[j] / W
                  && a[i] % W == a[j] % W
      ensures i < j
    {
      if i == 1 && j == 0 {
        FloatTie(total, first, second, divide, parts);
      }
    }
  }

  lemma FloatTie(total: int, first: int, second: int, divide: Division, parts: seq<int>)
    requires Allocatable(total, [first, second])
    requires IsBinary64Division(divide) && Fits(2, total, [first, second])
    requires IsAllocation(total, [first, second], divide, parts)
    requires IsRemainderSplit(total, [first, second], parts)
    ensures var a, W := Numerators(total, [first, second]), SumOf([first, second]);
            a[1] % W == a[0] % W ==> !(parts[1] == a[1] / W + 1 && parts[0] == a[0] / W)
  {
    var weights := [first, second];
    SumPair(first, second);
    var a, W := Numerators(total, weights), SumOf(weights);
    assert weights[0] >= 0 && weights[1] >= 0;
    if a[1] % W == a[0] % W && parts[1] == a[1] / W + 1 && parts[0] == a[0] / W {
      TieIsHalf(total, first, second, a[0], a[1], parts);
      FloatTieFavoursFirst(total, weights, divide);
      FloatFloors(total, weights, divide);
    }
  }

  lemma FloatFloors(total: int, weights: seq<int>, divide: Division)
    requires Allocatable(total, weights) && IsBinary64Division(divide) && Fits(2, total, weights)
    ensures forall i :: 0 <= i < |weights| ==>
                          Floors(total, weights, divide)[i] == Numerators(total, weights)[i] / SumOf(weights)
  {
    forall i | 0 <= i < |weights| ensures 1 * (total * weights[i]) < TWO53 {
      ProductOrder(total, 0, weights[i]);
      assert 2 * (total * weights[i]) < TWO53;
    }
    FloatFractions(total, weights, divide);
    CloseFloors(total, weights, divide);
  }

  lemma FloatTieFavoursFirst(total: int, weights: seq<int>, divide: Division)
    requires Allocatable(total, weights) && |weights| == 2
    requires IsBinary64Division(divide) && Fits(2, total, weights)
    requires forall i :: 0 <= i < 2 ==> 2 * ((total * weights[i]) % SumOf(weights)) == SumOf(weights)
    ensures Fractions(total, weights, divide)[0] == Fractions(total, weights, divide)[1]
  {
    var W := SumOf(weights);
    forall i | 0 <= i < 2 ensures Fractions(total, weights, divide)[i] == 0.5 {
      var n := total * weights[i];
      ProductOrder(total, 0, weights[i]);
      assert 2 * (total * weights[i]) < TWO53;
      assert RoundedQuotient(n, W, divide(n, W));
      HalfQuotient(n, W, divide(n, W));
    }
  }

  /** Equal remainders with one unit left over are exact halves. */
  lemma TieIsHalf(total: int, first: int, second: int, a0: int, a1: int, parts: seq<int>)
    requires first >= 0 && second >= 0 && first + second > 0
    requires a0 == total * first && a1 == total * second
    requires |parts| == 2 && SumOf(parts) == total
    requires parts[1] == a1 / (first + second) + 1 && parts[0] == a0 / (first + second)
    requires a0 % (first + second) == a1 % (first + second)
    ensures 2 * (a0 % (first + second)) == first + second
  {
    var W := first + second;
    assert parts == [parts[0], parts[1]];
    SumPair(parts[0], parts[1]);
    var f0, f1 := a0 / W, a1 / W;
    assert a0 == W * f0 + a0 % W && a1 == W * f1 + a1 % W;
    Distribute(total, first, second);
    Distribute(W, f0, f1 + 1);
    ProductStep(W, f1);
    assert total * W == W * total;
  }

  lemma HalfQuotient(n: nat, d: nat, r: real)
    requires d > 0 && 2 * n < TWO53 && 2 * (n % d) == d
    requires RoundedQuotient(n, d, r)
    ensures r - r.Floor as real == 0.5
  {
    var f := n / d;
    assert n == f * d + n % d;
    var g := 2 * f + 1;
    DoubledPlusOne(f, g, d);
    RoundedHalf(g, n, d, r);
    assert g as real == 2.0 * f as real + 1.0;
    HalfFloor(f, r);
  }

  lemma HalfFloor(f: int, r: real)
    requires r == f as real + 0.5
    ensures r - r.Floor as real == 0.5
  {
    assert r.Floor == f;
  }

  lemma RoundedHalf(g: nat, n: nat, d: nat, r: real)
    requires d > 0 && 2 * n < TWO53 && 2 * n == g * d
    requires RoundedQuotient(n, d, r)
    ensures r == g as real / 2.0
  {
    ProductOrder(g, 1, d);
    HalfIntegerRepresentable(g);
    var q := NearestDistance(n, d, r, g as real / 2.0);
    QuotientIsHalf(q, g, d, n);
  }

  lemma QuotientIsHalf(q: real, g: nat, d: nat, n: nat)
    requires d > 0 && 2 * n == g * d && IsQuotient(q, n, d)
    ensures q == g as real / 2.0
  {
    RealOfProduct(g, d);
    HalfScaled(g as real, d as real);
    RealProductOrder(d as real, g as real / 2.0, q);
  }

  lemma DoubledPlusOne(f: int, g: int, d: int)
    requires g == 2 * f + 1
    ensures g * d == 2 * (f * d) + d
  {
  }

  lemma HalfScaled(x: real, D: real)
    ensures 2.0 * ((x / 2.0) * D) == x * D
  {
  }

  // --- the total alone decides whether anything is lost -------------------------------------------

  const TWO52: nat := 0x10_0000_0000_0000

  /** A scale at which the quotient has exactly 53 bits before the point. */
  lemma ScaleAround(n: nat, d: nat) returns (k: nat)
    requires d > 0 && 0 < n < TWO53 * d
    ensures TWO52 * d <= n * Pow2(k) < TWO53 * d
  {
    k := 0;
    while n * Pow2(k) < TWO52 * d
      invariant n * Pow2(k) < TWO53 * d
      decreases TWO52 * d - n * Pow2(k)
    {
      assert Pow2(k + 1) == 2 * Pow2(k);
      assert n * Pow2(k + 1) == 2 * (n * Pow2(k));
      ProductOrder(Pow2(k), 1, n);
      assert Pow2(k) * n == n * Pow2(k);
      k := k + 1;
    }
  }

  lemma RoundedBelow(a: int, d: int) returns (m: nat)
    requires d > 0 && 0 <= a < TWO53 * d
    ensures m <= TWO53 && -d <= 2 * (m * d - a) <= d
  {
    var x := RoundHalfUp(a, d);
    assert d * x == x * d;
    if x < 0 { ProductOrder(d, x + 1, 0); ProductStep(d, x); }
    if x > TWO53 { ProductOrder(d, TWO53 + 1, x); ProductStep(d, TWO53); }
    m := x;
  }

  /** m / 2^k is representable also for m == 2^53. */
  lemma GridCoordinatesUp(m: nat, k: nat, M: real, Q: real) returns (x: real)
    requires m <= TWO53 && Q == Pow2(k) as real && M == m as real
    ensures Representable(x) && x * Q == M
  {
    if m < TWO53 {
      x := GridCoordinates(m, k, M, Q);
    } else if k == 0 {
      x := Doubled(TWO52 as real, 1);
      assert HasForm(x, TWO52, 1);
      assert Doubled(TWO52 as real, 0) == TWO52 as real;
    } else {
      x := Halved(TWO52 as real, k - 1);
      assert HasForm(x, TWO52, k - 1);
      HalvedTimesPower(TWO52, k - 1);
      TwiceProduct(x, Pow2(k - 1) as real, Q);
    }
  }

  lemma TwiceProduct(x: real, y: real, z: real)
    requires z == 2.0 * y
    ensures x * z == 2.0 * (x * y)
  {
  }

  /** Some representable value is within a relative 2^-53 of the quotient. */
  lemma RelativeNeighbour(n: nat, d: nat) returns (x: real, v: real)
    requires d > 0 && 0 < n < TWO53 * d
    ensures Representable(x) && HasError(x, n, d, v)
    ensures Distance(v, 0.0) * TWO53 as real <= n as real
  {
    var D, N := d as real, n as real;
    var k := ScaleAround(n, d);
    var P := Pow2(k);
    ProductOrder(n, 0, P);
    var m := RoundedBelow(n * P, d);
    var Q, M := P as real, m as real;
    x := GridCoordinatesUp(m, k, M, Q);
    v := x * D - N;
    ScaledAsReals(m, d, n, P, n * P, D, N, Q, M);
    RelativeError(v, x, D, N, Q, M);
  }

  lemma ScaledAsReals(m: int, d: int, n: int, P: int, a: int, D: real, N: real, Q: real, M: real)
    requires a == n * P && -d <= 2 * (m * d - a) <= d && TWO52 * d <= a
    requires D == d as real && N == n as real && Q == P as real && M == m as real
    ensures -D <= 2.0 * (M * D - N * Q) <= D
    ensures TWO52 as real * D <= N * Q
  {
    RealOfProduct(m, d);
    RealOfProduct(n, P);
    var e := m * d;
    assert M * D == e as real && N * Q == a as real;
    AsReals(e, a, d);
  }

  lemma AsReals(e: int, a: int, d: int)
    requires -d <= 2 * (e - a) <= d && TWO52 * d <= a
    ensures -(d as real) <= 2.0 * (e as real - a as real) <= d as real
    ensures TWO52 as real * d as real <= a as real
  {
    assert (2 * (e - a)) as real == 2.0 * (e as real - a as real);
    assert (TWO52 * d) as real == TWO52 as real * d as real;
  }

  lemma RelativeError(v: real, x: real, D: real, N: real, Q: real, M: real)
    requires Q > 0.0 && v == x * D - N && x * Q == M
    requires -D <= 2.0 * (M * D - N * Q) <= D
    requires TWO52 as real * D <= N * Q
    ensures Distance(v, 0.0) * TWO53 as real <= N
  {
    RealAssociate(x, D, Q);
    RealDifference(v, x * D, N, Q);
    assert v * Q == M * D - N * Q;
    AbsoluteProduct(v, Q);
    var a := Distance(v, 0.0);
    var aQ := a * Q;
    assert 2.0 * aQ <= D;
    BitCount(aQ, D, N * Q);
    var t := a * TWO53 as real;
    RealAssociate(a, TWO53 as real, Q);
    RealProductOrder(Q, t, N);
  }

  lemma BitCount(x: real, D: real, y: real)
    requires 2.0 * x <= D && TWO52 as real * D <= y
    ensures x * TWO53 as real <= y
  {
  }

  lemma AbsoluteProduct(v: real, Q: real)
    requires Q > 0.0
    ensures Distance(v * Q, 0.0) == Distance(v, 0.0) * Q
  {
    RealProductOrder(Q, v, 0.0);
    RealDifference(-v, 0.0, v, Q);
  }

  /** Rounding never falls below the exact floor, and overshoots by at most a relative 2^-53. */
  lemma RoundedFloorBounds(n: nat, d: nat, r: real)
    requires d > 0 && n < TWO53 * d && RoundedQuotient(n, d, r)
    ensures n / d <= r.Floor
    ensures TWO53 * (r.Floor * d - n) <= n
  {
    RoundedFloorBelow(n, d, r);
    if n == 0 {
      IntegerQuotient(0, d, 0, r);
      RealProductOrder(d as real, r, 0.0);
    } else {
      var x, v := RelativeNeighbour(n, d);
      var u := NearestError(n, d, r, x, v);
      FloorError(n, d, r, u, v);
    }
  }

  lemma RoundedFloorBelow(n: nat, d: nat, r: real)
    requires d > 0 && n < TWO53 * d && RoundedQuotient(n, d, r)
    ensures n / d <= r.Floor
  {
    var g := n / d;
    assert n == g * d + n % d;
    if g >= TWO53 { ProductOrder(d, TWO53, g); }
    IntegerRepresentable(g);
    var q := NearestDistance(n, d, r, g as real);
    RealOfProduct(g, d);
    RealProductOrder(d as real, g as real, q);
    assert g as real <= r;
  }

  lemma FloorError(n: nat, d: nat, r: real, u: real, v: real)
    requires d > 0 && HasError(r, n, d, u) && Distance(u, 0.0) <= Distance(v, 0.0)
    requires Distance(v, 0.0) * TWO53 as real <= n as real
    ensures TWO53 * (r.Floor * d - n) <= n
  {
    var f := r.Floor;
    RealProductOrder(d as real, f as real, r);
    RealOfProduct(f, d);
    var e := f * d - n;
    assert e as real <= u;
    assert e as real * TWO53 as real <= n as real;
    assert (TWO53 * e) as real <= n as real;
  }

  lemma OvershootSum(W: int, f: int, total: int, n: int)
    requires W > 0 && n > 0 && 0 <= total < TWO53
    requires TWO53 * (W * f - total * W) <= total * W
    requires W * f >= total * W - n * (W - 1)
    ensures 0 <= total - f < n
  {
    assert W * f - total * W == W * (f - total) by { Distribute(W, f - total, total); }
    assert n * (W - 1) == W * n - n;
    if f > total {
      ProductOrder(W, 1, f - total);
      Scarcity(W, W * (f - total), total);
    }
    if total - f >= n {
      ProductOrder(W, n, total - f);
      Distribute(W, total - f, f);
    }
  }

  lemma Scarcity(W: int, e: int, total: int)
    requires W > 0 && e >= W && 0 <= total < TWO53
    ensures TWO53 * e > total * W
  {
    ProductOrder(W, total, TWO53 - 1);
    assert W * total == total * W && W * (TWO53 - 1) == TWO53 * W - W;
  }

  /** Below 2^53 the total alone guarantees the documented sum, whatever the weights: the floors
      never exceed the total, and what is left over is less than one unit a part. */
  lemma FloatSumsExactly(total: int, weights: seq<int>, divide: Division, parts: seq<int>)
    requires Allocatable(total, weights) && IsBinary64Division(divide) && total < TWO53
    requires IsAllocation(total, weights, divide, parts)
    ensures SumOf(parts) == total
  {
    var a, W, f := Numerators(total, weights), SumOf(weights), Floors(total, weights, divide);
    forall i | 0 <= i < |weights| ensures TWO53 * (W * f[i] - a[i]) <= a[i] && W * f[i] - a[i] >= -(W - 1) {
      ShareBounds(total, weights, divide, i);
    }
    SumScale(weights, a, total);
    FloorSum(total, W, a, f);
  }

  /** Shares overshot by at most a relative 2^-53 each sum to no more than the total. */
  lemma FloorSum(total: int, W: int, a: seq<int>, f: seq<int>)
    requires W > 0 && 0 <= total < TWO53 && a != [] && |f| == |a| && SumOf(a) == total * W
    requires forall i :: 0 <= i < |a| ==> TWO53 * (W * f[i] - a[i]) <= a[i] && W * f[i] - a[i] >= -(W - 1)
    ensures 0 <= total - SumOf(f) < |a|
  {
    var b := seq(|a|, i requires 0 <= i < |a| => W * f[i]);
    var gap := seq(|a|, i requires 0 <= i < |a| => b[i] - a[i]);
    SumScale(f, b, W);
    SumDifference(b, a, gap);
    GapSum(gap, a, W - 1);
    OvershootSum(W, SumOf(f), total, |a|);
  }

  lemma {:induction false} GapSum(gap: seq<int>, a: seq<int>, c: int)
    requires |gap| == |a|
    requires forall i :: 0 <= i < |a| ==> TWO53 * gap[i] <= a[i] && gap[i] >= -c
    ensures TWO53 * SumOf(gap) <= SumOf(a) && SumOf(gap) >= -(|gap| * c)
  {
    if gap != [] {
      var n := |gap| - 1;
      GapSum(gap[..n], a[..n], c);
      ProductStep(c, n);
      assert n * c == c * n && |gap| * c == c * (n + 1);
    }
  }

  lemma ShareBounds(total: int, weights: seq<int>, divide: Division, i: nat)
    requires Allocatable(total, weights) && IsBinary64Division(divide) && total < TWO53 && i < |weights|
    ensures var W, f, a := SumOf(weights), Floors(total, weights, divide)[i], total * weights[i];
            TWO53 * (W * f - a) <= a && W * f - a >= -(W - 1)
  {
    var W, w := SumOf(weights), weights[i];
    WeightBelowSum(weights, i);
    NumeratorBounds(total, w, W);
    var a := total * w;
    var f := Floors(total, weights, divide)[i];
    assert RoundedQuotient(a, W, divide(a, W));
    assert f == divide(a, W).Floor;
    RoundedFloorBounds(a, W, divide(a, W));
    FloorGap(a, W, f);
  }

  lemma NumeratorBounds(total: int, w: int, W: int)
    requires 0 <= total < TWO53 && 0 <= w <= W && W > 0
    ensures 0 <= total * w < TWO53 * W
  {
    ProductOrder(total, 0, w);
    ProductOrder(total, w, W);
    ProductOrder(W, total, TWO53 - 1);
    assert W * total == total * W && W * (TWO53 - 1) == TWO53 * W - W;
  }

  lemma FloorGap(a: int, W: int, f: int)
    requires W > 0 && a / W <= f && TWO53 * (f * W - a) <= a
    ensures TWO53 * (W * f - a) <= a && W * f - a >= -(W - 1)
  {
    assert f * W == W * f;
    assert a == W * (a / W) + a % W;
    ProductOrder(W, a / W, f);
  }

  lemma {:induction false} WeightBelowSum(weights: seq<int>, i: nat)
    requires i < |weights| && forall j :: 0 <= j < |weights| ==> weights[j] >= 0
    ensures weights[i] <= SumOf(weights)
  {
    var zeros := seq(|weights|, j => 0)[i := weights[i]];
    var none := seq(|weights|, j => 0);
    SumBounds(none, 0, 0);
    SumUpdate(none, i, weights[i]);
    assert zeros == none[i := weights[i]];
    SumLeq(zeros, weights);
  }

  // --- beyond the bound -------------------------------------------------------------------------

  /** 2^54 + 3 rounds up to the multiple of four above it. */
  lemma NearestAboveBound(r: real)
    requires Nearest((2 * TWO53 + 3) as real, r)
    ensures r == (2 * TWO53 + 4) as real
  {
    var up := 2 * TWO53 + 4;
    DoubledIsProduct(TWO53 / 2 + 1, 2);
    assert Pow2(2) == 4 by { assert Pow2(1) == 2; }
    assert HasForm(up as real, TWO53 / 2 + 1, 2);
    assert Representable(up as real);
    assert (2 * TWO53 + 2) as real <= r <= up as real;
    var m: nat, e: nat :| HasForm(r, m, e);
    HalvedAtMost(m, e);
    DoubledIsProduct(m, e);
    MultipleOfFour(m, e);
  }

  lemma {:induction false} HalvedAtMost(m: nat, e: nat)
    ensures 0.0 <= Halved(m as real, e) <= m as real
  {
    if e > 0 { HalvedAtMost(m, e - 1); }
  }

  lemma MultipleOfFour(m: nat, e: nat)
    requires m < TWO53
    ensures m * Pow2(e) > 2 * TWO53 ==> (m * Pow2(e)) % 4 == 0
  {
    if e >= 2 {
      var Q := Pow2(e - 2);
      assert Pow2(e) == 2 * Pow2(e - 1) == 4 * Q;
      assert m * Pow2(e) == 4 * (m * Q);
    }
  }

  /** The documented guarantee fails for large totals: the one part of allocate(2^54 + 3, [1])
      is a unit more than the total. */
  lemma FloatAllocationOvershoots(divide: Division, parts: seq<int>)
    requires IsBinary64Division(divide)
    requires IsAllocation(2 * TWO53 + 3, [1], divide, parts)
    ensures SumOf(parts) == 2 * TWO53 + 4
  {
    var total, weights := 2 * TWO53 + 3, [1];
    assert SumOf(weights) == 1 by { assert weights[..0] == []; }
    var n := total * weights[0];
    assert n == total;
    assert RoundedQuotient(n, 1, divide(n, 1));
    NearestAboveBound(divide(n, 1));
    var f := Floors(total, weights, divide);
    assert f[0] == total + 1;
    assert f[..0] == [];
    assert SumOf(f) == total + 1;
  }
}
