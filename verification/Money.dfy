/** Integer minor-unit arithmetic: rounding, the commission split and the
    largest-remainder allocation (core/money.py, payments/config.py). */
module Money {

  // --- sums ------------------------------------------------------------------

  function SumOf(s: seq<int>): int {
    if s == [] then 0 else SumOf(s[..|s| - 1]) + s[|s| - 1]
  }

  lemma {:induction false} SumPair(x: int, y: int)
    ensures SumOf([x, y]) == x + y
  {
    assert [x, y][..1] == [x];
    assert [x][..0] == [];
    assert SumOf([x]) == x;
  }

  lemma {:induction false} SumUpdate(s: seq<int>, k: nat, x: int)
    requires k < |s|
    ensures SumOf(s[k := x]) == SumOf(s) - s[k] + x
  {
    var n := |s| - 1;
    if k == n {
      assert s[k := x][..n] == s[..n];
    } else {
      assert s[k := x][..n] == s[..n][k := x];
      SumUpdate(s[..n], k, x);
    }
  }

  lemma {:induction false} SumScale(s: seq<int>, t: seq<int>, k: int)
    requires |s| == |t|
    requires forall i :: 0 <= i < |s| ==> t[i] == k * s[i]
    ensures SumOf(t) == k * SumOf(s)
  {
    if s != [] {
      SumScale(s[..|s| - 1], t[..|t| - 1], k);
    }
  }

  lemma {:induction false} SumLeq(s: seq<int>, t: seq<int>)
    requires |s| == |t|
    requires forall i :: 0 <= i < |s| ==> s[i] <= t[i]
    ensures SumOf(s) <= SumOf(t)
    ensures (exists i :: 0 <= i < |s| && s[i] < t[i]) ==> SumOf(s) < SumOf(t)
  {
    if s != [] {
      SumLeq(s[..|s| - 1], t[..|t| - 1]);
      if i :| 0 <= i < |s| && s[i] < t[i] {
        if i < |s| - 1 {
          assert s[..|s| - 1][i] < t[..|t| - 1][i];
        }
      }
    }
  }

  lemma {:induction false} SumBounds(s: seq<int>, lo: int, hi: int)
    requires forall i :: 0 <= i < |s| ==> lo <= s[i] <= hi
    ensures lo * |s| <= SumOf(s) <= hi * |s|
  {
    if s != [] {
      SumBounds(s[..|s| - 1], lo, hi);
    }
  }

  // --- products of signed factors ---------------------------------------------------

  lemma ProductOrder(d: int, x: int, y: int)
    requires d >= 0 && x <= y
    ensures d * x <= d * y
  {
    assert d * (y - x) >= 0;
  }

  lemma ProductStep(d: int, x: int)
    ensures d * (x + 1) == d * x + d
  {
  }

  // --- rounding half up --------------------------------------------------------

  /** n/d rounded to the nearest integer, halves upwards (ROUND_HALF_UP for n >= 0). */
  function RoundHalfUp(n: int, d: int): (r: int)
    requires d > 0
    ensures 2 * n - d < 2 * (d * r) <= 2 * n + d
  {
    var r := (2 * n + d) / (2 * d);
    assert 2 * n + d == 2 * d * r + (2 * n + d) % (2 * d);
    assert 2 * d * r == 2 * (d * r);
    r
  }

  lemma RoundHalfUpUnique(n: int, d: int, x: int)
    requires d > 0
    requires 2 * n - d < 2 * (d * x) <= 2 * n + d
    ensures x == RoundHalfUp(n, d)
  {
    var r := RoundHalfUp(n, d);
    ProductStep(d, x);
    ProductStep(d, r);
    if x < r {
      ProductOrder(d, x + 1, r);
    } else if x > r {
      ProductOrder(d, r + 1, x);
    }
  }

  /** A share of `total` that is at most the whole stays within 0..total. */
  lemma RoundHalfUpWithin(total: int, part: int, whole: int)
    requires 0 <= total && 0 <= part <= whole && whole > 0
    ensures 0 <= RoundHalfUp(total * part, whole) <= total
  {
    var n := total * part;
    ProductOrder(total, part, whole);
    var x := RoundHalfUp(n, whole);
    assert total * whole == whole * total;
    ProductStep(whole, x);
    ProductStep(whole, total);
    if x < 0 {
      ProductOrder(whole, x + 1, 0);
    }
    if x > total {
      ProductOrder(whole, total + 1, x);
    }
  }

  /** Commission rates are decimals with four places; 10000 is 100%. */
  const RATE_UNIT := 10000

  /** Order.commission_rate's default; the order factory never overrides it. */
  const DEFAULT_RATE := 1500

  /** Smallest offer or quote the services accept (BR-18). */
  const MIN_OFFER_MINOR := 500

  function CommissionOf(amount: int, rate: int): int {
    RoundHalfUp(amount * rate, RATE_UNIT)
  }

  /** (commission, expert net): the expert keeps the remainder. */
  function CommissionSplit(amount: int, rate: int): (int, int) {
    (CommissionOf(amount, rate), amount - CommissionOf(amount, rate))
  }

  // --- largest-remainder allocation ----------------------------------------------

  predicate Allocatable(total: int, weights: seq<int>) {
    && weights != []
    && total >= 0
    && (forall i :: 0 <= i < |weights| ==> weights[i] >= 0)
    && SumOf(weights) > 0
  }

  /** total * weight, the numerator of a share whose denominator is the weight sum. */
  function Numerators(total: int, weights: seq<int>): (a: seq<int>)
    ensures |a| == |weights|
    ensures forall i :: 0 <= i < |a| ==> a[i] == total * weights[i]
  {
    seq(|weights|, i requires 0 <= i < |weights| => total * weights[i])
  }

  /** Every part is the floor of its exact share or one more, the parts exhaust the
      total, and whoever got the extra unit has at least the fractional part of
      whoever did not. */
  ghost predicate IsRemainderSplit(total: int, weights: seq<int>, parts: seq<int>)
    requires Allocatable(total, weights)
  {
    var a, W := Numerators(total, weights), SumOf(weights);
    && |parts| == |weights|
    && SumOf(parts) == total
    && (forall i :: 0 <= i < |parts| ==> a[i] / W <= parts[i] <= a[i] / W + 1)
    && (forall i, j :: 0 <= i < |parts| && 0 <= j < |parts|
                       && parts[i] == a[i] / W + 1 && parts[j] == a[j] / W
                       ==> a[i] % W >= a[j] % W)
  }

  /** The largest-remainder split: among equal fractional parts the earlier index is served. */
  ghost predicate IsLargestRemainder(total: int, weights: seq<int>, parts: seq<int>)
    requires Allocatable(total, weights)
  {
    var a, W := Numerators(total, weights), SumOf(weights);
    && IsRemainderSplit(total, weights, parts)
    && (forall i, j :: 0 <= i < |parts| && 0 <= j < |parts|
                       && parts[i] == a[i] / W + 1 && parts[j] == a[j] / W
                       && a[i] % W == a[j] % W
                       ==> i < j)
  }

  /** Equal sums: if one entry is larger, another is smaller. */
  lemma SomeSmaller(p: seq<int>, q: seq<int>, i: nat) returns (j: nat)
    requires |p| == |q| && SumOf(p) == SumOf(q)
    requires i < |p| && p[i] > q[i]
    ensures j < |p| && p[j] < q[j]
  {
    if forall m :: 0 <= m < |p| ==> q[m] <= p[m] {
      SumLeq(q, p);
      assert false;
    }
    j :| 0 <= j < |p| && p[j] < q[j];
  }

  lemma LargestRemainderBelow(total: int, weights: seq<int>, p: seq<int>, q: seq<int>)
    requires Allocatable(total, weights)
    requires IsLargestRemainder(total, weights, p) && IsLargestRemainder(total, weights, q)
    ensures forall i :: 0 <= i < |p| ==> p[i] <= q[i]
  {
    forall i | 0 <= i < |p| ensures p[i] <= q[i] {
      if p[i] > q[i] {
        // i got a unit in p only, j in q only: each would have to come before the other.
        var j := SomeSmaller(p, q, i);
      }
    }
  }

  /** At most one split satisfies the declarative definition. */
  lemma LargestRemainderUnique(total: int, weights: seq<int>, p: seq<int>, q: seq<int>)
    requires Allocatable(total, weights)
    requires IsLargestRemainder(total, weights, p) && IsLargestRemainder(total, weights, q)
    ensures p == q
  {
    LargestRemainderBelow(total, weights, p, q);
    LargestRemainderBelow(total, weights, q, p);
  }

  /** The numerators' remainders account exactly for the units the floors leave over. */
  lemma RemaindersBalance(total: int, weights: seq<int>, parts: seq<int>, gaps: seq<int>)
    requires Allocatable(total, weights) && |parts| == |weights| == |gaps|
    requires SumOf(parts) == total
    requires forall i :: 0 <= i < |gaps| ==>
                           gaps[i] == SumOf(weights) * parts[i] - Numerators(total, weights)[i]
    ensures SumOf(gaps) == 0
  {
    var a, W := Numerators(total, weights), SumOf(weights);
    SumScale(weights, a, total);
    var b := seq(|parts|, i requires 0 <= i < |parts| => W * parts[i]);
    SumScale(parts, b, W);
    SumDifference(b, a, gaps);
    assert W * total == total * W;
  }

  lemma {:induction false} SumDifference(s: seq<int>, t: seq<int>, d: seq<int>)
    requires |s| == |t| == |d|
    requires forall i :: 0 <= i < |s| ==> d[i] == s[i] - t[i]
    ensures SumOf(d) == SumOf(s) - SumOf(t)
  {
    if s != [] {
      SumDifference(s[..|s| - 1], t[..|s| - 1], d[..|s| - 1]);
    }
  }

  /** What a part exceeds its exact share by, scaled by the weight sum. */
  lemma GapOf(W: int, a: int, p: int)
    requires W > 0
    ensures p == a / W ==> W * p - a == -(a % W)
    ensures p == a / W + 1 ==> W * p - a == W - a % W
  {
    var f := a / W;
    assert a == W * f + a % W;
    ProductStep(W, f);
  }

  /** A zero weight receives nothing, not even a leftover unit. */
  lemma ZeroWeightGetsNothing(total: int, weights: seq<int>, parts: seq<int>, z: nat)
    requires Allocatable(total, weights) && IsRemainderSplit(total, weights, parts)
    requires z < |weights| && weights[z] == 0
    ensures parts[z] == 0
  {
    var a, W := Numerators(total, weights), SumOf(weights);
    assert a[z] == 0;
    if parts[z] != 0 {
      // z got a unit, so everyone left out has remainder zero: the gaps cannot cancel.
      var gaps := seq(|parts|, i requires 0 <= i < |parts| => W * parts[i] - a[i]);
      RemaindersBalance(total, weights, parts, gaps);
      forall i | 0 <= i < |parts| ensures gaps[i] >= 0 && (i == z ==> gaps[i] > 0) {
        GapOf(W, a[i], parts[i]);
      }
      PositiveSum(gaps, z);
    }
  }

  lemma {:induction false} PositiveSum(s: seq<int>, z: nat)
    requires z < |s| && s[z] > 0
    requires forall i :: 0 <= i < |s| ==> s[i] >= 0
    ensures SumOf(s) > 0
  {
    var zeros := seq(|s|, i => 0);
    SumBounds(zeros, 0, 0);
    SumLeq(zeros, s);
    assert zeros[z] < s[z];
  }

  // --- optimality ------------------------------------------------------------------

  function Abs(x: int): nat { if x < 0 then -x else x }

  /** Sum of |W * part - total * weight|: the total absolute deviation from the exact
      shares, scaled by the weight sum so that it is an integer. */
  function Deviations(total: int, weights: seq<int>, parts: seq<int>): (d: seq<int>)
    requires |parts| == |weights|
    ensures |d| == |weights|
  {
    seq(|weights|, i requires 0 <= i < |weights| => Abs(SumOf(weights) * parts[i] - total * weights[i]))
  }

  function Deviation(total: int, weights: seq<int>, parts: seq<int>): int
    requires |parts| == |weights|
  {
    SumOf(Deviations(total, weights, parts))
  }

  /** The price of one unit: at this price no single part gains from taking or giving units. */
  lemma PriceSupports(W: int, a: int, p: int, q: int, price: int)
    requires W > 0 && -W <= price <= W
    requires (p == a / W && price <= W - 2 * (a % W)) || (p == a / W + 1 && W - 2 * (a % W) <= price)
    ensures Abs(W * p - a) - price * p <= Abs(W * q - a) - price * q
  {
    var f, r := a / W, a % W;
    assert a == W * f + r;
    GapOf(W, a, p);
    var k := q - f;
    assert W * q - a == W * k - r by { Distribute(W, f, k); }
    assert price * q == price * f + price * k by { Distribute(price, f, k); }
    ProductStep(price, f);
    if k <= 0 {
      ProductOrder(W + price, k, 0);
      assert (W + price) * k == W * k + price * k;
    } else {
      ProductOrder(W - price, 1, k);
      assert (W - price) * k == W * k - price * k;
    }
  }

  lemma Distribute(d: int, x: int, y: int)
    ensures d * (x + y) == d * x + d * y
  {
  }

  /** A supporting price exists for every remainder split: the marginal cost
      of the receiver with the smallest remainder. */
  lemma SupportingPrice(total: int, weights: seq<int>, parts: seq<int>) returns (price: int)
    requires Allocatable(total, weights) && IsRemainderSplit(total, weights, parts)
    ensures -SumOf(weights) <= price <= SumOf(weights)
    ensures var a, W := Numerators(total, weights), SumOf(weights);
            forall i :: 0 <= i < |parts| ==>
                          (parts[i] == a[i] / W && price <= W - 2 * (a[i] % W))
                          || (parts[i] == a[i] / W + 1 && W - 2 * (a[i] % W) <= price)
  {
    var a, W := Numerators(total, weights), SumOf(weights);
    price := -W;
    var k := 0;
    while k < |parts|
      invariant 0 <= k <= |parts|
      invariant -W <= price <= W
      invariant price == -W || exists m :: 0 <= m < k && parts[m] == a[m] / W + 1 && price == W - 2 * (a[m] % W)
      invariant forall i :: 0 <= i < k && parts[i] == a[i] / W + 1 ==> W - 2 * (a[i] % W) <= price
    {
      if parts[k] == a[k] / W + 1 && W - 2 * (a[k] % W) > price {
        price := W - 2 * (a[k] % W);
      }
      k := k + 1;
    }
  }

  /** No other integer split of the total is closer to the exact shares. */
  lemma RemainderSplitOptimal(total: int, weights: seq<int>, parts: seq<int>, other: seq<int>)
    requires Allocatable(total, weights) && IsRemainderSplit(total, weights, parts)
    requires |other| == |weights| && SumOf(other) == total
    ensures Deviation(total, weights, parts) <= Deviation(total, weights, other)
  {
    var a, W := Numerators(total, weights), SumOf(weights);
    var price := SupportingPrice(total, weights, parts);
    var dp, dq := Deviations(total, weights, parts), Deviations(total, weights, other);
    var pp := seq(|parts|, i requires 0 <= i < |parts| => price * parts[i]);
    var pq := seq(|other|, i requires 0 <= i < |other| => price * other[i]);
    var sp := seq(|parts|, i requires 0 <= i < |parts| => dp[i] - pp[i]);
    var sq := seq(|parts|, i requires 0 <= i < |parts| => dq[i] - pq[i]);
    forall i | 0 <= i < |parts| ensures sp[i] <= sq[i] {
      PriceSupports(W, a[i], parts[i], other[i], price);
    }
    SumLeq(sp, sq);
    SumDifference(dp, pp, sp);
    SumDifference(dq, pq, sq);
    SumScale(parts, pp, price);
    SumScale(other, pq, price);
  }

  // --- two-way splits ----------------------------------------------------------------

  /** Splitting between two weights is rounding the first share half up: the rounding
      the commission itself was booked with. */
  lemma TwoWayIsRoundHalfUp(total: int, first: int, second: int, parts: seq<int>)
    requires total >= 0 && first >= 0 && second >= 0 && first + second > 0
    ensures Allocatable(total, [first, second])
    ensures IsLargestRemainder(total, [first, second], parts)
            <==> parts == [RoundHalfUp(total * first, first + second),
                           total - RoundHalfUp(total * first, first + second)]
  {
    var x := RoundHalfUp(total * first, first + second);
    TwoWaySplitQualifies(total, first, second);
    if IsLargestRemainder(total, [first, second], parts) {
      LargestRemainderUnique(total, [first, second], parts, [x, total - x]);
    }
  }

  /** With two shares the fractions are both zero or sum to one, and a tie favours the first. */
  lemma TwoWayUnit(a0: int, a1: int, W: int, total: int)
    requires W > 0 && a0 + a1 == W * total
    ensures var f0, f1 := a0 / W, a1 / W;
            var x := RoundHalfUp(a0, W);
            if 2 * (a0 % W) < W
            then x == f0 && (total - x == f1 || (total - x == f1 + 1 && a1 % W > a0 % W))
            else x == f0 + 1 && total - x == f1 && a0 % W >= a1 % W
  {
    var f0, r0, f1, r1 := a0 / W, a0 % W, a1 / W, a1 % W;
    assert a0 == W * f0 + r0 && a1 == W * f1 + r1;
    var u := total - f0 - f1;
    assert W * u == r0 + r1 by {
      Distribute(W, u, f0);
      Distribute(W, u + f0, f1);
    }
    if u < 0 { ProductOrder(W, u, -1); }
    if u > 1 { ProductOrder(W, 2, u); }
    ProductStep(W, f0);
    RoundHalfUpUnique(a0, W, if 2 * r0 < W then f0 else f0 + 1);
  }

  lemma TwoWaySplitQualifies(total: int, first: int, second: int)
    requires total >= 0 && first >= 0 && second >= 0 && first + second > 0
    ensures Allocatable(total, [first, second])
    ensures IsLargestRemainder(total, [first, second],
                               [RoundHalfUp(total * first, first + second),
                                total - RoundHalfUp(total * first, first + second)])
  {
    var weights := [first, second];
    SumPair(first, second);
    var W := first + second;
    var x := RoundHalfUp(total * first, W);
    Distribute(total, first, second);
    TwoWayUnit(total * first, total * second, W, total);
    SumPair(x, total - x);
  }

  // --- drift ---------------------------------------------------------------------------

  /** One refund reverses its exact commission share up to half a minor unit
      (everything scaled by 2 * whole). */
  lemma RefundRounding(r: int, commission: int, whole: int)
    requires whole > 0
    ensures Abs(2 * (whole * RoundHalfUp(r * commission, whole) - r * commission)) <= whole
  {
  }
}
