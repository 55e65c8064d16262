/** core/money.py `allocate`, step by step, over an arbitrary division `divide`:
    the exact rational quotient, or the rounded binary64 one of the running program. */
module Allocation {
  import opened Core
  import opened Money

  type Division = (int, int) -> real

  function ExactQuotient(n: int, d: int): real {
    if d == 0 then 0.0 else n as real / d as real
  }

  /** The floors of the raw shares. */
  function Floors(total: int, weights: seq<int>, divide: Division): (f: seq<int>)
    ensures |f| == |weights|
  {
    seq(|weights|, i requires 0 <= i < |weights| => divide(total * weights[i], SumOf(weights)).Floor)
  }

  /** The fractional parts the leftover units are ranked by. */
  function Fractions(total: int, weights: seq<int>, divide: Division): (k: seq<real>)
    ensures |k| == |weights|
  {
    seq(|weights|, i requires 0 <= i < |weights| =>
      var raw := divide(total * weights[i], SumOf(weights)); raw - raw.Floor as real)
  }

  /** How many indices the slice `order[:remainder]` of a list of n takes: a negative
      bound counts from the end. */
  function SliceLength(n: nat, remainder: int): (k: nat)
    ensures k <= n
    ensures k == remainder <==> 0 <= remainder <= n
  {
    if remainder < 0 then (if n + remainder < 0 then 0 else n + remainder)
    else if remainder < n then remainder else n
  }

  /** i is served before j: larger fraction, or equal and earlier. */
  predicate Precedes(keys: seq<real>, i: nat, j: nat)
    requires i < |keys| && j < |keys|
  {
    keys[i] > keys[j] || (keys[i] == keys[j] && i < j)
  }

  /** What the loop leaves: the floors, plus one unit each for the indices ranked first. */
  ghost predicate IsAllocation(total: int, weights: seq<int>, divide: Division, parts: seq<int>) {
    var f, keys := Floors(total, weights, divide), Fractions(total, weights, divide);
    && |parts| == |weights|
    && (forall i :: 0 <= i < |parts| ==> f[i] <= parts[i] <= f[i] + 1)
    && SumOf(parts) == SumOf(f) + SliceLength(|weights|, total - SumOf(f))
    && (forall i, j :: 0 <= i < |parts| && 0 <= j < |parts| && parts[i] == f[i] + 1 && parts[j] == f[j]
                       ==> Precedes(keys, i, j))
  }

  /** `sorted(range(n), key=..., reverse=True)`: every index, descending and stable. */
  ghost predicate IsRanking(keys: seq<real>, order: seq<nat>) {
    && |order| == |keys|
    && (forall p :: 0 <= p < |order| ==> order[p] < |keys|)
    && (forall p, q :: 0 <= p < q < |order| ==> Precedes(keys, order[p], order[q]))
    && (forall i: nat :: i < |keys| ==> i in order)
  }

  /** Insert index `i` (larger than all ranked so far) behind every key that is not smaller. */
  method InsertRanked(keys: seq<real>, ranked: seq<nat>, i: nat) returns (order: seq<nat>)
    requires i < |keys| && |ranked| == i
    requires forall p :: 0 <= p < |ranked| ==> ranked[p] < i
    requires forall p, q :: 0 <= p < q < |ranked| ==> Precedes(keys, ranked[p], ranked[q])
    ensures |order| == i + 1
    ensures forall p :: 0 <= p < |order| ==> order[p] < i + 1
    ensures forall p, q :: 0 <= p < q < |order| ==> Precedes(keys, order[p], order[q])
    ensures forall x :: x in order <==> x == i || x in ranked
  {
    var at := |ranked|;
    while at > 0 && keys[ranked[at - 1]] < keys[i]
      invariant 0 <= at <= |ranked|
      invariant forall q :: at <= q < |ranked| ==> keys[ranked[q]] < keys[i]
    {
      at := at - 1;
    }
    order := ranked[..at] + [i] + ranked[at..];
    InsertionRanked(keys, ranked, i, at, order);
  }

  lemma InsertionRanked(keys: seq<real>, ranked: seq<nat>, i: nat, at: nat, order: seq<nat>)
    requires i < |keys| && |ranked| == i && at <= |ranked|
    requires forall p :: 0 <= p < |ranked| ==> ranked[p] < i
    requires forall p, q :: 0 <= p < q < |ranked| ==> Precedes(keys, ranked[p], ranked[q])
    requires at > 0 ==> keys[ranked[at - 1]] >= keys[i]
    requires forall q :: at <= q < |ranked| ==> keys[ranked[q]] < keys[i]
    requires order == ranked[..at] + [i] + ranked[at..]
    ensures forall p :: 0 <= p < |order| ==> order[p] < i + 1
    ensures forall p, q :: 0 <= p < q < |order| ==> Precedes(keys, order[p], order[q])
    ensures forall x :: x in order <==> x == i || x in ranked
  {
    assert forall p :: 0 <= p < |order| ==>
                         order[p] == if p < at then ranked[p] else if p == at then i else ranked[p - 1];
    forall p, q | 0 <= p < q < |order| ensures Precedes(keys, order[p], order[q]) {
      if q == at {
        assert p == at - 1 || Precedes(keys, ranked[p], ranked[at - 1]);
      }
    }
    forall x ensures x in order <==> x == i || x in ranked {
      assert ranked == ranked[..at] + ranked[at..];
    }
  }

  method Rank(keys: seq<real>) returns (order: seq<nat>)
    ensures IsRanking(keys, order)
  {
    order := [];
    for i := 0 to |keys|
      invariant |order| == i
      invariant forall p :: 0 <= p < |order| ==> order[p] < i
      invariant forall p, q :: 0 <= p < q < |order| ==> Precedes(keys, order[p], order[q])
      invariant forall x: nat :: x < i ==> x in order
    {
      order := InsertRanked(keys, order, i);
    }
  }

  /** One more unit for each of the first `served` indices of the ranking. */
  method HandOut(f: seq<int>, keys: seq<real>, order: seq<nat>, served: nat) returns (parts: seq<int>)
    requires |f| == |keys| && IsRanking(keys, order) && served <= |order|
    ensures |parts| == |f|
    ensures forall p :: 0 <= p < |order| ==> parts[order[p]] == f[order[p]] + if p < served then 1 else 0
    ensures SumOf(parts) == SumOf(f) + served
  {
    parts := f;
    for k := 0 to served
      invariant |parts| == |f|
      invariant forall p :: 0 <= p < |order| ==> parts[order[p]] == f[order[p]] + if p < k then 1 else 0
      invariant SumOf(parts) == SumOf(f) + k
    {
      SumUpdate(parts, order[k], parts[order[k]] + 1);
      forall p | 0 <= p < |order| && p != k ensures order[p] != order[k] {
        assert if p < k then Precedes(keys, order[p], order[k]) else Precedes(keys, order[k], order[p]);
      }
      parts := parts[order[k] := parts[order[k]] + 1];
    }
  }

  /** Serving a prefix of the ranking serves exactly the indices that precede the others. */
  lemma PrefixServed(f: seq<int>, keys: seq<real>, order: seq<nat>, served: nat, parts: seq<int>)
    requires |f| == |keys| == |parts| && IsRanking(keys, order) && served <= |order|
    requires forall p :: 0 <= p < |order| ==> parts[order[p]] == f[order[p]] + if p < served then 1 else 0
    ensures forall i :: 0 <= i < |parts| ==> f[i] <= parts[i] <= f[i] + 1
    ensures forall i, j :: 0 <= i < |parts| && 0 <= j < |parts| && parts[i] == f[i] + 1 && parts[j] == f[j]
                           ==> Precedes(keys, i, j)
  {
    forall i | 0 <= i < |parts| ensures f[i] <= parts[i] <= f[i] + 1 {
      assert i in order;
    }
    forall i, j | 0 <= i < |parts| && 0 <= j < |parts| && parts[i] == f[i] + 1 && parts[j] == f[j]
      ensures Precedes(keys, i, j)
    {
      assert i in order && j in order;
      var p :| 0 <= p < |order| && order[p] == i;
      var q :| 0 <= q < |order| && order[q] == j;
      assert p < served <= q;
    }
  }

  method Allocate(total: int, weights: seq<int>, divide: Division) returns (r: Result<seq<int>, Error>)
    ensures r.Success? <==> Allocatable(total, weights)
    ensures r.Failure? ==> r.error == ValueError
    ensures r.Success? ==> IsAllocation(total, weights, divide, r.value)
    ensures r.Success? ==>
              (SumOf(r.value) == total
               <==> 0 <= total - SumOf(Floors(total, weights, divide)) <= |weights|)
  {
    if weights == [] || total < 0 {
      return Failure(ValueError);
    }
    if (exists i :: 0 <= i < |weights| && weights[i] < 0) || SumOf(weights) <= 0 {
      return Failure(ValueError);
    }
    var floors := Floors(total, weights, divide);
    var keys := Fractions(total, weights, divide);
    var remainder := total - SumOf(floors);
    var order := Rank(keys);
    var served := SliceLength(|weights|, remainder);
    var parts := HandOut(floors, keys, order, served);
    PrefixServed(floors, keys, order, served, parts);
    return Success(parts);
  }

  // --- exact arithmetic ------------------------------------------------------------------

  /** A quotient within 1/d of the exact one, and exact on integers, has the exact floor. */
  ghost predicate CloseQuotient(n: int, d: int, r: real)
    requires d > 0
  {
    && -1.0 < r * d as real - n as real < 1.0
    && (n % d == 0 ==> r * d as real == n as real)
  }

  lemma RealProductOrder(d: real, x: real, y: real)
    requires d > 0.0
    ensures x < y <==> x * d < y * d
    ensures x <= y <==> x * d <= y * d
    ensures x == y <==> x * d == y * d
  {
    if x < y { assert (y - x) * d > 0.0; }
    if y < x { assert (x - y) * d > 0.0; }
  }

  lemma RealOfProduct(x: int, y: int)
    ensures (x * y) as real == x as real * y as real
  {
  }

  lemma CloseQuotientFloor(n: int, d: int, r: real)
    requires d > 0 && CloseQuotient(n, d, r)
    ensures r.Floor == n / d
  {
    var f, s := n / d, r * d as real;
    assert n == f * d + n % d;
    RealOfProduct(f, d);
    FloorByScale(r, d as real, f, f as real, s);
  }

  lemma FloorByScale(r: real, D: real, f: int, F: real, s: real)
    requires D > 0.0 && F == f as real && s == r * D
    requires F * D <= s < F * D + D
    ensures r.Floor == f
  {
    RealProductOrder(D, F, r);
    var G := F + 1.0;
    assert G * D == F * D + D;
    RealProductOrder(D, r, G);
    assert F <= r < G;
  }

  lemma ExactQuotientClose(n: int, d: int)
    requires d > 0
    ensures ExactQuotient(n, d) * d as real == n as real
    ensures CloseQuotient(n, d, ExactQuotient(n, d))
  {
  }

  /** The division computes every share of this allocation closely enough. */
  ghost predicate CloseOn(total: int, weights: seq<int>, divide: Division)
    requires Allocatable(total, weights)
  {
    forall i :: 0 <= i < |weights| ==>
                  CloseQuotient(total * weights[i], SumOf(weights), divide(total * weights[i], SumOf(weights)))
  }

  /** With close quotients the leftover is a genuine count of units: nothing is lost. */
  lemma CloseFloors(total: int, weights: seq<int>, divide: Division)
    requires Allocatable(total, weights) && CloseOn(total, weights, divide)
    ensures var a := Numerators(total, weights);
            forall i :: 0 <= i < |weights| ==> Floors(total, weights, divide)[i] == a[i] / SumOf(weights)
    ensures 0 <= total - SumOf(Floors(total, weights, divide)) < |weights|
  {
    var a, W, f := Numerators(total, weights), SumOf(weights), Floors(total, weights, divide);
    forall i | 0 <= i < |weights| ensures f[i] == a[i] / W {
      CloseQuotientFloor(a[i], W, divide(total * weights[i], W));
    }
    SumScale(weights, a, total);
    ExactFloorsLeftover(a, W, f, total);
  }

  lemma RemainderOf(x: int, W: int)
    requires W > 0
    ensures x - W * (x / W) == x % W && 0 <= x % W <= W - 1
  {
  }

  lemma ExactFloorsLeftover(a: seq<int>, W: int, f: seq<int>, total: int)
    requires W > 0 && a != [] && |f| == |a| && SumOf(a) == total * W
    requires forall i :: 0 <= i < |a| ==> f[i] == a[i] / W
    ensures 0 <= total - SumOf(f) < |a|
  {
    var b := seq(|a|, i requires 0 <= i < |a| => W * f[i]);
    SumScale(f, b, W);
    var m := seq(|a|, i requires 0 <= i < |a| => a[i] - b[i]);
    forall i | 0 <= i < |a| ensures 0 <= m[i] <= W - 1 {
      RemainderOf(a[i], W);
    }
    SumDifference(a, b, m);
    SumBounds(m, 0, W - 1);
    LeftoverRange(W, total - SumOf(f), |a|, SumOf(m), total, SumOf(f));
  }

  lemma LeftoverRange(W: int, left: int, n: int, m: int, total: int, f: int)
    requires W > 0 && n > 0 && left == total - f
    requires m == total * W - W * f && 0 <= m <= (W - 1) * n
    ensures 0 <= left < n
  {
    Distribute(W, left, f);
    assert total * W == W * total;
    assert (W - 1) * n == W * n - n;
    if left < 0 { ProductOrder(W, left, -1); }
    if left >= n { ProductOrder(W, n, left); }
  }

  /** Exact arithmetic: the loop computes the largest-remainder split. */
  lemma ExactAllocationIsLargestRemainder(total: int, weights: seq<int>, parts: seq<int>)
    requires Allocatable(total, weights)
    requires IsAllocation(total, weights, ExactQuotient, parts)
    ensures IsLargestRemainder(total, weights, parts)
  {
    var a, W := Numerators(total, weights), SumOf(weights);
    forall i | 0 <= i < |weights| ensures CloseQuotient(a[i], W, ExactQuotient(a[i], W)) {
      ExactQuotientClose(a[i], W);
    }
    CloseFloors(total, weights, ExactQuotient);
    var keys := Fractions(total, weights, ExactQuotient);
    forall i, j | 0 <= i < |parts| && 0 <= j < |parts| && parts[i] == a[i] / W + 1 && parts[j] == a[j] / W
      ensures a[i] % W > a[j] % W || (a[i] % W == a[j] % W && i < j)
    {
      assert Precedes(keys, i, j);
      ExactFractionOrder(a[i], a[j], W);
    }
  }

  lemma ExactFractionOrder(n: int, m: int, d: int)
    requires d > 0
    ensures var q, p := ExactQuotient(n, d), ExactQuotient(m, d);
            var x, y := q - q.Floor as real, p - p.Floor as real;
            (x > y <==> n % d > m % d) && (x == y <==> n % d == m % d)
  {
    var D := d as real;
    var x, i := ExactFraction(n, d, D);
    var y, j := ExactFraction(m, d, D);
    ScaledOrder(D, x, i, y, j);
  }

  lemma ScaledOrder(D: real, x: real, i: int, y: real, j: int)
    requires D > 0.0 && x * D == i as real && y * D == j as real
    ensures (x > y <==> i > j) && (x == y <==> i == j)
  {
    RealProductOrder(D, y, x);
  }

  lemma ExactFraction(n: int, d: int, D: real) returns (x: real, i: int)
    requires d > 0 && D == d as real
    ensures x == ExactQuotient(n, d) - ExactQuotient(n, d).Floor as real && i == n % d
    ensures x * D == i as real
  {
    var q := ExactQuotient(n, d);
    ExactQuotientClose(n, d);
    CloseQuotientFloor(n, d, q);
    var f := n / d;
    var F := f as real;
    x, i := q - F, n % d;
    assert n == f * d + i;
    RealOfProduct(f, d);
    RealDifference(x, q, F, D);
  }

  lemma RealDifference(v: real, x: real, y: real, z: real)
    requires v == x - y
    ensures v * z == x * z - y * z
  {
    assert (x - y) * z == x * z - y * z;
  }
}
