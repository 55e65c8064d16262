/** The public rating (reviews/services.py): an age-weighted mean, stored on every write and
    recomputed live beside the stored value. In exact arithmetic the two never differ. */
module Ratings {
  import opened Core
  import opened Allocation

  /** The weight of a review by its age in seconds. */
  type Decay = nat -> real

  /** Exponential decay: positive, and waiting m seconds multiplies by the same factor at every
      age. The half-life weight 0.5 ** (age / 365 days) is of this kind (HalfLifeDecays). */
  ghost predicate IsDecay(w: Decay) {
    && (forall n: nat :: w(n) > 0.0)
    && (forall m: nat, n: nat :: Splits(w, m, n))
  }

  predicate Splits(w: Decay, m: nat, n: nat) { w(m + n) == w(m) * w(n) }

  datatype Review = Review(order: nat, author: UserId, expert: UserId, rating: int, hidden: bool, createdAt: Time,
                           replied: bool)

  /** rating_avg in hundredths and rating_count. */
  datatype Aggregate = Aggregate(average: Option<int>, count: nat)

  datatype Desk = Desk(reviews: seq<Review>, profiles: map<UserId, Aggregate>)

  const MIN_BODY := 20
  const MAX_BODY := 5000

  // --- the weighted mean ----------------------------------------------------------------

  function Age(now: Time, createdAt: Time): nat { if now > createdAt then now - createdAt else 0 }

  function Weight(w: Decay, r: Review, now: Time): real { w(Age(now, r.createdAt)) }

  predicate Counts(r: Review, e: UserId) { r.expert == e && !r.hidden }

  /** What a review adds to the sum of weights, and to the weighted sum of ratings. */
  function Share(w: Decay, r: Review, e: UserId, now: Time): real { if Counts(r, e) then Weight(w, r, now) else 0.0 }

  function Worth(w: Decay, r: Review, e: UserId, now: Time): real {
    if Counts(r, e) then r.rating as real * Weight(w, r, now) else 0.0
  }

  function WeightSum(w: Decay, rs: seq<Review>, e: UserId, now: Time): real {
    if rs == [] then 0.0 else WeightSum(w, rs[..|rs| - 1], e, now) + Share(w, rs[|rs| - 1], e, now)
  }

  function WeightedTotal(w: Decay, rs: seq<Review>, e: UserId, now: Time): real {
    if rs == [] then 0.0 else WeightedTotal(w, rs[..|rs| - 1], e, now) + Worth(w, rs[|rs| - 1], e, now)
  }

  function Published(rs: seq<Review>, e: UserId): nat {
    if rs == [] then 0 else Published(rs[..|rs| - 1], e) + if Counts(rs[|rs| - 1], e) then 1 else 0
  }

  /** Round to the nearest integer, halves to the even neighbour (Python's round). */
  function HalfEven(x: real): (n: int)
    ensures -0.5 <= x - n as real <= 0.5
  {
    var f := x.Floor;
    var d := x - f as real;
    if d < 0.5 then f else if d > 0.5 then f + 1 else if f % 2 == 0 then f else f + 1
  }

  function Live(w: Decay, rs: seq<Review>, e: UserId, now: Time): Aggregate {
    var sum := WeightSum(w, rs, e, now);
    if Published(rs, e) == 0 || sum == 0.0 then Aggregate(None, 0)
    else Aggregate(Some(HalfEven(100.0 * (WeightedTotal(w, rs, e, now) / sum))), Published(rs, e))
  }

  /** weighted_aggregate. */
  method WeightedAggregate(w: Decay, rs: seq<Review>, e: UserId, now: Time) returns (a: Aggregate)
    ensures a == Live(w, rs, e, now)
  {
    var weightSum, weightedTotal, count := 0.0, 0.0, 0;
    for i := 0 to |rs|
      invariant weightSum == WeightSum(w, rs[..i], e, now)
      invariant weightedTotal == WeightedTotal(w, rs[..i], e, now)
      invariant count == Published(rs[..i], e)
    {
      assert rs[..i + 1][..i] == rs[..i];
      if rs[i].expert == e && !rs[i].hidden {
        var weight := w(Age(now, rs[i].createdAt));
        weightSum := weightSum + weight;
        weightedTotal := weightedTotal + rs[i].rating as real * weight;
        count := count + 1;
      }
    }
    assert rs[..|rs|] == rs;
    if count == 0 || weightSum == 0.0 {
      return Aggregate(None, 0);
    }
    return Aggregate(Some(HalfEven(100.0 * (weightedTotal / weightSum))), count);
  }

  // --- services ------------------------------------------------------------------------------

  predicate RatingOk(rating: int) { 1 <= rating <= 5 }

  /** The sub-scores given with a review: quality, communication, timeliness. */
  predicate AllOk(subScores: seq<int>) { forall i :: 0 <= i < |subScores| ==> RatingOk(subScores[i]) }

  predicate BodyOk(length: nat) { MIN_BODY <= length <= MAX_BODY }

  datatype Reply = Reply(desk: Desk, error: Option<Error>)

  /** Stamp the expert's profile; a missing profile is reported after the review was saved. */
  function Recompute(w: Decay, d: Desk, e: UserId, now: Time): Reply {
    if e !in d.profiles then Reply(d, Some(NotFound))
    else Reply(d.(profiles := d.profiles[e := Live(w, d.reviews, e, now)]), None)
  }

  function Submit(w: Decay, d: Desk, actor: UserId, order: nat, student: UserId, expert: UserId, completed: bool,
                  rating: int, subScores: seq<int>, bodyLength: nat, now: Time): Reply
  {
    if student != actor then Reply(d, Some(PermissionDenied))
    else if !completed then Reply(d, Some(ValidationError))
    else if exists r <- d.reviews :: r.order == order then Reply(d, Some(DuplicateReview))
    else if !RatingOk(rating) || !AllOk(subScores) || !BodyOk(bodyLength) then Reply(d, Some(ValidationError))
    else
      Recompute(w, d.(reviews := d.reviews + [Review(order, actor, expert, rating, false, now, false)]), expert, now)
  }

  function Edit(w: Decay, d: Desk, k: nat, actor: UserId, rating: Option<int>, subScores: seq<int>,
                bodyLength: Option<nat>, now: Time): Reply
  {
    if k >= |d.reviews| then Reply(d, Some(NotFound))
    else
      var r := d.reviews[k];
      if r.author != actor then Reply(d, Some(PermissionDenied))
      else if r.replied then Reply(d, Some(ReviewAnswered))
      else if (rating.Some? && !RatingOk(rating.value)) || (bodyLength.Some? && !BodyOk(bodyLength.value))
              || !AllOk(subScores)
      then Reply(d, Some(ValidationError))
      else
        var edited := r.(rating := if rating.Some? then rating.value else r.rating);
        Recompute(w, d.(reviews := d.reviews[k := edited]), r.expert, now)
  }

  function Answer(d: Desk, k: nat, actor: UserId, bodyLength: nat): Reply {
    if k >= |d.reviews| then Reply(d, Some(NotFound))
    else if d.reviews[k].expert != actor then Reply(d, Some(PermissionDenied))
    else if d.reviews[k].replied then Reply(d, Some(DuplicateReview))
    else if !BodyOk(bodyLength) then Reply(d, Some(ValidationError))
    else Reply(d.(reviews := d.reviews[k := d.reviews[k].(replied := true)]), None)
  }

  function SetHidden(w: Decay, d: Desk, k: nat, staff: bool, hidden: bool, now: Time): Reply {
    if !staff then Reply(d, Some(PermissionDenied))
    else if k >= |d.reviews| then Reply(d, Some(NotFound))
    else
      Recompute(w, d.(reviews := d.reviews[k := d.reviews[k].(hidden := hidden)]), d.reviews[k].expert, now)
  }

  datatype Op =
    | OpSubmit(actor: UserId, order: nat, student: UserId, expert: UserId, completed: bool, rating: int,
               subScores: seq<int>, length: nat)
    | OpEdit(k: nat, actor: UserId, newRating: Option<int>, subScores: seq<int>, newLength: Option<nat>)
    | OpAnswer(k: nat, actor: UserId, length: nat)
    | OpSetHidden(k: nat, staff: bool, hidden: bool)

  function Apply(w: Decay, d: Desk, op: Op, now: Time): Reply {
    match op
    case OpSubmit(actor, order, student, expert, completed, rating, subScores, length) =>
      Submit(w, d, actor, order, student, expert, completed, rating, subScores, length, now)
    case OpEdit(k, actor, rating, subScores, length) => Edit(w, d, k, actor, rating, subScores, length, now)
    case OpAnswer(k, actor, length) => Answer(d, k, actor, length)
    case OpSetHidden(k, staff, hidden) => SetHidden(w, d, k, staff, hidden, now)
  }

  /** The review desk as it runs: fields assigned in place, the loop for every recomputation. */
  class ReviewDesk {
    const decay: Decay
    var reviews: seq<Review>
    var profiles: map<UserId, Aggregate>

    constructor (w: Decay, experts: set<UserId>)
      ensures Snapshot() == NewDesk(experts) && decay == w
    {
      decay := w;
      reviews, profiles := [], map e <- experts :: Aggregate(None, 0);
    }

    function Snapshot(): Desk
      reads this
    {
      Desk(reviews, profiles)
    }

    method RecomputeExpert(e: UserId, now: Time) returns (error: Option<Error>)
      modifies `profiles
      ensures Reply(Snapshot(), error) == Recompute(decay, old(Snapshot()), e, now)
    {
      var a := WeightedAggregate(decay, reviews, e, now);
      if e !in profiles {
        return Some(NotFound);
      }
      profiles := profiles[e := a];
      return None;
    }

    method SubmitReview(actor: UserId, order: nat, student: UserId, expert: UserId, completed: bool, rating: int,
                        subScores: seq<int>, bodyLength: nat, now: Time)
      returns (error: Option<Error>)
      modifies `reviews, `profiles
      ensures Reply(Snapshot(), error)
              == Submit(decay, old(Snapshot()), actor, order, student, expert, completed, rating, subScores, bodyLength,
                        now)
    {
      if student != actor {
        return Some(PermissionDenied);
      }
      if !completed {
        return Some(ValidationError);
      }
      if exists r <- reviews :: r.order == order {
        return Some(DuplicateReview);
      }
      if !RatingOk(rating) || !AllOk(subScores) || !BodyOk(bodyLength) {
        return Some(ValidationError);
      }
      reviews := reviews + [Review(order, actor, expert, rating, false, now, false)];
      error := RecomputeExpert(expert, now);
    }

    method EditReview(k: nat, actor: UserId, rating: Option<int>, subScores: seq<int>, bodyLength: Option<nat>,
                      now: Time)
      returns (error: Option<Error>)
      modifies `reviews, `profiles
      ensures Reply(Snapshot(), error) == Edit(decay, old(Snapshot()), k, actor, rating, subScores, bodyLength, now)
    {
      if k >= |reviews| {
        return Some(NotFound);
      }
      if reviews[k].author != actor {
        return Some(PermissionDenied);
      }
      if reviews[k].replied {
        return Some(ReviewAnswered);
      }
      if (rating.Some? && !RatingOk(rating.value)) || (bodyLength.Some? && !BodyOk(bodyLength.value))
         || !AllOk(subScores) {
        return Some(ValidationError);
      }
      reviews := reviews[k := reviews[k].(rating := if rating.Some? then rating.value else reviews[k].rating)];
      error := RecomputeExpert(reviews[k].expert, now);
    }

    method HideReview(k: nat, staff: bool, hidden: bool, now: Time) returns (error: Option<Error>)
      modifies `reviews, `profiles
      ensures Reply(Snapshot(), error) == SetHidden(decay, old(Snapshot()), k, staff, hidden, now)
    {
      if !staff {
        return Some(PermissionDenied);
      }
      if k >= |reviews| {
        return Some(NotFound);
      }
      reviews := reviews[k := reviews[k].(hidden := hidden)];
      error := RecomputeExpert(reviews[k].expert, now);
    }
  }

  function NewDesk(experts: set<UserId>): Desk { Desk([], map e <- experts :: Aggregate(None, 0)) }

  // --- which reviews count, and how much ----------------------------------------------------------

  /** One review alone: the weight of its age and its rating, if it is the expert's and not hidden. */
  lemma SumsOne(w: Decay, r: Review, e: UserId, now: Time)
    ensures var counts, weight := r.expert == e && !r.hidden, w(if now >= r.createdAt then now - r.createdAt else 0);
            && WeightSum(w, [r], e, now) == (if counts then weight else 0.0)
            && WeightedTotal(w, [r], e, now) == (if counts then r.rating as real * weight else 0.0)
            && Published([r], e) == (if counts then 1 else 0)
  {
    assert [r][..0] == [];
  }

  /** Nothing but the reviews themselves enters the sums, and none enters twice. */
  lemma {:induction false} SumsConcat(w: Decay, a: seq<Review>, b: seq<Review>, e: UserId, now: Time)
    ensures WeightSum(w, a + b, e, now) == WeightSum(w, a, e, now) + WeightSum(w, b, e, now)
    ensures WeightedTotal(w, a + b, e, now) == WeightedTotal(w, a, e, now) + WeightedTotal(w, b, e, now)
    ensures Published(a + b, e) == Published(a, e) + Published(b, e)
  {
    if b == [] {
      assert a + b == a;
    } else {
      assert (a + b)[..|a + b| - 1] == a + b[..|b| - 1];
      SumsConcat(w, a, b[..|b| - 1], e, now);
    }
  }

  /** A hidden review, or one of another expert, is as if it were not there. */
  lemma AbsentReview(w: Decay, a: seq<Review>, r: Review, b: seq<Review>, e: UserId, now: Time)
    requires r.hidden || r.expert != e
    ensures Live(w, a + [r] + b, e, now) == Live(w, a + b, e, now)
  {
    SumsConcat(w, a + [r], b, e, now);
    SumsConcat(w, a, [r], e, now);
    SumsConcat(w, a, b, e, now);
    SumsOne(w, r, e, now);
  }

  /** The indices of an expert's published reviews. */
  function PublishedAt(rs: seq<Review>, e: UserId): set<nat> {
    set i: nat | i < |rs| && rs[i].expert == e && !rs[i].hidden
  }

  lemma {:induction false} CountIsNumber(rs: seq<Review>, e: UserId)
    ensures Published(rs, e) == |PublishedAt(rs, e)|
  {
    if rs != [] {
      var n := |rs| - 1;
      CountIsNumber(rs[..n], e);
      assert PublishedAt(rs, e)
             == PublishedAt(rs[..n], e) + if rs[n].expert == e && !rs[n].hidden then {n} else {};
    }
  }

  lemma {:induction false} WeightSumPositive(w: Decay, rs: seq<Review>, e: UserId, now: Time)
    requires IsDecay(w)
    ensures WeightSum(w, rs, e, now) >= 0.0
    ensures WeightSum(w, rs, e, now) > 0.0 <==> Published(rs, e) > 0
  {
    if rs != [] {
      WeightSumPositive(w, rs[..|rs| - 1], e, now);
    }
  }

  /** The count is the number of published reviews; the average is their weighted mean in hundredths,
      rounded to the nearest, halves to even, and there is one exactly if there is such a review. */
  lemma LiveIsMean(w: Decay, rs: seq<Review>, e: UserId, now: Time)
    requires IsDecay(w)
    ensures var a, sum := Live(w, rs, e, now), WeightSum(w, rs, e, now);
            && a.count == |PublishedAt(rs, e)| && (a.average.Some? <==> PublishedAt(rs, e) != {})
            && (a.average.Some? ==>
                  && sum > 0.0
                  && var off := 100.0 * (WeightedTotal(w, rs, e, now) / sum) - a.average.value as real;
                     -0.5 <= off <= 0.5 && (off in {-0.5, 0.5} ==> a.average.value % 2 == 0))
  {
    CountIsNumber(rs, e);
    WeightSumPositive(w, rs, e, now);
    if Published(rs, e) > 0 {
      HalfToEven(100.0 * (WeightedTotal(w, rs, e, now) / WeightSum(w, rs, e, now)));
    }
  }

  lemma HalfToEven(x: real)
    ensures var off := x - HalfEven(x) as real; off == 0.5 || off == -0.5 ==> HalfEven(x) % 2 == 0
  {
  }

  // --- what the services promise --------------------------------------------------------------------

  predicate WellFormed(rating: int, subScores: seq<int>) {
    1 <= rating <= 5 && forall i :: 0 <= i < |subScores| ==> 1 <= subScores[i] <= 5
  }

  /** One review an order, by its student once it is completed, stored as published now. */
  lemma Submits(w: Decay, d: Desk, actor: UserId, order: nat, student: UserId, expert: UserId, completed: bool,
                rating: int, subScores: seq<int>, length: nat, now: Time)
    ensures var s := Submit(w, d, actor, order, student, expert, completed, rating, subScores, length, now);
            && (s.desk.reviews != d.reviews
                <==> && actor == student && completed && WellFormed(rating, subScores) && 20 <= length <= 5000
                     && forall i :: 0 <= i < |d.reviews| ==> d.reviews[i].order != order)
            && (s.desk.reviews != d.reviews ==>
                  s.desk.reviews == d.reviews + [Review(order, student, expert, rating, false, now, false)])
            && (s.error.None? <==> s.desk.reviews != d.reviews && expert in d.profiles)
  {
    if forall i :: 0 <= i < |d.reviews| ==> d.reviews[i].order != order {
      assert !exists r <- d.reviews :: r.order == order;
    }
  }

  /** The author changes the rating of a review nobody has answered, and nothing else of it. */
  lemma Edits(w: Decay, d: Desk, k: nat, actor: UserId, rating: Option<int>, subScores: seq<int>, length: Option<nat>,
              now: Time)
    ensures var s := Edit(w, d, k, actor, rating, subScores, length, now);
            var allowed := && k < |d.reviews| && d.reviews[k].author == actor && !d.reviews[k].replied
                           && WellFormed(if rating.Some? then rating.value else 1, subScores)
                           && (length.Some? ==> 20 <= length.value <= 5000);
            && (s.error.None? <==> allowed && d.reviews[k].expert in d.profiles)
            && (!allowed ==> s.desk == d)
            && (allowed && rating.Some? ==> s.desk.reviews == d.reviews[k := d.reviews[k].(rating := rating.value)])
            && (allowed && rating.None? ==> s.desk.reviews == d.reviews)
  {
  }

  /** The reviewed expert answers once. */
  lemma Answers(d: Desk, k: nat, actor: UserId, length: nat)
    ensures var s := Answer(d, k, actor, length);
            && (s.error.None?
                <==> && k < |d.reviews| && d.reviews[k].expert == actor && !d.reviews[k].replied
                     && 20 <= length <= 5000)
            && (s.error.None? ==> s.desk == d.(reviews := d.reviews[k := d.reviews[k].(replied := true)]))
            && (s.error.Some? ==> s.desk == d)
  {
  }

  /** Each error names something that is so. */
  lemma Refusals(w: Decay, d: Desk, k: nat, actor: UserId, order: nat, student: UserId, expert: UserId, completed: bool,
                 rating: int, subScores: seq<int>, length: nat, staff: bool, hidden: bool, now: Time)
    ensures match Submit(w, d, actor, order, student, expert, completed, rating, subScores, length, now).error
            case None => true
            case Some(PermissionDenied) => actor != student
            case Some(DuplicateReview) => exists r <- d.reviews :: r.order == order
            case Some(NotFound) => expert !in d.profiles
            case Some(e) =>
              e == ValidationError && !(completed && WellFormed(rating, subScores) && 20 <= length <= 5000)
    ensures match Edit(w, d, k, actor, Some(rating), subScores, Some(length), now).error
            case None => true
            case Some(NotFound) => k >= |d.reviews| || d.reviews[k].expert !in d.profiles
            case Some(PermissionDenied) => k < |d.reviews| && d.reviews[k].author != actor
            case Some(ReviewAnswered) => k < |d.reviews| && d.reviews[k].replied
            case Some(e) => e == ValidationError && !(WellFormed(rating, subScores) && 20 <= length <= 5000)
    ensures match Answer(d, k, actor, length).error
            case None => true
            case Some(NotFound) => k >= |d.reviews|
            case Some(PermissionDenied) => k < |d.reviews| && d.reviews[k].expert != actor
            case Some(DuplicateReview) => k < |d.reviews| && d.reviews[k].replied
            case Some(e) => e == ValidationError && !(20 <= length <= 5000)
    ensures match SetHidden(w, d, k, staff, hidden, now).error
            case None => true
            case Some(PermissionDenied) => !staff
            case Some(e) => e == NotFound && (k >= |d.reviews| || d.reviews[k].expert !in d.profiles)
  {
  }

  /** Whoever stamps a profile stamps it with the live aggregate, and no other profile. */
  lemma Stamps(w: Decay, d: Desk, e: UserId, now: Time)
    ensures var s := Recompute(w, d, e, now);
            && s.desk.reviews == d.reviews && s.desk.profiles.Keys == d.profiles.Keys
            && (s.error.None? <==> e in d.profiles)
            && forall x :: x in d.profiles ==>
                             s.desk.profiles[x] == if x == e then Live(w, d.reviews, e, now) else d.profiles[x]
  {
  }

  /** Staff hide a review: its expert's profile is from then on that of the other reviews alone; shown
      again, the reviews are as they were. */
  lemma HideRemoves(w: Decay, d: Desk, k: nat, staff: bool, now: Time)
    requires k < |d.reviews|
    ensures var s := SetHidden(w, d, k, staff, true, now);
            var e := d.reviews[k].expert;
            && (s.error.None? <==> staff && e in d.profiles) && (!staff ==> s.desk == d)
            && (staff ==>
                  && s.desk.reviews == d.reviews[k := d.reviews[k].(hidden := true)]
                  && (e in d.profiles ==> s.desk.profiles[e] == Live(w, d.reviews[..k] + d.reviews[k + 1..], e, now))
                  && (!d.reviews[k].hidden ==> SetHidden(w, s.desk, k, true, false, now).desk.reviews == d.reviews))
  {
    if staff {
      var s := SetHidden(w, d, k, staff, true, now);
      var r := d.reviews[k].(hidden := true);
      assert d.reviews[k := r] == d.reviews[..k] + [r] + d.reviews[k + 1..];
      AbsentReview(w, d.reviews[..k], r, d.reviews[k + 1..], r.expert, now);
      if !d.reviews[k].hidden {
        assert d.reviews[k := r][k := d.reviews[k]] == d.reviews;
      }
    }
  }

  // --- time scales every weight alike -------------------------------------------------------------

  function Pow(b: real, n: nat): real {
    if n == 0 then 1.0 else b * Pow(b, n - 1)
  }

  lemma {:induction false} PowPositive(b: real, n: nat)
    requires 0.0 < b
    ensures Pow(b, n) > 0.0
  {
    if n > 0 {
      PowPositive(b, n - 1);
      assert b * Pow(b, n - 1) > 0.0;
    }
  }

  lemma {:induction false} PowSplit(b: real, m: nat, n: nat)
    ensures Pow(b, m + n) == Pow(b, m) * Pow(b, n)
  {
    if m > 0 {
      PowSplit(b, m - 1, n);
      Associative(b, Pow(b, m - 1), Pow(b, n));
    }
  }

  lemma Associative(x: real, y: real, z: real)
    ensures x * (y * z) == (x * y) * z
  {
  }

  /** 0.5 ** (age / half-life) is b ** (age in seconds) for one fixed b. */
  function HalfLife(b: real): Decay { (n: nat) => Pow(b, n) }

  lemma HalfLifeSplits(b: real, m: nat, n: nat)
    ensures Splits(HalfLife(b), m, n)
  {
    PowSplit(b, m, n);
    HalfLifeIs(b, m);
    HalfLifeIs(b, n);
    HalfLifeIs(b, m + n);
  }

  lemma HalfLifeIs(b: real, n: nat)
    ensures HalfLife(b)(n) == Pow(b, n)
  {
  }

  lemma HalfLifeDecays(b: real)
    requires 0.0 < b
    ensures IsDecay(HalfLife(b))
  {
    var w := HalfLife(b);
    forall n: nat ensures w(n) > 0.0 {
      PowPositive(b, n);
      HalfLifeIs(b, n);
    }
    forall m: nat, n: nat ensures Splits(w, m, n) {
      HalfLifeSplits(b, m, n);
    }
  }

  predicate WrittenBefore(rs: seq<Review>, now: Time) { forall i :: 0 <= i < |rs| ==> rs[i].createdAt <= now }

  lemma WeightLater(w: Decay, r: Review, now: Time, d: nat)
    requires IsDecay(w) && r.createdAt <= now
    ensures Weight(w, r, now + d) == w(d) * Weight(w, r, now)
  {
    assert Splits(w, d, Age(now, r.createdAt));
  }

  lemma WorthLater(w: Decay, r: Review, e: UserId, now: Time, d: nat)
    requires IsDecay(w) && r.createdAt <= now
    ensures Share(w, r, e, now + d) == w(d) * Share(w, r, e, now)
    ensures Worth(w, r, e, now + d) == w(d) * Worth(w, r, e, now)
  {
    WeightLater(w, r, now, d);
    Swapped(r.rating as real, w(d), Weight(w, r, now));
  }

  lemma Swapped(x: real, k: real, v: real)
    ensures x * (k * v) == k * (x * v)
  {
  }

  lemma Distributes(k: real, a: real, b: real, ka: real, kb: real)
    requires ka == k * a && kb == k * b
    ensures ka + kb == k * (a + b)
  {
  }

  /** The two sums with one more review that counts. */
  lemma SumsOf(w: Decay, rs: seq<Review>, e: UserId, now: Time, s: real, t: real, v: real, x: real)
    requires rs != [] && Counts(rs[|rs| - 1], e)
    requires s == WeightSum(w, rs[..|rs| - 1], e, now) && t == WeightedTotal(w, rs[..|rs| - 1], e, now)
    requires v == Weight(w, rs[|rs| - 1], now) && x == rs[|rs| - 1].rating as real
    ensures WeightSum(w, rs, e, now) == s + v && WeightedTotal(w, rs, e, now) == t + x * v
  {
  }

  /** d later the review adds k times as much to both sums. */
  predicate Scales(w: Decay, r: Review, e: UserId, now: Time, d: nat, k: real) {
    && Share(w, r, e, now + d) == k * Share(w, r, e, now)
    && Worth(w, r, e, now + d) == k * Worth(w, r, e, now)
  }

  lemma {:induction false} SumLater(w: Decay, rs: seq<Review>, e: UserId, now: Time, d: nat, k: real)
    requires forall i :: 0 <= i < |rs| ==> Scales(w, rs[i], e, now, d, k)
    ensures WeightSum(w, rs, e, now + d) == k * WeightSum(w, rs, e, now)
  {
    if rs != [] {
      var front, r := rs[..|rs| - 1], rs[|rs| - 1];
      SumLater(w, front, e, now, d, k);
      Distributes(k, WeightSum(w, front, e, now), Share(w, r, e, now),
                  WeightSum(w, front, e, now + d), Share(w, r, e, now + d));
    }
  }

  lemma {:induction false} TotalLater(w: Decay, rs: seq<Review>, e: UserId, now: Time, d: nat, k: real)
    requires forall i :: 0 <= i < |rs| ==> Scales(w, rs[i], e, now, d, k)
    ensures WeightedTotal(w, rs, e, now + d) == k * WeightedTotal(w, rs, e, now)
  {
    if rs != [] {
      var front, r := rs[..|rs| - 1], rs[|rs| - 1];
      TotalLater(w, front, e, now, d, k);
      Distributes(k, WeightedTotal(w, front, e, now), Worth(w, r, e, now),
                  WeightedTotal(w, front, e, now + d), Worth(w, r, e, now + d));
    }
  }

  /** Waiting multiplies every weight and so both sums by the same factor. */
  lemma SumsLater(w: Decay, rs: seq<Review>, e: UserId, now: Time, d: nat)
    requires IsDecay(w) && WrittenBefore(rs, now)
    ensures WeightSum(w, rs, e, now + d) == w(d) * WeightSum(w, rs, e, now)
    ensures WeightedTotal(w, rs, e, now + d) == w(d) * WeightedTotal(w, rs, e, now)
  {
    forall i | 0 <= i < |rs| ensures Scales(w, rs[i], e, now, d, w(d)) {
      WorthLater(w, rs[i], e, now, d);
    }
    SumLater(w, rs, e, now, d, w(d));
    TotalLater(w, rs, e, now, d, w(d));
  }

  lemma RatioScales(k: real, t: real, s: real, kt: real, ks: real)
    requires k > 0.0 && s > 0.0 && ks > 0.0 && kt == k * t && ks == k * s
    ensures kt / ks == t / s
  {
    var q := t / s;
    assert q * s == t;
    assert q * (k * s) == k * (q * s);
  }

  /** Waiting does not change the aggregate. */
  lemma LiveIsTimeless(w: Decay, rs: seq<Review>, e: UserId, now: Time, d: nat)
    requires IsDecay(w) && WrittenBefore(rs, now)
    ensures Live(w, rs, e, now + d) == Live(w, rs, e, now)
  {
    SumsLater(w, rs, e, now, d);
    WeightSumPositive(w, rs, e, now);
    WeightSumPositive(w, rs, e, now + d);
    if Published(rs, e) > 0 {
      var k, t, s := w(d), WeightedTotal(w, rs, e, now), WeightSum(w, rs, e, now);
      RatioScales(k, t, s, WeightedTotal(w, rs, e, now + d), WeightSum(w, rs, e, now + d));
    }
  }

  // --- the cache over whole runs -----------------------------------------------------------------------

  /** What is stored is what a live computation gives. */
  ghost predicate Fresh(w: Decay, d: Desk, now: Time) {
    && WrittenBefore(d.reviews, now)
    && forall e :: e in d.profiles ==> d.profiles[e] == Live(w, d.reviews, e, now)
  }

  /** Reviews of other experts do not matter. */
  lemma {:induction false} LiveDependsOnOwn(w: Decay, rs: seq<Review>, other: seq<Review>, e: UserId, now: Time)
    requires |rs| == |other|
    requires forall i :: 0 <= i < |rs| ==>
                           Counts(rs[i], e) == Counts(other[i], e)
                           && (Counts(rs[i], e) ==>
                                 rs[i].rating == other[i].rating && rs[i].createdAt == other[i].createdAt)
    ensures WeightSum(w, rs, e, now) == WeightSum(w, other, e, now)
    ensures WeightedTotal(w, rs, e, now) == WeightedTotal(w, other, e, now)
    ensures Published(rs, e) == Published(other, e)
  {
    if rs != [] {
      LiveDependsOnOwn(w, rs[..|rs| - 1], other[..|rs| - 1], e, now);
    }
  }

  lemma LiveAppendOther(w: Decay, rs: seq<Review>, r: Review, e: UserId, now: Time)
    requires !Counts(r, e)
    ensures Live(w, rs + [r], e, now) == Live(w, rs, e, now)
  {
    assert (rs + [r])[..|rs|] == rs;
  }

  lemma FreshLater(w: Decay, d: Desk, now: Time, later: Time)
    requires IsDecay(w) && Fresh(w, d, now) && now <= later
    ensures Fresh(w, d, later)
  {
    forall e | e in d.profiles ensures d.profiles[e] == Live(w, d.reviews, e, later) {
      LiveIsTimeless(w, d.reviews, e, now, later - now);
    }
  }

  /** A write to one expert's reviews, followed by the stamp on that expert's profile. */
  lemma StampFresh(w: Decay, d: Desk, rs: seq<Review>, e: UserId, now: Time)
    requires Fresh(w, d, now) && WrittenBefore(rs, now)
    requires forall x :: x in d.profiles && x != e ==> Live(w, rs, x, now) == Live(w, d.reviews, x, now)
    ensures Fresh(w, Recompute(w, d.(reviews := rs), e, now).desk, now)
  {
  }

  lemma SubmitFresh(w: Decay, d: Desk, op: Op, now: Time)
    requires Fresh(w, d, now) && op.OpSubmit?
    ensures Fresh(w, Apply(w, d, op, now).desk, now)
  {
    var after := Apply(w, d, op, now).desk.reviews;
    if after != d.reviews {
      forall x | x in d.profiles && x != op.expert ensures Live(w, after, x, now) == Live(w, d.reviews, x, now) {
        LiveAppendOther(w, d.reviews, after[|d.reviews|], x, now);
      }
      StampFresh(w, d, after, op.expert, now);
    }
  }

  /** Review k is rewritten, keeping its expert and its date. */
  lemma RewriteFresh(w: Decay, d: Desk, k: nat, r: Review, now: Time)
    requires Fresh(w, d, now) && k < |d.reviews|
    requires r.expert == d.reviews[k].expert && r.createdAt == d.reviews[k].createdAt
    ensures Fresh(w, Recompute(w, d.(reviews := d.reviews[k := r]), r.expert, now).desk, now)
    ensures r.rating == d.reviews[k].rating && r.hidden == d.reviews[k].hidden ==>
              Fresh(w, d.(reviews := d.reviews[k := r]), now)
  {
    var after := d.reviews[k := r];
    var same := r.rating == d.reviews[k].rating && r.hidden == d.reviews[k].hidden;
    forall x | x in d.profiles && (x != r.expert || same)
      ensures Live(w, after, x, now) == Live(w, d.reviews, x, now)
    {
      LiveDependsOnOwn(w, after, d.reviews, x, now);
    }
    StampFresh(w, d, after, r.expert, now);
  }

  lemma StepFresh(w: Decay, d: Desk, op: Op, now: Time)
    requires Fresh(w, d, now)
    ensures Fresh(w, Apply(w, d, op, now).desk, now)
  {
    if op.OpSubmit? {
      SubmitFresh(w, d, op, now);
    } else if op.k < |d.reviews| {
      var r := d.reviews[op.k];
      match op
      case OpEdit(k, _, rating, _, _) =>
        RewriteFresh(w, d, k, r.(rating := if rating.Some? then rating.value else r.rating), now);
      case OpAnswer(k, _, _) => RewriteFresh(w, d, k, r.(replied := true), now);
      case OpSetHidden(k, _, hidden) => RewriteFresh(w, d, k, r.(hidden := hidden), now);
    }
  }

  /** A run: each call at a time no earlier than the one before. */
  function Run(w: Decay, experts: set<UserId>, calls: seq<(Op, Time)>): Desk {
    if calls == [] then NewDesk(experts)
    else
      var (op, now) := calls[|calls| - 1];
      Apply(w, Run(w, experts, calls[..|calls| - 1]), op, now).desk
  }

  predicate Chronological(calls: seq<(Op, Time)>) {
    forall i, j :: 0 <= i < j < |calls| ==> calls[i].1 <= calls[j].1
  }

  /** After any run, at every later time, the stored average and count of every profile equal
      the live recomputation. */
  lemma {:induction false} CacheNeverStale(w: Decay, experts: set<UserId>, calls: seq<(Op, Time)>, later: Time)
    requires IsDecay(w) && Chronological(calls)
    requires forall i :: 0 <= i < |calls| ==> calls[i].1 <= later
    ensures Fresh(w, Run(w, experts, calls), later)
  {
    if calls != [] {
      var front := calls[..|calls| - 1];
      var (op, now) := calls[|calls| - 1];
      CacheNeverStale(w, experts, front, now);
      StepFresh(w, Run(w, experts, front), op, now);
      FreshLater(w, Run(w, experts, calls), now, later);
    }
  }

  // --- the mean lies between the ratings -----------------------------------------------------------------

  predicate Between(lo: real, hi: real, s: real, t: real) { lo * s <= t <= hi * s }

  lemma BoundsStep(lo: real, hi: real, s: real, t: real, x: real, v: real)
    requires Between(lo, hi, s, t) && lo <= x <= hi && v > 0.0
    ensures Between(lo, hi, s + v, t + x * v)
  {
    RealProductOrder(v, lo, x);
    RealProductOrder(v, x, hi);
    assert lo * (s + v) == lo * s + lo * v && hi * (s + v) == hi * s + hi * v;
  }

  lemma {:induction false} TotalBetween(w: Decay, rs: seq<Review>, e: UserId, now: Time, lo: int, hi: int)
    requires IsDecay(w)
    requires forall r <- rs :: Counts(r, e) ==> lo <= r.rating <= hi
    ensures Between(lo as real, hi as real, WeightSum(w, rs, e, now), WeightedTotal(w, rs, e, now))
  {
    if rs != [] {
      var front, r := rs[..|rs| - 1], rs[|rs| - 1];
      assert r in rs && forall x <- front :: x in rs;
      TotalBetween(w, front, e, now, lo, hi);
      if Counts(r, e) {
        TotalBetweenCounting(w, rs, e, now, lo as real, hi as real);
      }
    }
  }

  lemma TotalBetweenCounting(w: Decay, rs: seq<Review>, e: UserId, now: Time, lo: real, hi: real)
    requires IsDecay(w) && rs != [] && Counts(rs[|rs| - 1], e) && lo <= rs[|rs| - 1].rating as real <= hi
    requires Between(lo, hi, WeightSum(w, rs[..|rs| - 1], e, now), WeightedTotal(w, rs[..|rs| - 1], e, now))
    ensures Between(lo, hi, WeightSum(w, rs, e, now), WeightedTotal(w, rs, e, now))
  {
    var front, r := rs[..|rs| - 1], rs[|rs| - 1];
    var s, t, v := WeightSum(w, front, e, now), WeightedTotal(w, front, e, now), Weight(w, r, now);
    BoundsStep(lo, hi, s, t, r.rating as real, v);
    SumsOf(w, rs, e, now, s, t, v, r.rating as real);
  }

  lemma RatioBetween(lo: real, hi: real, t: real, s: real)
    requires s > 0.0 && Between(lo, hi, s, t)
    ensures lo <= t / s <= hi
  {
    var q := t / s;
    assert q * s == t;
    RealProductOrder(s, lo, q);
    RealProductOrder(s, q, hi);
  }

  lemma HalfEvenBetween(lo: int, hi: int, x: real)
    requires lo as real <= x <= hi as real
    ensures lo <= HalfEven(x) <= hi
  {
  }

  /** A published average lies between the expert's smallest and largest published rating,
      rounding included, and there is one exactly when there is a published review. */
  lemma AverageBetween(w: Decay, rs: seq<Review>, e: UserId, now: Time, lo: int, hi: int)
    requires IsDecay(w)
    requires forall r <- rs :: Counts(r, e) ==> lo <= r.rating <= hi
    ensures var a := Live(w, rs, e, now);
            && (a.average.Some? <==> Published(rs, e) > 0)
            && a.count == Published(rs, e)
            && (a.average.Some? ==> 100 * lo <= a.average.value <= 100 * hi)
  {
    WeightSumPositive(w, rs, e, now);
    if Published(rs, e) > 0 {
      var t, s := WeightedTotal(w, rs, e, now), WeightSum(w, rs, e, now);
      TotalBetween(w, rs, e, now, lo, hi);
      RatioBetween(lo as real, hi as real, t, s);
      assert (100 * lo) as real == 100.0 * lo as real && (100 * hi) as real == 100.0 * hi as real;
      HalfEvenBetween(100 * lo, 100 * hi, 100.0 * (t / s));
    }
  }
}
