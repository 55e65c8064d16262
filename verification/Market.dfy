/** All requests together: runs of the acquisition services, the limit on pending offers that
    spans requests, and what an acceptance fixes for good. */
module Market {
  import opened Core
  import opened Acquisition
  import opened AcquisitionInvariant

  datatype Command =
    | NewRequest(student: UserId, mode: Mode, complete: bool, currency: string)
    | On(request: nat, op: Op)

  /** `Offer.objects.filter(expert=..., status=pending).count()`. */
  function PendingOffers(m: seq<Case>, e: UserId): nat {
    if m == [] then 0
    else PendingOffers(m[..|m| - 1], e) + Count(m[|m| - 1].rows, IsPendingOfferOf(e))
  }

  /** The pending offers the call counts: those of the offering expert. */
  function PendingFor(m: seq<Case>, op: Op): nat {
    match op
    case OpSubmit(expert, _, _, _, _) => PendingOffers(m, expert)
    case OpResubmit(_, expert, _, _) => PendingOffers(m, expert)
    case _ => 0
  }

  function Exec(m: seq<Case>, c: Command): seq<Case> {
    match c
    case NewRequest(student, mode, complete, currency) => m + [NewCase(student, mode, complete, currency)]
    case On(q, op) => if q < |m| then m[q := Apply(m[q], op, PendingFor(m, op)).kase] else m
  }

  function Run(m: seq<Case>, cs: seq<Command>): seq<Case> {
    if cs == [] then m else Exec(Run(m, cs[..|cs| - 1]), cs[|cs| - 1])
  }

  ghost predicate MarketSound(m: seq<Case>) {
    && (forall q :: 0 <= q < |m| ==> CaseSound(m[q]))
    && (forall e: UserId :: PendingOffers(m, e) <= MAX_PENDING_OFFERS)
  }

  // --- the limit on pending offers --------------------------------------------------------

  lemma {:induction false} PendingUpdate(m: seq<Case>, q: nat, d: Case, e: UserId)
    requires q < |m|
    ensures PendingOffers(m[q := d], e) + Count(m[q].rows, IsPendingOfferOf(e))
            == PendingOffers(m, e) + Count(d.rows, IsPendingOfferOf(e))
  {
    var n := |m| - 1;
    if q == n {
      assert m[q := d][..n] == m[..n];
    } else {
      assert m[q := d][..n] == m[..n][q := d];
      PendingUpdate(m[..n], q, d, e);
    }
  }

  /** An expert's pending offers: request and row. */
  function PendingAt(m: seq<Case>, e: UserId): set<(nat, nat)> {
    set q: nat, k: nat | q < |m| && k < |m[q].rows| && m[q].rows[k].path == Offered && m[q].rows[k].expert == e
                         && m[q].rows[k].status == Pending :: (q, k)
  }

  /** The same among the first n rows of request q. */
  function PendingBelow(m: seq<Case>, q: nat, n: nat, e: UserId): set<(nat, nat)>
    requires q < |m| && n <= |m[q].rows|
  {
    set k: nat | k < n && m[q].rows[k].path == Offered && m[q].rows[k].expert == e && m[q].rows[k].status == Pending
      :: (q, k)
  }

  lemma {:induction false} PendingOfRequest(m: seq<Case>, q: nat, n: nat, e: UserId)
    requires q < |m| && n <= |m[q].rows|
    ensures Count(m[q].rows[..n], IsPendingOfferOf(e)) == |PendingBelow(m, q, n, e)|
  {
    if n > 0 {
      var r := m[q].rows[n - 1];
      PendingOfRequest(m, q, n - 1, e);
      assert m[q].rows[..n][..n - 1] == m[q].rows[..n - 1];
      assert PendingBelow(m, q, n, e)
             == PendingBelow(m, q, n - 1, e)
                + if r.path == Offered && r.expert == e && r.status == Pending then {(q, n - 1)} else {};
    }
  }

  /** What the limit counts is the number of the expert's pending offers over all requests. */
  lemma {:induction false} PendingIsNumber(m: seq<Case>, e: UserId)
    ensures PendingOffers(m, e) == |PendingAt(m, e)|
  {
    if m != [] {
      var n := |m| - 1;
      PendingIsNumber(m[..n], e);
      PendingOfRequest(m, n, |m[n].rows|, e);
      assert m[n].rows[..|m[n].rows|] == m[n].rows;
      assert PendingAt(m, e) == PendingAt(m[..n], e) + PendingBelow(m, n, |m[n].rows|, e);
    }
  }

  /** So an expert with 20 pending offers anywhere can neither submit nor resubmit one. */
  lemma LimitBinds(m: seq<Case>, q: nat, op: Op)
    requires q < |m| && (op.OpSubmit? || op.OpResubmit?)
    ensures |PendingAt(m, op.expert)| >= 20 ==>
              Apply(m[q], op, PendingFor(m, op)).error.Some? && Exec(m, On(q, op)) == m
  {
    PendingIsNumber(m, op.expert);
    assert m[q := m[q]] == m;
  }

  /** The call added one pending offer of e, and only after counting fewer than the limit. */
  predicate Offers(c: Case, op: Op, pending: nat, e: UserId) {
    && (op.OpSubmit? || op.OpResubmit?) && op.expert == e
    && pending < MAX_PENDING_OFFERS
  }

  lemma SubmitPending(c: Case, op: Op, pending: nat, e: UserId)
    requires op.OpSubmit? || op.OpResubmit?
    ensures var d, p := Apply(c, op, pending).kase, IsPendingOfferOf(e);
            Count(d.rows, p) <= Count(c.rows, p) + if Offers(c, op, pending, e) then 1 else 0
  {
    var d, p := Apply(c, op, pending).kase, IsPendingOfferOf(e);
    if Apply(c, op, pending).error.None? {
      if op.OpSubmit? {
        CountAppend(c.rows, d.rows[|c.rows|], p);
      } else {
        CountElsewhereSame(c.rows, d.rows, op.k, p);
      }
    }
  }

  lemma TriagePending(c: Case, op: Op, pending: nat, e: UserId)
    requires op.OpAssign? || op.OpApprovePool?
    ensures Count(Apply(c, op, pending).kase.rows, IsPendingOfferOf(e)) == Count(c.rows, IsPendingOfferOf(e))
  {
    var d, p := Apply(c, op, pending).kase, IsPendingOfferOf(e);
    if Apply(c, op, pending).error.None? {
      assert d.rows == c.rows + d.rows[|c.rows|..];
      CountConcatNone(c.rows, d.rows[|c.rows|..], p);
    }
  }

  lemma AcceptPending(c: Case, op: Op, e: UserId)
    requires op.OpAcceptOffer? || op.OpAcceptInvitation? || op.OpAcceptDirect?
    ensures Count(Apply(c, op, 0).kase.rows, IsPendingOfferOf(e)) <= Count(c.rows, IsPendingOfferOf(e))
  {
    CountMonotone(Apply(c, op, 0).kase.rows, IsPendingOfferOf(e), c.rows, IsPendingOfferOf(e));
  }

  /** One call adds at most one pending offer, and only below the limit. */
  lemma CasePending(c: Case, op: Op, pending: nat, e: UserId)
    ensures var d, p := Apply(c, op, pending).kase, IsPendingOfferOf(e);
            Count(d.rows, p) <= Count(c.rows, p) + if Offers(c, op, pending, e) then 1 else 0
  {
    if op.OpSubmit? || op.OpResubmit? {
      SubmitPending(c, op, pending, e);
    } else if op.OpAssign? || op.OpApprovePool? {
      TriagePending(c, op, pending, e);
    } else if op.OpAcceptOffer? || op.OpAcceptInvitation? || op.OpAcceptDirect? {
      AcceptPending(c, op, e);
    } else {
      OtherPending(c, op, pending, e);
    }
  }

  lemma OtherPending(c: Case, op: Op, pending: nat, e: UserId)
    requires !(op.OpSubmit? || op.OpResubmit? || op.OpAssign? || op.OpApprovePool?)
    requires !(op.OpAcceptOffer? || op.OpAcceptInvitation? || op.OpAcceptDirect?)
    ensures Count(Apply(c, op, pending).kase.rows, IsPendingOfferOf(e)) <= Count(c.rows, IsPendingOfferOf(e))
  {
    var d := Apply(c, op, pending).kase;
    CountMonotone(d.rows, IsPendingOfferOf(e), c.rows, IsPendingOfferOf(e));
  }

  lemma ExecMarketSound(m: seq<Case>, c: Command)
    requires MarketSound(m)
    ensures MarketSound(Exec(m, c))
  {
    match c
    case NewRequest(student, mode, complete, currency) =>
      NewCaseSound(student, mode, complete, currency);
      assert Exec(m, c)[..|m|] == m;
    case On(q, op) =>
      if q < |m| {
        var pending := PendingFor(m, op);
        var d := Apply(m[q], op, pending).kase;
        CaseStep(m[q], op, pending);
        var after := m[q := d];
        forall e: UserId ensures PendingOffers(after, e) <= MAX_PENDING_OFFERS {
          PendingUpdate(m, q, d, e);
          CasePending(m[q], op, pending, e);
        }
      }
  }

  /** In every reachable state: per request at most one order, exactly as many as accepted rows
      over the three paths; offer_count counts the offers that are not withdrawn; no expert has
      more than 20 pending offers or two offers on one request; a matched, running or completed
      open-market request has one accepted and no pending offer. */
  lemma {:induction false} MarketRunSound(m: seq<Case>, cs: seq<Command>)
    requires MarketSound(m)
    ensures MarketSound(Run(m, cs))
  {
    if cs != [] {
      MarketRunSound(m, cs[..|cs| - 1]);
      ExecMarketSound(Run(m, cs[..|cs| - 1]), cs[|cs| - 1]);
    }
  }

  lemma OneOrderPerRequest(cs: seq<Command>, q: nat)
    requires q < |Run([], cs)|
    ensures var c := Run([], cs)[q];
            && |c.orders| == Count(c.rows, IsAccepted) <= 1
            && c.request.offerCount == Count(c.rows, IsLiveOffer)
            && (c.request.status in {Matched, InProgress, Completed} ==> |c.orders| == 1)
            && (c.request.mode == OpenMarket && c.request.status in {Matched, InProgress, Completed} ==>
                  Count(c.rows, IsAccepted) == 1 && forall r <- c.rows :: r.status != Pending)
            && (forall i, j :: 0 <= i < j < |c.rows| && c.rows[i].path == Offered && c.rows[j].path == Offered ==>
                  c.rows[i].expert != c.rows[j].expert)
    ensures forall e: UserId :: PendingOffers(Run([], cs), e) <= MAX_PENDING_OFFERS
  {
    MarketRunSound([], cs);
    var c := Run([], cs)[q];
    assert CaseSound(c);
    forall i, j | 0 <= i < j < |c.rows| && c.rows[i].path == Offered && c.rows[j].path == Offered
      ensures c.rows[i].expert != c.rows[j].expert
    {
      assert Compatible(c.rows[i], c.rows[j]);
    }
  }

  // --- an acceptance is final ---------------------------------------------------------------------

  /** The order and the accepted row, with its price, are as they were. */
  ghost predicate Frozen(c: Case, d: Case) {
    && d.orders == c.orders && |c.rows| <= |d.rows|
    && forall i :: 0 <= i < |c.rows| && c.rows[i].status == Accepted ==> d.rows[i] == c.rows[i]
  }

  lemma AcceptRefused(c: Case, op: Op, pending: nat)
    requires CaseSound(c) && c.orders != []
    requires op.OpAcceptOffer? || op.OpAcceptInvitation? || op.OpAcceptDirect?
    ensures Apply(c, op, pending).kase == c && Apply(c, op, pending).error.Some?
  {
  }

  /** A request with an order never gets another one, and what was accepted stays untouched. */
  lemma FrozenStep(c: Case, op: Op, pending: nat)
    requires CaseSound(c) && c.orders != []
    ensures Frozen(c, Apply(c, op, pending).kase)
  {
    if op.OpAcceptOffer? || op.OpAcceptInvitation? || op.OpAcceptDirect? {
      AcceptRefused(c, op, pending);
    } else if op.OpSubmit? || op.OpUpdate? || op.OpWithdraw? || op.OpResubmit? || op.OpDecline? || op.OpDeclineRow? {
      FrozenByRowCall(c, op, pending);
    }
  }

  lemma FrozenByRowCall(c: Case, op: Op, pending: nat)
    requires CaseSound(c)
    requires op.OpSubmit? || op.OpUpdate? || op.OpWithdraw? || op.OpResubmit? || op.OpDecline? || op.OpDeclineRow?
    ensures Frozen(c, Apply(c, op, pending).kase)
  {
  }

  lemma {:induction false} AcceptedIsForever(m: seq<Case>, cs: seq<Command>, q: nat)
    requires MarketSound(m) && q < |m| && m[q].orders != []
    ensures q < |Run(m, cs)| && Frozen(m[q], Run(m, cs)[q])
  {
    if cs != [] {
      var front, c := cs[..|cs| - 1], cs[|cs| - 1];
      AcceptedIsForever(m, front, q);
      MarketRunSound(m, front);
      var mid := Run(m, front);
      if c.On? && c.request == q {
        FrozenStep(mid[q], c.op, PendingFor(mid, c.op));
      }
    }
  }

  // --- what the documents promise and the code does not ------------------------------------------------

  /** Reopening is meant for expired requests. The table also lets a draft through, so a
      student's draft is opened - unattested and possibly incomplete - exactly when it was
      never reopened before. */
  lemma ReopenSucceeds(c: Case, actor: UserId, now: Time)
    ensures Reopen(c, actor, now).error.None?
            <==> c.request.student == actor && c.request.reopenedAt.None? && c.request.status in {Draft, Expired}
    ensures Reopen(c, actor, now).error.None? ==>
              Reopen(c, actor, now).kase.request.status == Open
              && Reopen(Reopen(c, actor, now).kase, actor, now).error.Some?
  {
  }

  /** publish succeeds exactly for the owner, attested and complete, of a managed draft or of an
      open-market draft or expired request; it never counts as the one reopening. */
  lemma PublishSucceeds(c: Case, actor: UserId, attested: bool, now: Time)
    ensures Publish(c, actor, attested, now).error.None?
            <==> && c.request.student == actor && attested && c.request.complete
                 && c.request.status in if c.request.mode == Managed then {Draft} else {Draft, Expired}
    ensures var p := Publish(c, actor, attested, now);
            p.error.None? ==>
              && p.kase.request.status == (if c.request.mode == Managed then InReview else Open)
              && p.kase.request.reopenedAt == c.request.reopenedAt
  {
  }

  /** "Reopened once" binds reopen only: an expired request is listed again by publishing it
      exactly when it is a complete open-market request of the attesting student, however often
      it was reopened - and when that listing runs out it can be published again. */
  lemma PublishReopens(c: Case, actor: UserId, attested: bool, now: Time)
    requires c.request.status == Expired
    ensures var p := Publish(c, actor, attested, now);
            && (p.kase.request.status == Open
                <==> c.request.student == actor && attested && c.request.complete && c.request.mode == OpenMarket)
            && (p.kase.request.status == Open ==>
                  var e := ExpireRequest(p.kase, now + REQUEST_TTL);
                  e.request.status == Expired
                  && Publish(e, actor, attested, now + REQUEST_TTL).kase.request.status == Open)
  {
  }

  /** A refused publish leaves a trace exactly when all but the status spoke for it on the open
      market: the expiry is renewed, and nothing else. */
  lemma RefusedPublishRenews(c: Case, actor: UserId, attested: bool, now: Time)
    ensures var p := Publish(c, actor, attested, now);
            && (p.error.Some? && p.kase != c
                <==> && c.request.student == actor && attested && c.request.complete
                     && c.request.mode == OpenMarket && c.request.status !in {Draft, Expired}
                     && c.request.expiresAt != Some(now + REQUEST_TTL))
            && (p.error.Some? && p.kase != c ==>
                  p.error == Some(InvalidTransition)
                  && p.kase == c.(request := c.request.(expiresAt := Some(now + REQUEST_TTL))))
  {
  }
}
