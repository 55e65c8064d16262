/** What each service of requests, offers, invitations and assignments promises its caller, field
    by field: when it succeeds, what it leaves changed and unchanged, and what the next service
    makes of it. */
module RequestPromises {
  import opened Core
  import opened Acquisition
  import opened AcquisitionInvariant

  /** All rows but k are as they were. */
  predicate OthersKept(c: Case, d: Case, k: nat) {
    |d.rows| == |c.rows| && forall i :: 0 <= i < |c.rows| && i != k ==> d.rows[i] == c.rows[i]
  }

  /** Row k alone has changed, and of it nothing but the status. */
  predicate OnlyStatus(c: Case, d: Case, k: nat, to: RowStatus) {
    && k < |c.rows| && OthersKept(c, d, k) && d.orders == c.orders
    && d.rows[k] == c.rows[k].(status := to)
  }

  predicate RowOf(c: Case, k: nat, path: Path, expert: UserId, status: RowStatus) {
    k < |c.rows| && c.rows[k].path == path && c.rows[k].expert == expert && c.rows[k].status == status
  }

  /** An open-market request that takes offers: listed, and its 30 days not over. */
  predicate Listed(r: Request, now: Time) {
    r.status == Open && r.mode == OpenMarket && (r.expiresAt.Some? ==> now < r.expiresAt.value)
  }

  // --- requests -----------------------------------------------------------------------------------

  /** A new request is an empty draft of its student. */
  lemma NewRequest(student: UserId, mode: Mode, complete: bool, currency: string)
    ensures var c := NewCase(student, mode, complete, currency);
            && c.request.student == student && c.request.mode == mode && c.request.complete == complete
            && c.request.currency == currency && c.request.status == Draft && c.request.offerCount == 0
            && {c.request.expiresAt, c.request.reopenedAt} == {None} && c.request.quote.None?
            && c.rows == [] && c.orders == []
  {
  }

  lemma DraftUpdates(c: Case, actor: UserId, mode: Mode, complete: bool, currency: string)
    ensures var s := UpdateDraft(c, actor, mode, complete, currency);
            && (s.error.None? <==> actor == c.request.student && c.request.status == Draft)
            && (s.error.None? ==>
                  s.kase == c.(request := c.request.(mode := mode, complete := complete, currency := currency)))
  {
  }

  /** A published open-market request is listed for 30 days; a managed one is reviewed. */
  lemma Published(c: Case, actor: UserId, attested: bool, now: Time)
    requires Publish(c, actor, attested, now).error.None?
    ensures var d := Publish(c, actor, attested, now).kase;
            && d.rows == c.rows && d.orders == c.orders
            && d.request == (if c.request.mode == Managed then c.request.(status := InReview)
                             else c.request.(status := Open, expiresAt := Some(now + 2_592_000)))
            && (c.request.mode == OpenMarket ==>
                  forall t: Time :: (Listed(d.request, t) <==> t < now + 2_592_000)
                                    && (ExpireRequest(d, t).request.status == Expired <==> now + 2_592_000 <= t))
  {
  }

  /** A reopened request is listed for 30 days from then, and that was its one reopening. */
  lemma Reopened(c: Case, actor: UserId, now: Time)
    requires Reopen(c, actor, now).error.None?
    ensures var d := Reopen(c, actor, now).kase;
            && d == c.(request := c.request.(status := Open, reopenedAt := Some(now),
                                             expiresAt := Some(now + 2_592_000)))
            && (c.request.mode == OpenMarket ==> forall t: Time :: Listed(d.request, t) <==> t < now + 2_592_000)
            && forall who: UserId, t: Time :: Reopen(d, who, t).error.Some?
  {
  }

  lemma RequestCancels(c: Case, actor: UserId)
    ensures var s := CancelRequest(c, actor);
            && (s.error.None?
                <==> && actor == c.request.student
                     && c.request.status in {Draft, Open, InReview, Pooled, Matched, InProgress})
            && (s.error.None? ==> s.kase == c.(request := c.request.(status := Cancelled)))
  {
  }

  /** Both jobs expire exactly the open requests past their time; the bidding one lapses the pending
      offers with them and leaves every other row. */
  lemma RequestExpires(c: Case, now: Time)
    ensures var due := c.request.status == Open && c.request.expiresAt.Some? && c.request.expiresAt.value <= now;
            var d, e := ExpireRequest(c, now), ExpireStale(c, now);
            && d == (if due then c.(request := c.request.(status := Expired)) else c)
            && e.request == d.request && e.orders == c.orders && |e.rows| == |c.rows|
            && forall i :: 0 <= i < |c.rows| ==>
                 e.rows[i] == if due && c.rows[i].path == Offered && c.rows[i].status == Pending
                              then c.rows[i].(status := Lapsed) else c.rows[i]
  {
  }

  // --- offers ---------------------------------------------------------------------------------------

  /** One offer an expert, at least the minimum, on a listed request of somebody else, below the limit. */
  lemma OfferSubmits(c: Case, expert: UserId, amount: Option<int>, currency: string, eligible: bool, pending: nat,
                     now: Time)
    ensures var s := SubmitOffer(c, expert, amount, currency, eligible, pending, now);
            && (s.error.None?
                <==> && eligible && Listed(c.request, now) && expert != c.request.student
                     && amount.Some? && amount.value >= 500 && pending < 20
                     && forall i :: 0 <= i < |c.rows| ==> !(c.rows[i].path == Offered && c.rows[i].expert == expert))
            && (s.error.None? ==>
                  s.kase == c.(rows := c.rows + [Row(Offered, expert, amount, currency, Pending, None)],
                               request := c.request.(offerCount := c.request.offerCount + 1)))
  {
    if !HasOffer(c, expert) {
      forall i | 0 <= i < |c.rows| ensures !(c.rows[i].path == Offered && c.rows[i].expert == expert) {
        assert c.rows[i] in c.rows;
      }
    }
  }

  lemma OfferUpdates(c: Case, k: nat, expert: UserId, amount: Option<int>, eligible: bool, now: Time)
    ensures UpdateOffer(c, k, expert, amount, eligible, now).error.None?
            <==> && RowOf(c, k, Offered, expert, Pending) && eligible && Listed(c.request, now)
                 && (amount.Some? ==> amount.value >= 500)
  {
  }

  /** The offer has the new price, if one was given, and nothing else has changed. */
  lemma OfferUpdated(c: Case, k: nat, expert: UserId, amount: Option<int>, eligible: bool, now: Time)
    requires UpdateOffer(c, k, expert, amount, eligible, now).error.None?
    ensures var d := UpdateOffer(c, k, expert, amount, eligible, now).kase;
            && k < |c.rows| && OthersKept(c, d, k) && d.request == c.request && d.orders == c.orders
            && d.rows[k].price == (if amount.Some? then amount else c.rows[k].price)
            && d.rows[k] == c.rows[k].(price := d.rows[k].price)
  {
  }

  lemma OfferWithdraws(c: Case, k: nat, expert: UserId)
    ensures var s := WithdrawOffer(c, k, expert);
            && (s.error.None? <==> RowOf(c, k, Offered, expert, Pending))
            && (s.error.None? ==>
                  && OnlyStatus(c, s.kase, k, Withdrawn)
                  && s.kase.request == c.request.(offerCount := c.request.offerCount - 1))
  {
  }

  lemma OfferResubmits(c: Case, k: nat, expert: UserId, eligible: bool, pending: nat, now: Time)
    ensures var s := ResubmitOffer(c, k, expert, eligible, pending, now);
            && (s.error.None?
                <==> && RowOf(c, k, Offered, expert, Withdrawn) && eligible && Listed(c.request, now)
                     && expert != c.request.student && pending < 20)
            && (s.error.None? ==>
                  && OnlyStatus(c, s.kase, k, Pending)
                  && s.kase.request == c.request.(offerCount := c.request.offerCount + 1))
  {
  }

  /** Withdrawn and submitted again, everything is as before. */
  lemma WithdrawResubmit(c: Case, k: nat, expert: UserId, eligible: bool, pending: nat, now: Time)
    requires WithdrawOffer(c, k, expert).error.None?
    requires eligible && Listed(c.request, now) && expert != c.request.student && pending < 20
    ensures var s := ResubmitOffer(WithdrawOffer(c, k, expert).kase, k, expert, eligible, pending, now);
            s.error.None? && s.kase == c
  {
    var d := WithdrawOffer(c, k, expert).kase;
    OfferWithdraws(c, k, expert);
    OfferResubmits(d, k, expert, eligible, pending, now);
    var e := ResubmitOffer(d, k, expert, eligible, pending, now).kase;
    assert forall i :: 0 <= i < |c.rows| ==> e.rows[i] == c.rows[i];
    assert e.rows == c.rows;
  }

  lemma OfferDeclines(c: Case, k: nat, student: UserId)
    ensures var s := DeclineOffer(c, k, student);
            && (s.error.None?
                <==> && k < |c.rows| && c.rows[k].path == Offered && c.rows[k].status == Pending
                     && student == c.request.student)
            && (s.error.None? ==> OnlyStatus(c, s.kase, k, Declined) && s.kase.request == c.request)
  {
  }

  // --- acceptances ------------------------------------------------------------------------------------

  /** Row k is accepted and its pending rivals declined, the request is matched, and one order is
      placed with its expert at the amount. */
  predicate Taken(c: Case, d: Case, k: nat, amount: int, currency: string) {
    && k < |c.rows| && |d.rows| == |c.rows|
    && d.rows[k] == c.rows[k].(status := Accepted)
    && (forall i :: 0 <= i < |c.rows| && i != k ==>
          d.rows[i] == if c.rows[k].path != Assigned && c.rows[i].path == c.rows[k].path && c.rows[i].status == Pending
                       then c.rows[i].(status := Declined) else c.rows[i])
    && d.request == c.request.(status := Matched)
    && d.orders == c.orders + [Placed(c.rows[k].path, c.rows[k].expert, amount, currency)]
  }

  lemma Converges(c: Case, k: nat, amount: int, currency: string)
    requires k < |c.rows|
    ensures var s := Converge(c, k, amount, currency);
            && (s.error.None?
                <==> c.request.status in {Open, InReview, Pooled} && c.rows[k].expert != c.request.student)
            && (s.error.None? ==> Taken(c, s.kase, k, amount, currency))
  {
  }

  /** The student accepts a pending offer of an eligible expert on an open request; the order is at
      the offer's price. */
  lemma OfferAccepts(c: Case, k: nat, student: UserId, eligible: bool)
    requires CaseSound(c)
    ensures var s := AcceptOffer(c, k, student, eligible);
            && (s.error.None?
                <==> && k < |c.rows| && c.rows[k].path == Offered && c.rows[k].status == Pending
                     && student == c.request.student && c.rows[k].expert != student
                     && c.request.status == Open && eligible)
            && (s.error.None? ==>
                  c.rows[k].price.Some? && Taken(c, s.kase, k, c.rows[k].price.value, c.rows[k].currency))
  {
    if k < |c.rows| {
      assert c.rows[k] in c.rows;
      if c.rows[k].price.Some? { Converges(c, k, c.rows[k].price.value, c.rows[k].currency); }
    }
  }

  /** What an update made of the price is what the order is placed at. */
  lemma UpdateThenAccept(c: Case, k: nat, expert: UserId, amount: int, now: Time)
    requires CaseSound(c) && UpdateOffer(c, k, expert, Some(amount), true, now).error.None?
    requires expert != c.request.student
    ensures var d := UpdateOffer(c, k, expert, Some(amount), true, now).kase;
            var s := AcceptOffer(d, k, c.request.student, true);
            && s.error.None? && |s.kase.orders| == |c.orders| + 1
            && s.kase.orders[|c.orders|].amount == amount && s.kase.orders[|c.orders|].expert == expert
  {
    var d := UpdateOffer(c, k, expert, Some(amount), true, now).kase;
    OfferUpdates(c, k, expert, Some(amount), true, now);
    OfferUpdated(c, k, expert, Some(amount), true, now);
    CaseStep(c, OpUpdate(k, expert, Some(amount), true, now), 0);
    OfferAccepts(d, k, c.request.student, true);
  }

  /** An expert's own pending and unexpired row of a request not matched yet. */
  predicate Answerable(c: Case, k: nat, path: Path, expert: UserId, now: Time) {
    && RowOf(c, k, path, expert, Pending)
    && c.rows[k].expiresAt.Some? && now < c.rows[k].expiresAt.value
    && c.request.status in {InReview, Pooled} && c.orders == []
  }

  /** An invitation is accepted at the request's quote. */
  lemma InvitationAccepts(c: Case, k: nat, expert: UserId, eligible: bool, now: Time)
    ensures var s := AcceptInvitation(c, k, expert, eligible, now);
            && (s.error.None?
                <==> && eligible && Answerable(c, k, Invited, expert, now) && expert != c.request.student
                     && c.request.quote.Some?)
            && (s.error.None? ==> Taken(c, s.kase, k, c.request.quote.value, c.request.currency))
  {
    if k < |c.rows| && c.request.quote.Some? { Converges(c, k, c.request.quote.value, c.request.currency); }
  }

  /** An assignment is accepted at its own price. */
  lemma AssignmentAccepts(c: Case, k: nat, expert: UserId, eligible: bool, now: Time)
    ensures var s := AcceptDirect(c, k, expert, eligible, now);
            && (s.error.None?
                <==> && eligible && Answerable(c, k, Assigned, expert, now) && expert != c.request.student
                     && c.rows[k].price.Some?)
            && (s.error.None? ==> Taken(c, s.kase, k, c.rows[k].price.value, c.rows[k].currency))
  {
    if k < |c.rows| && c.rows[k].price.Some? { Converges(c, k, c.rows[k].price.value, c.rows[k].currency); }
  }

  lemma RowDeclines(c: Case, k: nat, path: Path, expert: UserId, eligible: bool)
    ensures var s := DeclineRow(c, k, path, expert, eligible);
            && (s.error.None? <==> eligible && RowOf(c, k, path, expert, Pending))
            && (s.error.None? ==> OnlyStatus(c, s.kase, k, Declined) && s.kase.request == c.request)
  {
  }

  // --- triage --------------------------------------------------------------------------------------------

  predicate ByStaff(actor: Option<Actor>) { actor.Some? && actor.value.staff }

  /** Staff pool a managed request in review, at a new quote or the old one, with at least one expert
      and nobody invited twice. */
  lemma PoolApproves(c: Case, actor: Option<Actor>, experts: seq<UserId>, quote: Option<int>, now: Time)
    ensures ApprovePool(c, actor, experts, quote, now).error.None?
            <==> && ByStaff(actor) && c.request.mode == Managed && c.request.status == InReview
                 && (if quote.Some? then quote.value >= 500 else c.request.quote.Some?)
                 && experts != [] && (forall i, j :: 0 <= i < j < |experts| ==> experts[i] != experts[j])
                 && (forall r <- c.rows :: r.path == Invited ==> r.expert !in experts)
  {
  }

  /** The new quote takes precedence; every expert gets one invitation for 48 hours. */
  lemma PoolApproved(c: Case, actor: Option<Actor>, experts: seq<UserId>, quote: Option<int>, now: Time)
    requires ApprovePool(c, actor, experts, quote, now).error.None?
    ensures var d, n := ApprovePool(c, actor, experts, quote, now).kase, |c.rows|;
            && d.request == c.request.(status := Pooled, quote := if quote.Some? then quote else c.request.quote)
            && d.orders == c.orders && |d.rows| == n + |experts| && d.rows[..n] == c.rows
            && forall i :: 0 <= i < |experts| ==>
                 d.rows[n + i] == Row(Invited, experts[i], None, c.request.currency, Pending, Some(now + 172_800))
  {
  }

  /** Pooled at a quote, an invited expert who accepts in time gets the order at that quote. */
  lemma PoolThenAccept(c: Case, actor: Option<Actor>, experts: seq<UserId>, quote: Option<int>, now: Time, i: nat,
                       at: Time)
    requires CaseSound(c) && ApprovePool(c, actor, experts, quote, now).error.None?
    requires i < |experts| && experts[i] != c.request.student && at < now + 172_800
    ensures var d := ApprovePool(c, actor, experts, quote, now).kase;
            var agreed := if quote.Some? then quote else c.request.quote;
            var s := AcceptInvitation(d, |c.rows| + i, experts[i], true, at);
            && agreed.Some? && s.error.None? && |s.kase.orders| == 1
            && s.kase.orders[0] == Placed(Invited, experts[i], agreed.value, c.request.currency)
  {
    PoolApproves(c, actor, experts, quote, now);
    PoolApproved(c, actor, experts, quote, now);
    UnmatchedYet(c);
    InvitationAccepts(ApprovePool(c, actor, experts, quote, now).kase, |c.rows| + i, experts[i], true, at);
  }

  /** A request in review or pooled has no order. */
  lemma UnmatchedYet(c: Case)
    requires CaseSound(c) && c.request.status in {InReview, Pooled}
    ensures c.orders == []
  {
  }

  lemma Assigns(c: Case, actor: Option<Actor>, expert: UserId, amount: int, eligible: bool, now: Time)
    ensures AssignDirect(c, actor, expert, amount, eligible, now).error.None?
            <==> && ByStaff(actor) && c.request.mode == Managed && c.request.status in {InReview, Pooled}
                 && eligible && amount >= 500
                 && forall i :: 0 <= i < |c.rows| ==> !RowOf(c, i, Assigned, expert, Pending)
  {
    if !HasPendingAssignment(c, expert) {
      forall i | 0 <= i < |c.rows| ensures !RowOf(c, i, Assigned, expert, Pending) {
        assert c.rows[i] in c.rows;
      }
    } else {
      var r :| r in c.rows && r.path == Assigned && r.expert == expert && r.status == Pending;
      var i :| 0 <= i < |c.rows| && c.rows[i] == r;
      assert RowOf(c, i, Assigned, expert, Pending);
    }
  }

  /** One assignment more, for 24 hours at the price, which becomes the quote. */
  lemma AssignedTo(c: Case, actor: Option<Actor>, expert: UserId, amount: int, eligible: bool, now: Time)
    requires AssignDirect(c, actor, expert, amount, eligible, now).error.None?
    ensures var d := AssignDirect(c, actor, expert, amount, eligible, now).kase;
            && d.request == c.request.(quote := Some(amount)) && d.orders == c.orders
            && d.rows == c.rows + [Row(Assigned, expert, Some(amount), c.request.currency, Pending, Some(now + 86_400))]
  {
  }

  lemma AssignThenAccept(c: Case, actor: Option<Actor>, expert: UserId, amount: int, now: Time, at: Time)
    requires CaseSound(c) && AssignDirect(c, actor, expert, amount, true, now).error.None?
    requires expert != c.request.student && at < now + 86_400
    ensures var d := AssignDirect(c, actor, expert, amount, true, now).kase;
            var s := AcceptDirect(d, |c.rows|, expert, true, at);
            && s.error.None? && |s.kase.orders| == 1
            && s.kase.orders[0] == Placed(Assigned, expert, amount, c.request.currency)
  {
    Assigns(c, actor, expert, amount, true, now);
    AssignedTo(c, actor, expert, amount, true, now);
    UnmatchedYet(c);
    AssignmentAccepts(AssignDirect(c, actor, expert, amount, true, now).kase, |c.rows|, expert, true, at);
  }

  lemma Supersedes(c: Case, k: nat, actor: Option<Actor>)
    ensures var s := SupersedeDirect(c, k, actor);
            && (s.error.None?
                <==> ByStaff(actor) && k < |c.rows| && c.rows[k].path == Assigned && c.rows[k].status == Pending)
            && (s.error.None? ==> OnlyStatus(c, s.kase, k, Superseded) && s.kase.request == c.request)
  {
  }

  /** Rejected with its pending invitations lapsed and every other row left. */
  lemma Rejects(c: Case, actor: Option<Actor>, given: bool)
    ensures var s := RejectManaged(c, actor, given);
            && (s.error.None?
                <==> && ByStaff(actor) && given && c.request.mode == Managed
                     && c.request.status in {InReview, Pooled})
            && (s.error.None? ==>
                  && s.kase.request == c.request.(status := Rejected) && s.kase.orders == c.orders
                  && |s.kase.rows| == |c.rows|
                  && forall i :: 0 <= i < |c.rows| ==>
                       s.kase.rows[i] == if c.rows[i].path == Invited && c.rows[i].status == Pending
                                         then c.rows[i].(status := Lapsed) else c.rows[i])
  {
  }

  lemma Quotes(c: Case, actor: Option<Actor>, quote: Option<int>)
    ensures var s := SetQuote(c, actor, quote);
            && (s.error.None?
                <==> ByStaff(actor) && c.request.mode == Managed && (quote.Some? ==> quote.value >= 500))
            && (s.error.None? && quote.Some? ==> s.kase == c.(request := c.request.(quote := quote)))
            && (s.error.None? && quote.None? ==> s.kase == c)
  {
  }

  /** Exactly the pending invitations and assignments past their time lapse. */
  lemma RowsExpire(c: Case, now: Time)
    ensures var d := ExpireRows(c, now);
            && d.request == c.request && d.orders == c.orders && |d.rows| == |c.rows|
            && forall i :: 0 <= i < |c.rows| ==>
                 d.rows[i] == if c.rows[i].path in {Invited, Assigned} && c.rows[i].status == Pending
                                 && c.rows[i].expiresAt.Some? && c.rows[i].expiresAt.value <= now
                              then c.rows[i].(status := Lapsed) else c.rows[i]
  {
  }

  // --- what an order's life makes of its request -----------------------------------------------------------

  lemma RequestFollows(c: Case)
    ensures OrderPaid(c) == if c.request.status == Matched then c.(request := c.request.(status := InProgress)) else c
    ensures OrderCompleted(c)
            == if c.request.status == InProgress then c.(request := c.request.(status := Completed)) else c
    ensures OrderCancelled(c)
            == if c.request.status in {Matched, InProgress} then c.(request := c.request.(status := Cancelled)) else c
  {
  }

  /** Every call reaches its service, with its arguments. */
  lemma CallsReach(c: Case, op: Op, pending: nat)
    ensures Apply(c, op, pending)
            == match op
               case OpUpdateDraft(actor, mode, complete, currency) => UpdateDraft(c, actor, mode, complete, currency)
               case OpPublish(actor, attested, now) => Publish(c, actor, attested, now)
               case OpCancelRequest(actor) => CancelRequest(c, actor)
               case OpReopen(actor, now) => Reopen(c, actor, now)
               case OpExpireRequest(now) => Reply(ExpireRequest(c, now), None)
               case OpExpireStale(now) => Reply(ExpireStale(c, now), None)
               case OpSubmit(expert, amount, currency, eligible, now) =>
                 SubmitOffer(c, expert, amount, currency, eligible, pending, now)
               case OpUpdate(k, expert, amount, eligible, now) => UpdateOffer(c, k, expert, amount, eligible, now)
               case OpWithdraw(k, expert) => WithdrawOffer(c, k, expert)
               case OpResubmit(k, expert, eligible, now) => ResubmitOffer(c, k, expert, eligible, pending, now)
               case OpDecline(k, student) => DeclineOffer(c, k, student)
               case OpAcceptOffer(k, student, eligible) => AcceptOffer(c, k, student, eligible)
               case OpAcceptInvitation(k, expert, eligible, now) => AcceptInvitation(c, k, expert, eligible, now)
               case OpAcceptDirect(k, expert, eligible, now) => AcceptDirect(c, k, expert, eligible, now)
               case OpDeclineRow(k, path, expert, eligible) => DeclineRow(c, k, path, expert, eligible)
               case OpApprovePool(staff, experts, quote, now) => ApprovePool(c, staff, experts, quote, now)
               case OpAssign(staff, expert, price, eligible, now) =>
                 AssignDirect(c, staff, expert, price, eligible, now)
               case OpSupersede(k, staff) => SupersedeDirect(c, k, staff)
               case OpReject(staff, given) => RejectManaged(c, staff, given)
               case OpSetQuote(staff, quote) => SetQuote(c, staff, quote)
               case OpExpireRows(now) => Reply(ExpireRows(c, now), None)
               case OpOrderPaid => Reply(OrderPaid(c), None)
               case OpOrderCompleted => Reply(OrderCompleted(c), None)
               case OpOrderCancelled => Reply(OrderCancelled(c), None)
  {
  }

  // --- what a refusal says ----------------------------------------------------------------------------------

  /** Each error names something that is so. */
  lemma RequestRefusals(c: Case, actor: UserId, attested: bool, mode: Mode, complete: bool, currency: string,
                        now: Time)
    ensures match UpdateDraft(c, actor, mode, complete, currency).error
            case None => true
            case Some(PermissionDenied) => actor != c.request.student
            case Some(e) => e == RequestLocked && c.request.status != Draft
    ensures match Publish(c, actor, attested, now).error
            case None => true
            case Some(PermissionDenied) => actor != c.request.student
            case Some(AttestationRequired) => !attested
            case Some(ValidationError) => !c.request.complete
            case Some(e) => e == InvalidTransition && c.request.status != Draft
    ensures match CancelRequest(c, actor).error
            case None => true
            case Some(PermissionDenied) => actor != c.request.student
            case Some(e) => e == InvalidTransition && c.request.status in {Completed, Rejected, Cancelled, Expired}
    ensures match Reopen(c, actor, now).error
            case None => true
            case Some(PermissionDenied) => actor != c.request.student
            case Some(e) =>
              e == InvalidTransition && (c.request.reopenedAt.Some? || c.request.status !in {Draft, Expired})
  {
  }

  lemma OfferRefusals(c: Case, k: nat, user: UserId, amount: Option<int>, currency: string, eligible: bool,
                      pending: nat, now: Time)
    ensures match SubmitOffer(c, user, amount, currency, eligible, pending, now).error
            case None => true
            case Some(PermissionDenied) => !eligible
            case Some(RequestClosed) => !Listed(c.request, now)
            case Some(SelfDealing) => user == c.request.student
            case Some(OfferTooLow) => amount.None? || amount.value < 500
            case Some(OfferExists) => exists r <- c.rows :: r.path == Offered && r.expert == user
            case Some(e) => e == OfferLimit && pending >= 20
    ensures match UpdateOffer(c, k, user, amount, eligible, now).error
            case None => true
            case Some(NotFound) => k >= |c.rows| || c.rows[k].path != Offered
            case Some(PermissionDenied) => !eligible || (k < |c.rows| && c.rows[k].expert != user)
            case Some(OfferLocked) => k < |c.rows| && c.rows[k].status != Pending
            case Some(RequestClosed) => !Listed(c.request, now)
            case Some(e) => e == OfferTooLow && amount.Some? && amount.value < 500
    ensures match WithdrawOffer(c, k, user).error
            case None => true
            case Some(NotFound) => k >= |c.rows| || c.rows[k].path != Offered
            case Some(PermissionDenied) => k < |c.rows| && c.rows[k].expert != user
            case Some(e) => e == OfferLocked && k < |c.rows| && c.rows[k].status != Pending
    ensures match ResubmitOffer(c, k, user, eligible, pending, now).error
            case None => true
            case Some(NotFound) => k >= |c.rows| || c.rows[k].path != Offered
            case Some(PermissionDenied) => !eligible || (k < |c.rows| && c.rows[k].expert != user)
            case Some(InvalidTransition) => k < |c.rows| && c.rows[k].status != Withdrawn
            case Some(RequestClosed) => !Listed(c.request, now)
            case Some(SelfDealing) => user == c.request.student
            case Some(e) => e == OfferLimit && pending >= 20
    ensures match DeclineOffer(c, k, user).error
            case None => true
            case Some(NotFound) => k >= |c.rows| || c.rows[k].path != Offered
            case Some(PermissionDenied) => user != c.request.student
            case Some(e) => e == OfferLocked && k < |c.rows| && c.rows[k].status != Pending
  {
  }

  lemma AcceptRefusals(c: Case, k: nat, user: UserId, eligible: bool)
    requires CaseSound(c)
    ensures match AcceptOffer(c, k, user, eligible).error
            case None => true
            case Some(NotFound) => k >= |c.rows| || c.rows[k].path != Offered
            case Some(PermissionDenied) => user != c.request.student
            case Some(SelfDealing) => k < |c.rows| && c.rows[k].expert == user
            case Some(OfferLocked) => k < |c.rows| && c.rows[k].status != Pending
            case Some(RequestClosed) => c.request.status != Open
            case Some(e) => e == ExpertIneligible && !eligible
  {
    if k < |c.rows| {
      assert c.rows[k] in c.rows;
      OfferAccepts(c, k, user, eligible);
    }
  }

  /** The error of an answer to an invitation or an assignment. */
  predicate AnswerRefused(c: Case, k: nat, path: Path, user: UserId, eligible: bool, now: Time, e: Error) {
    match e
    case NotFound => k >= |c.rows| || c.rows[k].path != path
    case PermissionDenied => !eligible || (k < |c.rows| && c.rows[k].expert != user)
    case AssignmentLocked =>
      k < |c.rows| && !(c.rows[k].status == Pending && c.rows[k].expiresAt.Some? && now < c.rows[k].expiresAt.value)
    case RequestClosed => !(c.request.status in {InReview, Pooled} && c.orders == [])
    case IntegrityError => path == Invited && c.request.quote.None?
    case _ => e == SelfDealing && user == c.request.student
  }

  lemma InvitationRefusals(c: Case, k: nat, user: UserId, eligible: bool, now: Time)
    ensures var s := AcceptInvitation(c, k, user, eligible, now);
            s.error.Some? ==> AnswerRefused(c, k, Invited, user, eligible, now, s.error.value)
  {
    InvitationAccepts(c, k, user, eligible, now);
  }

  lemma AssignmentRefusals(c: Case, k: nat, user: UserId, eligible: bool, now: Time)
    requires CaseSound(c)
    ensures var s := AcceptDirect(c, k, user, eligible, now);
            s.error.Some? ==> AnswerRefused(c, k, Assigned, user, eligible, now, s.error.value)
  {
    if k < |c.rows| { assert c.rows[k] in c.rows; }
    AssignmentAccepts(c, k, user, eligible, now);
  }

  lemma PoolRefusals(c: Case, staff: Option<Actor>, experts: seq<UserId>, quote: Option<int>, now: Time)
    ensures match ApprovePool(c, staff, experts, quote, now).error
            case None => true
            case Some(PermissionDenied) => !ByStaff(staff)
            case Some(NotManaged) => c.request.mode != Managed
            case Some(InvalidTransition) => c.request.status != InReview
            case Some(OfferTooLow) => quote.Some? && quote.value < 500
            case Some(QuoteRequired) => quote.None? && c.request.quote.None?
            case Some(EmptyPool) => experts == []
            case Some(e) => e == IntegrityError && !FreshInvitees(c, experts)
  {
  }

  lemma AssignRefusals(c: Case, staff: Option<Actor>, expert: UserId, amount: int, eligible: bool, now: Time)
    ensures match AssignDirect(c, staff, expert, amount, eligible, now).error
            case None => true
            case Some(PermissionDenied) => !ByStaff(staff) || !eligible
            case Some(NotManaged) => c.request.mode != Managed
            case Some(InvalidTransition) => c.request.status !in {InReview, Pooled}
            case Some(OfferTooLow) => amount < 500
            case Some(e) => e == AssignmentExists && HasPendingAssignment(c, expert)
  {
  }

  lemma RowRefusals(c: Case, k: nat, staff: Option<Actor>, expert: UserId, path: Path, eligible: bool)
    ensures match SupersedeDirect(c, k, staff).error
            case None => true
            case Some(PermissionDenied) => !ByStaff(staff)
            case Some(NotFound) => k >= |c.rows| || c.rows[k].path != Assigned
            case Some(e) => e == AssignmentLocked && k < |c.rows| && c.rows[k].status != Pending
    ensures match DeclineRow(c, k, path, expert, eligible).error
            case None => true
            case Some(PermissionDenied) => !eligible || (k < |c.rows| && c.rows[k].expert != expert)
            case Some(NotFound) => k >= |c.rows| || c.rows[k].path != path
            case Some(e) => e == AssignmentLocked && k < |c.rows| && c.rows[k].status != Pending
  {
  }

  lemma TriageRefusals(c: Case, staff: Option<Actor>, quote: Option<int>, given: bool)
    ensures match RejectManaged(c, staff, given).error
            case None => true
            case Some(PermissionDenied) => !ByStaff(staff)
            case Some(NotManaged) => c.request.mode != Managed
            case Some(ValidationError) => !given
            case Some(e) => e == InvalidTransition && c.request.status !in {InReview, Pooled}
    ensures match SetQuote(c, staff, quote).error
            case None => true
            case Some(PermissionDenied) => !ByStaff(staff)
            case Some(NotManaged) => c.request.mode != Managed
            case Some(e) => e == OfferTooLow && quote.Some? && quote.value < 500
  {
  }
}
