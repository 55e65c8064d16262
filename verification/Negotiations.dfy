/** The acquisition services as they run: one transaction holds a request and its rows and
    assigns them step by step. Every method is proved to leave what Acquisition specifies. */
module Negotiations {
  import opened Core
  import opened Money
  import opened Acquisition
  import opened AcquisitionInvariant
  import Market

  class Negotiation {
    var request: Request
    var rows: seq<Row>
    var orders: seq<Placed>

    constructor (c: Case)
      ensures Snapshot() == c
    {
      request, rows, orders := c.request, c.rows, c.orders;
    }

    function Snapshot(): Case
      reads this
    {
      Case(request, rows, orders)
    }

    function Outcome(error: Option<Error>): Reply
      reads this
    {
      Reply(Snapshot(), error)
    }

    method Rollback(c: Case)
      modifies this
      ensures Snapshot() == c
    {
      request, rows, orders := c.request, c.rows, c.orders;
    }

    /** service_requests.transition. */
    method Transition(to: RequestStatus) returns (error: Option<Error>)
      modifies `request
      ensures Outcome(error) == Move(old(Snapshot()), to)
    {
      if !Allowed(request.status, to) {
        return Some(InvalidTransition);
      }
      request := request.(status := to);
      return None;
    }

    // --- the student's request ---------------------------------------------------------------

    method PublishRequest(actor: UserId, attested: bool, now: Time) returns (error: Option<Error>)
      modifies `request
      ensures Outcome(error) == Publish(old(Snapshot()), actor, attested, now)
    {
      if request.student != actor {
        return Some(PermissionDenied);
      }
      if !attested {
        return Some(AttestationRequired);
      }
      if !request.complete {
        return Some(ValidationError);
      }
      if request.mode == Managed {
        error := Transition(InReview);
        return;
      }
      request := request.(expiresAt := Some(now + REQUEST_TTL));
      error := Transition(Open);
    }

    method ReopenRequest(actor: UserId, now: Time) returns (error: Option<Error>)
      modifies `request
      ensures Outcome(error) == Reopen(old(Snapshot()), actor, now)
    {
      if request.student != actor {
        return Some(PermissionDenied);
      }
      if request.reopenedAt.Some? {
        return Some(InvalidTransition);
      }
      error := Transition(Open);
      if error.None? {
        request := request.(reopenedAt := Some(now));
        request := request.(expiresAt := Some(now + REQUEST_TTL));
      }
    }

    method Expire(now: Time)
      modifies `request, `rows
      ensures Snapshot() == ExpireStale(old(Snapshot()), now)
    {
      if RequestDue(request, now) {
        request := request.(status := Expired);
        rows := Restatus(rows, (r: Row) => r.path == Offered && r.status == Pending, Lapsed);
      }
    }

    // --- offers ----------------------------------------------------------------------------------

    method GuardOffer(expert: UserId, eligible: bool, now: Time) returns (error: Option<Error>)
      ensures error == OfferGuard(Snapshot(), expert, eligible, now)
    {
      if !eligible {
        return Some(PermissionDenied);
      }
      if !OpenForOffers(request, now) {
        return Some(RequestClosed);
      }
      if request.student == expert {
        return Some(SelfDealing);
      }
      return None;
    }

    method GuardOwnPending(k: nat, path: Path, expert: UserId, locked: Error) returns (error: Option<Error>)
      ensures error == OwnPending(Snapshot(), k, path, expert, locked)
      ensures error.None? ==> k < |rows|
    {
      if k >= |rows| || rows[k].path != path {
        return Some(NotFound);
      }
      if rows[k].expert != expert {
        return Some(PermissionDenied);
      }
      if rows[k].status != Pending {
        return Some(locked);
      }
      return None;
    }

    method Submit(expert: UserId, amount: Option<int>, currency: string, eligible: bool, pending: nat, now: Time)
      returns (error: Option<Error>)
      modifies this
      ensures Outcome(error) == SubmitOffer(old(Snapshot()), expert, amount, currency, eligible, pending, now)
    {
      error := GuardOffer(expert, eligible, now);
      if error.Some? {
        return;
      }
      if amount.None? || amount.value < MIN_OFFER_MINOR {
        return Some(OfferTooLow);
      }
      if exists r <- rows :: r.path == Offered && r.expert == expert {
        return Some(OfferExists);
      }
      if pending >= MAX_PENDING_OFFERS {
        return Some(OfferLimit);
      }
      rows := rows + [Row(Offered, expert, amount, currency, Pending, None)];
      request := request.(offerCount := request.offerCount + 1);
      return None;
    }

    method Update(k: nat, expert: UserId, amount: Option<int>, eligible: bool, now: Time)
      returns (error: Option<Error>)
      modifies `rows
      ensures Outcome(error) == UpdateOffer(old(Snapshot()), k, expert, amount, eligible, now)
    {
      error := GuardOwnPending(k, Offered, expert, OfferLocked);
      if error.Some? {
        return;
      }
      if !eligible {
        return Some(PermissionDenied);
      }
      if !OpenForOffers(request, now) {
        return Some(RequestClosed);
      }
      if amount.Some? && amount.value < MIN_OFFER_MINOR {
        return Some(OfferTooLow);
      }
      if amount.Some? {
        rows := rows[k := rows[k].(price := amount)];
      }
      return None;
    }

    method Withdraw(k: nat, expert: UserId) returns (error: Option<Error>)
      modifies this
      ensures Outcome(error) == WithdrawOffer(old(Snapshot()), k, expert)
    {
      error := GuardOwnPending(k, Offered, expert, OfferLocked);
      if error.None? {
        rows := rows[k := rows[k].(status := Withdrawn)];
        request := request.(offerCount := request.offerCount - 1);
      }
    }

    method Resubmit(k: nat, expert: UserId, eligible: bool, pending: nat, now: Time) returns (error: Option<Error>)
      modifies this
      ensures Outcome(error) == ResubmitOffer(old(Snapshot()), k, expert, eligible, pending, now)
    {
      if k >= |rows| || rows[k].path != Offered {
        return Some(NotFound);
      }
      if rows[k].expert != expert {
        return Some(PermissionDenied);
      }
      if rows[k].status != Withdrawn {
        return Some(InvalidTransition);
      }
      error := GuardOffer(expert, eligible, now);
      if error.Some? {
        return;
      }
      if pending >= MAX_PENDING_OFFERS {
        return Some(OfferLimit);
      }
      rows := rows[k := rows[k].(status := Pending)];
      request := request.(offerCount := request.offerCount + 1);
    }

    method Decline(k: nat, student: UserId) returns (error: Option<Error>)
      modifies `rows
      ensures Outcome(error) == DeclineOffer(old(Snapshot()), k, student)
    {
      if k >= |rows| || rows[k].path != Offered {
        return Some(NotFound);
      }
      if request.student != student {
        return Some(PermissionDenied);
      }
      if rows[k].status != Pending {
        return Some(OfferLocked);
      }
      rows := rows[k := rows[k].(status := Declined)];
      return None;
    }

    // --- convergence ------------------------------------------------------------------------------

    /** orders.create_order_for_request. */
    method PlaceOrder(path: Path, expert: UserId, amount: int, currency: string) returns (error: Option<Error>)
      modifies `orders
      ensures error == if request.student == expert then Some(SelfDealing) else None
      ensures orders == if error.None? then old(orders) + [Placed(path, expert, amount, currency)] else old(orders)
    {
      if request.student == expert {
        return Some(SelfDealing);
      }
      orders := orders + [Placed(path, expert, amount, currency)];
      return None;
    }

    /** What the three acceptances share once their guards have passed. */
    method Take(k: nat, amount: int, currency: string) returns (error: Option<Error>)
      requires k < |rows|
      modifies this
      ensures Outcome(error) == Converge(old(Snapshot()), k, amount, currency)
    {
      var saved, path := Snapshot(), rows[k].path;
      rows := rows[k := rows[k].(status := Accepted)];
      if path != Assigned {
        rows := Restatus(rows, (s: Row) => s.path == path && s.status == Pending, Declined);
      }
      error := Transition(Matched);
      if error.None? {
        error := PlaceOrder(path, saved.rows[k].expert, amount, currency);
      }
      if error.Some? {
        Rollback(saved);
      }
    }

    method TakeOffer(k: nat, student: UserId, eligible: bool) returns (error: Option<Error>)
      modifies this
      ensures Outcome(error) == AcceptOffer(old(Snapshot()), k, student, eligible)
    {
      if k >= |rows| || rows[k].path != Offered {
        return Some(NotFound);
      }
      if request.student != student {
        return Some(PermissionDenied);
      }
      if rows[k].expert == student {
        return Some(SelfDealing);
      }
      if rows[k].status != Pending {
        return Some(OfferLocked);
      }
      if request.status != Open {
        return Some(RequestClosed);
      }
      if !eligible {
        return Some(ExpertIneligible);
      }
      if rows[k].price.None? {
        return Some(IntegrityError);
      }
      error := Take(k, rows[k].price.value, rows[k].currency);
    }

    method GuardResponse(k: nat, path: Path, expert: UserId, eligible: bool, now: Time)
      returns (error: Option<Error>)
      ensures error == ResponseGuard(Snapshot(), k, path, expert, eligible, now)
      ensures error.None? ==> k < |rows|
    {
      if k >= |rows| || rows[k].path != path {
        return Some(NotFound);
      }
      if !eligible || rows[k].expert != expert {
        return Some(PermissionDenied);
      }
      if rows[k].status != Pending || rows[k].expiresAt.None? || rows[k].expiresAt.value <= now {
        return Some(AssignmentLocked);
      }
      if request.status !in {InReview, Pooled} {
        return Some(RequestClosed);
      }
      if orders != [] {
        return Some(RequestClosed);
      }
      return None;
    }

    method TakeInvitation(k: nat, expert: UserId, eligible: bool, now: Time) returns (error: Option<Error>)
      modifies this
      ensures Outcome(error) == AcceptInvitation(old(Snapshot()), k, expert, eligible, now)
    {
      error := GuardResponse(k, Invited, expert, eligible, now);
      if error.Some? {
        return;
      }
      if request.quote.None? {
        return Some(IntegrityError);
      }
      error := Take(k, request.quote.value, request.currency);
    }

    method TakeDirect(k: nat, expert: UserId, eligible: bool, now: Time) returns (error: Option<Error>)
      modifies this
      ensures Outcome(error) == AcceptDirect(old(Snapshot()), k, expert, eligible, now)
    {
      error := GuardResponse(k, Assigned, expert, eligible, now);
      if error.Some? {
        return;
      }
      if rows[k].price.None? {
        return Some(IntegrityError);
      }
      error := Take(k, rows[k].price.value, rows[k].currency);
    }

    method DeclineAssignment(k: nat, path: Path, expert: UserId, eligible: bool) returns (error: Option<Error>)
      modifies `rows
      ensures Outcome(error) == DeclineRow(old(Snapshot()), k, path, expert, eligible)
    {
      if !eligible {
        return Some(PermissionDenied);
      }
      error := GuardOwnPending(k, path, expert, AssignmentLocked);
      if error.None? {
        rows := rows[k := rows[k].(status := Declined)];
      }
    }

    // --- triage --------------------------------------------------------------------------------------

    method Pool(actor: Option<Actor>, candidates: seq<UserId>, quote: Option<int>, now: Time)
      returns (error: Option<Error>)
      modifies this
      ensures Outcome(error) == ApprovePool(old(Snapshot()), actor, candidates, quote, now)
    {
      if !Staff(actor) {
        return Some(PermissionDenied);
      }
      if request.mode != Managed {
        return Some(NotManaged);
      }
      if request.status != InReview {
        return Some(InvalidTransition);
      }
      var saved := Snapshot();
      if quote.Some? {
        if quote.value < MIN_OFFER_MINOR {
          return Some(OfferTooLow);
        }
        request := request.(quote := quote);
      }
      if request.quote.None? {
        return Some(QuoteRequired);
      }
      error := Transition(Pooled);
      if candidates == [] {
        Rollback(saved);
        return Some(EmptyPool);
      }
      if !FreshInvitees(saved, candidates) {
        Rollback(saved);
        return Some(IntegrityError);
      }
      rows := rows + Invitations(candidates, request.currency, now);
    }

    method Assign(actor: Option<Actor>, expert: UserId, amount: int, eligible: bool, now: Time)
      returns (error: Option<Error>)
      modifies this
      ensures Outcome(error) == AssignDirect(old(Snapshot()), actor, expert, amount, eligible, now)
    {
      if !Staff(actor) {
        return Some(PermissionDenied);
      }
      if request.mode != Managed {
        return Some(NotManaged);
      }
      if request.status !in {InReview, Pooled} {
        return Some(InvalidTransition);
      }
      if !eligible {
        return Some(PermissionDenied);
      }
      if amount < MIN_OFFER_MINOR {
        return Some(OfferTooLow);
      }
      if exists r <- rows :: r.path == Assigned && r.expert == expert && r.status == Pending {
        return Some(AssignmentExists);
      }
      request := request.(quote := Some(amount));
      rows := rows + [Row(Assigned, expert, Some(amount), request.currency, Pending, Some(now + DIRECT_TTL))];
      return None;
    }

    method Supersede(k: nat, actor: Option<Actor>) returns (error: Option<Error>)
      modifies `rows
      ensures Outcome(error) == SupersedeDirect(old(Snapshot()), k, actor)
    {
      if !Staff(actor) {
        return Some(PermissionDenied);
      }
      if k >= |rows| || rows[k].path != Assigned {
        return Some(NotFound);
      }
      if rows[k].status != Pending {
        return Some(AssignmentLocked);
      }
      rows := rows[k := rows[k].(status := Superseded)];
      return None;
    }

    method Reject(actor: Option<Actor>, reasonGiven: bool) returns (error: Option<Error>)
      modifies this
      ensures Outcome(error) == RejectManaged(old(Snapshot()), actor, reasonGiven)
    {
      if !Staff(actor) {
        return Some(PermissionDenied);
      }
      if request.mode != Managed {
        return Some(NotManaged);
      }
      if !reasonGiven {
        return Some(ValidationError);
      }
      var saved := Snapshot();
      rows := Restatus(rows, (r: Row) => r.path == Invited && r.status == Pending, Lapsed);
      error := Transition(Rejected);
      if error.Some? {
        Rollback(saved);
      }
    }

    method SuggestQuote(actor: Option<Actor>, quote: Option<int>) returns (error: Option<Error>)
      modifies `request
      ensures Outcome(error) == SetQuote(old(Snapshot()), actor, quote)
    {
      if !Staff(actor) {
        return Some(PermissionDenied);
      }
      if request.mode != Managed {
        return Some(NotManaged);
      }
      if quote.Some? {
        if quote.value < MIN_OFFER_MINOR {
          return Some(OfferTooLow);
        }
        request := request.(quote := quote);
      }
      return None;
    }

    // --- the rest of the request's life ------------------------------------------------------------

    method EditDraft(actor: UserId, mode: Mode, complete: bool, currency: string) returns (error: Option<Error>)
      modifies `request
      ensures Outcome(error) == UpdateDraft(old(Snapshot()), actor, mode, complete, currency)
    {
      if request.student != actor {
        return Some(PermissionDenied);
      }
      if request.status != Draft {
        return Some(RequestLocked);
      }
      request := request.(mode := mode, complete := complete);
      request := request.(currency := currency);
      return None;
    }

    method CancelOwn(actor: UserId) returns (error: Option<Error>)
      modifies `request
      ensures Outcome(error) == CancelRequest(old(Snapshot()), actor)
    {
      if request.student != actor {
        return Some(PermissionDenied);
      }
      error := Transition(Cancelled);
    }

    /** mark_paid, approve_delivery and orders.cancel, as they touch the request. */
    method Follow(op: Op)
      requires op.OpOrderPaid? || op.OpOrderCompleted? || op.OpOrderCancelled?
      modifies `request
      ensures Reply(Snapshot(), None) == Apply(old(Snapshot()), op, 0)
    {
      var error := None;
      match op
      case OpOrderPaid => if request.status == Matched { error := Transition(InProgress); }
      case OpOrderCompleted => if request.status == InProgress { error := Transition(Completed); }
      case OpOrderCancelled => if request.status in {Matched, InProgress} { error := Transition(Cancelled); }
    }

    // --- any call -------------------------------------------------------------------------------------

    method ServeOffer(op: Op, pending: nat) returns (error: Option<Error>)
      requires OfferCall(op)
      modifies this
      ensures Outcome(error) == Apply(old(Snapshot()), op, pending)
    {
      match op
      case OpSubmit(expert, amount, currency, eligible, now) =>
        error := Submit(expert, amount, currency, eligible, pending, now);
      case OpUpdate(k, expert, amount, eligible, now) => error := Update(k, expert, amount, eligible, now);
      case OpWithdraw(k, expert) => error := Withdraw(k, expert);
      case OpResubmit(k, expert, eligible, now) => error := Resubmit(k, expert, eligible, pending, now);
      case OpDecline(k, student) => error := Decline(k, student);
      case OpAcceptOffer(k, student, eligible) => error := TakeOffer(k, student, eligible);
    }

    method ServeTriage(op: Op, pending: nat) returns (error: Option<Error>)
      requires TriageCall(op)
      modifies this
      ensures Outcome(error) == Apply(old(Snapshot()), op, pending)
    {
      match op
      case OpAcceptInvitation(k, expert, eligible, now) => error := TakeInvitation(k, expert, eligible, now);
      case OpAcceptDirect(k, expert, eligible, now) => error := TakeDirect(k, expert, eligible, now);
      case OpDeclineRow(k, path, expert, eligible) => error := DeclineAssignment(k, path, expert, eligible);
      case OpApprovePool(staff, candidates, quote, now) => error := Pool(staff, candidates, quote, now);
      case OpAssign(staff, expert, price, eligible, now) => error := Assign(staff, expert, price, eligible, now);
      case OpSupersede(k, staff) => error := Supersede(k, staff);
      case OpReject(staff, given) => error := Reject(staff, given);
      case OpSetQuote(staff, quote) => error := SuggestQuote(staff, quote);
    }

    method ServeRequest(op: Op, pending: nat) returns (error: Option<Error>)
      requires !OfferCall(op) && !TriageCall(op)
      modifies this
      ensures Outcome(error) == Apply(old(Snapshot()), op, pending)
    {
      error := None;
      match op
      case OpUpdateDraft(actor, mode, complete, currency) => error := EditDraft(actor, mode, complete, currency);
      case OpPublish(actor, attested, now) => error := PublishRequest(actor, attested, now);
      case OpCancelRequest(actor) => error := CancelOwn(actor);
      case OpReopen(actor, now) => error := ReopenRequest(actor, now);
      case OpExpireRequest(now) => if RequestDue(request, now) { request := request.(status := Expired); }
      case OpExpireStale(now) => Expire(now);
      case OpExpireRows(now) => rows := Restatus(rows, (r: Row) => RowDue(r, now), Lapsed);
      case OpOrderPaid => Follow(op);
      case OpOrderCompleted => Follow(op);
      case OpOrderCancelled => Follow(op);
    }

    /** Any acquisition call: exactly its atomic step; a sound case stays sound; a refused call
        leaves every row, the order and the request, but for the expiry a refused publish renews. */
    method Serve(op: Op, pending: nat) returns (error: Option<Error>)
      modifies this
      ensures Outcome(error) == Apply(old(Snapshot()), op, pending)
      ensures CaseSound(old(Snapshot())) ==> CaseSound(Snapshot())
      ensures error.Some? ==> rows == old(rows) && orders == old(orders)
                              && request == old(request).(expiresAt := request.expiresAt)
      ensures error.Some? && !op.OpPublish? ==> Snapshot() == old(Snapshot())
    {
      ghost var before := Snapshot();
      if OfferCall(op) {
        error := ServeOffer(op, pending);
      } else if TriageCall(op) {
        error := ServeTriage(op, pending);
      } else {
        error := ServeRequest(op, pending);
      }
      KeptOrRefused(before, op, pending);
    }
  }

  lemma KeptOrRefused(c: Case, op: Op, pending: nat)
    ensures var s := Apply(c, op, pending);
            && (CaseSound(c) ==> CaseSound(s.kase))
            && (s.error.Some? ==>
                  s.kase == c.(request := c.request.(expiresAt := s.kase.request.expiresAt)))
            && (s.error.Some? && !op.OpPublish? ==> s.kase == c)
  {
    if CaseSound(c) {
      CaseStep(c, op, pending);
    }
  }

  predicate OfferCall(op: Op) {
    op.OpSubmit? || op.OpUpdate? || op.OpWithdraw? || op.OpResubmit? || op.OpDecline? || op.OpAcceptOffer?
  }

  predicate TriageCall(op: Op) {
    op.OpAcceptInvitation? || op.OpAcceptDirect? || op.OpDeclineRow? || op.OpApprovePool? || op.OpAssign?
    || op.OpSupersede? || op.OpReject? || op.OpSetQuote?
  }

  // --- all requests -------------------------------------------------------------------------------------

  function DueRequests(cases: seq<Case>, now: Time): nat {
    if cases == [] then 0
    else DueRequests(cases[..|cases| - 1], now) + if RequestDue(cases[|cases| - 1].request, now) then 1 else 0
  }

  /** The request's invitations and assignments past their expiry. */
  function DueIn(c: Case, now: Time): nat { Count(c.rows, (r: Row) => RowDue(r, now)) }

  function DueRows(cases: seq<Case>, now: Time): nat {
    if cases == [] then 0
    else DueRows(cases[..|cases| - 1], now) + DueIn(cases[|cases| - 1], now)
  }

  lemma {:induction false} NoRequestDue(cases: seq<Case>, now: Time)
    requires forall q :: 0 <= q < |cases| ==> !RequestDue(cases[q].request, now)
    ensures DueRequests(cases, now) == 0
  {
    if cases != [] {
      NoRequestDue(cases[..|cases| - 1], now);
    }
  }

  lemma {:induction false} NoRowDue(cases: seq<Case>, now: Time)
    requires forall q :: 0 <= q < |cases| ==> DueIn(cases[q], now) == 0
    ensures DueRows(cases, now) == 0
  {
    if cases != [] {
      NoRowDue(cases[..|cases| - 1], now);
    }
  }

  lemma LapsedNotDue(c: Case, now: Time)
    ensures DueIn(ExpireRows(c, now), now) == 0
  {
    CountPositive(ExpireRows(c, now).rows, (r: Row) => RowDue(r, now));
  }

  class Desk {
    var cases: seq<Case>

    constructor ()
      ensures cases == []
    {
      cases := [];
    }

    /** The expert's pending offers over all requests. */
    method CountPending(expert: UserId) returns (n: nat)
      ensures n == Market.PendingOffers(cases, expert)
    {
      n := 0;
      for i := 0 to |cases|
        invariant n == Market.PendingOffers(cases[..i], expert)
      {
        assert cases[..i + 1][..i] == cases[..i];
        n := n + Count(cases[i].rows, IsPendingOfferOf(expert));
      }
      assert cases[..|cases|] == cases;
    }

    /** One service call on request q. */
    method Call(q: nat, op: Op) returns (error: Option<Error>)
      modifies this
      ensures cases == Market.Exec(old(cases), Market.On(q, op))
      ensures q < |cases| ==> error == Apply(old(cases)[q], op, Market.PendingFor(old(cases), op)).error
    {
      if q >= |cases| {
        return Some(NotFound);
      }
      var pending := 0;
      if op.OpSubmit? || op.OpResubmit? {
        pending := CountPending(op.expert);
      }
      var n := new Negotiation(cases[q]);
      error := n.Serve(op, pending);
      cases := cases[q := n.Snapshot()];
    }

    method ExpireOne(q: nat, now: Time)
      requires q < |cases|
      modifies this
      ensures cases == old(cases)[q := ExpireStale(old(cases)[q], now)]
    {
      var error := Call(q, OpExpireStale(now));
    }

    method LapseOne(q: nat, now: Time)
      requires q < |cases|
      modifies this
      ensures cases == old(cases)[q := ExpireRows(old(cases)[q], now)]
    {
      var error := Call(q, OpExpireRows(now));
    }

    /** The hourly task: exactly the open requests past their expiry expire, with their pending
        offers; none is left, so a second run returns 0. */
    method ExpireStaleRequests(now: Time) returns (count: nat)
      modifies this
      ensures |cases| == |old(cases)|
      ensures forall q :: 0 <= q < |cases| ==> cases[q] == ExpireStale(old(cases)[q], now)
      ensures count == DueRequests(old(cases), now)
      ensures DueRequests(cases, now) == 0
    {
      count := 0;
      ghost var before := cases;
      for i := 0 to |cases|
        invariant |cases| == |before| && count == DueRequests(before[..i], now)
        invariant forall q :: 0 <= q < |cases| ==> cases[q] == if q < i then ExpireStale(before[q], now) else before[q]
      {
        assert before[..i + 1][..i] == before[..i];
        if RequestDue(cases[i].request, now) {
          count := count + 1;
        }
        ExpireOne(i, now);
      }
      assert before[..|before|] == before;
      NoRequestDue(cases, now);
    }

    /** The hourly task for invitations and assignments: exactly the pending rows past their
        expiry lapse, and their number is returned. */
    method ExpireAssignments(now: Time) returns (count: nat)
      modifies this
      ensures |cases| == |old(cases)|
      ensures forall q :: 0 <= q < |cases| ==> cases[q] == ExpireRows(old(cases)[q], now)
      ensures count == DueRows(old(cases), now)
      ensures DueRows(cases, now) == 0
    {
      count := 0;
      ghost var before := cases;
      for i := 0 to |cases|
        invariant |cases| == |before| && count == DueRows(before[..i], now)
        invariant forall q :: 0 <= q < |cases| ==> cases[q] == if q < i then ExpireRows(before[q], now) else before[q]
      {
        assert before[..i + 1][..i] == before[..i];
        count := count + DueIn(cases[i], now);
        LapseOne(i, now);
      }
      assert before[..|before|] == before;
      forall q | 0 <= q < |cases| ensures DueIn(cases[q], now) == 0 {
        LapsedNotDue(before[q], now);
      }
      NoRowDue(cases, now);
    }
  }
}
