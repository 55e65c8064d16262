/** How a request finds its expert: offers, pool invitations and direct assignments, each
    service call as one atomic step (bidding/services.py, assignments/services.py,
    service_requests/services.py). */
module Acquisition {
  import opened Core
  import opened Money

  datatype Mode = OpenMarket | Managed

  datatype RequestStatus =
    | Draft | Open | InReview | Pooled | Matched | InProgress | Completed | Rejected | Cancelled | Expired

  datatype Path = Offered | Invited | Assigned

  datatype RowStatus = Pending | Accepted | Declined | Withdrawn | Lapsed | Superseded

  /** An offer, a pool invitation or a direct assignment. Invitations carry no price of their
      own, offers no expiry. */
  datatype Row = Row(path: Path, expert: UserId, price: Option<int>, currency: string, status: RowStatus,
                     expiresAt: Option<Time>)

  /** What the order factory was called with. */
  datatype Placed = Placed(path: Path, expert: UserId, amount: int, currency: string)

  datatype Request = Request(
    student: UserId,
    mode: Mode,
    status: RequestStatus,
    complete: bool,
    quote: Option<int>,
    currency: string,
    offerCount: int,
    expiresAt: Option<Time>,
    reopenedAt: Option<Time>)

  /** One request with the rows that reference it. */
  datatype Case = Case(request: Request, rows: seq<Row>, orders: seq<Placed>)

  datatype Reply = Reply(kase: Case, error: Option<Error>)

  const MAX_PENDING_OFFERS := 20
  const REQUEST_TTL: Time := 30 * DAY
  const POOL_TTL: Time := 48 * HOUR
  const DIRECT_TTL: Time := 24 * HOUR

  function Refuse(c: Case, e: Error): Reply { Reply(c, Some(e)) }

  function Done(c: Case): Reply { Reply(c, None) }

  function NewCase(student: UserId, mode: Mode, complete: bool, currency: string): Case {
    Case(Request(student, mode, Draft, complete, None, currency, 0, None, None), [], [])
  }

  // --- requests -------------------------------------------------------------------------

  /** The request transition table. */
  predicate Allowed(from: RequestStatus, to: RequestStatus) {
    match from
    case Draft => to in {Open, Cancelled, InReview}
    case Open => to in {Matched, Cancelled, Expired}
    case Expired => to == Open
    case InReview => to in {Pooled, Rejected, Matched, Cancelled}
    case Pooled => to in {Matched, Rejected, Cancelled}
    case Matched => to in {InProgress, Cancelled}
    case InProgress => to in {Completed, Cancelled}
    case _ => false
  }

  function Move(c: Case, to: RequestStatus): Reply {
    if Allowed(c.request.status, to) then Done(c.(request := c.request.(status := to)))
    else Refuse(c, InvalidTransition)
  }

  predicate Staff(actor: Option<Actor>) { actor.Some? && actor.value.staff }

  predicate OpenForOffers(r: Request, now: Time) {
    r.status == Open && r.mode == OpenMarket && (r.expiresAt.None? || r.expiresAt.value > now)
  }

  function UpdateDraft(c: Case, actor: UserId, mode: Mode, complete: bool, currency: string): Reply {
    if c.request.student != actor then Refuse(c, PermissionDenied)
    else if c.request.status != Draft then Refuse(c, RequestLocked)
    else Done(c.(request := c.request.(mode := mode, complete := complete, currency := currency)))
  }

  /** An open-market request gets its new expiry even when the transition is then refused. */
  function Publish(c: Case, actor: UserId, attested: bool, now: Time): Reply {
    if c.request.student != actor then Refuse(c, PermissionDenied)
    else if !attested then Refuse(c, AttestationRequired)
    else if !c.request.complete then Refuse(c, ValidationError)
    else if c.request.mode == Managed then Move(c, InReview)
    else Move(c.(request := c.request.(expiresAt := Some(now + REQUEST_TTL))), Open)
  }

  function CancelRequest(c: Case, actor: UserId): Reply {
    if c.request.student != actor then Refuse(c, PermissionDenied) else Move(c, Cancelled)
  }

  function Reopen(c: Case, actor: UserId, now: Time): Reply {
    if c.request.student != actor then Refuse(c, PermissionDenied)
    else if c.request.reopenedAt.Some? then Refuse(c, InvalidTransition)
    else
      var m := Move(c, Open);
      if m.error.Some? then m
      else Done(m.kase.(request := m.kase.request.(reopenedAt := Some(now), expiresAt := Some(now + REQUEST_TTL))))
  }

  predicate RequestDue(r: Request, now: Time) {
    r.status == Open && r.expiresAt.Some? && r.expiresAt.value <= now
  }

  /** service_requests.expire_due on one request: its offers are left alone. */
  function ExpireRequest(c: Case, now: Time): Case {
    if RequestDue(c.request, now) then c.(request := c.request.(status := Expired)) else c
  }

  /** bidding.tasks.expire_stale_requests on one request: its pending offers lapse with it. */
  function ExpireStale(c: Case, now: Time): Case {
    if RequestDue(c.request, now)
    then ExpireRequest(c, now).(rows := Restatus(c.rows, (r: Row) => r.path == Offered && r.status == Pending, Lapsed))
    else c
  }

  // --- rows ------------------------------------------------------------------------------------

  /** `filter(...).update(status=...)`. */
  function Restatus(rows: seq<Row>, which: Row -> bool, to: RowStatus): (out: seq<Row>)
    ensures |out| == |rows|
    ensures forall i :: 0 <= i < |rows| ==> out[i] == if which(rows[i]) then rows[i].(status := to) else rows[i]
  {
    seq(|rows|, i requires 0 <= i < |rows| => if which(rows[i]) then rows[i].(status := to) else rows[i])
  }

  function SetStatus(c: Case, k: nat, to: RowStatus): Case
    requires k < |c.rows|
  {
    c.(rows := c.rows[k := c.rows[k].(status := to)])
  }

  /** Row k exists and is on the given path. */
  predicate On(c: Case, k: nat, path: Path) { k < |c.rows| && c.rows[k].path == path }

  /** The expert's own pending row. */
  function OwnPending(c: Case, k: nat, path: Path, expert: UserId, locked: Error): Option<Error> {
    if !On(c, k, path) then Some(NotFound)
    else if c.rows[k].expert != expert then Some(PermissionDenied)
    else if c.rows[k].status != Pending then Some(locked)
    else None
  }

  predicate HasOffer(c: Case, expert: UserId) {
    exists r <- c.rows :: r.path == Offered && r.expert == expert
  }

  /** bidding._expert_guard. */
  function OfferGuard(c: Case, expert: UserId, eligible: bool, now: Time): Option<Error> {
    if !eligible then Some(PermissionDenied)
    else if !OpenForOffers(c.request, now) then Some(RequestClosed)
    else if c.request.student == expert then Some(SelfDealing)
    else None
  }

  // --- offers --------------------------------------------------------------------------------------

  /** `pending` counts the expert's pending offers on all requests. */
  function SubmitOffer(c: Case, expert: UserId, amount: Option<int>, currency: string, eligible: bool, pending: nat,
                       now: Time): Reply
  {
    var guard := OfferGuard(c, expert, eligible, now);
    if guard.Some? then Refuse(c, guard.value)
    else if amount.None? || amount.value < MIN_OFFER_MINOR then Refuse(c, OfferTooLow)
    else if HasOffer(c, expert) then Refuse(c, OfferExists)
    else if pending >= MAX_PENDING_OFFERS then Refuse(c, OfferLimit)
    else
      Done(c.(rows := c.rows + [Row(Offered, expert, amount, currency, Pending, None)],
              request := c.request.(offerCount := c.request.offerCount + 1)))
  }

  function UpdateOffer(c: Case, k: nat, expert: UserId, amount: Option<int>, eligible: bool, now: Time): Reply {
    var guard := OwnPending(c, k, Offered, expert, OfferLocked);
    if guard.Some? then Refuse(c, guard.value)
    else if !eligible then Refuse(c, PermissionDenied)
    else if !OpenForOffers(c.request, now) then Refuse(c, RequestClosed)
    else if amount.Some? && amount.value < MIN_OFFER_MINOR then Refuse(c, OfferTooLow)
    else Done(c.(rows := c.rows[k := c.rows[k].(price := if amount.Some? then amount else c.rows[k].price)]))
  }

  function WithdrawOffer(c: Case, k: nat, expert: UserId): Reply {
    var guard := OwnPending(c, k, Offered, expert, OfferLocked);
    if guard.Some? then Refuse(c, guard.value)
    else
      var d := SetStatus(c, k, Withdrawn);
      Done(d.(request := d.request.(offerCount := d.request.offerCount - 1)))
  }

  function ResubmitOffer(c: Case, k: nat, expert: UserId, eligible: bool, pending: nat, now: Time): Reply {
    if !On(c, k, Offered) then Refuse(c, NotFound)
    else if c.rows[k].expert != expert then Refuse(c, PermissionDenied)
    else if c.rows[k].status != Withdrawn then Refuse(c, InvalidTransition)
    else
      var guard := OfferGuard(c, expert, eligible, now);
      if guard.Some? then Refuse(c, guard.value)
      else if pending >= MAX_PENDING_OFFERS then Refuse(c, OfferLimit)
      else
        var d := SetStatus(c, k, Pending);
        Done(d.(request := d.request.(offerCount := d.request.offerCount + 1)))
  }

  function DeclineOffer(c: Case, k: nat, student: UserId): Reply {
    if !On(c, k, Offered) then Refuse(c, NotFound)
    else if c.request.student != student then Refuse(c, PermissionDenied)
    else if c.rows[k].status != Pending then Refuse(c, OfferLocked)
    else Done(SetStatus(c, k, Declined))
  }

  // --- convergence -------------------------------------------------------------------------------------

  /** Accept row k: it is accepted, its pending siblings on the path are declined (assignments
      have none), the request is matched and the order factory is called. */
  function Converge(c: Case, k: nat, amount: int, currency: string): Reply
    requires k < |c.rows|
  {
    var r := c.rows[k];
    var taken := c.rows[k := r.(status := Accepted)];
    var rows := if r.path == Assigned then taken
                else Restatus(taken, (s: Row) => s.path == r.path && s.status == Pending, Declined);
    var m := Move(c.(rows := rows), Matched);
    if m.error.Some? then Refuse(c, m.error.value)
    else if c.request.student == r.expert then Refuse(c, SelfDealing)
    else Done(m.kase.(orders := c.orders + [Placed(r.path, r.expert, amount, currency)]))
  }

  function AcceptOffer(c: Case, k: nat, student: UserId, eligible: bool): Reply {
    if !On(c, k, Offered) then Refuse(c, NotFound)
    else if c.request.student != student then Refuse(c, PermissionDenied)
    else if c.rows[k].expert == student then Refuse(c, SelfDealing)
    else if c.rows[k].status != Pending then Refuse(c, OfferLocked)
    else if c.request.status != Open then Refuse(c, RequestClosed)
    else if !eligible then Refuse(c, ExpertIneligible)
    else if c.rows[k].price.None? then Refuse(c, IntegrityError)
    else Converge(c, k, c.rows[k].price.value, c.rows[k].currency)
  }

  /** assignments._matched_guard. */
  predicate Unmatched(c: Case) { c.request.status in {InReview, Pooled} && c.orders == [] }

  /** The expert's own row, still pending and unexpired, of a request not matched yet. */
  function ResponseGuard(c: Case, k: nat, path: Path, expert: UserId, eligible: bool, now: Time): Option<Error> {
    if !On(c, k, path) then Some(NotFound)
    else if !eligible then Some(PermissionDenied)
    else if c.rows[k].expert != expert then Some(PermissionDenied)
    else if c.rows[k].status != Pending || c.rows[k].expiresAt.None? || c.rows[k].expiresAt.value <= now
    then Some(AssignmentLocked)
    else if !Unmatched(c) then Some(RequestClosed)
    else None
  }

  /** The order is placed at the request's quote. */
  function AcceptInvitation(c: Case, k: nat, expert: UserId, eligible: bool, now: Time): Reply {
    var guard := ResponseGuard(c, k, Invited, expert, eligible, now);
    if guard.Some? then Refuse(c, guard.value)
    else if c.request.quote.None? then Refuse(c, IntegrityError)
    else Converge(c, k, c.request.quote.value, c.request.currency)
  }

  /** The order is placed at the assignment's own price. */
  function AcceptDirect(c: Case, k: nat, expert: UserId, eligible: bool, now: Time): Reply {
    var guard := ResponseGuard(c, k, Assigned, expert, eligible, now);
    if guard.Some? then Refuse(c, guard.value)
    else if c.rows[k].price.None? then Refuse(c, IntegrityError)
    else Converge(c, k, c.rows[k].price.value, c.rows[k].currency)
  }

  /** decline_invitation and decline_direct. */
  function DeclineRow(c: Case, k: nat, path: Path, expert: UserId, eligible: bool): Reply {
    if !eligible then Refuse(c, PermissionDenied)
    else
      var guard := OwnPending(c, k, path, expert, AssignmentLocked);
      if guard.Some? then Refuse(c, guard.value) else Done(SetStatus(c, k, Declined))
  }

  // --- triage ----------------------------------------------------------------------------------------------

  function Invitations(experts: seq<UserId>, currency: string, now: Time): (rows: seq<Row>)
    ensures |rows| == |experts|
    ensures forall i :: 0 <= i < |rows| ==>
                          rows[i] == Row(Invited, experts[i], None, currency, Pending, Some(now + POOL_TTL))
  {
    seq(|experts|, i requires 0 <= i < |experts| =>
      Row(Invited, experts[i], None, currency, Pending, Some(now + POOL_TTL)))
  }

  predicate AllDifferent(experts: seq<UserId>) { forall i, j :: 0 <= i < j < |experts| ==> experts[i] != experts[j] }

  /** One invitation per expert and request (a database constraint). */
  predicate FreshInvitees(c: Case, experts: seq<UserId>) {
    && AllDifferent(experts)
    && forall r <- c.rows :: r.path == Invited ==> r.expert !in experts
  }

  /** `candidates` is the result of the eligible-experts query. */
  function ApprovePool(c: Case, actor: Option<Actor>, candidates: seq<UserId>, quote: Option<int>, now: Time): Reply {
    if !Staff(actor) then Refuse(c, PermissionDenied)
    else if c.request.mode != Managed then Refuse(c, NotManaged)
    else if c.request.status != InReview then Refuse(c, InvalidTransition)
    else if quote.Some? && quote.value < MIN_OFFER_MINOR then Refuse(c, OfferTooLow)
    else
      var agreed := if quote.Some? then quote else c.request.quote;
      if agreed.None? then Refuse(c, QuoteRequired)
      else if candidates == [] then Refuse(c, EmptyPool)
      else if !FreshInvitees(c, candidates) then Refuse(c, IntegrityError)
      else
        Done(c.(request := c.request.(quote := agreed, status := Pooled),
                rows := c.rows + Invitations(candidates, c.request.currency, now)))
  }

  predicate HasPendingAssignment(c: Case, expert: UserId) {
    exists r <- c.rows :: r.path == Assigned && r.expert == expert && r.status == Pending
  }

  function AssignDirect(c: Case, actor: Option<Actor>, expert: UserId, amount: int, eligible: bool, now: Time): Reply {
    if !Staff(actor) then Refuse(c, PermissionDenied)
    else if c.request.mode != Managed then Refuse(c, NotManaged)
    else if c.request.status !in {InReview, Pooled} then Refuse(c, InvalidTransition)
    else if !eligible then Refuse(c, PermissionDenied)
    else if amount < MIN_OFFER_MINOR then Refuse(c, OfferTooLow)
    else if HasPendingAssignment(c, expert) then Refuse(c, AssignmentExists)
    else
      Done(c.(request := c.request.(quote := Some(amount)),
              rows := c.rows + [Row(Assigned, expert, Some(amount), c.request.currency, Pending,
                                    Some(now + DIRECT_TTL))]))
  }

  function SupersedeDirect(c: Case, k: nat, actor: Option<Actor>): Reply {
    if !Staff(actor) then Refuse(c, PermissionDenied)
    else if !On(c, k, Assigned) then Refuse(c, NotFound)
    else if c.rows[k].status != Pending then Refuse(c, AssignmentLocked)
    else Done(SetStatus(c, k, Superseded))
  }

  function RejectManaged(c: Case, actor: Option<Actor>, reasonGiven: bool): Reply {
    if !Staff(actor) then Refuse(c, PermissionDenied)
    else if c.request.mode != Managed then Refuse(c, NotManaged)
    else if !reasonGiven then Refuse(c, ValidationError)
    else
      var rows := Restatus(c.rows, (r: Row) => r.path == Invited && r.status == Pending, Lapsed);
      var m := Move(c.(rows := rows), Rejected);
      if m.error.Some? then Refuse(c, m.error.value) else m
  }

  function SetQuote(c: Case, actor: Option<Actor>, quote: Option<int>): Reply {
    if !Staff(actor) then Refuse(c, PermissionDenied)
    else if c.request.mode != Managed then Refuse(c, NotManaged)
    else if quote.Some? && quote.value < MIN_OFFER_MINOR then Refuse(c, OfferTooLow)
    else Done(c.(request := c.request.(quote := if quote.Some? then quote else c.request.quote)))
  }

  predicate RowDue(r: Row, now: Time) {
    r.path != Offered && r.status == Pending && r.expiresAt.Some? && r.expiresAt.value <= now
  }

  /** assignments.expire_due on one request's rows. */
  function ExpireRows(c: Case, now: Time): Case {
    c.(rows := Restatus(c.rows, (r: Row) => RowDue(r, now), Lapsed))
  }

  // --- follow-ups of the order's own life -----------------------------------------------------------------

  /** mark_paid: matched -> in progress. */
  function OrderPaid(c: Case): Case {
    if c.request.status == Matched then Move(c, InProgress).kase else c
  }

  /** approve_delivery: in progress -> completed. */
  function OrderCompleted(c: Case): Case {
    if c.request.status == InProgress then Move(c, Completed).kase else c
  }

  /** orders.cancel: matched or in progress -> cancelled. */
  function OrderCancelled(c: Case): Case {
    if c.request.status in {Matched, InProgress} then Move(c, Cancelled).kase else c
  }

  // --- one operation on a case --------------------------------------------------------------------------------

  datatype Op =
    | OpUpdateDraft(actor: UserId, mode: Mode, complete: bool, currency: string)
    | OpPublish(actor: UserId, attested: bool, now: Time)
    | OpCancelRequest(actor: UserId)
    | OpReopen(actor: UserId, now: Time)
    | OpExpireRequest(now: Time)
    | OpExpireStale(now: Time)
    | OpSubmit(expert: UserId, amount: Option<int>, currency: string, eligible: bool, now: Time)
    | OpUpdate(k: nat, expert: UserId, amount: Option<int>, eligible: bool, now: Time)
    | OpWithdraw(k: nat, expert: UserId)
    | OpResubmit(k: nat, expert: UserId, eligible: bool, now: Time)
    | OpDecline(k: nat, student: UserId)
    | OpAcceptOffer(k: nat, student: UserId, eligible: bool)
    | OpAcceptInvitation(k: nat, expert: UserId, eligible: bool, now: Time)
    | OpAcceptDirect(k: nat, expert: UserId, eligible: bool, now: Time)
    | OpDeclineRow(k: nat, path: Path, expert: UserId, eligible: bool)
    | OpApprovePool(staff: Option<Actor>, candidates: seq<UserId>, quote: Option<int>, now: Time)
    | OpAssign(staff: Option<Actor>, expert: UserId, price: int, eligible: bool, now: Time)
    | OpSupersede(k: nat, staff: Option<Actor>)
    | OpReject(staff: Option<Actor>, reasonGiven: bool)
    | OpSetQuote(staff: Option<Actor>, quote: Option<int>)
    | OpExpireRows(now: Time)
    | OpOrderPaid
    | OpOrderCompleted
    | OpOrderCancelled

  function Apply(c: Case, op: Op, pending: nat): Reply {
    match op
    case OpUpdateDraft(actor, mode, complete, currency) => UpdateDraft(c, actor, mode, complete, currency)
    case OpPublish(actor, attested, now) => Publish(c, actor, attested, now)
    case OpCancelRequest(actor) => CancelRequest(c, actor)
    case OpReopen(actor, now) => Reopen(c, actor, now)
    case OpExpireRequest(now) => Done(ExpireRequest(c, now))
    case OpExpireStale(now) => Done(ExpireStale(c, now))
    case OpSubmit(expert, amount, currency, eligible, now) =>
      SubmitOffer(c, expert, amount, currency, eligible, pending, now)
    case OpUpdate(k, expert, amount, eligible, now) => UpdateOffer(c, k, expert, amount, eligible, now)
    case OpWithdraw(k, expert) => WithdrawOffer(c, k, expert)
    case OpResubmit(k, expert, eligible, now) => ResubmitOffer(c, k, expert, eligible, pending, now)
    case OpDecline(k, student) => DeclineOffer(c, k, student)
    case OpAcceptOffer(k, student, eligible) => AcceptOffer(c, k, student, eligible)
    case OpAcceptInvitation(k, expert, eligible, now) => AcceptInvitation(c, k, expert, eligible, now)
    case OpAcceptDirect(k, expert, eligible, now) => AcceptDirect(c, k, expert, eligible, now)
    case OpDeclineRow(k, path, expert, eligible) => DeclineRow(c, k, path, expert, eligible)
    case OpApprovePool(staff, candidates, quote, now) => ApprovePool(c, staff, candidates, quote, now)
    case OpAssign(staff, expert, price, eligible, now) => AssignDirect(c, staff, expert, price, eligible, now)
    case OpSupersede(k, staff) => SupersedeDirect(c, k, staff)
    case OpReject(staff, given) => RejectManaged(c, staff, given)
    case OpSetQuote(staff, quote) => SetQuote(c, staff, quote)
    case OpExpireRows(now) => Done(ExpireRows(c, now))
    case OpOrderPaid => Done(OrderPaid(c))
    case OpOrderCompleted => Done(OrderCompleted(c))
    case OpOrderCancelled => Done(OrderCancelled(c))
  }
}
