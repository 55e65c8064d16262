/** Each service call as one atomic step on the order's rows and its ledger entries
    (orders/services.py, payments/services.py, disputes/services.py, payments/webhooks.py). */
module OrderSteps {
  import opened Core
  import opened Ledger
  import opened Money
  import opened OrderFile

  /** The rows after the call, the ledger entries it appended, and the error it raised. */
  datatype Step = Step(file: File, posted: seq<Entry>, error: Option<Error>)

  /** The transaction rolled back. */
  function Refuse(f: File, e: Error): Step { Step(f, [], Some(e)) }

  function Done(f: File): Step { Step(f, [], None) }

  /** orders.transition: the table lookup, the new status and one timeline event. */
  function Moved(f: File, to: OrderStatus, event: Event): Option<File> {
    if Allowed(f.order.status, to)
    then Some(f.(order := f.order.(status := to), events := f.events + [event]))
    else None
  }

  function Record(f: File, event: Event): File { f.(events := f.events + [event]) }

  // --- payment ----------------------------------------------------------------------

  function Armed(f: File, gateway: Gateway): File {
    var p := Payment(gateway, Reference(f.id, f.attempts), f.order.amount, f.order.currency, Pending, 0, None);
    f.(payment := Some(p), attempts := f.attempts + 1)
  }

  function StartPayment(f: File, actor: Actor, gateway: Gateway): Step {
    if f.order.student != actor.id then Refuse(f, PermissionDenied)
    else if f.order.status != AwaitingPayment then Refuse(f, InvalidTransition)
    else if f.payment.None? then Done(Armed(f, gateway))
    else
      var p := f.payment.value;
      if p.status == Succeeded then Refuse(f, DuplicatePayment)
      else if p.status == Pending then Done(f)
      else
        Done(f.(payment := Some(p.(gateway := gateway, status := Pending, amountMinor := f.order.amount,
                                   currency := f.order.currency, reference := Reference(f.id, f.attempts))),
                attempts := f.attempts + 1))
  }

  predicate OpenAttempt(s: PaymentStatus) { s in {Pending, RequiresAction, Processing} }

  /** The split confirmation books: the order's snapshot, unless its commission is zero. */
  function BookedSplit(o: Order, amount: int): (int, int) {
    if o.commissionAmount == 0 then CommissionSplit(amount, o.commissionRate)
    else (o.commissionAmount, o.expertAmount)
  }

  function ChargeEntries(f: File, amount: int): seq<Entry> {
    var (commission, net) := BookedSplit(f.order, amount);
    [Entry(Charge, amount, f.id, Some(f.order.student)),
     Entry(Commission, commission, f.id, None),
     Entry(ExpertCredit, net, f.id, Some(f.order.expert))]
  }

  /** orders.mark_paid, run by the payment_confirmed signal inside the same transaction. */
  function MarkPaid(f: File, now: Time): Option<File> {
    if f.order.paidAt.Some? then None
    else
      match Moved(f.(order := f.order.(paidAt := Some(now))), Active, PaymentConfirmed)
      case None => None
      case Some(g) => Some(Record(g, PaymentConfirmed))
  }

  /** The one confirmation path; `accepted` is the gateway's answer. */
  function ConfirmPayment(f: File, accepted: bool, now: Time): Step {
    if f.payment.None? then Refuse(f, NotFound)
    else
      var p := f.payment.value;
      if p.status == Succeeded then Refuse(f, DuplicatePayment)
      else if p.status == Canceled || p.status == Refunded then Refuse(f, InvalidTransition)
      else if f.order.status != AwaitingPayment then Refuse(f, InvalidTransition)
      else if p.amountMinor != f.order.amount || p.currency != f.order.currency then Refuse(f, AmountMismatch)
      else if !accepted then
        // the transaction rolls back, then the open attempt is marked failed on its own
        var q := if OpenAttempt(p.status) then p.(status := Failed) else p;
        Step(f.(payment := Some(q)), [], Some(PaymentFailed))
      else
        match MarkPaid(f.(payment := Some(p.(status := Succeeded, paidAt := Some(now)))), now)
        case None => Refuse(f, InvalidTransition)
        case Some(g) => Step(g, ChargeEntries(f, p.amountMinor), None)
  }

  /** Operator flow: the missing payment row is created in its own transaction first. */
  function ConfirmOrderPayment(f: File, gateway: Gateway, accepted: bool, now: Time): Step {
    if gateway != Manual then Refuse(f, FeatureDisabled)
    else if f.payment.None? then ConfirmPayment(Armed(f, gateway), accepted, now)
    else ConfirmPayment(f, accepted, now)
  }

  function VoidPayment(f: File): File {
    if f.payment.Some? && OpenAttempt(f.payment.value.status)
    then f.(payment := Some(f.payment.value.(status := Canceled)))
    else f
  }

  // --- webhook handlers ----------------------------------------------------------------

  function PaymentSucceededEvent(f: File, accepted: bool, now: Time): Step {
    if f.payment.Some? && f.payment.value.status == Succeeded then Done(f)
    else ConfirmPayment(f, accepted, now)
  }

  function PaymentFailedEvent(f: File): Step {
    if f.payment.None? || f.payment.value.status in {Succeeded, Canceled} then Done(f)
    else Done(f.(payment := Some(f.payment.value.(status := Failed))))
  }

  function RefundSucceededEvent(f: File, k: nat): Step {
    if k >= |f.refunds| || f.refunds[k].status == RefundSucceeded then Done(f)
    else Done(f.(refunds := f.refunds[k := f.refunds[k].(status := RefundSucceeded)]))
  }

  // --- delivery loop ---------------------------------------------------------------------

  function SubmitDelivery(f: File, actor: Actor, summaryLength: nat, attachmentsOwned: bool, now: Time): Step {
    var o := f.order;
    if o.expert != actor.id then Refuse(f, PermissionDenied)
    else if o.status !in {Active, RevisionRequested} then Refuse(f, OrderLocked)
    else if summaryLength < MIN_DELIVERY_SUMMARY || !attachmentsOwned then Refuse(f, ValidationError)
    else
      var number := if o.status == RevisionRequested then o.revisionsUsed else 0;
      if exists d <- f.deliveries :: d.revisionNumber == number then Refuse(f, IntegrityError)
      else
        var g := f.(deliveries := f.deliveries + [Delivery(number, Submitted, now, None)],
                    order := o.(deliveredAt := Some(now), autoApproveAt := Some(now + AUTO_APPROVE)));
        match Moved(g, Delivered, if number != 0 then Redelivered else WorkDelivered)
        case None => Refuse(f, InvalidTransition)
        case Some(h) => Done(h)
  }

  function RequestRevision(f: File, actor: Actor, noteLength: nat): Step {
    var o := f.order;
    if o.student != actor.id then Refuse(f, PermissionDenied)
    else if o.status != Delivered then Refuse(f, OrderLocked)
    else if o.revisionsUsed >= o.revisionsAllowed then Refuse(f, RevisionsExhausted)
    else if noteLength < MIN_REVISION_NOTE then Refuse(f, ValidationError)
    else if f.deliveries == [] then Refuse(f, OrderLocked)
    else
      var k := Latest(f.deliveries);
      var g := f.(deliveries := f.deliveries[k := f.deliveries[k].(status := SentBack)],
                  order := o.(revisionsUsed := o.revisionsUsed + 1, autoApproveAt := None));
      match Moved(g, RevisionRequested, RevisionAsked)
      case None => Refuse(f, InvalidTransition)
      case Some(h) => Done(Record(h, RevisionAsked))
  }

  datatype Approver = ByStudent(actor: Actor) | ByAdmin(staff: Option<Actor>) | ByWorker

  /** payments.schedule_payout on a completed order; `l` are the order's ledger entries. */
  function WithPayout(f: File, l: seq<Entry>, floor: int): File {
    if f.payouts != [] || f.order.hasOpenDispute || Total(l, ExpertCredit) < floor then f
    else f.(payouts := [PayoutRow(f.order.expert, Total(l, ExpertCredit), Scheduled)])
  }

  function SchedulePayout(f: File, l: seq<Entry>, floor: int): Step {
    if f.order.status != Completed then Refuse(f, InvalidTransition)
    else Done(WithPayout(f, l, floor))
  }

  predicate IsStaff(actor: Option<Actor>) { actor.Some? && actor.value.staff }

  function ApproveDelivery(f: File, l: seq<Entry>, approver: Approver, floor: int, now: Time): Step {
    var o := f.order;
    if approver.ByStudent? && o.student != approver.actor.id then Refuse(f, PermissionDenied)
    else if approver.ByAdmin? && !IsStaff(approver.staff) then Refuse(f, PermissionDenied)
    else if o.status != Delivered then Refuse(f, OrderLocked)
    else
      var ds := if f.deliveries == [] then []
                else
                  var k := Latest(f.deliveries);
                  f.deliveries[k := f.deliveries[k].(status := Approved, approvedAt := Some(now))];
      var g := f.(deliveries := ds, order := o.(completedAt := Some(now), autoApproveAt := None));
      match Moved(g, Completed, if approver.ByWorker? then AutoApproved else DeliveryApproved)
      case None => Refuse(f, InvalidTransition)
      case Some(h) => Done(WithPayout(Record(h, OrderCompleted), l, floor))
  }

  // --- cancellation ------------------------------------------------------------------------

  function Cancel(f: File, actor: Actor, reasonGiven: bool, now: Time): Step {
    var o := f.order;
    if o.student != actor.id && o.expert != actor.id && !actor.staff then Refuse(f, PermissionDenied)
    else if o.status != AwaitingPayment && !actor.staff then Refuse(f, PermissionDenied)
    else if !reasonGiven then Refuse(f, ValidationError)
    else
      match Moved(f.(order := o.(cancelledAt := Some(now))), Cancelled, OrderCancelled)
      case None => Refuse(f, InvalidTransition)
      case Some(g) => Done(VoidPayment(g))
  }

  predicate UnpaidTooLong(f: File, now: Time) {
    f.order.status == AwaitingPayment && f.order.createdAt + UNPAID_CANCEL <= now
  }

  /** sweep_unpaid on one order: unlike Cancel it leaves the payment attempt open. */
  function SweepUnpaid(f: File, now: Time): Step {
    if !UnpaidTooLong(f, now) then Done(f)
    else
      match Moved(f.(order := f.order.(cancelledAt := Some(now))), Cancelled, OrderCancelled)
      case None => Refuse(f, InvalidTransition)
      case Some(g) => Done(g)
  }

  // --- refunds and payouts -------------------------------------------------------------------

  function NonNegative(x: int): nat { if x < 0 then 0 else x }

  /** The commission part of a refund: allocate(amount, [commission, expert amount]). */
  function ReversedCommission(o: Order, amount: int): int
    requires NonNegative(o.commissionAmount) + NonNegative(o.expertAmount) > 0
  {
    var c, e := NonNegative(o.commissionAmount), NonNegative(o.expertAmount);
    RoundHalfUp(amount * c, c + e)
  }

  function RefundEntries(f: File, amount: int, commission: int): seq<Entry> {
    var credit := amount - commission;
    [Entry(Ledger.Refund, -amount, f.id, Some(f.order.student))]
    + (if credit != 0 then [Entry(ExpertCredit, -credit, f.id, Some(f.order.expert))] else [])
    + (if commission != 0 then [Entry(Commission, -commission, f.id, None)] else [])
  }

  function IssueRefund(f: File, actor: Option<Actor>, amount: int, reasonKnown: bool): Step {
    if !IsStaff(actor) then Refuse(f, PermissionDenied)
    else if f.payment.None? then Refuse(f, NotFound)
    else
      var p := f.payment.value;
      if p.status !in {Succeeded, PartiallyRefunded} then Refuse(f, InvalidTransition)
      else if amount <= 0 || amount > p.amountMinor - p.refundedMinor then Refuse(f, ValidationError)
      else if !reasonKnown then Refuse(f, ValidationError)
      else if NonNegative(f.order.commissionAmount) + NonNegative(f.order.expertAmount) == 0
      then Refuse(f, ValueError)
      else
        var refunded := p.refundedMinor + amount;
        var q := p.(refundedMinor := refunded,
                    status := if refunded >= p.amountMinor then Refunded else PartiallyRefunded);
        Step(f.(payment := Some(q), refunds := f.refunds + [RefundRow(amount, RefundSucceeded)]),
             RefundEntries(f, amount, ReversedCommission(f.order, amount)),
             None)
  }

  function SettlePayout(f: File, k: nat, actor: Option<Actor>): Step {
    if !IsStaff(actor) then Refuse(f, PermissionDenied)
    else if k >= |f.payouts| then Refuse(f, NotFound)
    else
      var po := f.payouts[k];
      if po.status == Paid then Refuse(f, DuplicatePayout)
      else if po.status !in {Scheduled, PayoutFailed, InTransit} then Refuse(f, InvalidTransition)
      else if f.order.hasOpenDispute then Refuse(f, PayoutFrozen)
      else
        Step(f.(payouts := f.payouts[k := po.(status := Paid)]),
             [Entry(Ledger.Payout, -po.amountMinor, f.id, Some(po.expert))],
             None)
  }

  function MarkPayoutFailed(f: File, k: nat, actor: Option<Actor>): Step {
    if !IsStaff(actor) then Refuse(f, PermissionDenied)
    else if k >= |f.payouts| then Refuse(f, NotFound)
    else if f.payouts[k].status == Paid then Refuse(f, InvalidTransition)
    else Done(f.(payouts := f.payouts[k := f.payouts[k].(status := PayoutFailed)]))
  }

  // --- disputes --------------------------------------------------------------------------------

  function OpenDispute(f: File, actor: Actor, reasonKnown: bool, textLength: nat, evidenceOwned: bool,
                       windowDays: nat, now: Time): Step
  {
    var o := f.order;
    if actor.id != o.student && actor.id != o.expert then Refuse(f, PermissionDenied)
    else if f.dispute.Some? then Refuse(f, DuplicateDispute)
    else if o.status == Completed && (o.completedAt.None? || now > o.completedAt.value + windowDays * DAY)
    then Refuse(f, DisputeWindowClosed)
    else if o.status !in {Completed, Active, Delivered, RevisionRequested} then Refuse(f, DisputeWindowClosed)
    else if !reasonKnown || textLength < MIN_DISPUTE_TEXT || !evidenceOwned then Refuse(f, ValidationError)
    else
      var g := f.(dispute := Some(Dispute(actor.id, o.status, Open, None)),
                  order := o.(hasOpenDispute := true));
      match Moved(g, OrderStatus.Disputed, DisputeOpened)
      case None => Refuse(f, InvalidTransition)
      case Some(h) => Done(h)
  }

  /** The dispute transition table. */
  predicate DisputeAllowed(from: DisputeStatus, to: DisputeStatus) {
    (from, to) in {(Open, UnderReview), (Open, AwaitingResponse), (AwaitingResponse, UnderReview),
                   (UnderReview, Resolved), (Resolved, Closed)}
  }

  /** take_case and resume_review (to UnderReview), await_response (to AwaitingResponse). */
  function MoveDispute(f: File, to: DisputeStatus, actor: Option<Actor>): Step {
    if !IsStaff(actor) then Refuse(f, PermissionDenied)
    else if f.dispute.None? then Refuse(f, NotFound)
    else if !DisputeAllowed(f.dispute.value.status, to) then Refuse(f, InvalidTransition)
    else Done(f.(dispute := Some(f.dispute.value.(status := to))))
  }

  /** Where an outcome leaves the order. */
  function OutcomeStatus(outcome: Outcome, prior: OrderStatus): OrderStatus {
    match outcome
    case RefundFull => Cancelled
    case RefundPartial => Completed
    case ReleaseExpert => Completed
    case Split => Completed
    case NoFaultClose => prior
  }

  /** The refund a resolution executes: everything refundable, or strictly less than that. */
  function ResolutionAmount(p: Payment, outcome: Outcome, requested: Option<int>): Option<int> {
    var refundable := p.amountMinor - p.refundedMinor;
    if outcome == RefundFull then Some(refundable)
    else
      var amount := if requested.Some? then requested.value else 0;
      if amount <= 0 || amount >= refundable then None else Some(amount)
  }

  /** The refund branch of resolve: the refund of what is fixed from the payment as it was read
      first, and for a full one the voided payout. */
  function ResolutionRefundOf(f: File, read: Option<Payment>, actor: Option<Actor>, outcome: Outcome,
                              requested: Option<int>): Step
  {
    if read.None? || read.value.status !in {Succeeded, PartiallyRefunded}
    then Refuse(f, ValidationError)
    else
      match ResolutionAmount(read.value, outcome, requested)
      case None => Refuse(f, ValidationError)
      case Some(amount) =>
        var s := IssueRefund(f, actor, amount, true);
        var k := FirstUnpaid(f.payouts);
        if s.error.Some? || outcome != RefundFull || k >= |f.payouts| then s
        else s.(file := s.file.(payouts := f.payouts[k := f.payouts[k].(status := PayoutFailed)]))
  }

  function ResolutionRefund(f: File, actor: Option<Actor>, outcome: Outcome, requested: Option<int>): Step {
    ResolutionRefundOf(f, f.payment, actor, outcome, requested)
  }

  predicate Refunds(outcome: Outcome) { outcome in {RefundFull, RefundPartial, Split} }

  /** Partial and split outcomes correct the unsettled payout to the remaining balance. */
  function Corrected(f: File, outcome: Outcome, credit: int): File {
    var k := FirstUnpaid(f.payouts);
    if outcome !in {RefundPartial, Split} || k >= |f.payouts| then f
    else f.(payouts := f.payouts[k := f.payouts[k].(amountMinor := credit)])
  }

  /** resolve on the order as it is locked, the dispute as it was read before, and the payment as
      it was read before it was locked. */
  function ResolveRead(f: File, read: Option<Payment>, l: seq<Entry>, actor: Option<Actor>, outcome: Outcome,
                       notesLength: nat, requested: Option<int>): Step
  {
    if !IsStaff(actor) then Refuse(f, PermissionDenied)
    else if f.dispute.None? then Refuse(f, NotFound)
    else if f.dispute.value.status != UnderReview then Refuse(f, InvalidTransition)
    else if notesLength < MIN_DISPUTE_TEXT then Refuse(f, ValidationError)
    else
      var s := if Refunds(outcome) then ResolutionRefundOf(f, read, actor, outcome, requested) else Done(f);
      if s.error.Some? then Refuse(f, s.error.value)
      else
        var thawed := s.file.(order := s.file.order.(hasOpenDispute := false));
        var g := Corrected(thawed, outcome, Total(l + s.posted, ExpertCredit));
        var to := OutcomeStatus(outcome, f.dispute.value.priorStatus);
        var moved := if to != g.order.status then Moved(g, to, DisputeResolved(outcome))
                     else Some(Record(g, DisputeResolved(outcome)));
        match moved
        case None => Refuse(f, InvalidTransition)
        case Some(h) =>
          Step(h.(dispute := Some(f.dispute.value.(status := Resolved, outcome := Some(outcome)))), s.posted, None)
  }

  /** resolve when nothing interferes: both reads are as the rows are. */
  function Resolve(f: File, l: seq<Entry>, actor: Option<Actor>, outcome: Outcome, notesLength: nat,
                   requested: Option<int>): Step
  {
    ResolveRead(f, f.payment, l, actor, outcome, notesLength, requested)
  }

  function CloseDispute(f: File, actor: Option<Actor>): Step {
    if !IsStaff(actor) then Refuse(f, PermissionDenied)
    else if f.dispute.None? then Refuse(f, NotFound)
    else if f.dispute.value.status != Resolved then Refuse(f, InvalidTransition)
    else Done(f.(dispute := Some(f.dispute.value.(status := Closed))))
  }

  // --- one operation of the order machine --------------------------------------------------------

  datatype Op =
    | OpStart(actor: Actor, gateway: Gateway)
    | OpConfirm(accepted: bool, now: Time)
    | OpConfirmOrder(gateway: Gateway, accepted: bool, now: Time)
    | OpSucceededEvent(accepted: bool, now: Time)
    | OpFailedEvent
    | OpRefundEvent(k: nat)
    | OpSubmit(actor: Actor, length: nat, attachmentsOwned: bool, now: Time)
    | OpRevise(actor: Actor, length: nat)
    | OpApprove(approver: Approver, floor: int, now: Time)
    | OpCancel(actor: Actor, reasonGiven: bool, now: Time)
    | OpSweep(now: Time)
    | OpRefund(staff: Option<Actor>, amount: int, reasonKnown: bool)
    | OpSchedule(floor: int)
    | OpSettle(k: nat, staff: Option<Actor>)
    | OpFailPayout(k: nat, staff: Option<Actor>)
    | OpDispute(actor: Actor, reasonKnown: bool, length: nat, evidenceOwned: bool, windowDays: nat, now: Time)
    | OpTakeCase(staff: Option<Actor>)
    | OpAwait(staff: Option<Actor>)
    | OpResolve(staff: Option<Actor>, outcome: Outcome, length: nat, requested: Option<int>)
    | OpClose(staff: Option<Actor>)
    | OpMark(marker: Marker)

  predicate PaymentOp(op: Op) {
    op.OpStart? || op.OpConfirm? || op.OpConfirmOrder? || op.OpSucceededEvent? || op.OpFailedEvent?
    || op.OpRefundEvent? || op.OpRefund?
  }

  predicate WorkOp(op: Op) {
    op.OpSubmit? || op.OpRevise? || op.OpApprove? || op.OpCancel? || op.OpSweep? || op.OpMark?
  }

  predicate PayoutOp(op: Op) { op.OpSchedule? || op.OpSettle? || op.OpFailPayout? }

  function ApplyPayment(f: File, op: Op): Step
    requires PaymentOp(op)
  {
    match op
    case OpStart(actor, gateway) => StartPayment(f, actor, gateway)
    case OpConfirm(accepted, now) => ConfirmPayment(f, accepted, now)
    case OpConfirmOrder(gateway, accepted, now) => ConfirmOrderPayment(f, gateway, accepted, now)
    case OpSucceededEvent(accepted, now) => PaymentSucceededEvent(f, accepted, now)
    case OpFailedEvent => PaymentFailedEvent(f)
    case OpRefundEvent(k) => RefundSucceededEvent(f, k)
    case OpRefund(staff, amount, known) => IssueRefund(f, staff, amount, known)
  }

  function ApplyWork(f: File, l: seq<Entry>, op: Op): Step
    requires WorkOp(op)
  {
    match op
    case OpSubmit(actor, length, owned, now) => SubmitDelivery(f, actor, length, owned, now)
    case OpRevise(actor, length) => RequestRevision(f, actor, length)
    case OpApprove(approver, floor, now) => ApproveDelivery(f, l, approver, floor, now)
    case OpCancel(actor, given, now) => Cancel(f, actor, given, now)
    case OpSweep(now) => SweepUnpaid(f, now)
    case OpMark(marker) => Done(Record(f, Marked(marker)))
  }

  function ApplyPayout(f: File, l: seq<Entry>, op: Op): Step
    requires PayoutOp(op)
  {
    match op
    case OpSchedule(floor) => SchedulePayout(f, l, floor)
    case OpSettle(k, staff) => SettlePayout(f, k, staff)
    case OpFailPayout(k, staff) => MarkPayoutFailed(f, k, staff)
  }

  function ApplyDispute(f: File, l: seq<Entry>, op: Op): Step
    requires !PaymentOp(op) && !WorkOp(op) && !PayoutOp(op)
  {
    match op
    case OpDispute(actor, known, length, owned, days, now) => OpenDispute(f, actor, known, length, owned, days, now)
    case OpTakeCase(staff) => MoveDispute(f, UnderReview, staff)
    case OpAwait(staff) => MoveDispute(f, AwaitingResponse, staff)
    case OpResolve(staff, outcome, length, requested) => Resolve(f, l, staff, outcome, length, requested)
    case OpClose(staff) => CloseDispute(f, staff)
  }

  /** One service call on the order whose ledger entries are l. */
  function Apply(f: File, l: seq<Entry>, op: Op): Step {
    if PaymentOp(op) then ApplyPayment(f, op)
    else if WorkOp(op) then ApplyWork(f, l, op)
    else if PayoutOp(op) then ApplyPayout(f, l, op)
    else ApplyDispute(f, l, op)
  }
}
