/** What every service call keeps about one order, its money and its ledger entries. */
module OrderInvariant {
  import opened Core
  import opened Ledger
  import opened Money
  import opened OrderFile
  import opened OrderSteps

  // --- the clauses ----------------------------------------------------------------------

  /** The terms the order was created with: a positive amount, split without loss. */
  ghost predicate Terms(o: Order) {
    && o.amount > 0
    && 0 <= o.commissionAmount && 0 <= o.expertAmount
    && o.commissionAmount + o.expertAmount == o.amount
    && o.commissionRate == DEFAULT_RATE
    && o.student != o.expert
  }

  ghost predicate IsPaid(f: File) { f.order.paidAt.Some? }

  ghost predicate RefundRowsPositive(rows: seq<RefundRow>) {
    forall r <- rows :: r.amountMinor > 0 && r.status == RefundSucceeded
  }

  /** The payment row mirrors the order; its status tells how much was refunded. */
  ghost predicate PaymentRow(f: File) {
    && RefundRowsPositive(f.refunds)
    && (f.payment.None? ==> !IsPaid(f) && f.refunds == [])
    && (f.payment.Some? ==>
          var p := f.payment.value;
          && p.amountMinor == f.order.amount && p.currency == f.order.currency
          && p.reference.order == f.id && p.reference.attempt < f.attempts
          && p.refundedMinor == RefundSum(f.refunds)
          && 0 <= p.refundedMinor <= p.amountMinor
          && (p.status == Succeeded ==> p.refundedMinor == 0)
          && (p.status == PartiallyRefunded ==> 0 < p.refundedMinor < p.amountMinor)
          && (p.status == Refunded ==> p.refundedMinor == p.amountMinor)
          && (IsPaid(f) ==> p.status in {Succeeded, PartiallyRefunded, Refunded, Failed})
          && (IsPaid(f) && p.status == Failed ==> p.refundedMinor > 0)
          && (!IsPaid(f) ==> p.status in {Pending, Failed, Canceled} && p.refundedMinor == 0))
  }

  /** Paid exactly from activation on; a cancelled order may be either. */
  ghost predicate PaidWhenActive(f: File) {
    && (f.order.status == AwaitingPayment ==> !IsPaid(f))
    && (f.order.status !in {AwaitingPayment, Cancelled} ==> IsPaid(f))
  }

  /** The commission the ledger booked at confirmation. */
  function BookedCommission(o: Order): int { BookedSplit(o, o.amount).0 }

  /** The per-order books: exactly-once charge, the ledger identity, refunds mirrored. */
  ghost predicate Books(f: File, l: seq<Entry>) {
    && Tally(l, Charge) == (if IsPaid(f) then 1 else 0)
    && Total(l, Charge) == (if IsPaid(f) then f.order.amount else 0)
    && Total(l, Fee) == 0 && Total(l, Adjustment) == 0
    && Total(l, Charge) + Total(l, Ledger.Refund)
       == Total(l, Commission) + Total(l, ExpertCredit) + Total(l, Fee)
    && Total(l, Ledger.Refund) == -RefundSum(f.refunds)
  }

  /** Commission reversed so far. */
  ghost function ReversedSoFar(f: File, l: seq<Entry>): int {
    (if IsPaid(f) then BookedCommission(f.order) else 0) - Total(l, Commission)
  }

  /** Reversed commission stays within half a unit per refund of its exact share. */
  ghost predicate DriftBounded(f: File, l: seq<Entry>) {
    WithinHalfUnits(f.order.amount, f.order.commissionAmount, ReversedSoFar(f, l), RefundSum(f.refunds), |f.refunds|)
  }

  /** |reversed - refunded * commission / whole| <= k / 2, without the division. */
  predicate WithinHalfUnits(whole: int, commission: int, reversed: int, refunded: int, k: nat) {
    Abs(2 * (whole * reversed - refunded * commission)) <= k * whole
  }

  ghost predicate EntriesNamed(f: File, l: seq<Entry>) {
    forall e <- l ::
      && e.order == f.id
      && (e.kind in {ExpertCredit, Ledger.Payout} ==> e.user == Some(f.order.expert))
  }

  /** At most one payout row, for the order's expert and only on a paid order. */
  ghost predicate PayoutRows(f: File) {
    && |f.payouts| <= 1
    && (f.payouts != [] ==> IsPaid(f))
    && (forall p <- f.payouts :: p.expert == f.order.expert && p.status in {Scheduled, Paid, PayoutFailed})
  }

  predicate HasPaidOut(f: File) { f.payouts != [] && f.payouts[0].status == Paid }

  /** A PAYOUT entry exactly when the payout is paid, and of its amount. */
  ghost predicate PayoutBooks(f: File, l: seq<Entry>) {
    && Tally(l, Ledger.Payout) == (if HasPaidOut(f) then 1 else 0)
    && Total(l, Ledger.Payout) == (if HasPaidOut(f) then -f.payouts[0].amountMinor else 0)
  }

  predicate OpenStatus(s: DisputeStatus) { s in {Open, UnderReview, AwaitingResponse} }

  predicate Disputable(s: OrderStatus) { s in {Active, Delivered, RevisionRequested, Completed} }

  /** The freeze flag is the dispute's openness; only disputed or cancelled orders carry it. */
  ghost predicate Freeze(f: File) {
    && (f.order.hasOpenDispute <==> f.dispute.Some? && OpenStatus(f.dispute.value.status))
    && (f.order.status == OrderStatus.Disputed ==> f.order.hasOpenDispute)
    && (f.order.hasOpenDispute ==> f.order.status in {OrderStatus.Disputed, Cancelled})
    && (f.dispute.Some? ==> Disputable(f.dispute.value.priorStatus))
    && (f.dispute.Some? ==> IsPaid(f))
  }

  /** The status the order has, or had when its open dispute froze it. */
  function Phase(f: File): OrderStatus {
    if f.order.status == OrderStatus.Disputed && f.dispute.Some? then f.dispute.value.priorStatus
    else f.order.status
  }

  /** Revision numbers are 0, 1, 2, ... and how many there are follows from the phase. */
  ghost predicate Numbered(f: File) {
    var o, n := f.order, |f.deliveries|;
    && (forall i :: 0 <= i < n ==> f.deliveries[i].revisionNumber == i)
    && o.revisionsUsed <= o.revisionsAllowed
    && (match Phase(f)
        case AwaitingPayment => n == 0 && o.revisionsUsed == 0
        case Active => n == 0 && o.revisionsUsed == 0
        case Delivered => n == o.revisionsUsed + 1
        case RevisionRequested => n == o.revisionsUsed && n > 0
        case _ => n == o.revisionsUsed || n == o.revisionsUsed + 1)
  }

  /** While a delivery awaits review its 72 hours run from its own submission. */
  ghost predicate ReviewWindow(f: File) {
    Phase(f) == Delivered && f.deliveries != [] ==>
      f.order.autoApproveAt == Some(f.deliveries[|f.deliveries| - 1].submittedAt + AUTO_APPROVE)
  }

  /** The clauses about the rows alone. */
  ghost predicate Rows(f: File) {
    && Terms(f.order)
    && PaymentRow(f)
    && PaidWhenActive(f)
    && PayoutRows(f)
    && Freeze(f)
    && Numbered(f)
    && ReviewWindow(f)
  }

  ghost predicate Inv(f: File, l: seq<Entry>) {
    && Rows(f)
    && Books(f, l)
    && PayoutBooks(f, l)
    && EntriesNamed(f, l)
  }

  // --- totals of what a call posts --------------------------------------------------------

  lemma ChargeTotals(f: File, amount: int, k: Kind)
    ensures var l := ChargeEntries(f, amount);
            var (commission, net) := BookedSplit(f.order, amount);
            && Total(l, k) == (match k case Charge => amount case Commission => commission
                                       case ExpertCredit => net case _ => 0)
            && Tally(l, k) == (if k in {Charge, Commission, ExpertCredit} then 1 else 0)
  {
    var l := ChargeEntries(f, amount);
    assert l == ([] + [l[0]] + [l[1]]) + [l[2]];
    TotalAppend([], l[0], k);
    TotalAppend([] + [l[0]], l[1], k);
    TotalAppend([] + [l[0]] + [l[1]], l[2], k);
  }

  lemma RefundTotals(f: File, amount: int, commission: int, k: Kind)
    ensures var l := RefundEntries(f, amount, commission);
            && Total(l, k) == (match k case Refund => -amount case Commission => -commission
                                       case ExpertCredit => commission - amount case _ => 0)
            && (k in {Charge, Ledger.Payout} ==> Tally(l, k) == 0)
  {
    var credit := amount - commission;
    var a := [Entry(Ledger.Refund, -amount, f.id, Some(f.order.student))];
    var b := if credit != 0 then [Entry(ExpertCredit, -credit, f.id, Some(f.order.expert))] else [];
    var c := if commission != 0 then [Entry(Commission, -commission, f.id, None)] else [];
    TotalConcat(a + b, c, k);
    TotalConcat(a, b, k);
    TotalOne(a[0], k);
    if b != [] { TotalOne(b[0], k); }
    if c != [] { TotalOne(c[0], k); }
  }

  // --- creation ------------------------------------------------------------------------------

  lemma NewFileInv(id: OrderId, request: nat, student: UserId, expert: UserId,
                   amount: int, currency: string, rate: int, now: Time)
    requires amount > 0 && 0 <= rate <= RATE_UNIT && student != expert
    ensures Inv(NewFile(id, request, student, expert, amount, currency, rate, now), [])
    ensures DriftBounded(NewFile(id, request, student, expert, amount, currency, rate, now), [])
  {
    RoundHalfUpWithin(amount, rate, RATE_UNIT);
  }

  // --- the rows, one service at a time -----------------------------------------------------

  lemma StartRows(f: File, actor: Actor, gateway: Gateway)
    requires Rows(f)
    ensures Rows(StartPayment(f, actor, gateway).file)
  {
  }

  lemma ConfirmRows(f: File, accepted: bool, now: Time)
    requires Rows(f)
    ensures Rows(ConfirmPayment(f, accepted, now).file)
  {
  }

  lemma ConfirmOrderRows(f: File, gateway: Gateway, accepted: bool, now: Time)
    requires Rows(f)
    ensures Rows(ConfirmOrderPayment(f, gateway, accepted, now).file)
  {
    if gateway == Manual && f.payment.None? {
      assert Rows(Armed(f, gateway));
      ConfirmRows(Armed(f, gateway), accepted, now);
    } else {
      ConfirmRows(f, accepted, now);
    }
  }

  lemma EventRows(f: File, k: nat)
    requires Rows(f)
    ensures Rows(PaymentFailedEvent(f).file)
    ensures RefundSucceededEvent(f, k).file == f
  {
  }

  lemma SubmitRows(f: File, actor: Actor, length: nat, owned: bool, now: Time)
    requires Rows(f)
    ensures Rows(SubmitDelivery(f, actor, length, owned, now).file)
  {
  }

  lemma ReviseRows(f: File, actor: Actor, length: nat)
    requires Rows(f)
    ensures Rows(RequestRevision(f, actor, length).file)
  {
  }

  lemma WithPayoutRows(f: File, l: seq<Entry>, floor: int)
    requires Rows(f) && f.order.status == Completed
    ensures Rows(WithPayout(f, l, floor))
  {
  }

  /** A completed order's rows, before its payout is scheduled. */
  lemma CompletedRows(f: File, ds: seq<Delivery>, events: seq<Event>, now: Time)
    requires Rows(f) && f.order.status == Delivered && |ds| == |f.deliveries|
    requires forall i :: 0 <= i < |ds| ==> ds[i].revisionNumber == f.deliveries[i].revisionNumber
    ensures Rows(f.(deliveries := ds, events := events,
                    order := f.order.(completedAt := Some(now), autoApproveAt := None, status := Completed)))
  {
  }

  lemma ApproveRows(f: File, l: seq<Entry>, approver: Approver, floor: int, now: Time)
    requires Rows(f)
    ensures Rows(ApproveDelivery(f, l, approver, floor, now).file)
  {
    var s := ApproveDelivery(f, l, approver, floor, now);
    if s.error.None? {
      var g := s.file.(payouts := f.payouts);
      CompletedRows(f, g.deliveries, g.events, now);
      WithPayoutRows(g, l, floor);
    }
  }

  lemma CancelRows(f: File, actor: Actor, given: bool, now: Time)
    requires Rows(f)
    ensures Rows(Cancel(f, actor, given, now).file)
  {
  }

  lemma SweepRows(f: File, now: Time)
    requires Rows(f)
    ensures Rows(SweepUnpaid(f, now).file)
  {
  }

  lemma RefundSumAppend(rows: seq<RefundRow>, r: RefundRow)
    ensures RefundSum(rows + [r]) == RefundSum(rows) + r.amountMinor
  {
    assert (rows + [r])[..|rows|] == rows;
  }

  lemma RefundRows(f: File, staff: Option<Actor>, amount: int, known: bool)
    requires Rows(f)
    ensures Rows(IssueRefund(f, staff, amount, known).file)
  {
    RefundSumAppend(f.refunds, RefundRow(amount, RefundSucceeded));
  }

  lemma SettleRows(f: File, k: nat, staff: Option<Actor>)
    requires Rows(f)
    ensures Rows(SettlePayout(f, k, staff).file)
  {
  }

  lemma FailPayoutRows(f: File, k: nat, staff: Option<Actor>)
    requires Rows(f)
    ensures Rows(MarkPayoutFailed(f, k, staff).file)
  {
  }

  /** A dispute that was opened, as a whole. */
  lemma OpenedShape(f: File, actor: Actor, known: bool, length: nat, owned: bool, days: nat, now: Time)
    ensures var s := OpenDispute(f, actor, known, length, owned, days, now);
            s.posted == []
            && if s.error.Some? then s.file == f
               else
                 && f.dispute.None? && Disputable(f.order.status)
                 && s.file == f.(dispute := Some(Dispute(actor.id, f.order.status, Open, None)),
                                 order := f.order.(hasOpenDispute := true, status := OrderStatus.Disputed),
                                 events := f.events + [DisputeOpened])
  {
  }

  lemma OpenDisputeRows(f: File, actor: Actor, known: bool, length: nat, owned: bool, days: nat, now: Time)
    requires Rows(f)
    ensures Rows(OpenDispute(f, actor, known, length, owned, days, now).file)
  {
    OpenedShape(f, actor, known, length, owned, days, now);
  }

  lemma MoveDisputeRows(f: File, to: DisputeStatus, staff: Option<Actor>)
    requires Rows(f) && to in {UnderReview, AwaitingResponse}
    ensures Rows(MoveDispute(f, to, staff).file)
  {
  }

  lemma CloseDisputeRows(f: File, staff: Option<Actor>)
    requires Rows(f)
    ensures Rows(CloseDispute(f, staff).file)
  {
  }

  /** The rows a resolution writes once its refund is booked in f. */
  lemma ResolvedRows(f: File, payouts: seq<PayoutRow>, outcome: Outcome, events: seq<Event>)
    requires Rows(f) && f.dispute.Some? && f.dispute.value.status == UnderReview
    requires var to := OutcomeStatus(outcome, f.dispute.value.priorStatus);
             to != f.order.status ==> Allowed(f.order.status, to)
    requires PayoutRows(f.(payouts := payouts))
    ensures var to := OutcomeStatus(outcome, f.dispute.value.priorStatus);
            Rows(f.(payouts := payouts, events := events,
                    order := f.order.(hasOpenDispute := false, status := to),
                    dispute := Some(f.dispute.value.(status := Resolved, outcome := Some(outcome)))))
  {
  }

  lemma VoidedRows(f: File, k: nat)
    requires Rows(f) && k < |f.payouts|
    ensures Rows(f.(payouts := f.payouts[k := f.payouts[k].(status := PayoutFailed)]))
  {
  }

  function Voided(f: File): File {
    var k := FirstUnpaid(f.payouts);
    if k < |f.payouts| then f.(payouts := f.payouts[k := f.payouts[k].(status := PayoutFailed)]) else f
  }

  /** A resolution's refund is issue_refund of some amount, a full one also voiding the payout. */
  lemma ResolutionRefundShape(f: File, staff: Option<Actor>, outcome: Outcome, requested: Option<int>)
    returns (amount: int)
    ensures var s := ResolutionRefund(f, staff, outcome, requested);
            if s.error.Some? then s.file == f && s.posted == []
            else
              var i := IssueRefund(f, staff, amount, true);
              && i.error.None? && s.posted == i.posted
              && s.file == (if outcome == RefundFull then Voided(i.file) else i.file)
  {
    amount := 0;
    if f.payment.Some? {
      var a := ResolutionAmount(f.payment.value, outcome, requested);
      if a.Some? {
        amount := a.value;
      }
    }
  }

  lemma ResolutionRefundRows(f: File, staff: Option<Actor>, outcome: Outcome, requested: Option<int>)
    requires Rows(f)
    ensures Rows(ResolutionRefund(f, staff, outcome, requested).file)
  {
    var amount := ResolutionRefundShape(f, staff, outcome, requested);
    RefundRows(f, staff, amount, true);
    var i := IssueRefund(f, staff, amount, true);
    if FirstUnpaid(i.file.payouts) < |i.file.payouts| {
      VoidedRows(i.file, FirstUnpaid(i.file.payouts));
    }
  }

  /** The rows of a successful resolution, in terms of the rows after its refund. */
  lemma ResolvedShape(f: File, l: seq<Entry>, staff: Option<Actor>, outcome: Outcome, length: nat,
                      requested: Option<int>) returns (s: Step)
    requires Resolve(f, l, staff, outcome, length, requested).error.None?
    ensures s == if Refunds(outcome) then ResolutionRefund(f, staff, outcome, requested) else Done(f)
    ensures s.error.None? && f.dispute.Some? && f.dispute.value.status == UnderReview
    ensures s.file.order == f.order && s.file.dispute == f.dispute
    ensures var r := Resolve(f, l, staff, outcome, length, requested).file;
            var to := OutcomeStatus(outcome, f.dispute.value.priorStatus);
            && (to != f.order.status ==> Allowed(f.order.status, to))
            && Resolve(f, l, staff, outcome, length, requested).posted == s.posted
            && r.payouts == Corrected(s.file, outcome, Total(l + s.posted, ExpertCredit)).payouts
            && r == s.file.(payouts := r.payouts, events := f.events + [DisputeResolved(outcome)],
                            order := f.order.(hasOpenDispute := false, status := to),
                            dispute := Some(f.dispute.value.(status := Resolved, outcome := Some(outcome))))
  {
    s := if Refunds(outcome) then ResolutionRefund(f, staff, outcome, requested) else Done(f);
  }

  lemma ResolveRows(f: File, l: seq<Entry>, staff: Option<Actor>, outcome: Outcome, length: nat,
                    requested: Option<int>)
    requires Rows(f)
    ensures Rows(Resolve(f, l, staff, outcome, length, requested).file)
  {
    var r := Resolve(f, l, staff, outcome, length, requested);
    if r.error.None? {
      var s := ResolvedShape(f, l, staff, outcome, length, requested);
      ResolutionRefundRows(f, staff, outcome, requested);
      CorrectedRows(s.file, outcome, Total(l + s.posted, ExpertCredit));
      ResolvedRows(s.file, r.file.payouts, outcome, r.file.events);
    }
  }

  lemma CorrectedRows(f: File, outcome: Outcome, credit: int)
    requires PayoutRows(f)
    ensures PayoutRows(Corrected(f, outcome, credit))
  {
  }

  lemma PaymentStepRows(f: File, op: Op)
    requires Rows(f) && PaymentOp(op)
    ensures Rows(ApplyPayment(f, op).file)
  {
    match op
    case OpStart(actor, gateway) => StartRows(f, actor, gateway);
    case OpConfirm(accepted, now) => ConfirmRows(f, accepted, now);
    case OpConfirmOrder(gateway, accepted, now) => ConfirmOrderRows(f, gateway, accepted, now);
    case OpSucceededEvent(accepted, now) => ConfirmRows(f, accepted, now);
    case OpFailedEvent => EventRows(f, 0);
    case OpRefundEvent(k) => EventRows(f, k);
    case OpRefund(staff, amount, known) => RefundRows(f, staff, amount, known);
  }

  lemma MarkRows(f: File, marker: Marker)
    requires Rows(f)
    ensures Rows(Record(f, Marked(marker)))
  {
  }

  lemma WorkStepRows(f: File, l: seq<Entry>, op: Op)
    requires Rows(f) && WorkOp(op)
    ensures Rows(ApplyWork(f, l, op).file)
  {
    match op
    case OpSubmit(actor, length, owned, now) => SubmitRows(f, actor, length, owned, now);
    case OpRevise(actor, length) => ReviseRows(f, actor, length);
    case OpApprove(approver, floor, now) => ApproveRows(f, l, approver, floor, now);
    case OpCancel(actor, given, now) => CancelRows(f, actor, given, now);
    case OpSweep(now) => SweepRows(f, now);
    case OpMark(marker) => MarkRows(f, marker);
  }

  lemma PayoutStepRows(f: File, l: seq<Entry>, op: Op)
    requires Rows(f) && PayoutOp(op)
    ensures Rows(ApplyPayout(f, l, op).file)
  {
    match op
    case OpSchedule(floor) => if f.order.status == Completed { WithPayoutRows(f, l, floor); }
    case OpSettle(k, staff) => SettleRows(f, k, staff);
    case OpFailPayout(k, staff) => FailPayoutRows(f, k, staff);
  }

  lemma DisputeStepRows(f: File, l: seq<Entry>, op: Op)
    requires Rows(f) && !PaymentOp(op) && !WorkOp(op) && !PayoutOp(op)
    ensures Rows(ApplyDispute(f, l, op).file)
  {
    match op
    case OpDispute(actor, known, length, owned, days, now) =>
      OpenDisputeRows(f, actor, known, length, owned, days, now);
    case OpTakeCase(staff) => MoveDisputeRows(f, UnderReview, staff);
    case OpAwait(staff) => MoveDisputeRows(f, AwaitingResponse, staff);
    case OpResolve(staff, outcome, length, requested) => ResolveRows(f, l, staff, outcome, length, requested);
    case OpClose(staff) => CloseDisputeRows(f, staff);
  }

  lemma StepRows(f: File, l: seq<Entry>, op: Op)
    requires Rows(f)
    ensures Rows(Apply(f, l, op).file)
  {
    if PaymentOp(op) {
      PaymentStepRows(f, op);
    } else if WorkOp(op) {
      WorkStepRows(f, l, op);
    } else if PayoutOp(op) {
      PayoutStepRows(f, l, op);
    } else {
      DisputeStepRows(f, l, op);
    }
  }
}
