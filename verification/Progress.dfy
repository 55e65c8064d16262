/** Every order stops: although the transition table has cycles, the status of one order
    changes a bounded number of times. */
module Progress {
  import opened Core
  import opened Ledger
  import opened OrderFile
  import opened OrderSteps
  import opened OrderInvariant

  /** Status changes still possible without a dispute, from a phase with r revisions left. */
  function StepsLeft(phase: OrderStatus, r: nat): nat {
    match phase
    case AwaitingPayment => 2 * r + 3
    case Active => 2 * r + 2
    case Delivered => 2 * r + 1
    case RevisionRequested => 2 * r + 2
    case _ => 0
  }

  /** The order's one dispute can add two changes until it is opened. */
  function Budget(f: File): nat
    requires f.order.revisionsUsed <= f.order.revisionsAllowed
  {
    var r := f.order.revisionsAllowed - f.order.revisionsUsed;
    match f.order.status
    case Cancelled => 0
    case Disputed => if f.dispute.Some? then StepsLeft(f.dispute.value.priorStatus, r) + 1 else 0
    case s => StepsLeft(s, r) + if f.dispute.None? then 2 else 0
  }

  /** The whole budget of an order as the factory creates it. */
  const NEW_ORDER_BUDGET := 2 * DEFAULT_REVISIONS + 5

  lemma NewFileBudget(id: OrderId, request: nat, student: UserId, expert: UserId,
                      amount: int, currency: string, rate: int, now: Time)
    ensures Budget(NewFile(id, request, student, expert, amount, currency, rate, now)) == NEW_ORDER_BUDGET
  {
  }

  /** f's budget pays for the change of status, if any. */
  ghost predicate Paid(f: File, g: File) {
    && f.order.revisionsUsed <= f.order.revisionsAllowed
    && g.order.revisionsUsed <= g.order.revisionsAllowed
    && Budget(g) + (if g.order.status != f.order.status then 1 else 0) <= Budget(f)
  }

  lemma PaymentPaid(f: File, op: Op)
    requires Rows(f) && PaymentOp(op)
    ensures Paid(f, ApplyPayment(f, op).file)
  {
  }

  lemma SubmitPaid(f: File, actor: Actor, length: nat, owned: bool, now: Time)
    requires Rows(f)
    ensures Paid(f, SubmitDelivery(f, actor, length, owned, now).file)
  {
  }

  lemma RevisePaid(f: File, actor: Actor, length: nat)
    requires Rows(f)
    ensures Paid(f, RequestRevision(f, actor, length).file)
  {
  }

  lemma ApprovePaid(f: File, l: seq<Entry>, approver: Approver, floor: int, now: Time)
    requires Rows(f)
    ensures Paid(f, ApproveDelivery(f, l, approver, floor, now).file)
  {
  }

  lemma CancelPaid(f: File, actor: Actor, given: bool, now: Time)
    requires Rows(f)
    ensures Paid(f, Cancel(f, actor, given, now).file) && Paid(f, SweepUnpaid(f, now).file)
  {
  }

  lemma OpenedPaid(f: File, actor: Actor, known: bool, length: nat, owned: bool, days: nat, now: Time)
    requires Rows(f)
    ensures Paid(f, OpenDispute(f, actor, known, length, owned, days, now).file)
  {
    OpenedShape(f, actor, known, length, owned, days, now);
  }

  lemma MovedPaid(f: File, l: seq<Entry>, op: Op)
    requires Rows(f) && (op.OpTakeCase? || op.OpAwait? || op.OpClose?)
    ensures Paid(f, ApplyDispute(f, l, op).file)
  {
  }

  /** Leaving a dispute pays one unit, wherever it leads. */
  lemma LeftPaid(f: File, g: File, outcome: Outcome)
    requires Rows(f) && f.dispute.Some? && g.dispute.Some?
    requires g.order.revisionsUsed == f.order.revisionsUsed && g.order.revisionsAllowed == f.order.revisionsAllowed
    requires g.order.status == OutcomeStatus(outcome, f.dispute.value.priorStatus)
    requires g.order.status != f.order.status ==> Allowed(f.order.status, g.order.status)
    requires OpenStatus(f.dispute.value.status)
    ensures Paid(f, g)
  {
  }

  lemma ResolvePaid(f: File, l: seq<Entry>, staff: Option<Actor>, outcome: Outcome, length: nat,
                    requested: Option<int>)
    requires Rows(f)
    ensures Paid(f, Resolve(f, l, staff, outcome, length, requested).file)
  {
    var r := Resolve(f, l, staff, outcome, length, requested);
    if r.error.None? {
      var s := ResolvedShape(f, l, staff, outcome, length, requested);
      LeftPaid(f, r.file, outcome);
    }
  }

  lemma WorkPaid(f: File, l: seq<Entry>, op: Op)
    requires Rows(f) && WorkOp(op)
    ensures Paid(f, ApplyWork(f, l, op).file)
  {
    match op
    case OpSubmit(actor, length, owned, now) => SubmitPaid(f, actor, length, owned, now);
    case OpRevise(actor, length) => RevisePaid(f, actor, length);
    case OpApprove(approver, floor, now) => ApprovePaid(f, l, approver, floor, now);
    case OpCancel(actor, given, now) => CancelPaid(f, actor, given, now);
    case OpSweep(now) => CancelPaid(f, Actor(0, false), false, now);
    case OpMark(marker) =>
  }

  lemma DisputePaid(f: File, l: seq<Entry>, op: Op)
    requires Rows(f) && !PaymentOp(op) && !WorkOp(op) && !PayoutOp(op)
    ensures Paid(f, ApplyDispute(f, l, op).file)
  {
    match op
    case OpDispute(actor, known, length, owned, days, now) => OpenedPaid(f, actor, known, length, owned, days, now);
    case OpResolve(staff, outcome, length, requested) => ResolvePaid(f, l, staff, outcome, length, requested);
    case _ => MovedPaid(f, l, op);
  }

  /** Every change of status costs at least one unit of the budget, nothing replenishes it. */
  lemma StepPaid(f: File, l: seq<Entry>, op: Op)
    requires Rows(f)
    ensures Paid(f, Apply(f, l, op).file)
  {
    if PaymentOp(op) {
      PaymentPaid(f, op);
    } else if WorkOp(op) {
      WorkPaid(f, l, op);
    } else if !PayoutOp(op) {
      DisputePaid(f, l, op);
    }
  }
}
