/** The order timeline is event-sourced: folding an order's events reproduces its status. */
module Timeline {
  import opened Core
  import opened Ledger
  import opened OrderFile
  import opened OrderSteps
  import opened OrderInvariant

  /** Where a reader of the timeline stands: the status, and the one before the dispute. */
  datatype Position = Position(status: OrderStatus, beforeDispute: OrderStatus)

  function Advance(p: Position, e: Event): Position {
    match e
    case Created => p
    case PaymentConfirmed => p.(status := Active)
    case WorkDelivered => p.(status := Delivered)
    case Redelivered => p.(status := Delivered)
    case RevisionAsked => p.(status := RevisionRequested)
    case DeliveryApproved => p.(status := Completed)
    case AutoApproved => p.(status := Completed)
    case OrderCompleted => p.(status := Completed)
    case OrderCancelled => p.(status := Cancelled)
    case DisputeOpened => Position(OrderStatus.Disputed, p.status)
    case DisputeResolved(outcome) => p.(status := OutcomeStatus(outcome, p.beforeDispute))
    case Marked(_) => p
  }

  function Replay(events: seq<Event>): Position {
    if events == [] then Position(AwaitingPayment, AwaitingPayment)
    else Advance(Replay(events[..|events| - 1]), events[|events| - 1])
  }

  lemma ReplayAppend(events: seq<Event>, e: Event)
    ensures Replay(events + [e]) == Advance(Replay(events), e)
  {
    assert (events + [e])[..|events|] == events;
  }

  lemma ReplayAppendTwo(events: seq<Event>, e: Event, d: Event)
    ensures Replay(events + [e] + [d]) == Advance(Advance(Replay(events), e), d)
  {
    ReplayAppend(events, e);
    ReplayAppend(events + [e], d);
  }

  /** The timeline tells the status, and the prior status of any dispute. */
  ghost predicate Tells(f: File) {
    && Replay(f.events).status == f.order.status
    && (f.dispute.Some? ==> Replay(f.events).beforeDispute == f.dispute.value.priorStatus)
  }

  lemma NewFileTells(id: OrderId, request: nat, student: UserId, expert: UserId,
                     amount: int, currency: string, rate: int, now: Time)
    ensures Tells(NewFile(id, request, student, expert, amount, currency, rate, now))
  {
    ReplayAppend([], Created);
    assert [] + [Created] == [Created];
  }

  lemma ConfirmTells(f: File, accepted: bool, now: Time)
    requires Tells(f)
    ensures Tells(ConfirmPayment(f, accepted, now).file)
  {
    ReplayAppendTwo(f.events, PaymentConfirmed, PaymentConfirmed);
  }

  lemma PaymentTells(f: File, op: Op)
    requires Tells(f) && PaymentOp(op)
    ensures Tells(ApplyPayment(f, op).file)
  {
    match op
    case OpConfirm(accepted, now) => ConfirmTells(f, accepted, now);
    case OpConfirmOrder(gateway, accepted, now) =>
      ConfirmTells(f, accepted, now);
      ConfirmTells(Armed(f, gateway), accepted, now);
    case OpSucceededEvent(accepted, now) => ConfirmTells(f, accepted, now);
    case _ =>
  }

  lemma SubmitTells(f: File, actor: Actor, length: nat, owned: bool, now: Time)
    requires Tells(f)
    ensures Tells(SubmitDelivery(f, actor, length, owned, now).file)
  {
    ReplayAppend(f.events, WorkDelivered);
    ReplayAppend(f.events, Redelivered);
  }

  lemma ReviseTells(f: File, actor: Actor, length: nat)
    requires Tells(f)
    ensures Tells(RequestRevision(f, actor, length).file)
  {
    ReplayAppendTwo(f.events, RevisionAsked, RevisionAsked);
  }

  lemma ApproveTells(f: File, l: seq<Entry>, approver: Approver, floor: int, now: Time)
    requires Tells(f)
    ensures Tells(ApproveDelivery(f, l, approver, floor, now).file)
  {
    var s := ApproveDelivery(f, l, approver, floor, now);
    if s.error.None? {
      var e := if approver.ByWorker? then AutoApproved else DeliveryApproved;
      ApprovedEvents(f, l, approver, floor, now);
      ReplayAppendTwo(f.events, e, OrderCompleted);
    }
  }

  lemma ApprovedEvents(f: File, l: seq<Entry>, approver: Approver, floor: int, now: Time)
    requires ApproveDelivery(f, l, approver, floor, now).error.None?
    ensures var g := ApproveDelivery(f, l, approver, floor, now).file;
            var e := if approver.ByWorker? then AutoApproved else DeliveryApproved;
            g.events == f.events + [e] + [OrderCompleted] && g.dispute == f.dispute && g.order.status == Completed
  {
  }

  lemma CancelTells(f: File, actor: Actor, given: bool, now: Time)
    requires Tells(f)
    ensures Tells(Cancel(f, actor, given, now).file) && Tells(SweepUnpaid(f, now).file)
  {
    ReplayAppend(f.events, OrderCancelled);
  }

  lemma OpenDisputeTells(f: File, actor: Actor, known: bool, length: nat, owned: bool, days: nat, now: Time)
    requires Tells(f)
    ensures Tells(OpenDispute(f, actor, known, length, owned, days, now).file)
  {
    ReplayAppend(f.events, DisputeOpened);
    OpenedShape(f, actor, known, length, owned, days, now);
  }

  lemma ResolveTells(f: File, l: seq<Entry>, staff: Option<Actor>, outcome: Outcome, length: nat,
                     requested: Option<int>)
    requires Tells(f)
    ensures Tells(Resolve(f, l, staff, outcome, length, requested).file)
  {
    var r := Resolve(f, l, staff, outcome, length, requested);
    if r.error.None? {
      var s := ResolvedShape(f, l, staff, outcome, length, requested);
      ReplayAppend(f.events, DisputeResolved(outcome));
    }
  }

  lemma WorkTells(f: File, l: seq<Entry>, op: Op)
    requires Tells(f) && WorkOp(op)
    ensures Tells(ApplyWork(f, l, op).file)
  {
    match op
    case OpSubmit(actor, length, owned, now) => SubmitTells(f, actor, length, owned, now);
    case OpRevise(actor, length) => ReviseTells(f, actor, length);
    case OpApprove(approver, floor, now) => ApproveTells(f, l, approver, floor, now);
    case OpCancel(actor, given, now) => CancelTells(f, actor, given, now);
    case OpSweep(now) => CancelTells(f, Actor(0, false), false, now);
    case OpMark(marker) => ReplayAppend(f.events, Marked(marker));
  }

  lemma DisputeTells(f: File, l: seq<Entry>, op: Op)
    requires Tells(f) && !PaymentOp(op) && !WorkOp(op) && !PayoutOp(op)
    ensures Tells(ApplyDispute(f, l, op).file)
  {
    match op
    case OpDispute(actor, known, length, owned, days, now) =>
      OpenDisputeTells(f, actor, known, length, owned, days, now);
    case OpResolve(staff, outcome, length, requested) => ResolveTells(f, l, staff, outcome, length, requested);
    case _ =>
  }

  /** Every service call keeps the timeline truthful. */
  lemma StepTells(f: File, l: seq<Entry>, op: Op)
    requires Tells(f)
    ensures Tells(Apply(f, l, op).file)
  {
    if PaymentOp(op) {
      PaymentTells(f, op);
    } else if WorkOp(op) {
      WorkTells(f, l, op);
    } else if !PayoutOp(op) {
      DisputeTells(f, l, op);
    }
  }
}
