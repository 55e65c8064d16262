/** What each order service promises its caller, field by field: when it succeeds, what it
    leaves changed and unchanged, and what the next service makes of it. */
module OrderPromises {
  import opened Core
  import opened Ledger
  import opened Money
  import opened OrderFile
  import opened OrderSteps
  import opened OrderInvariant
  import opened OrderBooks
  import opened Resolutions
  import opened Platform

  // --- a new order -----------------------------------------------------------------------------

  /** The commission is the rate's share of the amount rounded half up, the expert has the rest. */
  predicate SplitAt(amount: int, rate: int, commission: int, rest: int) {
    && 2 * amount * rate - 10_000 < 20_000 * commission <= 2 * amount * rate + 10_000
    && commission + rest == amount
  }

  lemma NewOrder(id: OrderId, request: nat, student: UserId, expert: UserId, amount: int, currency: string, rate: int,
                 now: Time)
    ensures var f := NewFile(id, request, student, expert, amount, currency, rate, now);
            var o := f.order;
            && o.request == request && o.student == student && o.expert == expert
            && o.amount == amount && o.currency == currency && SplitAt(amount, rate, o.commissionAmount, o.expertAmount)
            && o.status == AwaitingPayment && o.createdAt == now
            && o.revisionsAllowed == 2 && o.revisionsUsed == 0 && !o.hasOpenDispute
            && f.id == id && f.events == [Created]
            && f.payment.None? && f.dispute.None? && f.payouts == [] && f.refunds == [] && f.deliveries == []
            && {o.paidAt, o.deliveredAt, o.completedAt, o.cancelledAt, o.autoApproveAt} == {None}
  {
    ScaledBounds(amount, rate, CommissionOf(amount, rate));
  }

  lemma ScaledBounds(amount: int, rate: int, x: int)
    requires 2 * (amount * rate) - RATE_UNIT < 2 * (RATE_UNIT * x) <= 2 * (amount * rate) + RATE_UNIT
    ensures 2 * amount * rate - 10_000 < 20_000 * x <= 2 * amount * rate + 10_000
  {
    assert 2 * amount * rate == 2 * (amount * rate);
  }

  // --- payment ------------------------------------------------------------------------------------

  lemma StartSucceeds(f: File, actor: Actor, gateway: Gateway)
    ensures StartPayment(f, actor, gateway).error.None?
            <==> && actor.id == f.order.student && f.order.status == AwaitingPayment
                 && (f.payment.Some? ==> f.payment.value.status != Succeeded)
  {
  }

  /** A started payment waits for the booked amount. One that was pending stays as it is; any other
      is armed afresh, under a reference no attempt of the order had before. */
  lemma Started(f: File, actor: Actor, gateway: Gateway)
    requires Rows(f) && StartPayment(f, actor, gateway).error.None?
    ensures var g := StartPayment(f, actor, gateway).file;
            && g.payment.Some? && g.payment.value.status == Pending
            && g.payment.value.amountMinor == f.order.amount && g.payment.value.currency == f.order.currency
            && g == f.(payment := g.payment, attempts := g.attempts)
            && if f.payment.Some? && f.payment.value.status == Pending then g == f
               else
                 && g.payment.value.gateway == gateway && g.attempts > f.attempts
                 && g.payment.value.reference.order == f.id
                 && (forall a: nat :: a < f.attempts ==> g.payment.value.reference != Reference(f.id, a))
                 && (f.payment.Some? ==> g.payment.value.reference != f.payment.value.reference)
  {
  }

  /** Arming afresh retires every earlier reference: a success event for one fails, a failure event is
      ignored, and neither touches anything. */
  lemma OldReferencesDie(w: World, o: OrderId, actor: Actor, gateway: Gateway, a: nat, accepted: bool, now: Time)
    requires WorldSound(w) && o < |w.files| && a < w.files[o].attempts
    requires StartPayment(w.files[o], actor, gateway).error.None?
    requires w.files[o].payment.Some? ==> w.files[o].payment.value.status != Pending
    ensures var w', r := Exec(w, On(o, OpStart(actor, gateway))), Reference(o, a);
            && !Matches(w', r)
            && Handled(w', PaySucceeded(r), accepted, now) == w' && Handled(w', PayFailed(r), accepted, now) == w'
            && HandlerOutcome(w', PaySucceeded(r), accepted, now) == HookFailed
  {
    assert OrderSound(w, o);
    Started(w.files[o], actor, gateway);
  }

  lemma ConfirmSucceeds(f: File, accepted: bool, now: Time)
    requires Rows(f)
    ensures ConfirmPayment(f, accepted, now).error.None?
            <==> && accepted && f.order.status == AwaitingPayment
                 && f.payment.Some? && f.payment.value.status in {Pending, Failed}
  {
  }

  /** What is booked: the charge, and commission and credit that add up to it - the order's own, or
      15% and the rest of an order without commission. */
  predicate Booked(f: File, posted: seq<Entry>) {
    && |posted| == 3
    && posted[0] == Entry(Charge, f.order.amount, f.id, Some(f.order.student))
    && posted[1].kind == Commission && posted[1].order == f.id && posted[1].user == None
    && posted[2].kind == ExpertCredit && posted[2].order == f.id && posted[2].user == Some(f.order.expert)
    && if f.order.commissionAmount > 0 then
         posted[1].amount == f.order.commissionAmount && posted[2].amount == f.order.expertAmount
       else SplitAt(f.order.amount, 1500, posted[1].amount, posted[2].amount)
  }

  lemma Confirmed(f: File, accepted: bool, now: Time)
    requires Rows(f) && ConfirmPayment(f, accepted, now).error.None?
    ensures var s := ConfirmPayment(f, accepted, now); var g := s.file;
            && Booked(f, s.posted)
            && g.order == f.order.(status := Active, paidAt := Some(now))
            && g.payment == Some(f.payment.value.(status := Succeeded, paidAt := Some(now)))
            && g.events == f.events + [PaymentConfirmed, PaymentConfirmed]
            && g == f.(order := g.order, payment := g.payment, events := g.events)
  {
    var e := f.events;
    assert e + [PaymentConfirmed] + [PaymentConfirmed] == e + [PaymentConfirmed, PaymentConfirmed];
    ScaledBounds(f.order.amount, 1500, CommissionOf(f.order.amount, 1500));
  }

  /** A rejected attempt is marked failed and nothing else; then it can be started again. */
  lemma Rejected(f: File, now: Time, gateway: Gateway)
    requires Rows(f) && f.order.status == AwaitingPayment && f.payment.Some? && f.payment.value.status == Pending
    ensures var s := ConfirmPayment(f, false, now);
            && s.error == Some(PaymentFailed) && s.posted == []
            && s.file == f.(payment := Some(f.payment.value.(status := Failed)))
            && StartPayment(s.file, Actor(f.order.student, false), gateway).error.None?
  {
  }

  /** Whatever became of earlier attempts, started and accepted pays the order. */
  lemma StartThenConfirm(f: File, actor: Actor, gateway: Gateway, now: Time)
    requires Rows(f) && StartPayment(f, actor, gateway).error.None?
    ensures var g := StartPayment(f, actor, gateway).file;
            && ConfirmPayment(g, true, now).error.None?
            && ConfirmPayment(g, true, now).file.order == f.order.(status := Active, paidAt := Some(now))
  {
    StartRows(f, actor, gateway);
    Started(f, actor, gateway);
    var g := StartPayment(f, actor, gateway).file;
    ConfirmSucceeds(g, true, now);
    Confirmed(g, true, now);
  }

  lemma StartRows(f: File, actor: Actor, gateway: Gateway)
    requires Rows(f)
    ensures Rows(StartPayment(f, actor, gateway).file)
  {
  }

  /** The operator's confirmation creates the missing row and is the confirmation otherwise. */
  lemma OperatorConfirms(f: File, gateway: Gateway, accepted: bool, now: Time)
    requires Rows(f)
    ensures var s := ConfirmOrderPayment(f, gateway, accepted, now);
            && (s.error.None?
                <==> && gateway == Manual && accepted && f.order.status == AwaitingPayment
                     && (f.payment.Some? ==> f.payment.value.status in {Pending, Failed}))
            && (gateway == Manual && f.payment.Some? ==> s == ConfirmPayment(f, accepted, now))
            && (s.error.None? && f.payment.None? ==>
                  && s.file.payment.Some? && s.file.payment.value.amountMinor == f.order.amount
                  && s.file.payment.value.status == Succeeded && s.file.order.status == Active && Booked(f, s.posted))
  {
    if gateway == Manual && f.payment.None? {
      assert Rows(Armed(f, gateway));
      ConfirmSucceeds(Armed(f, gateway), accepted, now);
      if ConfirmPayment(Armed(f, gateway), accepted, now).error.None? { Confirmed(Armed(f, gateway), accepted, now); }
    } else {
      ConfirmSucceeds(f, accepted, now);
    }
  }

  /** payment.failed marks every payment failed that has not succeeded or been cancelled. */
  lemma FailedEvent(f: File)
    ensures var g := PaymentFailedEvent(f).file;
            && g == f.(payment := g.payment) && PaymentFailedEvent(f).error.None?
            && (f.payment.Some? <==> g.payment.Some?)
            && (f.payment.Some? ==>
                  && g.payment.value == f.payment.value.(status := g.payment.value.status)
                  && (f.payment.value.status !in {Succeeded, Canceled} ==> g.payment.value.status == Failed)
                  && (f.payment.value.status in {Succeeded, Canceled} ==> g == f))
  {
  }

  /** refund.succeeded settles the refund row it names and no other. */
  lemma RefundEvent(f: File, k: nat)
    ensures var g := RefundSucceededEvent(f, k).file;
            && g == f.(refunds := g.refunds) && |g.refunds| == |f.refunds|
            && (forall i :: 0 <= i < |f.refunds| && i != k ==> g.refunds[i] == f.refunds[i])
            && (k < |f.refunds| ==>
                  g.refunds[k].status == RefundSucceeded && g.refunds[k].amountMinor == f.refunds[k].amountMinor)
  {
  }

  // --- delivery ------------------------------------------------------------------------------------

  lemma SubmitSucceeds(f: File, actor: Actor, length: nat, owned: bool, now: Time)
    requires Rows(f)
    ensures SubmitDelivery(f, actor, length, owned, now).error.None?
            <==> && actor.id == f.order.expert && f.order.status in {Active, RevisionRequested}
                 && length >= 20 && owned
  {
  }

  /** One delivery more, the next number, under review for 72 hours. */
  lemma Submitted(f: File, actor: Actor, length: nat, owned: bool, now: Time)
    requires Rows(f) && SubmitDelivery(f, actor, length, owned, now).error.None?
    ensures var s := SubmitDelivery(f, actor, length, owned, now); var g, n := s.file, |f.deliveries|;
            && s.posted == []
            && g.deliveries == f.deliveries + [Delivery(n, DeliveryStatus.Submitted, now, None)]
            && g.order == f.order.(status := Delivered, deliveredAt := Some(now), autoApproveAt := Some(now + 259_200))
            && g.events == f.events + [if n > 0 then Redelivered else WorkDelivered]
            && g == f.(deliveries := g.deliveries, order := g.order, events := g.events)
  {
  }

  lemma ReviseSucceeds(f: File, actor: Actor, length: nat)
    requires Rows(f)
    ensures RequestRevision(f, actor, length).error.None?
            <==> && actor.id == f.order.student && f.order.status == Delivered
                 && f.order.revisionsUsed < f.order.revisionsAllowed && length >= 10
  {
  }

  /** The last delivery is sent back, one revision is used up and no deadline runs. */
  lemma Revised(f: File, actor: Actor, length: nat)
    requires Rows(f) && RequestRevision(f, actor, length).error.None?
    ensures var s := RequestRevision(f, actor, length); var g, n := s.file, |f.deliveries|;
            && s.posted == [] && n > 0 && |g.deliveries| == n
            && (forall i :: 0 <= i < n - 1 ==> g.deliveries[i] == f.deliveries[i])
            && g.deliveries[n - 1] == f.deliveries[n - 1].(status := SentBack)
            && g.order == f.order.(status := RevisionRequested, revisionsUsed := f.order.revisionsUsed + 1,
                                   autoApproveAt := None)
            && g.events == f.events + [RevisionAsked, RevisionAsked]
            && g == f.(deliveries := g.deliveries, order := g.order, events := g.events)
  {
    LatestIsLast(f);
    var e := f.events;
    assert e + [RevisionAsked] + [RevisionAsked] == e + [RevisionAsked, RevisionAsked];
  }

  lemma LatestIsLast(f: File)
    requires Numbered(f) && f.deliveries != []
    ensures Latest(f.deliveries) == |f.deliveries| - 1
  {
    var k, n := Latest(f.deliveries), |f.deliveries|;
    assert f.deliveries[n - 1].revisionNumber <= f.deliveries[k].revisionNumber;
    assert f.deliveries[k].revisionNumber == k && f.deliveries[n - 1].revisionNumber == n - 1;
  }

  lemma ApproveSucceeds(f: File, l: seq<Entry>, approver: Approver, floor: int, now: Time)
    ensures ApproveDelivery(f, l, approver, floor, now).error.None?
            <==> && f.order.status == Delivered
                 && (approver.ByStudent? ==> approver.actor.id == f.order.student)
                 && (approver.ByAdmin? ==> approver.staff.Some? && approver.staff.value.staff)
  {
  }

  /** The order is completed now, its last delivery approved now, and the expert gets a scheduled
      payout of the credit if that reaches the floor. */
  lemma Approved(f: File, l: seq<Entry>, approver: Approver, floor: int, now: Time)
    requires Rows(f) && ApproveDelivery(f, l, approver, floor, now).error.None?
    ensures var s := ApproveDelivery(f, l, approver, floor, now);
            var g, n, credit := s.file, |f.deliveries|, Total(l, ExpertCredit);
            && s.posted == [] && n > 0 && |g.deliveries| == n
            && (forall i :: 0 <= i < n - 1 ==> g.deliveries[i] == f.deliveries[i])
            && g.deliveries[n - 1] == f.deliveries[n - 1].(status := DeliveryStatus.Approved, approvedAt := Some(now))
            && g.order == f.order.(status := Completed, completedAt := Some(now), autoApproveAt := None)
            && g.events == f.events + [if approver.ByWorker? then AutoApproved else DeliveryApproved, OrderCompleted]
            && g.payouts == (if f.payouts == [] && credit >= floor then [PayoutRow(f.order.expert, credit, Scheduled)]
                             else f.payouts)
            && g == f.(deliveries := g.deliveries, order := g.order, events := g.events, payouts := g.payouts)
  {
    LatestIsLast(f);
    var e, first := f.events, if approver.ByWorker? then AutoApproved else DeliveryApproved;
    assert e + [first] + [OrderCompleted] == e + [first, OrderCompleted];
  }

  // --- cancellation -----------------------------------------------------------------------------------

  lemma CancelSucceeds(f: File, actor: Actor, given: bool, now: Time)
    ensures Cancel(f, actor, given, now).error.None?
            <==> && given && f.order.status !in {Completed, Cancelled}
                 && (|| actor.staff
                     || (actor.id in {f.order.student, f.order.expert} && f.order.status == AwaitingPayment))
  {
  }

  lemma CancelledOrder(f: File, actor: Actor, given: bool, now: Time)
    requires Rows(f) && Cancel(f, actor, given, now).error.None?
    ensures var s := Cancel(f, actor, given, now); var g := s.file;
            && s.posted == []
            && g.order == f.order.(status := Cancelled, cancelledAt := Some(now))
            && g.payment == (if f.payment.Some? && f.payment.value.status == Pending
                             then Some(f.payment.value.(status := Canceled)) else f.payment)
            && g == f.(order := g.order, payment := g.payment, events := f.events + [OrderCancelled])
  {
  }

  /** The sweep cancels exactly what has waited 72 hours for its payment. */
  lemma SweptOrder(f: File, now: Time)
    ensures var s := SweepUnpaid(f, now);
            && s.error.None? && s.posted == []
            && s.file == if f.order.status == AwaitingPayment && f.order.createdAt + 259_200 <= now
                         then f.(order := f.order.(status := Cancelled, cancelledAt := Some(now)),
                                 events := f.events + [OrderCancelled])
                         else f
  {
  }

  // --- refunds and payouts --------------------------------------------------------------------------------

  lemma RefundSucceeds(f: File, staff: Option<Actor>, amount: int, known: bool)
    requires Rows(f)
    ensures IssueRefund(f, staff, amount, known).error.None?
            <==> && staff.Some? && staff.value.staff && known && f.payment.Some?
                 && f.payment.value.status in {Succeeded, PartiallyRefunded}
                 && 0 < amount <= f.payment.value.amountMinor - f.payment.value.refundedMinor
  {
  }

  /** The amount is booked back, split as the order was up to half a unit. */
  lemma RefundBooked(f: File, staff: Option<Actor>, amount: int, known: bool)
    requires Terms(f.order) && IssueRefund(f, staff, amount, known).error.None?
    ensures var l := IssueRefund(f, staff, amount, known).posted; var back := Total(l, Commission);
            && Total(l, Ledger.Refund) == -amount && Total(l, ExpertCredit) == -amount - back
            && 2 * amount * f.order.commissionAmount - f.order.amount < 2 * f.order.amount * -back
               <= 2 * amount * f.order.commissionAmount + f.order.amount
  {
    var x := ReversedCommission(f.order, amount);
    RefundTotals(f, amount, x, Ledger.Refund);
    RefundTotals(f, amount, x, ExpertCredit);
    RefundTotals(f, amount, x, Commission);
    RefundShare(f.order, amount, x);
  }

  /** There is one refund row more, and the payment says how much of it is gone. */
  lemma RefundedOrder(f: File, staff: Option<Actor>, amount: int, known: bool)
    requires Rows(f) && IssueRefund(f, staff, amount, known).error.None?
    ensures var g := IssueRefund(f, staff, amount, known).file;
            && f.payment.Some? && g.payment.Some?
            && g.payment.value == f.payment.value.(refundedMinor := f.payment.value.refundedMinor + amount,
                                                   status := g.payment.value.status)
            && g.payment.value.status == (if g.payment.value.refundedMinor == f.order.amount then Refunded
                                          else PartiallyRefunded)
            && g == f.(payment := g.payment, refunds := f.refunds + [RefundRow(amount, RefundSucceeded)])
  {
  }

  lemma RefundShare(o: Order, amount: int, x: int)
    requires Terms(o) && x == ReversedCommission(o, amount)
    ensures 2 * amount * o.commissionAmount - o.amount < 2 * o.amount * x <= 2 * amount * o.commissionAmount + o.amount
  {
    assert 2 * amount * o.commissionAmount == 2 * (amount * o.commissionAmount);
    assert 2 * o.amount * x == 2 * (o.amount * x);
  }

  /** A payout is scheduled for a completed order exactly when it has none, no dispute is open and
      the credit reaches the floor; it is of the whole credit. */
  lemma ScheduledPayout(f: File, l: seq<Entry>, floor: int)
    ensures var s, credit := SchedulePayout(f, l, floor), Total(l, ExpertCredit);
            && (s.error.None? <==> f.order.status == Completed) && s.posted == []
            && s.file == (if f.order.status == Completed && f.payouts == [] && !f.order.hasOpenDispute
                             && credit >= floor
                          then f.(payouts := [PayoutRow(f.order.expert, credit, Scheduled)]) else f)
  {
  }

  /** A payout is settled exactly by staff, unpaid and with no open dispute; its amount is paid. */
  lemma SettledPayout(f: File, k: nat, staff: Option<Actor>)
    requires Rows(f)
    ensures var s := SettlePayout(f, k, staff);
            && (s.error.None?
                <==> && staff.Some? && staff.value.staff && k < |f.payouts| && f.payouts[k].status != Paid
                     && !f.order.hasOpenDispute)
            && (s.error.None? ==>
                  && s.file == f.(payouts := [f.payouts[k].(status := Paid)])
                  && s.posted == [Entry(Ledger.Payout, -f.payouts[k].amountMinor, f.id, Some(f.order.expert))])
  {
  }

  lemma FailedPayout(f: File, k: nat, staff: Option<Actor>)
    requires Rows(f)
    ensures var s := MarkPayoutFailed(f, k, staff);
            && (s.error.None?
                <==> staff.Some? && staff.value.staff && k < |f.payouts| && f.payouts[k].status != Paid)
            && s.posted == []
            && (s.error.None? ==> s.file == f.(payouts := [f.payouts[k].(status := PayoutFailed)]))
  {
  }

  // --- disputes ---------------------------------------------------------------------------------------------

  /** A dispute opens for a participant of an order without one, with a reason, a text and evidence
      of their own, while the order runs or within the window after its completion. */
  lemma DisputeOpens(f: File, actor: Actor, known: bool, length: nat, owned: bool, days: nat, now: Time)
    ensures OpenDispute(f, actor, known, length, owned, days, now).error.None?
            <==> && actor.id in {f.order.student, f.order.expert} && f.dispute.None?
                 && known && length >= 20 && owned
                 && (|| f.order.status in {Active, Delivered, RevisionRequested}
                     || (f.order.status == Completed && f.order.completedAt.Some?
                         && now <= f.order.completedAt.value + days * 86_400))
  {
  }

  /** The order is frozen in dispute, and the dispute remembers who opened it and what it was. */
  lemma Disputing(f: File, actor: Actor, known: bool, length: nat, owned: bool, days: nat, now: Time)
    requires OpenDispute(f, actor, known, length, owned, days, now).error.None?
    ensures var s := OpenDispute(f, actor, known, length, owned, days, now); var g := s.file;
            && s.posted == [] && g.dispute.Some?
            && g.dispute.value.openedBy == actor.id && g.dispute.value.priorStatus == f.order.status
            && g.dispute.value.status == Open && g.dispute.value.outcome.None?
            && g.order == f.order.(status := OrderStatus.Disputed, hasOpenDispute := true)
            && g == f.(order := g.order, dispute := g.dispute, events := f.events + [DisputeOpened])
  {
  }

  /** Staff take an open or waiting case, and let an open one wait. */
  lemma DisputeMoves(f: File, to: DisputeStatus, staff: Option<Actor>)
    requires to in {UnderReview, AwaitingResponse}
    ensures var s := MoveDispute(f, to, staff);
            && (s.error.None?
                <==> && staff.Some? && staff.value.staff && f.dispute.Some?
                     && (f.dispute.value.status == Open
                         || (f.dispute.value.status == AwaitingResponse && to == UnderReview)))
            && s.posted == []
            && (s.error.None? ==> s.file == f.(dispute := Some(f.dispute.value.(status := to))))
  {
  }

  lemma DisputeCloses(f: File, staff: Option<Actor>)
    ensures var s := CloseDispute(f, staff);
            && (s.error.None?
                <==> && staff.Some? && staff.value.staff && f.dispute.Some?
                     && f.dispute.value.status == DisputeStatus.Resolved)
            && s.posted == []
            && (s.error.None? ==> s.file == f.(dispute := Some(f.dispute.value.(status := Closed))))
  {
  }

  /** A resolution leaves the order unfrozen in the status its outcome names, the dispute resolved
      with that outcome, and the books as its refund left them. */
  lemma ResolvedOrder(f: File, l: seq<Entry>, staff: Option<Actor>, outcome: Outcome, length: nat,
                      requested: Option<int>)
    requires Resolve(f, l, staff, outcome, length, requested).error.None?
    ensures f.dispute.Some?
    ensures var r := Resolve(f, l, staff, outcome, length, requested); var g := r.file;
            var prior := f.dispute.value.priorStatus;
            && g.order == f.order.(hasOpenDispute := false,
                                   status := match outcome
                                             case RefundFull => Cancelled
                                             case NoFaultClose => prior
                                             case _ => Completed)
            && g.dispute == Some(f.dispute.value.(status := DisputeStatus.Resolved, outcome := Some(outcome)))
            && g.events == f.events + [DisputeResolved(outcome)] && g.deliveries == f.deliveries && g.id == f.id
            && (outcome in {ReleaseExpert, NoFaultClose} ==>
                  r.posted == [] && g.payment == f.payment && g.refunds == f.refunds && g.payouts == f.payouts)
  {
    var s := ResolvedShape(f, l, staff, outcome, length, requested);
    RefundIgnoresDispute(f, f.dispute, f.payment, staff, outcome, requested);
  }

  /** What a refunding outcome makes of the payout: voided after a full refund, else corrected to the
      remaining credit, unless it is paid. */
  function PayoutAfter(p: PayoutRow, outcome: Outcome, credit: int): PayoutRow {
    if p.status == Paid then p
    else if outcome == RefundFull then p.(status := PayoutFailed)
    else p.(amountMinor := credit)
  }

  lemma PayoutsAfter(f: File, g: File, outcome: Outcome, credit: int)
    requires PayoutRows(f) && outcome in {RefundFull, RefundPartial, Split}
    requires g.payouts == if outcome == RefundFull then Voided(f).payouts else f.payouts
    ensures Corrected(g, outcome, credit).payouts
            == if f.payouts == [] then [] else [PayoutAfter(f.payouts[0], outcome, credit)]
  {
  }

  /** A full refund returns all that is left, the others the amount asked for. */
  lemma ResolvedMoney(f: File, l: seq<Entry>, staff: Option<Actor>, outcome: Outcome, length: nat,
                      requested: Option<int>)
    requires Rows(f) && outcome in {RefundFull, RefundPartial, Split}
    requires Resolve(f, l, staff, outcome, length, requested).error.None?
    ensures f.payment.Some? && (outcome != RefundFull ==> requested.Some?)
    ensures var r := Resolve(f, l, staff, outcome, length, requested); var g := r.file;
            var amount := if outcome == RefundFull then f.payment.value.amountMinor - f.payment.value.refundedMinor
                          else requested.value;
            && r.posted == IssueRefund(f, staff, amount, true).posted
            && g.payment == IssueRefund(f, staff, amount, true).file.payment
            && g.refunds == f.refunds + [RefundRow(amount, RefundSucceeded)]
            && g.payouts == if f.payouts == [] then []
                            else [PayoutAfter(f.payouts[0], outcome, Total(l + r.posted, ExpertCredit))]
  {
    var s := ResolvedShape(f, l, staff, outcome, length, requested);
    ResolvedAmount(f, staff, outcome, requested);
    PayoutsAfter(f, s.file, outcome, Total(l + s.posted, ExpertCredit));
  }

  lemma ResolvedAmount(f: File, staff: Option<Actor>, outcome: Outcome, requested: Option<int>)
    requires Rows(f) && outcome in {RefundFull, RefundPartial, Split}
    requires ResolutionRefund(f, staff, outcome, requested).error.None?
    ensures f.payment.Some? && (outcome != RefundFull ==> requested.Some?)
    ensures var s := ResolutionRefund(f, staff, outcome, requested);
            var amount := if outcome == RefundFull then f.payment.value.amountMinor - f.payment.value.refundedMinor
                          else requested.value;
            var i := IssueRefund(f, staff, amount, true);
            && i.error.None? && s.posted == i.posted
            && s.file.payment == i.file.payment && s.file.refunds == i.file.refunds
            && i.file.refunds == f.refunds + [RefundRow(amount, RefundSucceeded)]
            && s.file.payouts == (if outcome == RefundFull then Voided(f).payouts else f.payouts)
  {
  }

  /** Opened, taken and closed without fault, the order is as before but for its dispute and timeline. */
  lemma NoFaultRestores(f: File, l: seq<Entry>, actor: Actor, days: nat, at: Time, staff: Actor, length: nat)
    requires OpenDispute(f, actor, true, length, true, days, at).error.None? && staff.staff && !f.order.hasOpenDispute
    ensures var d := OpenDispute(f, actor, true, length, true, days, at).file;
            var t := MoveDispute(d, UnderReview, Some(staff)).file;
            var r := Resolve(t, l, Some(staff), NoFaultClose, length, None);
            r.error.None? && r.posted == [] && r.file == f.(dispute := r.file.dispute, events := r.file.events)
  {
    DisputeOpens(f, actor, true, length, true, days, at);
    Disputing(f, actor, true, length, true, days, at);
    var d := OpenDispute(f, actor, true, length, true, days, at).file;
    var t := MoveDispute(d, UnderReview, Some(staff)).file;
    ClosedWithoutFault(t, l, staff, length);
  }

  lemma ClosedWithoutFault(f: File, l: seq<Entry>, staff: Actor, length: nat)
    requires f.dispute.Some? && f.dispute.value.status == UnderReview && f.order.status == OrderStatus.Disputed
    requires Disputable(f.dispute.value.priorStatus) && staff.staff && length >= 20
    ensures var r := Resolve(f, l, Some(staff), NoFaultClose, length, None);
            && r.error.None? && r.posted == []
            && r.file.order == f.order.(status := f.dispute.value.priorStatus, hasOpenDispute := false)
            && r.file == f.(order := r.file.order, dispute := r.file.dispute, events := r.file.events)
  {
  }

  // --- webhook events ------------------------------------------------------------------------------------------

  /** A success event can be processed: its payment is known and confirmed, now or before. */
  predicate Confirmable(w: World, r: Reference, accepted: bool) {
    && r.order < |w.files| && w.files[r.order].payment.Some?
    && var f := w.files[r.order];
       && f.payment.value.reference == r
       && (|| f.payment.value.status == Succeeded
           || (accepted && f.order.status == AwaitingPayment && f.payment.value.status in {Pending, Failed}))
  }

  lemma SuccessProcessed(w: World, r: Reference, accepted: bool, now: Time)
    requires WorldSound(w)
    ensures HandlerOutcome(w, PaySucceeded(r), accepted, now)
            == if Confirmable(w, r, accepted) then Processed else HookFailed
  {
    if Matches(w, r) {
      assert OrderSound(w, r.order);
      ConfirmSucceeds(w.files[r.order], accepted, now);
    }
  }

  lemma FailureProcessed(w: World, r: Reference, accepted: bool, now: Time)
    ensures HandlerOutcome(w, PayFailed(r), accepted, now) == Processed
  {
    if Matches(w, r) { FailedEvent(w.files[r.order]); }
  }

  lemma RefundProcessed(w: World, o: OrderId, k: nat, accepted: bool, now: Time)
    ensures HandlerOutcome(w, RefundDone(o, k), accepted, now) == Processed
  {
  }

  /** Which deliveries count as processed: a success that can be, any failure and any refund, and
      nothing of an unknown type. */
  lemma ProcessedExactly(w: World, c: Content, accepted: bool, now: Time)
    requires WorldSound(w)
    ensures HandlerOutcome(w, c, accepted, now)
            == match c
               case PaySucceeded(r) => if Confirmable(w, r, accepted) then Processed else HookFailed
               case PayFailed(_) => Processed
               case RefundDone(_, _) => Processed
               case Unhandled => HookFailed
  {
    match c
    case PaySucceeded(r) => SuccessProcessed(w, r, accepted, now);
    case PayFailed(r) => FailureProcessed(w, r, accepted, now);
    case RefundDone(o, k) => RefundProcessed(w, o, k, accepted, now);
    case Unhandled =>
  }

  /** An event is stored with the content it first came with and the outcome of its last delivery; a
      processed one is left alone until it is redelivered, and no event touches another's row. */
  lemma HookStored(w: World, id: EventId, content: Content, accepted: bool, at: Time)
    ensures var d, r := Exec(w, Ingest(id, content, accepted, at)), Exec(w, Redeliver(id, accepted, at));
            var first := if id in w.hooks then w.hooks[id].content else content;
            && d.hooks.Keys == w.hooks.Keys + {id} && r.hooks.Keys == w.hooks.Keys
            && (forall x :: x in w.hooks && x != id ==> d.hooks[x] == r.hooks[x] == w.hooks[x])
            && (id in w.hooks && w.hooks[id].status == Processed ==> d == w)
            && (!(id in w.hooks && w.hooks[id].status == Processed) ==>
                  d.hooks[id] == Hook(first, HandlerOutcome(w, content, accepted, at)))
            && (id in w.hooks ==> r.hooks[id] == Hook(first, HandlerOutcome(w, first, accepted, at)))
  {
  }

  /** A timeline marker is recorded and changes nothing else. */
  lemma MarkerRecorded(f: File, l: seq<Entry>, m: Marker)
    ensures Apply(f, l, OpMark(m)) == Step(f.(events := f.events + [Marked(m)]), [], None)
  {
  }

  /** Every call reaches its service, with its arguments. */
  lemma CallsReach(f: File, l: seq<Entry>, op: Op)
    ensures Apply(f, l, op)
            == match op
               case OpStart(actor, gateway) => StartPayment(f, actor, gateway)
               case OpConfirm(accepted, now) => ConfirmPayment(f, accepted, now)
               case OpConfirmOrder(gateway, accepted, now) => ConfirmOrderPayment(f, gateway, accepted, now)
               case OpSucceededEvent(accepted, now) =>
                 if f.payment.Some? && f.payment.value.status == Succeeded then Step(f, [], None)
                 else ConfirmPayment(f, accepted, now)
               case OpFailedEvent => PaymentFailedEvent(f)
               case OpRefundEvent(k) => RefundSucceededEvent(f, k)
               case OpSubmit(actor, length, owned, now) => SubmitDelivery(f, actor, length, owned, now)
               case OpRevise(actor, length) => RequestRevision(f, actor, length)
               case OpApprove(approver, floor, now) => ApproveDelivery(f, l, approver, floor, now)
               case OpCancel(actor, given, now) => Cancel(f, actor, given, now)
               case OpSweep(now) => SweepUnpaid(f, now)
               case OpRefund(staff, amount, known) => IssueRefund(f, staff, amount, known)
               case OpSchedule(floor) => SchedulePayout(f, l, floor)
               case OpSettle(k, staff) => SettlePayout(f, k, staff)
               case OpFailPayout(k, staff) => MarkPayoutFailed(f, k, staff)
               case OpDispute(actor, known, length, owned, days, now) =>
                 OpenDispute(f, actor, known, length, owned, days, now)
               case OpTakeCase(staff) => MoveDispute(f, UnderReview, staff)
               case OpAwait(staff) => MoveDispute(f, AwaitingResponse, staff)
               case OpResolve(staff, outcome, length, requested) => Resolve(f, l, staff, outcome, length, requested)
               case OpClose(staff) => CloseDispute(f, staff)
               case OpMark(m) => Step(f.(events := f.events + [Marked(m)]), [], None)
  {
  }

  // --- what a refusal says ---------------------------------------------------------------------------------------

  predicate NotStaff(staff: Option<Actor>) { staff.None? || !staff.value.staff }

  /** Each error names something that is so. */
  lemma PaymentRefusals(f: File, actor: Actor, gateway: Gateway, accepted: bool, now: Time)
    ensures match StartPayment(f, actor, gateway).error
            case None => true
            case Some(PermissionDenied) => actor.id != f.order.student
            case Some(InvalidTransition) => f.order.status != AwaitingPayment
            case Some(e) => e == DuplicatePayment && f.payment.Some? && f.payment.value.status == Succeeded
    ensures match ConfirmPayment(f, accepted, now).error
            case None => true
            case Some(NotFound) => f.payment.None?
            case Some(DuplicatePayment) => f.payment.Some? && f.payment.value.status == Succeeded
            case Some(InvalidTransition) =>
              || f.order.status != AwaitingPayment || f.order.paidAt.Some?
              || (f.payment.Some? && f.payment.value.status in {Canceled, Refunded})
            case Some(AmountMismatch) =>
              f.payment.Some?
              && (f.payment.value.amountMinor != f.order.amount || f.payment.value.currency != f.order.currency)
            case Some(e) => e == PaymentFailed && !accepted && f.payment.Some?
    ensures ConfirmOrderPayment(f, gateway, accepted, now).error == Some(FeatureDisabled) <==> gateway != Manual
  {
  }

  lemma WorkRefusals(f: File, actor: Actor, length: nat, owned: bool, now: Time)
    requires Rows(f)
    ensures match SubmitDelivery(f, actor, length, owned, now).error
            case None => true
            case Some(PermissionDenied) => actor.id != f.order.expert
            case Some(OrderLocked) => f.order.status !in {Active, RevisionRequested}
            case Some(e) => e == ValidationError && (length < 20 || !owned)
    ensures match RequestRevision(f, actor, length).error
            case None => true
            case Some(PermissionDenied) => actor.id != f.order.student
            case Some(OrderLocked) => f.order.status != Delivered
            case Some(RevisionsExhausted) => f.order.revisionsUsed == f.order.revisionsAllowed
            case Some(e) => e == ValidationError && length < 10
  {
  }

  lemma EndRefusals(f: File, l: seq<Entry>, actor: Actor, approver: Approver, floor: int, given: bool, now: Time)
    ensures match ApproveDelivery(f, l, approver, floor, now).error
            case None => true
            case Some(PermissionDenied) =>
              || (approver.ByStudent? && approver.actor.id != f.order.student)
              || (approver.ByAdmin? && NotStaff(approver.staff))
            case Some(e) => e == OrderLocked && f.order.status != Delivered
    ensures match Cancel(f, actor, given, now).error
            case None => true
            case Some(PermissionDenied) =>
              !actor.staff && (actor.id !in {f.order.student, f.order.expert} || f.order.status != AwaitingPayment)
            case Some(ValidationError) => !given
            case Some(e) => e == InvalidTransition && f.order.status in {Completed, Cancelled}
  {
  }

  lemma MoneyRefusals(f: File, l: seq<Entry>, staff: Option<Actor>, amount: int, known: bool, floor: int, k: nat)
    requires Rows(f)
    ensures match IssueRefund(f, staff, amount, known).error
            case None => true
            case Some(PermissionDenied) => NotStaff(staff)
            case Some(NotFound) => f.payment.None?
            case Some(InvalidTransition) =>
              f.payment.Some? && f.payment.value.status !in {Succeeded, PartiallyRefunded}
            case Some(e) =>
              && e == ValidationError && f.payment.Some?
              && !(known && 0 < amount <= f.payment.value.amountMinor - f.payment.value.refundedMinor)
    ensures match SchedulePayout(f, l, floor).error
            case None => true
            case Some(e) => e == InvalidTransition
    ensures match SettlePayout(f, k, staff).error
            case None => true
            case Some(PermissionDenied) => NotStaff(staff)
            case Some(NotFound) => k >= |f.payouts|
            case Some(DuplicatePayout) => k < |f.payouts| && f.payouts[k].status == Paid
            case Some(e) => e == PayoutFrozen && f.order.hasOpenDispute
    ensures match MarkPayoutFailed(f, k, staff).error
            case None => true
            case Some(PermissionDenied) => NotStaff(staff)
            case Some(NotFound) => k >= |f.payouts|
            case Some(e) => e == InvalidTransition && k < |f.payouts| && f.payouts[k].status == Paid
  {
  }

  lemma DisputeRefusals(f: File, actor: Actor, known: bool, length: nat, owned: bool, days: nat, now: Time,
                        staff: Option<Actor>, to: DisputeStatus)
    ensures match OpenDispute(f, actor, known, length, owned, days, now).error
            case None => true
            case Some(PermissionDenied) => actor.id !in {f.order.student, f.order.expert}
            case Some(DuplicateDispute) => f.dispute.Some?
            case Some(DisputeWindowClosed) =>
              || f.order.status !in {Active, Delivered, RevisionRequested, Completed}
              || (f.order.status == Completed
                  && (f.order.completedAt.None? || f.order.completedAt.value + days * 86_400 < now))
            case Some(e) => e == ValidationError && (!known || length < 20 || !owned)
    ensures match MoveDispute(f, to, staff).error
            case None => true
            case Some(PermissionDenied) => NotStaff(staff)
            case Some(NotFound) => f.dispute.None?
            case Some(e) => e == InvalidTransition
    ensures match CloseDispute(f, staff).error
            case None => true
            case Some(PermissionDenied) => NotStaff(staff)
            case Some(NotFound) => f.dispute.None?
            case Some(e) =>
              e == InvalidTransition && f.dispute.Some? && f.dispute.value.status != DisputeStatus.Resolved
  {
  }

  lemma ResolutionRefusals(f: File, l: seq<Entry>, staff: Option<Actor>, outcome: Outcome, length: nat,
                           requested: Option<int>)
    requires Rows(f)
    ensures match Resolve(f, l, staff, outcome, length, requested).error
            case None => true
            case Some(PermissionDenied) => NotStaff(staff)
            case Some(NotFound) => f.dispute.None?
            case Some(InvalidTransition) =>
              f.dispute.Some? && (f.dispute.value.status != UnderReview
                                  || !Concludes(f.order.status, outcome, f.dispute.value.priorStatus))
            case Some(e) =>
              && e == ValidationError
              && (length < 20 || (Refunds(outcome) && !AmountPasses(f.payment, f.payment, outcome, requested)))
  {
    if f.dispute.Some? {
      ConcludesIsMove(f.order.status, outcome, f.dispute.value.priorStatus);
      if Refunds(outcome) && IsStaff(staff) {
        RefundRefusal(f, staff, outcome, requested);
      }
    }
  }

  lemma RefundRefusal(f: File, staff: Option<Actor>, outcome: Outcome, requested: Option<int>)
    requires Rows(f) && Refunds(outcome) && IsStaff(staff)
    ensures var s := ResolutionRefund(f, staff, outcome, requested);
            && (s.error.Some? ==> s.error == Some(ValidationError)
                                  && !AmountPasses(f.payment, f.payment, outcome, requested))
            && s.file.order == f.order
  {
    RefundPasses(f, f.payment, staff, outcome, requested);
  }
}
