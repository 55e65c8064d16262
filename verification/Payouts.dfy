/** Payouts against the ledger: what is scheduled is what is owed, and when it is not. */
module Payouts {
  import opened Core
  import opened Ledger
  import opened Money
  import opened Allocation
  import opened Binary64
  import opened OrderFile
  import opened OrderSteps
  import opened OrderInvariant
  import opened OrderBooks

  /** payments.remaining_payable: credit plus the (negative) payout entries. */
  function RemainingPayable(l: seq<Entry>): int {
    Total(l, ExpertCredit) + Total(l, Ledger.Payout)
  }

  /** A scheduled payout is exactly the order's expert-credit balance. */
  ghost predicate InStep(f: File, l: seq<Entry>) {
    forall p <- f.payouts :: p.status == Scheduled ==> p.amountMinor == Total(l, ExpertCredit)
  }

  /** Refunds after the payout was created go through dispute resolution only. */
  predicate Disciplined(f: File, op: Op) {
    op.OpRefund? ==> f.payouts == []
  }

  lemma QuietKeepsCredit(l: seq<Entry>)
    ensures Total(l + [], ExpertCredit) == Total(l, ExpertCredit)
  {
    assert l + [] == l;
  }

  lemma WithPayoutInStep(f: File, l: seq<Entry>, floor: int)
    requires InStep(f, l)
    ensures InStep(WithPayout(f, l, floor), l)
  {
  }

  lemma ApproveInStep(f: File, l: seq<Entry>, approver: Approver, floor: int, now: Time)
    requires InStep(f, l)
    ensures InStep(ApproveDelivery(f, l, approver, floor, now).file, l)
  {
    var s := ApproveDelivery(f, l, approver, floor, now);
    if s.error.None? {
      var g := s.file.(payouts := f.payouts);
      assert s.file == WithPayout(g, l, floor);
    }
  }

  lemma CorrectedInStep(f: File, outcome: Outcome, credit: int)
    requires PayoutRows(f) && outcome in {RefundPartial, Split}
    ensures forall p <- Corrected(f, outcome, credit).payouts :: p.status == Scheduled ==> p.amountMinor == credit
  {
  }

  lemma VoidedUnscheduled(f: File)
    requires PayoutRows(f)
    ensures forall p <- Voided(f).payouts :: p.status != Scheduled
  {
  }

  lemma ResolutionInStep(f: File, l: seq<Entry>, staff: Option<Actor>, outcome: Outcome, requested: Option<int>)
    requires Rows(f) && Refunds(outcome)
    requires ResolutionRefund(f, staff, outcome, requested).error.None?
    ensures var s := ResolutionRefund(f, staff, outcome, requested);
            var credit := Total(l + s.posted, ExpertCredit);
            forall p <- Corrected(s.file, outcome, credit).payouts :: p.status == Scheduled ==> p.amountMinor == credit
  {
    var s := ResolutionRefund(f, staff, outcome, requested);
    var amount := ResolutionRefundShape(f, staff, outcome, requested);
    var i := IssueRefund(f, staff, amount, true);
    assert PayoutRows(i.file);
    if outcome == RefundFull {
      VoidedUnscheduled(i.file);
    } else {
      CorrectedInStep(i.file, outcome, Total(l + s.posted, ExpertCredit));
    }
  }

  lemma ResolveInStep(f: File, l: seq<Entry>, staff: Option<Actor>, outcome: Outcome, length: nat,
                      requested: Option<int>)
    requires Rows(f) && InStep(f, l)
    ensures var r := Resolve(f, l, staff, outcome, length, requested); InStep(r.file, l + r.posted)
  {
    var r := Resolve(f, l, staff, outcome, length, requested);
    QuietKeepsCredit(l);
    if r.error.None? {
      var s := ResolvedShape(f, l, staff, outcome, length, requested);
      if Refunds(outcome) {
        ResolutionInStep(f, l, staff, outcome, requested);
      }
    }
  }

  lemma ConfirmInStep(f: File, l: seq<Entry>, s: Step)
    requires Rows(f) && (s.posted == [] || f.payouts == [])
    requires s.file.payouts == f.payouts && InStep(f, l)
    ensures InStep(s.file, l + s.posted)
  {
    QuietKeepsCredit(l);
  }

  lemma ConfirmPayoutFree(f: File, accepted: bool, now: Time)
    requires Rows(f)
    ensures var s := ConfirmPayment(f, accepted, now);
            s.file.payouts == f.payouts && (s.posted == [] || f.payouts == [])
  {
  }

  lemma ConfirmOrderInStep(f: File, l: seq<Entry>, gateway: Gateway, accepted: bool, now: Time)
    requires Rows(f) && InStep(f, l)
    ensures var s := ConfirmOrderPayment(f, gateway, accepted, now); InStep(s.file, l + s.posted)
  {
    var s := ConfirmOrderPayment(f, gateway, accepted, now);
    if gateway == Manual && f.payment.None? {
      assert Rows(Armed(f, gateway));
      ConfirmPayoutFree(Armed(f, gateway), accepted, now);
    } else {
      ConfirmPayoutFree(f, accepted, now);
    }
    ConfirmInStep(f, l, s);
  }

  /** Nothing posted, so the credit is as before. */
  lemma SilentInStep(g: File, l: seq<Entry>, s: Step)
    requires s.file == g && s.posted == [] && InStep(g, l)
    ensures InStep(s.file, l + s.posted)
  {
    QuietKeepsCredit(l);
  }

  /** Settling posts no credit and leaves nothing scheduled. */
  lemma SettleInStep(f: File, l: seq<Entry>, k: nat, staff: Option<Actor>)
    requires PayoutRows(f) && InStep(f, l)
    ensures var s := SettlePayout(f, k, staff); InStep(s.file, l + s.posted)
  {
    var s := SettlePayout(f, k, staff);
    if s.error.Some? {
      SilentInStep(f, l, s);
    } else {
      assert forall p <- s.file.payouts :: p.status != Scheduled;
    }
  }

  lemma FailInStep(f: File, l: seq<Entry>, k: nat, staff: Option<Actor>)
    requires PayoutRows(f) && InStep(f, l)
    ensures var s := MarkPayoutFailed(f, k, staff); s.posted == [] && InStep(s.file, l)
  {
  }

  lemma ScheduleInStep(f: File, l: seq<Entry>, floor: int)
    requires InStep(f, l)
    ensures var s := SchedulePayout(f, l, floor); s.posted == [] && InStep(s.file, l)
  {
    WithPayoutInStep(f, l, floor);
  }

  lemma RefundInStep(f: File, l: seq<Entry>, staff: Option<Actor>, amount: int, known: bool)
    requires f.payouts == []
    ensures var s := IssueRefund(f, staff, amount, known); InStep(s.file, l + s.posted)
  {
  }

  lemma SilentPaymentInStep(f: File, l: seq<Entry>, op: Op)
    requires InStep(f, l) && (op.OpStart? || op.OpFailedEvent? || op.OpRefundEvent?)
    ensures var s := ApplyPayment(f, op); s.posted == [] && InStep(s.file, l)
  {
  }

  lemma PaymentInStep(f: File, l: seq<Entry>, op: Op)
    requires Rows(f) && InStep(f, l) && PaymentOp(op) && Disciplined(f, op)
    ensures var s := ApplyPayment(f, op); InStep(s.file, l + s.posted)
  {
    QuietKeepsCredit(l);
    var s := ApplyPayment(f, op);
    match op
    case OpConfirm(accepted, now) => ConfirmPayoutFree(f, accepted, now); ConfirmInStep(f, l, s);
    case OpSucceededEvent(accepted, now) => ConfirmPayoutFree(f, accepted, now); ConfirmInStep(f, l, s);
    case OpConfirmOrder(gateway, accepted, now) => ConfirmOrderInStep(f, l, gateway, accepted, now);
    case OpRefund(staff, amount, known) => RefundInStep(f, l, staff, amount, known);
    case _ => SilentPaymentInStep(f, l, op);
  }

  lemma WorkInStep(f: File, l: seq<Entry>, op: Op)
    requires InStep(f, l) && WorkOp(op)
    ensures var s := ApplyWork(f, l, op); s.posted == [] && InStep(s.file, l)
  {
    if op.OpApprove? {
      ApproveInStep(f, l, op.approver, op.floor, op.now);
    }
  }

  lemma PayoutInStep(f: File, l: seq<Entry>, op: Op)
    requires Rows(f) && InStep(f, l) && PayoutOp(op)
    ensures var s := ApplyPayout(f, l, op); InStep(s.file, l + s.posted)
  {
    match op
    case OpSchedule(floor) =>
      ScheduleInStep(f, l, floor);
      SilentInStep(SchedulePayout(f, l, floor).file, l, SchedulePayout(f, l, floor));
    case OpSettle(k, staff) =>
      SettleInStep(f, l, k, staff);
    case OpFailPayout(k, staff) =>
      FailInStep(f, l, k, staff);
      SilentInStep(MarkPayoutFailed(f, k, staff).file, l, MarkPayoutFailed(f, k, staff));
  }

  lemma DisputeInStep(f: File, l: seq<Entry>, op: Op)
    requires Rows(f) && InStep(f, l) && !PaymentOp(op) && !WorkOp(op) && !PayoutOp(op)
    ensures var s := ApplyDispute(f, l, op); InStep(s.file, l + s.posted)
  {
    QuietKeepsCredit(l);
    if op.OpResolve? {
      ResolveInStep(f, l, op.staff, op.outcome, op.length, op.requested);
    }
  }

  /** In disciplined runs a scheduled payout always equals the credit balance. */
  lemma StepInStep(f: File, l: seq<Entry>, op: Op)
    requires Rows(f) && InStep(f, l) && Disciplined(f, op)
    ensures var s := Apply(f, l, op); InStep(s.file, l + s.posted)
  {
    QuietKeepsCredit(l);
    if PaymentOp(op) {
      PaymentInStep(f, l, op);
    } else if WorkOp(op) {
      WorkInStep(f, l, op);
    } else if PayoutOp(op) {
      PayoutInStep(f, l, op);
    } else {
      DisputeInStep(f, l, op);
    }
  }

  /** Outside the discipline: a direct refund keeps a scheduled payout in step exactly when
      the refund takes nothing from the expert. */
  lemma DirectRefundInStep(f: File, l: seq<Entry>, staff: Option<Actor>, amount: int, known: bool)
    requires Rows(f) && InStep(f, l)
    requires IssueRefund(f, staff, amount, known).error.None?
    ensures var s := IssueRefund(f, staff, amount, known);
            InStep(s.file, l + s.posted)
            <==> (f.payouts == [] || f.payouts[0].status != Scheduled
                  || ReversedCommission(f.order, amount) == amount)
  {
    RefundedTotals(f, l, staff, amount, known);
    ScheduledInStep(f, l);
    var s := IssueRefund(f, staff, amount, known);
    ScheduledInStep(s.file, l + s.posted);
  }

  lemma ScheduledInStep(f: File, l: seq<Entry>)
    requires |f.payouts| <= 1
    ensures InStep(f, l) <==> (f.payouts == [] || f.payouts[0].status != Scheduled
                               || f.payouts[0].amountMinor == Total(l, ExpertCredit))
  {
  }

  /** Settling a payout that is in step leaves nothing payable. */
  lemma SettleClears(f: File, l: seq<Entry>, k: nat, staff: Option<Actor>)
    requires Sound(f, l)
    requires SettlePayout(f, k, staff).error.None?
    ensures k == 0 && |f.payouts| == 1
    ensures var s := SettlePayout(f, k, staff);
            RemainingPayable(l + s.posted) == Total(l, ExpertCredit) - f.payouts[0].amountMinor
    ensures InStep(f, l) && f.payouts[0].status == Scheduled ==>
              RemainingPayable(l + SettlePayout(f, k, staff).posted) == 0
  {
    var s := SettlePayout(f, k, staff);
    TotalAppend(l, s.posted[0], ExpertCredit);
    TotalAppend(l, s.posted[0], Ledger.Payout);
  }

  /** What a full-refund resolution does to a scheduled payout and posts. */
  lemma FullResolution(f: File, l: seq<Entry>, staff: Option<Actor>, length: nat) returns (refund: int)
    requires Rows(f) && f.payouts != [] && f.payouts[0].status == Scheduled
    requires Resolve(f, l, staff, RefundFull, length, None).error.None?
    ensures f.payment.Some? && refund == f.payment.value.amountMinor - f.payment.value.refundedMinor
    ensures var r, i := Resolve(f, l, staff, RefundFull, length, None), IssueRefund(f, staff, refund, true);
            && i.error.None? && r.posted == i.posted
            && r.file.payouts == [f.payouts[0].(status := PayoutFailed)]
            && !r.file.order.hasOpenDispute && r.file.id == f.id
  {
    var s := ResolvedShape(f, l, staff, RefundFull, length, None);
    var amount := ResolutionRefundShape(f, staff, RefundFull, None);
    refund := f.payment.value.amountMinor - f.payment.value.refundedMinor;
    RefundedAmount(f, staff, amount, refund);
    VoidedAmount(IssueRefund(f, staff, amount, true).file);
  }

  /** A full-refund resolution marks the unsettled payout failed but keeps its amount, and
      settlement accepts failed payouts: paying it out then leaves the expert exactly the
      refunded credit in debt. */
  lemma VoidedPayoutStillSettles(f: File, l: seq<Entry>, staff: Actor, length: nat)
    requires Rows(f) && InStep(f, l) && Total(l, Ledger.Payout) == 0 && staff.staff
    requires f.payouts != [] && f.payouts[0].status == Scheduled
    requires Resolve(f, l, Some(staff), RefundFull, length, None).error.None?
    ensures f.payment.Some?
    ensures var r := Resolve(f, l, Some(staff), RefundFull, length, None);
            var refund := f.payment.value.amountMinor - f.payment.value.refundedMinor;
            var s := SettlePayout(r.file, 0, Some(staff));
            && s.error.None?
            && RemainingPayable(l + r.posted + s.posted) == -(refund - ReversedCommission(f.order, refund))
  {
    var refund, returned := FullResolutionTotals(f, l, Some(staff), length);
    var r := Resolve(f, l, Some(staff), RefundFull, length, None);
    SettledIntoDebt(r.file, l + r.posted, staff, f.payouts[0], returned);
  }

  lemma SettledIntoDebt(f: File, l: seq<Entry>, staff: Actor, p: PayoutRow, returned: int)
    requires staff.staff && f.payouts == [p.(status := PayoutFailed)] && !f.order.hasOpenDispute
    requires RemainingPayable(l) == p.amountMinor - returned
    ensures SettlePayout(f, 0, Some(staff)).error.None?
    ensures RemainingPayable(l + SettlePayout(f, 0, Some(staff)).posted) == -returned
  {
    SettledFailed(f, l, staff, p);
  }

  /** The rows and the balance a full resolution leaves; `returned` is what it took from the expert. */
  lemma FullResolutionTotals(f: File, l: seq<Entry>, staff: Option<Actor>, length: nat)
    returns (refund: int, returned: int)
    requires Rows(f) && InStep(f, l) && f.payouts != [] && f.payouts[0].status == Scheduled
    requires Total(l, Ledger.Payout) == 0
    requires Resolve(f, l, staff, RefundFull, length, None).error.None?
    ensures f.payment.Some? && refund == f.payment.value.amountMinor - f.payment.value.refundedMinor
    ensures returned == refund - ReversedCommission(f.order, refund)
    ensures var r := Resolve(f, l, staff, RefundFull, length, None);
            && r.file.payouts == [f.payouts[0].(status := PayoutFailed)] && !r.file.order.hasOpenDispute
            && RemainingPayable(l + r.posted) == f.payouts[0].amountMinor - returned
  {
    refund := FullResolution(f, l, staff, length);
    RefundedTotals(f, l, staff, refund, true);
    returned := refund - ReversedCommission(f.order, refund);
    ScheduledInStep(f, l);
  }

  lemma SettledFailed(f: File, l: seq<Entry>, staff: Actor, p: PayoutRow)
    requires staff.staff && f.payouts == [p.(status := PayoutFailed)] && !f.order.hasOpenDispute
    ensures var s := SettlePayout(f, 0, Some(staff));
            s.error.None? && RemainingPayable(l + s.posted) == RemainingPayable(l) - p.amountMinor
  {
    var e := Entry(Ledger.Payout, -p.amountMinor, f.id, Some(p.expert));
    assert SettlePayout(f, 0, Some(staff)).posted == [e];
    TotalAppend(l, e, ExpertCredit);
    TotalAppend(l, e, Ledger.Payout);
  }

  lemma VoidedAmount(f: File)
    requires |f.payouts| == 1 && f.payouts[0].status == Scheduled
    ensures Voided(f).payouts == [f.payouts[0].(status := PayoutFailed)]
  {
  }

  /** The amount a full resolution refunds is what was refundable. */
  lemma RefundedAmount(f: File, staff: Option<Actor>, amount: int, refund: int)
    requires f.payment.Some? && refund == f.payment.value.amountMinor - f.payment.value.refundedMinor
    requires var s := ResolutionRefund(f, staff, RefundFull, None);
             var i := IssueRefund(f, staff, amount, true);
             s.error.None? && i.error.None? && s.file == Voided(i.file)
    ensures amount == refund
  {
    var i := IssueRefund(f, staff, refund, true);
    var s := ResolutionRefund(f, staff, RefundFull, None);
    assert s.file.payment == i.file.payment;
  }

  // --- freeze and settlement over one step -------------------------------------------------------

  /** No payout entry is appended while a dispute is open; PAID is absorbing. */
  lemma FrozenPostsNoPayout(f: File, l: seq<Entry>, op: Op)
    requires Rows(f)
    ensures var s := Apply(f, l, op);
            && (f.order.hasOpenDispute ==> Tally(s.posted, Ledger.Payout) == 0)
            && (HasPaidOut(f) ==>
                  HasPaidOut(s.file) && s.file.payouts[0].amountMinor == f.payouts[0].amountMinor
                  && Tally(s.posted, Ledger.Payout) == 0)
  {
    var s := Apply(f, l, op);
    var e := StepEffect(f, l, op);
    match e
    case Quiet =>
    case Charges => ChargeTotals(f, f.order.amount, Ledger.Payout);
    case Returns(amount) => RefundTotals(f, amount, ReversedCommission(f.order, amount), Ledger.Payout);
    case Settles =>
  }

  // --- the booked snapshot --------------------------------------------------------------------------

  /** The ledger books the order's own split, unless that split charged no commission and the
      default rate would. */
  lemma BookedIsSnapshot(o: Order)
    requires Terms(o)
    ensures BookedSplit(o, o.amount) == (o.commissionAmount, o.expertAmount)
            <==> (o.commissionAmount > 0 || CommissionOf(o.amount, DEFAULT_RATE) == 0)
  {
  }

  /** An order booked at a zero rate is charged the default commission when it is confirmed,
      and its expert is credited that much less than the order says: 15.00 of 100.00. */
  lemma ZeroRateStillCharges(id: OrderId, request: nat, student: UserId, expert: UserId, amount: int,
                             currency: string, now: Time)
    requires amount > 0
    ensures var o := NewFile(id, request, student, expert, amount, currency, 0, now).order;
            && o.commissionAmount == 0 && o.expertAmount == amount
            && BookedSplit(o, amount) == CommissionSplit(amount, DEFAULT_RATE)
    ensures CommissionSplit(10000, DEFAULT_RATE) == (1500, 8500)
  {
    RoundHalfUpUnique(0, RATE_UNIT, 0);
    FifteenPercent();
  }

  lemma FifteenPercent()
    ensures CommissionOf(10000, DEFAULT_RATE) == 1500
  {
    var n := 10000 * DEFAULT_RATE;
    assert n == 15000000;
    assert RATE_UNIT * 1500 == 15000000;
    RoundHalfUpUnique(n, RATE_UNIT, 1500);
  }

  /** A single full refund of an order booked at its own split zeroes both sides. */
  lemma FullRefundZeroes(f: File, l: seq<Entry>, staff: Option<Actor>)
    requires Sound(f, l) && IsPaid(f) && f.refunds == [] && f.order.commissionAmount > 0
    requires IssueRefund(f, staff, f.order.amount, true).error.None?
    ensures var s := IssueRefund(f, staff, f.order.amount, true);
            Total(l + s.posted, Commission) == 0 && Total(l + s.posted, ExpertCredit) == 0
  {
    RefundedTotals(f, l, staff, f.order.amount, true);
    WholeReversed(f.order);
    UnrefundedReversedNothing(f.order.amount, ReversedSoFar(f, l));
  }

  lemma WholeReversed(o: Order)
    requires Terms(o)
    ensures ReversedCommission(o, o.amount) == o.commissionAmount
  {
    RoundHalfUpUnique(o.amount * o.commissionAmount, o.amount, o.commissionAmount);
  }

  lemma UnrefundedReversedNothing(whole: int, reversed: int)
    requires whole > 0 && Abs(2 * (whole * reversed)) <= 0
    ensures reversed == 0
  {
  }

  // --- refunds as the running program divides them -----------------------------------------------------

  /** For orders up to 67,108,863 minor units every refund's binary64 split is the exact one, so
      whatever is proved of runs with exact division holds of them as they are. */
  lemma FloatRefundIsExact(o: Order, amount: int, divide: Division, parts: seq<int>)
    requires Terms(o) && 0 < amount <= o.amount <= 67_108_863
    requires IsBinary64Division(divide)
    requires IsAllocation(amount, [o.commissionAmount, o.expertAmount], divide, parts)
    ensures parts == [ReversedCommission(o, amount), amount - ReversedCommission(o, amount)]
  {
    ProductsFit(amount, o.commissionAmount);
    ProductsFit(amount, o.expertAmount);
    FloatTwoWayIsRoundHalfUp(amount, o.commissionAmount, o.expertAmount, divide, parts);
  }

  lemma ProductsFit(amount: int, part: int)
    requires 0 <= amount <= 67_108_863 && 0 <= part <= 67_108_863
    ensures 2 * (amount * part) < TWO53
  {
    ProductOrder(amount, part, 67_108_863);
    ProductOrder(67_108_863, amount, 67_108_863);
    assert amount * 67_108_863 == 67_108_863 * amount;
  }
}
