/** Where the code does less than its documents promise: for each promise the exact condition
    under which the code keeps it, and a run or an input at which it does not. */
module Shortfalls {
  import opened Core
  import opened Ledger
  import opened Money
  import opened OrderFile
  import opened OrderSteps
  import opened OrderInvariant
  import opened OrderBooks
  import opened Payouts
  import opened Platform
  import opened Runs
  import opened Backend
  import A = Acquisition
  import MP = Marketplace

  // --- a paid order to start from -----------------------------------------------------------

  const STUDENT := Actor(1, false)
  const EXPERT := Actor(2, false)
  const STAFF := Actor(9, true)

  /** An order of 100.00 at 15%, paid. */
  const PAID_RUN: seq<Command> :=
    [Create(0, 1, 2, 10000, "USD", 1500, 0), On(0, OpStart(STUDENT, Manual)), On(0, OpConfirm(true, 1))]

  lemma RunStep(w: World, cs: seq<Command>, c: Command)
    ensures Run(w, cs + [c]) == Exec(Run(w, cs), c)
  {
    assert (cs + [c])[..|cs|] == cs;
  }

  lemma RunTriple(w: World, a: Command, b: Command, c: Command)
    ensures Run(w, [a, b, c]) == Exec(Exec(Exec(w, a), b), c)
  {
    assert [] + [a] == [a] && [a] + [b] == [a, b] && [a, b] + [c] == [a, b, c];
    RunStep(w, [], a);
    RunStep(w, [a], b);
    RunStep(w, [a, b], c);
  }

  ghost predicate FreshlyPaid(f: File) {
    && f.id == 0 && f.order.student == 1 && f.order.expert == 2 && f.order.amount == 10000
    && f.order.commissionAmount == 1500 && f.order.expertAmount == 8500
    && f.order.status == Active && f.order.paidAt.Some? && !f.order.hasOpenDispute
    && f.payment.Some? && f.payment.value.status == Succeeded && f.payment.value.reference == Reference(0, 0)
    && f.payment.value.amountMinor == 10000 && f.payment.value.refundedMinor == 0
    && f.refunds == [] && f.payouts == [] && f.dispute.None?
  }

  const NEW_ROW: File := NewFile(0, 0, 1, 2, 10000, "USD", 1500, 0)

  lemma CreatedRow()
    ensures Exec(START, PAID_RUN[0]) == World([NEW_ROW], [], map[])
    ensures NEW_ROW.order.commissionAmount == 1500 && NEW_ROW.order.expertAmount == 8500
  {
    FifteenPercent();
  }

  /** A call on the only order. */
  lemma ExecOnOnly(w: World, f: File, op: Op)
    requires w.files == [f] && f.id == 0
    ensures var s := Apply(f, Entries(w, 0), op);
            Exec(w, On(0, op)) == World([s.file], w.ledger + s.posted, w.hooks)
  {
    assert [f][0 := Apply(f, Entries(w, 0), op).file] == [Apply(f, Entries(w, 0), op).file];
  }

  /** The first two calls on the new order: its payment is armed, then confirmed. */
  lemma PaymentOfNewRow()
    ensures var armed := StartPayment(NEW_ROW, STUDENT, Manual);
            var paid := ConfirmPayment(armed.file, true, 1);
            && armed.posted == [] && armed.file.id == 0
            && FreshlyPaid(paid.file) && paid.posted == ChargeEntries(armed.file, 10000)
            && armed.file.order.commissionAmount == 1500 && armed.file.order.expertAmount == 8500
  {
    CreatedRow();
  }

  lemma PaidRunPays()
    ensures var w := Run(START, PAID_RUN);
            && |w.files| == 1 && FreshlyPaid(w.files[0]) && w.hooks == map[]
            && Total(Entries(w, 0), ExpertCredit) == 8500
  {
    var armed := StartPayment(NEW_ROW, STUDENT, Manual);
    var paid := ConfirmPayment(armed.file, true, 1);
    RunTriple(START, PAID_RUN[0], PAID_RUN[1], PAID_RUN[2]);
    CreatedRow();
    PaymentOfNewRow();
    var w1 := World([NEW_ROW], [], map[]);
    ExecOnOnly(w1, NEW_ROW, OpStart(STUDENT, Manual));
    var w2 := World([armed.file], [] + [], map[]);
    ExecOnOnly(w2, armed.file, OpConfirm(true, 1));
    assert Run(START, PAID_RUN) == World([paid.file], [] + [] + paid.posted, map[]);
    PaidCredit(armed.file);
  }

  lemma PaidCredit(f: File)
    requires f.id == 0 && f.order.commissionAmount == 1500 && f.order.expertAmount == 8500
    ensures Total(Of([] + [] + ChargeEntries(f, 10000), 0), ExpertCredit) == 8500
  {
    var l := ChargeEntries(f, 10000);
    assert [] + [] + l == l;
    OfPosted(l, 0, 0);
    ChargeTotals(f, 10000, ExpertCredit);
  }

  // --- the payout every completed order is promised ------------------------------------------

  lemma ExecKeepsRefunds(w: World, c: Command, o: OrderId)
    requires WorldSound(w) && o < |w.files|
    ensures o < |Exec(w, c).files| && w.files[o].refunds <= Exec(w, c).files[o].refunds
  {
    assert OrderSound(w, o);
    var op := ExecOnOrder(w, c, o);
    if op.Some? {
      var e := StepEffect(w.files[o], Entries(w, o), op.value);
    }
  }

  /** Once any refund was issued, whatever happens later, the sweeper skips the order: its
      query asks for a fully SUCCEEDED payment. */
  lemma {:induction false} RefundedNeverSwept(w: World, cs: seq<Command>, o: OrderId)
    requires WorldSound(w) && o < |w.files| && w.files[o].refunds != []
    ensures o < |Run(w, cs).files| && Run(w, cs).files[o].refunds != []
    ensures !Sweepable(Run(w, cs).files[o])
  {
    if cs != [] {
      var front := cs[..|cs| - 1];
      RefundedNeverSwept(w, front, o);
      RunSound(w, front);
      ExecKeepsRefunds(Run(w, front), cs[|cs| - 1], o);
    }
    RunSound(w, cs);
    var f := Run(w, cs).files[o];
    assert OrderSound(Run(w, cs), o);
    PositiveRefundSum(f.refunds);
  }

  lemma PartialIsRefund(f: File, staff: Option<Actor>, outcome: Outcome, requested: Option<int>)
    requires outcome in {RefundPartial, Split} && ResolutionRefund(f, staff, outcome, requested).error.None?
    ensures requested.Some?
    ensures ResolutionRefund(f, staff, outcome, requested) == IssueRefund(f, staff, requested.value, true)
  {
  }

  /** A dispute settled by a partial refund or a split leaves a completed order that had no
      payout without one, and the expert owed what the refund left of the credit. */
  lemma PartialResolutionUnswept(f: File, l: seq<Entry>, staff: Option<Actor>, outcome: Outcome, length: nat,
                                 requested: Option<int>)
    requires Rows(f) && f.payouts == [] && outcome in {RefundPartial, Split}
    requires Resolve(f, l, staff, outcome, length, requested).error.None?
    ensures requested.Some? && NonNegative(f.order.commissionAmount) + NonNegative(f.order.expertAmount) > 0
    ensures var r := Resolve(f, l, staff, outcome, length, requested);
            && r.file.order.status == Completed && !r.file.order.hasOpenDispute
            && r.file.payouts == [] && r.file.refunds != [] && !Sweepable(r.file)
            && Total(l + r.posted, ExpertCredit)
               == Total(l, ExpertCredit) - (requested.value - ReversedCommission(f.order, requested.value))
  {
    var s := ResolvedShape(f, l, staff, outcome, length, requested);
    PartialIsRefund(f, staff, outcome, requested);
    RefundedTotals(f, l, staff, requested.value, true);
    RefundMarks(f, staff, requested.value);
  }

  lemma RefundMarks(f: File, staff: Option<Actor>, amount: int)
    requires IssueRefund(f, staff, amount, true).error.None?
    ensures var g := IssueRefund(f, staff, amount, true).file;
            g.refunds != [] && g.payment.Some? && g.payment.value.status in {Refunded, PartiallyRefunded}
  {
  }

  /** Completed, or cancelled, or disputed after completion. */
  predicate Finished(f: File) { Phase(f) in {Completed, Cancelled} }

  ghost predicate StaysFinished(f: File, s: Step) { Finished(s.file) && (f.payouts == [] ==> s.file.payouts == []) }

  lemma FinishedPayment(f: File, op: Op)
    requires Rows(f) && Finished(f) && PaymentOp(op)
    ensures StaysFinished(f, ApplyPayment(f, op))
  {
  }

  lemma FinishedWork(f: File, l: seq<Entry>, op: Op)
    requires Rows(f) && Finished(f) && WorkOp(op)
    ensures StaysFinished(f, ApplyWork(f, l, op))
  {
  }

  lemma FinishedResolution(f: File, l: seq<Entry>, staff: Option<Actor>, outcome: Outcome, length: nat,
                           requested: Option<int>)
    requires Rows(f) && Finished(f)
    ensures StaysFinished(f, Resolve(f, l, staff, outcome, length, requested))
  {
    var r := Resolve(f, l, staff, outcome, length, requested);
    if r.error.None? {
      var s := ResolvedShape(f, l, staff, outcome, length, requested);
      if Refunds(outcome) {
        var amount := ResolutionRefundShape(f, staff, outcome, requested);
      }
    }
  }

  lemma FinishedDispute(f: File, l: seq<Entry>, op: Op)
    requires Rows(f) && Finished(f) && !PaymentOp(op) && !WorkOp(op) && !PayoutOp(op)
    ensures StaysFinished(f, ApplyDispute(f, l, op))
  {
    if op.OpDispute? {
      OpenedShape(f, op.actor, op.reasonKnown, op.length, op.evidenceOwned, op.windowDays, op.now);
    } else if op.OpResolve? {
      FinishedResolution(f, l, op.staff, op.outcome, op.length, op.requested);
    }
  }

  /** No call but schedule_payout itself gives a finished order a payout. */
  lemma FinishedStep(f: File, l: seq<Entry>, op: Op)
    requires Rows(f) && Finished(f) && !op.OpSchedule?
    ensures StaysFinished(f, Apply(f, l, op))
  {
    if PaymentOp(op) {
      FinishedPayment(f, op);
    } else if WorkOp(op) {
      FinishedWork(f, l, op);
    } else if !PayoutOp(op) {
      FinishedDispute(f, l, op);
    }
  }

  predicate SchedulesDirectly(c: Command, o: OrderId) { c.On? && c.order == o && c.op.OpSchedule? }

  /** A completed, refunded order without a payout has none for good: no continuation gives it one,
      sweeps after any of it included, unless somebody schedules it by hand. */
  lemma {:induction false} UnpaidForGood(w: World, cs: seq<Command>, o: OrderId)
    requires WorldSound(w) && o < |w.files| && Finished(w.files[o])
    requires w.files[o].payouts == [] && w.files[o].refunds != []
    requires forall c <- cs :: !SchedulesDirectly(c, o)
    ensures o < |Run(w, cs).files| && Finished(Run(w, cs).files[o])
    ensures Run(w, cs).files[o].payouts == []
    ensures forall floor :: Swept(Run(w, cs), floor)[o].payouts == []
  {
    if cs != [] {
      var front, c := cs[..|cs| - 1], cs[|cs| - 1];
      assert c in cs && forall b <- front :: b in cs;
      UnpaidForGood(w, front, o);
      RunSound(w, front);
      FinishedExec(Run(w, front), c, o);
    }
    RefundedNeverSwept(w, cs, o);
    forall floor ensures Swept(Run(w, cs), floor)[o].payouts == [] {
      SweptAt(Run(w, cs), floor, o);
    }
  }

  lemma FinishedExec(w: World, c: Command, o: OrderId)
    requires WorldSound(w) && o < |w.files| && Finished(w.files[o]) && !SchedulesDirectly(c, o)
    ensures o < |Exec(w, c).files| && Finished(Exec(w, c).files[o])
    ensures w.files[o].payouts == [] ==> Exec(w, c).files[o].payouts == []
  {
    assert OrderSound(w, o);
    var op := ExecOnOrder(w, c, o);
    if op.Some? {
      FinishedStep(w.files[o], Entries(w, o), op.value);
    }
  }

  /** The paid order, disputed while active and settled by returning 10.00 of the 100.00. */
  const SETTLED_RUN: seq<Command> := REVIEW_RUN + [On(0, SETTLEMENT)]

  lemma TenOfAHundred()
    ensures RoundHalfUp(1000 * 1500, 10000) == 150
  {
    RoundHalfUpUnique(1500000, 10000, 150);
  }

  ghost predicate UnderPaidReview(f: File) {
    && f.id == 0 && f.dispute.Some? && f.dispute.value.status == UnderReview
    && f.order.status == OrderStatus.Disputed && f.payouts == [] && f.refunds == []
    && f.order.commissionAmount == 1500 && f.order.expertAmount == 8500
    && f.payment.Some? && f.payment.value.status == Succeeded
    && f.payment.value.amountMinor == 10000 && f.payment.value.refundedMinor == 0
  }

  /** Opening the dispute and taking the case. */
  lemma ReviewOfPaid(f: File)
    requires FreshlyPaid(f)
    ensures var d := OpenDispute(f, STUDENT, true, MIN_DISPUTE_TEXT, true, 7, 2);
            var t := MoveDispute(d.file, UnderReview, Some(STAFF));
            && d.posted == [] && d.file.id == 0 && t.posted == [] && UnderPaidReview(t.file)
  {
    OpenedShape(f, STUDENT, true, MIN_DISPUTE_TEXT, true, 7, 2);
  }

  const REVIEW_RUN: seq<Command> :=
    PAID_RUN + [On(0, OpDispute(STUDENT, true, MIN_DISPUTE_TEXT, true, 7, 2))] + [On(0, OpTakeCase(Some(STAFF)))]

  lemma ReviewFrom(w: World, f: File)
    requires w.files == [f] && FreshlyPaid(f) && Total(Entries(w, 0), ExpertCredit) == 8500
    ensures var c, d := On(0, OpDispute(STUDENT, true, MIN_DISPUTE_TEXT, true, 7, 2)), On(0, OpTakeCase(Some(STAFF)));
            var w' := Exec(Exec(w, c), d);
            |w'.files| == 1 && UnderPaidReview(w'.files[0]) && Total(Entries(w', 0), ExpertCredit) == 8500
  {
    ReviewOfPaid(f);
    var o := OpenDispute(f, STUDENT, true, MIN_DISPUTE_TEXT, true, 7, 2);
    ExecOnOnly(w, f, OpDispute(STUDENT, true, MIN_DISPUTE_TEXT, true, 7, 2));
    ExecOnOnly(World([o.file], w.ledger + [], w.hooks), o.file, OpTakeCase(Some(STAFF)));
    assert w.ledger + [] + [] == w.ledger;
  }

  lemma UnderReviewRun()
    ensures var w := Run(START, REVIEW_RUN);
            |w.files| == 1 && UnderPaidReview(w.files[0]) && Total(Entries(w, 0), ExpertCredit) == 8500
  {
    var cs := PAID_RUN;
    var c, d := On(0, OpDispute(STUDENT, true, MIN_DISPUTE_TEXT, true, 7, 2)), On(0, OpTakeCase(Some(STAFF)));
    PaidRunPays();
    RunTwice(START, cs, c, d);
    ReviewFrom(Run(START, cs), Run(START, cs).files[0]);
  }

  lemma RunTwice(w: World, cs: seq<Command>, c: Command, d: Command)
    ensures Run(w, cs + [c] + [d]) == Exec(Exec(Run(w, cs), c), d)
  {
    RunStep(w, cs, c);
    RunStep(w, cs + [c], d);
  }

  /** The resolution itself: 10.00 go back, 76.50 of the credit remain. */
  lemma SettledFile(f: File, l: seq<Entry>)
    requires Rows(f) && UnderPaidReview(f) && Total(l, ExpertCredit) == 8500
    ensures var r := Resolve(f, l, Some(STAFF), RefundPartial, MIN_DISPUTE_TEXT, Some(1000));
            && r.error.None? && r.file.order.status == Completed && !r.file.order.hasOpenDispute
            && r.file.payouts == [] && r.file.refunds != []
            && Total(l + r.posted, ExpertCredit) == 7650
  {
    PartialSettles(f, l);
    PartialResolutionUnswept(f, l, Some(STAFF), RefundPartial, MIN_DISPUTE_TEXT, Some(1000));
    TenOfAHundred();
  }

  lemma PartialSettles(f: File, l: seq<Entry>)
    requires UnderPaidReview(f)
    ensures Resolve(f, l, Some(STAFF), RefundPartial, MIN_DISPUTE_TEXT, Some(1000)).error.None?
  {
  }

  /** What a call on the only order appends to its entries. */
  lemma OnlyEntries(w: World, f: File, op: Op)
    requires WorldSound(w) && w.files == [f]
    ensures Entries(Exec(w, On(0, op)), 0) == Entries(w, 0) + Apply(f, Entries(w, 0), op).posted
  {
    assert OrderSound(w, 0);
    OrderStepNamed(w, 0, op);
    CommittedEntries(w, 0, OrderStep(w, 0, op));
  }

  ghost predicate SettledUnpaid(f: File, credit: int) {
    && f.order.status == Completed && !f.order.hasOpenDispute && f.payouts == [] && f.refunds != [] && credit == 7650
  }

  const SETTLEMENT: Op := OpResolve(Some(STAFF), RefundPartial, MIN_DISPUTE_TEXT, Some(1000))

  lemma RowsOf(w: World, o: OrderId)
    requires WorldSound(w) && o < |w.files|
    ensures Rows(w.files[o])
  {
    assert OrderSound(w, o);
  }

  lemma SettledStep(w: World, f: File) returns (s: Step)
    requires WorldSound(w) && w.files == [f] && UnderPaidReview(f) && Total(Entries(w, 0), ExpertCredit) == 8500
    ensures s == Apply(f, Entries(w, 0), SETTLEMENT)
    ensures SettledUnpaid(s.file, Total(Entries(w, 0) + s.posted, ExpertCredit))
  {
    RowsOf(w, 0);
    SettledFile(f, Entries(w, 0));
    s := Resolve(f, Entries(w, 0), Some(STAFF), RefundPartial, MIN_DISPUTE_TEXT, Some(1000));
  }

  /** The effect of a call on the only order, given what its step is. */
  lemma CarriedOver(w: World, f: File, op: Op, s: Step)
    requires WorldSound(w) && w.files == [f] && f.id == 0 && s == Apply(f, Entries(w, 0), op)
    ensures Exec(w, On(0, op)).files == [s.file] && Entries(Exec(w, On(0, op)), 0) == Entries(w, 0) + s.posted
  {
    ExecOnOnly(w, f, op);
    OnlyEntries(w, f, op);
  }

  lemma SettleFrom(w: World, f: File)
    requires WorldSound(w) && w.files == [f] && UnderPaidReview(f) && Total(Entries(w, 0), ExpertCredit) == 8500
    ensures var w' := Exec(w, On(0, SETTLEMENT));
            |w'.files| == 1 && SettledUnpaid(w'.files[0], Total(Entries(w', 0), ExpertCredit))
  {
    var s := SettledStep(w, f);
    CarriedOver(w, f, SETTLEMENT, s);
  }

  lemma SettledRun()
    ensures var w := Run(START, SETTLED_RUN);
            && WorldSound(w) && |w.files| == 1 && SettledUnpaid(w.files[0], Total(Entries(w, 0), ExpertCredit))
  {
    UnderReviewRun();
    ReachableSound(REVIEW_RUN);
    ReachableSound(SETTLED_RUN);
    RunStep(START, REVIEW_RUN, On(0, SETTLEMENT));
    SettleFrom(Run(START, REVIEW_RUN), Run(START, REVIEW_RUN).files[0]);
  }

  /** So the promised payout is missed: the order is completed and dispute-free, its expert is
      owed 76.50 - well above the floor of 10.00 - no sweep ever selects it, and without a payout
      scheduled by hand there is never any. */
  lemma SettledRunUnpaid()
    ensures var w := Run(START, SETTLED_RUN);
            && |w.files| == 1 && w.files[0].order.status == Completed && !w.files[0].order.hasOpenDispute
            && Total(Entries(w, 0), ExpertCredit) == 7650
            && Swept(w, 1000)[0].payouts == []
            && (forall cs :: 1 <= |Run(w, cs).files| && !Sweepable(Run(w, cs).files[0]))
            && forall cs :: (forall c <- cs :: !SchedulesDirectly(c, 0)) ==> Run(w, cs).files[0].payouts == []
  {
    SettledRun();
    var w := Run(START, SETTLED_RUN);
    UnpaidAfterSweep(w, 1000, 0);
    forall cs ensures 1 <= |Run(w, cs).files| && !Sweepable(Run(w, cs).files[0]) {
      RefundedNeverSwept(w, cs, 0);
    }
    forall cs | forall c <- cs :: !SchedulesDirectly(c, 0) ensures Run(w, cs).files[0].payouts == [] {
      UnpaidForGood(w, cs, 0);
    }
  }

  // --- payment.failed on a paid order ----------------------------------------------------------

  /** On a paid order the event overwrites the status exactly when something was refunded and
      the status does not say so already. */
  lemma FailedEventOverwrites(f: File)
    requires Rows(f) && IsPaid(f)
    ensures f.payment.Some? && PaymentFailedEvent(f).file.payment.Some?
    ensures var before, after := f.payment.value.status, PaymentFailedEvent(f).file.payment.value.status;
            && (after != before <==> f.refunds != [] && before != Failed)
            && (after != before <==> before in {PartiallyRefunded, Refunded})
            && (after != before ==> after == Failed)
  {
    PositiveRefundSum(f.refunds);
  }

  /** Paid, yet its payment says failed. */
  predicate Stuck(f: File) {
    f.order.paidAt.Some? && f.payment.Some? && f.payment.value.status == Failed
  }

  ghost predicate StaysStuck(f: File, s: Step) {
    && Stuck(s.file) && s.file.refunds == f.refunds
    && f.payment.Some? && s.file.payment.value.refundedMinor == f.payment.value.refundedMinor
  }

  lemma StuckPayment(f: File, op: Op)
    requires Rows(f) && Stuck(f) && PaymentOp(op)
    ensures StaysStuck(f, ApplyPayment(f, op))
    ensures op.OpRefund? ==> ApplyPayment(f, op).error.Some?
  {
    if op.OpRefundEvent? { EventRows(f, op.k); }
  }

  lemma StuckWork(f: File, l: seq<Entry>, op: Op)
    requires Rows(f) && Stuck(f) && WorkOp(op)
    ensures StaysStuck(f, ApplyWork(f, l, op))
  {
  }

  lemma StuckDispute(f: File, l: seq<Entry>, op: Op)
    requires Rows(f) && Stuck(f) && !PaymentOp(op) && !WorkOp(op) && !PayoutOp(op)
    ensures StaysStuck(f, ApplyDispute(f, l, op))
    ensures op.OpResolve? && Refunds(op.outcome) ==> ApplyDispute(f, l, op).error.Some?
  {
    if op.OpDispute? {
      OpenedShape(f, op.actor, op.reasonKnown, op.length, op.evidenceOwned, op.windowDays, op.now);
    } else if op.OpResolve? {
      StuckResolution(f, l, op.staff, op.outcome, op.length, op.requested);
    }
  }

  lemma StuckResolution(f: File, l: seq<Entry>, staff: Option<Actor>, outcome: Outcome, length: nat,
                        requested: Option<int>)
    requires Stuck(f)
    ensures StaysStuck(f, Resolve(f, l, staff, outcome, length, requested))
    ensures Refunds(outcome) ==> Resolve(f, l, staff, outcome, length, requested).error.Some?
  {
    if Resolve(f, l, staff, outcome, length, requested).error.None? {
      var s := ResolvedShape(f, l, staff, outcome, length, requested);
    }
  }

  /** No call gets the order out of it, and every refund - direct or by resolution - is refused. */
  lemma StuckStep(f: File, l: seq<Entry>, op: Op)
    requires Rows(f) && Stuck(f)
    ensures StaysStuck(f, Apply(f, l, op))
    ensures op.OpRefund? || (op.OpResolve? && Refunds(op.outcome)) ==> Apply(f, l, op).error.Some?
  {
    if PaymentOp(op) {
      StuckPayment(f, op);
    } else if WorkOp(op) {
      StuckWork(f, l, op);
    } else if !PayoutOp(op) {
      StuckDispute(f, l, op);
    }
  }

  /** Once a paid order's payment is marked failed it stays so over every run; whatever was not
      refunded by then can never be. */
  lemma {:induction false} StuckForever(w: World, cs: seq<Command>, o: OrderId)
    requires WorldSound(w) && o < |w.files| && Stuck(w.files[o])
    ensures o < |Run(w, cs).files|
    ensures var f, g := w.files[o], Run(w, cs).files[o];
            && Stuck(g) && g.refunds == f.refunds && g.payment.value.refundedMinor == f.payment.value.refundedMinor
            && Total(Entries(Run(w, cs), o), Ledger.Refund) == Total(Entries(w, o), Ledger.Refund)
    ensures forall op: Op :: op.OpRefund? || (op.OpResolve? && Refunds(op.outcome)) ==>
                               OrderStep(Run(w, cs), o, op).error.Some?
  {
    assert OrderSound(w, o);
    if cs != [] {
      var front, c := cs[..|cs| - 1], cs[|cs| - 1];
      StuckForever(w, front, o);
      RunSound(w, front);
      var mid := Run(w, front);
      assert OrderSound(mid, o);
      var op := ExecOnOrder(mid, c, o);
      if op.Some? {
        StuckStep(mid.files[o], Entries(mid, o), op.value);
      }
    }
    RunSound(w, cs);
    var end := Run(w, cs);
    assert OrderSound(end, o);
    forall op: Op | op.OpRefund? || (op.OpResolve? && Refunds(op.outcome)) ensures OrderStep(end, o, op).error.Some? {
      StuckStep(end.files[o], Entries(end, o), op);
    }
  }

  /** The paid order, 10.00 refunded, then a late payment.failed event for its attempt. */
  const STUCK_RUN: seq<Command> :=
    PAID_RUN + [On(0, OpRefund(Some(STAFF), 1000, true))] + [Ingest(0, PayFailed(Reference(0, 0)), true, 3)]

  lemma StuckFile(f: File)
    requires FreshlyPaid(f)
    ensures var r := IssueRefund(f, Some(STAFF), 1000, true);
            && r.file.id == 0 && r.file.payment.Some? && r.file.payment.value.reference == Reference(0, 0)
            && var g := PaymentFailedEvent(r.file).file;
               Stuck(g) && g.payment.value.amountMinor == 10000 && g.payment.value.refundedMinor == 1000
  {
  }

  lemma StuckFrom(w: World, f: File)
    requires w.files == [f] && FreshlyPaid(f) && w.hooks == map[]
    ensures var c, d := On(0, OpRefund(Some(STAFF), 1000, true)), Ingest(0, PayFailed(Reference(0, 0)), true, 3);
            var w' := Exec(Exec(w, c), d);
            && |w'.files| == 1 && Stuck(w'.files[0])
            && w'.files[0].payment.value.amountMinor == 10000 && w'.files[0].payment.value.refundedMinor == 1000
  {
    StuckFile(f);
    ExecOnOnly(w, f, OpRefund(Some(STAFF), 1000, true));
    var r := IssueRefund(f, Some(STAFF), 1000, true);
    FailedOnOnly(World([r.file], w.ledger + r.posted, w.hooks), r.file);
  }

  lemma FailedOnOnly(w: World, f: File)
    requires w.files == [f] && f.id == 0 && w.hooks == map[]
    requires f.payment.Some? && f.payment.value.reference == Reference(0, 0)
    ensures Exec(w, Ingest(0, PayFailed(Reference(0, 0)), true, 3)).files == [PaymentFailedEvent(f).file]
  {
    ExecOnOnly(w, f, OpFailedEvent);
    assert Matches(w, Reference(0, 0));
  }

  lemma StuckRunStuck()
    ensures var w := Run(START, STUCK_RUN);
            && |w.files| == 1 && Stuck(w.files[0])
            && w.files[0].payment.value.amountMinor == 10000 && w.files[0].payment.value.refundedMinor == 1000
  {
    PaidRunPays();
    RunTwice(START, PAID_RUN, On(0, OpRefund(Some(STAFF), 1000, true)), Ingest(0, PayFailed(Reference(0, 0)), true, 3));
    StuckFrom(Run(START, PAID_RUN), Run(START, PAID_RUN).files[0]);
  }

  // --- unpaid orders ------------------------------------------------------------------------------

  predicate HasOpenAttempt(f: File) { f.payment.Some? && OpenAttempt(f.payment.value.status) }

  /** The sweep cancels the order and leaves its payment as it is, so an open attempt survives
      exactly when there was one; a cancellation leaves none. */
  lemma SweepLeavesAttempt(f: File, actor: Actor, given: bool, now: Time)
    requires UnpaidTooLong(f, now)
    ensures var s := SweepUnpaid(f, now);
            && s.error.None? && s.file.order.status == Cancelled && s.file.payment == f.payment
            && (HasOpenAttempt(s.file) <==> HasOpenAttempt(f))
    ensures var c := Cancel(f, actor, given, now);
            c.error.None? ==> c.file.order.status == Cancelled && !HasOpenAttempt(c.file)
  {
  }

  /** A paid-for attempt that survived is of no use: the confirmation is refused. */
  lemma SweptCannotConfirm(f: File, now: Time, accepted: bool, at: Time)
    requires Rows(f) && UnpaidTooLong(f, now)
    ensures ConfirmPayment(SweepUnpaid(f, now).file, accepted, at).error.Some?
  {
  }

  // --- cancelling under dispute -----------------------------------------------------------------------

  predicate FlaggedCancelled(f: File) { f.order.status == Cancelled && f.order.hasOpenDispute }

  lemma StaffCancelsDisputed(f: File, actor: Actor, given: bool, now: Time)
    requires Rows(f) && f.order.status == OrderStatus.Disputed
    ensures Cancel(f, actor, given, now).error.None? <==> actor.staff && given
    ensures Cancel(f, actor, given, now).error.None? ==> FlaggedCancelled(Cancel(f, actor, given, now).file)
  {
  }

  lemma ResolvedUnflagged(f: File, l: seq<Entry>, staff: Option<Actor>, outcome: Outcome, length: nat,
                          requested: Option<int>)
    ensures var r := Resolve(f, l, staff, outcome, length, requested);
            if r.error.Some? then r.file == f else !r.file.order.hasOpenDispute
  {
    var r := Resolve(f, l, staff, outcome, length, requested);
    if r.error.None? {
      var s := ResolvedShape(f, l, staff, outcome, length, requested);
    }
  }

  /** A cancelled order carries the freeze flag exactly from a staff cancellation, with a reason,
      of an order in dispute. */
  lemma FlaggedByStaffCancel(f: File, l: seq<Entry>, op: Op)
    requires Rows(f) && !FlaggedCancelled(f)
    ensures FlaggedCancelled(Apply(f, l, op).file)
            <==> f.order.status == OrderStatus.Disputed && op.OpCancel? && op.actor.staff && op.reasonGiven
  {
    if PaymentOp(op) {
      PaymentKeepsFlag(f, op);
    } else if WorkOp(op) {
      WorkFlag(f, l, op);
    } else if op.OpResolve? {
      ResolvedUnflagged(f, l, op.staff, op.outcome, op.length, op.requested);
    } else if op.OpDispute? {
      OpenedShape(f, op.actor, op.reasonKnown, op.length, op.evidenceOwned, op.windowDays, op.now);
    }
  }

  lemma PaymentKeepsFlag(f: File, op: Op)
    requires Rows(f) && PaymentOp(op)
    ensures var g := ApplyPayment(f, op).file;
            && g.order.hasOpenDispute == f.order.hasOpenDispute
            && (g.order.status == Cancelled <==> f.order.status == Cancelled)
  {
  }

  lemma WorkFlag(f: File, l: seq<Entry>, op: Op)
    requires Rows(f) && WorkOp(op) && !FlaggedCancelled(f)
    ensures FlaggedCancelled(ApplyWork(f, l, op).file)
            <==> f.order.status == OrderStatus.Disputed && op.OpCancel? && op.actor.staff && op.reasonGiven
  {
    if op.OpCancel? && f.order.status == OrderStatus.Disputed {
      StaffCancelsDisputed(f, op.actor, op.reasonGiven, op.now);
    }
  }

  /** Such an order's dispute can be resolved by a full refund and in no other way. */
  lemma FlaggedResolvesInFull(f: File, l: seq<Entry>, staff: Option<Actor>, outcome: Outcome, length: nat,
                              requested: Option<int>)
    requires Rows(f) && FlaggedCancelled(f)
    ensures Resolve(f, l, staff, outcome, length, requested).error.None?
            <==> && IsStaff(staff) && f.dispute.value.status == UnderReview && length >= MIN_DISPUTE_TEXT
                 && outcome == RefundFull && f.payment.value.status in {Succeeded, PartiallyRefunded}
  {
    if Resolve(f, l, staff, outcome, length, requested).error.None? {
      var s := ResolvedShape(f, l, staff, outcome, length, requested);
    }
  }

  // --- a paid order whose request is cancelled ----------------------------------------------------------

  /** A managed request, assigned and accepted: its order is PAID_RUN's. */
  const ASK := MP.Ask(1, A.Managed, true, "USD")
  const PUBLISH := MP.Negotiate(0, A.OpPublish(1, true, 0), 0, 0)
  const ASSIGN := MP.Negotiate(0, A.OpAssign(Some(STAFF), 2, 10000, true, 0), 0, 0)
  const ACCEPT := MP.Negotiate(0, A.OpAcceptDirect(0, 2, true, 0), 1500, 0)
  const WITHDRAW := MP.Negotiate(0, A.OpCancelRequest(1), 0, 2)

  const MATCHED_RUN: seq<MP.Command> := [] + [ASK] + [PUBLISH] + [ASSIGN] + [ACCEPT]

  const ORPHANING_RUN: seq<MP.Command> :=
    MATCHED_RUN + [MP.Serve(PAID_RUN[1])] + [MP.Serve(PAID_RUN[2])] + [WITHDRAW]

  const ASSIGNED_ROW := A.Row(A.Assigned, 2, Some(10000), "USD", A.Pending, Some(A.DIRECT_TTL))

  const ASSIGNED_CASE :=
    A.Case(A.Request(1, A.Managed, A.InReview, true, Some(10000), "USD", 0, None, None), [ASSIGNED_ROW], [])

  function MatchedCase(status: A.RequestStatus): A.Case {
    A.Case(ASSIGNED_CASE.request.(status := status), [ASSIGNED_ROW.(status := A.Accepted)],
           [A.Placed(A.Assigned, 2, 10000, "USD")])
  }

  lemma AssignedAfter()
    ensures MP.Exec(MP.Exec(MP.Exec(MP.EMPTY, ASK), PUBLISH), ASSIGN) == MP.System([ASSIGNED_CASE], START)
  {
    var c := A.NewCase(1, A.Managed, true, "USD");
    assert [] + [c] == [c];
    assert MP.Exec(MP.EMPTY, ASK) == MP.System([c], START);
    var d := A.Publish(c, 1, true, 0).kase;
    assert [c][0 := d] == [d];
    assert MP.Exec(MP.System([c], START), PUBLISH) == MP.System([d], START);
    assert !A.HasPendingAssignment(d, 2);
    assert [] + [ASSIGNED_ROW] == [ASSIGNED_ROW];
    assert [d][0 := ASSIGNED_CASE] == [ASSIGNED_CASE];
  }

  lemma AcceptedAfter()
    ensures MP.Exec(MP.System([ASSIGNED_CASE], START), ACCEPT)
            == MP.System([MatchedCase(A.Matched)], Exec(START, PAID_RUN[0]))
  {
    var k := MatchedCase(A.Matched);
    assert [ASSIGNED_ROW][0 := ASSIGNED_ROW.(status := A.Accepted)] == [ASSIGNED_ROW.(status := A.Accepted)];
    assert [] + [A.Placed(A.Assigned, 2, 10000, "USD")] == [A.Placed(A.Assigned, 2, 10000, "USD")];
    assert A.AcceptDirect(ASSIGNED_CASE, 0, 2, true, 0).kase == k;
    assert [ASSIGNED_CASE][0 := k] == [k];
  }

  /** A service call on the only order, whose request is the only one. */
  lemma ServeOnOnly(k: A.Case, w: World, f: File, op: Op)
    requires w.files == [f] && f.id == 0 && f.order.request == 0
    ensures var g := Apply(f, Entries(w, 0), op).file;
            MP.Exec(MP.System([k], w), MP.Serve(On(0, op)))
            == MP.System([MP.FollowUp(k, f, g, On(0, op))], Exec(w, On(0, op)))
  {
    ExecOnOnly(w, f, op);
    var g := Apply(f, Entries(w, 0), op).file;
    assert [k][0 := MP.FollowUp(k, f, g, On(0, op))] == [MP.FollowUp(k, f, g, On(0, op))];
  }

  lemma StartedAfter()
    ensures var s := MP.System([MatchedCase(A.Matched)], Exec(START, PAID_RUN[0]));
            MP.Exec(s, MP.Serve(PAID_RUN[1])) == MP.System([MatchedCase(A.Matched)], Exec(s.world, PAID_RUN[1]))
  {
    CreatedRow();
    ServeOnOnly(MatchedCase(A.Matched), World([NEW_ROW], [], map[]), NEW_ROW, OpStart(STUDENT, Manual));
  }

  lemma PaidAfter()
    ensures var w := Exec(Exec(START, PAID_RUN[0]), PAID_RUN[1]);
            && MP.Exec(MP.System([MatchedCase(A.Matched)], w), MP.Serve(PAID_RUN[2]))
               == MP.System([MatchedCase(A.InProgress)], Exec(w, PAID_RUN[2]))
  {
    var armed := StartPayment(NEW_ROW, STUDENT, Manual);
    CreatedRow();
    PaymentOfNewRow();
    ExecOnOnly(World([NEW_ROW], [], map[]), NEW_ROW, OpStart(STUDENT, Manual));
    var w := World([armed.file], [] + [], map[]);
    ServeOnOnly(MatchedCase(A.Matched), w, armed.file, OpConfirm(true, 1));
  }

  lemma WithdrawnAfter(w: World)
    ensures MP.Exec(MP.System([MatchedCase(A.InProgress)], w), WITHDRAW) == MP.System([MatchedCase(A.Cancelled)], w)
  {
    assert [MatchedCase(A.InProgress)][0 := MatchedCase(A.Cancelled)] == [MatchedCase(A.Cancelled)];
  }

  lemma SystemStep(cs: seq<MP.Command>, c: MP.Command)
    ensures MP.Run(cs + [c]) == MP.Exec(MP.Run(cs), c)
  {
    assert (cs + [c])[..|cs|] == cs;
  }

  lemma SystemTwice(cs: seq<MP.Command>, a: MP.Command, b: MP.Command)
    ensures MP.Run(cs + [a] + [b]) == MP.Exec(MP.Exec(MP.Run(cs), a), b)
  {
    SystemStep(cs, a);
    SystemStep(cs + [a], b);
  }

  lemma MatchedRun()
    ensures MP.Run(MATCHED_RUN) == MP.System([MatchedCase(A.Matched)], Exec(START, PAID_RUN[0]))
  {
    assert MP.Run([]) == MP.EMPTY;
    SystemTwice([], ASK, PUBLISH);
    SystemTwice([] + [ASK] + [PUBLISH], ASSIGN, ACCEPT);
    AssignedAfter();
    AcceptedAfter();
  }

  /** The student of a managed request pays for the assigned expert's order and cancels the request:
      the order is paid and active, its request cancelled. */
  lemma OrphaningRunOrphans()
    ensures var s := MP.Run(ORPHANING_RUN);
            && |s.world.files| == 1 && FreshlyPaid(s.world.files[0]) && MP.Orphaned(s, 0)
            && s.market[0].request.status == A.Cancelled
  {
    MatchedRun();
    SystemTwice(MATCHED_RUN, MP.Serve(PAID_RUN[1]), MP.Serve(PAID_RUN[2]));
    SystemStep(MATCHED_RUN + [MP.Serve(PAID_RUN[1])] + [MP.Serve(PAID_RUN[2])], WITHDRAW);
    StartedAfter();
    PaidAfter();
    RunTriple(START, PAID_RUN[0], PAID_RUN[1], PAID_RUN[2]);
    PaidRunPays();
    PaidRunRequest();
    WithdrawnAfter(Run(START, PAID_RUN));
  }

  lemma PaidRunRequest()
    ensures |Run(START, PAID_RUN).files| == 1 && Run(START, PAID_RUN).files[0].order.request == 0
  {
    RunTriple(START, PAID_RUN[0], PAID_RUN[1], PAID_RUN[2]);
    CreatedRow();
    PaymentOfNewRow();
    var armed := StartPayment(NEW_ROW, STUDENT, Manual);
    ExecOnOnly(World([NEW_ROW], [], map[]), NEW_ROW, OpStart(STUDENT, Manual));
    ExecOnOnly(World([armed.file], [] + [], map[]), armed.file, OpConfirm(true, 1));
  }

  // --- the review deadline ---------------------------------------------------------------------------------

  /** Opening a dispute hides the order from the worker but leaves its deadline running: closed
      without fault, a delivered order is due as soon as the original 72 hours are over, however
      much of them the dispute took. */
  lemma TimerRunsThroughDispute(f: File, l: seq<Entry>, actor: Actor, days: nat, openedAt: Time, staff: Actor,
                                length: nat, now: Time)
    requires Rows(f) && f.order.status == Delivered && f.dispute.None? && staff.staff && length >= MIN_DISPUTE_TEXT
    requires actor.id == f.order.student || actor.id == f.order.expert
    ensures var d := OpenDispute(f, actor, true, MIN_DISPUTE_TEXT, true, days, openedAt);
            var t := MoveDispute(d.file, UnderReview, Some(staff));
            var r := Resolve(t.file, l, Some(staff), NoFaultClose, length, None);
            && d.error.None? && t.error.None? && r.error.None?
            && !Due(d.file, now) && !Due(t.file, now)
            && r.file.order.status == Delivered
            && (Due(r.file, now) <==> Due(f, now))
  {
    var d := OpenDispute(f, actor, true, MIN_DISPUTE_TEXT, true, days, openedAt);
    OpenedShape(f, actor, true, MIN_DISPUTE_TEXT, true, days, openedAt);
    var t := MoveDispute(d.file, UnderReview, Some(staff));
    var r := Resolve(t.file, l, Some(staff), NoFaultClose, length, None);
    var s := ResolvedShape(t.file, l, Some(staff), NoFaultClose, length, None);
  }

  /** The worker lists orders by their deadline but re-checks only that there is one. An order
      revised and delivered again between the listing and the lock is approved although its new
      deadline is 72 hours away. */
  lemma RecheckApprovesEarly(f: File, l: seq<Entry>, floor: int, now: Time)
    requires Rows(f) && Due(f, now) && f.order.revisionsUsed < f.order.revisionsAllowed
    ensures var a := RequestRevision(f, Actor(f.order.student, false), MIN_REVISION_NOTE);
            var b := SubmitDelivery(a.file, Actor(f.order.expert, false), MIN_DELIVERY_SUMMARY, true, now);
            && a.error.None? && b.error.None?
            && Rechecked(b.file) && !Due(b.file, now)
            && b.file.order.autoApproveAt == Some(now + AUTO_APPROVE)
            && ApproveDelivery(b.file, l, ByWorker, floor, now).error.None?
  {
  }

  /** The re-check lets an order through that is not due exactly when its deadline is ahead. */
  lemma RecheckMisses(f: File, now: Time)
    ensures Rechecked(f) && !Due(f, now)
            <==> f.order.status == Delivered && f.order.autoApproveAt.Some? && now < f.order.autoApproveAt.value
  {
  }

  // --- what is written without a lock ---------------------------------------------------------------------

  /** take_case, resume_review and await_response check the dispute they were handed and save its
      status over whatever it has become. */
  function MovedOver(read: Dispute, f: File, to: DisputeStatus): File {
    if f.dispute.Some? && DisputeAllowed(read.status, to) then f.(dispute := Some(f.dispute.value.(status := to)))
    else f
  }

  /** Saved over a dispute that was settled in between, such a move puts it back under review with
      the order unfrozen: exactly then the freeze flag no longer tells. */
  lemma StaleMoveReopens(read: Dispute, f: File, to: DisputeStatus)
    requires Rows(f) && f.dispute.Some? && to in {UnderReview, AwaitingResponse} && DisputeAllowed(read.status, to)
    ensures Freeze(MovedOver(read, f, to)) <==> OpenStatus(f.dispute.value.status)
    ensures Rows(MovedOver(read, f, to)) <==> OpenStatus(f.dispute.value.status)
  {
  }

  /** The status a payment.failed handler writes that read its payment as f has it, saved over g. */
  function FailedOver(f: File, g: File): File {
    if f.payment.None? || f.payment.value.status in {Succeeded, Canceled} || g.payment.None? then g
    else g.(payment := Some(g.payment.value.(status := Failed)))
  }

  /** The handler decides on the status it read and saves without a lock. A confirmation that
      commits in between is overwritten exactly when it was accepted for a payment that waited or
      had failed before: the order is paid, nothing was refunded, and nothing can be. */
  lemma StaleFailureOverwritesPayment(f: File, accepted: bool, now: Time)
    requires Rows(f) && f.order.status == AwaitingPayment
    ensures var c := ConfirmPayment(f, accepted, now);
            && (Stuck(FailedOver(f, c.file))
                <==> accepted && f.payment.Some? && f.payment.value.status in {Pending, Failed})
            && (Stuck(FailedOver(f, c.file)) ==>
                  var g := FailedOver(f, c.file);
                  && g.refunds == [] && !PaymentRow(g)
                  && forall staff, amount, known :: IssueRefund(g, staff, amount, known).error.Some?)
  {
    PositiveRefundSum(f.refunds);
  }
}
