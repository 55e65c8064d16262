/** Theorems about whole runs of the platform: what one order goes through, and what the
    ledger as a whole conserves. */
module Runs {
  import opened Core
  import opened Ledger
  import opened OrderFile
  import opened OrderSteps
  import opened OrderInvariant
  import opened Timeline
  import opened Progress
  import opened Payouts
  import opened Platform

  // --- one command seen from one order ------------------------------------------------------

  /** A command either leaves an existing order's rows and entries alone or is one service
      call on it. */
  lemma ExecOnOrder(w: World, c: Command, o: OrderId) returns (op: Option<Op>)
    requires WorldSound(w) && o < |w.files|
    ensures o < |Exec(w, c).files|
    ensures match op
            case None => Exec(w, c).files[o] == w.files[o] && Entries(Exec(w, c), o) == Entries(w, o)
            case Some(p) =>
              && Exec(w, c).files[o] == OrderStep(w, o, p).file
              && Entries(Exec(w, c), o) == Entries(w, o) + OrderStep(w, o, p).posted
    ensures c.On? && c.order == o ==> op == Some(c.op)
    ensures op.Some? && (op.value.OpRefund? || op.value.OpSchedule?) ==> c.On? && c.order == o && c.op == op.value
  {
    op := None;
    match c
    case Create(_, _, _, _, _, _, _) =>
    case On(p, q) =>
      if p < |w.files| { op := CommittedOnOrder(w, p, q, o); }
    case Ingest(id, content, accepted, now) =>
      if !(id in w.hooks && w.hooks[id].status == Processed) {
        op := HandledOnOrder(w, content, accepted, now, o);
      }
    case Redeliver(id, accepted, now) =>
      if id in w.hooks { op := HandledOnOrder(w, w.hooks[id].content, accepted, now, o); }
  }

  lemma CommittedOnOrder(w: World, p: OrderId, q: Op, o: OrderId) returns (op: Option<Op>)
    requires WorldSound(w) && p < |w.files| && o < |w.files|
    ensures op == if p == o then Some(q) else None
    ensures var w' := Committed(w, p, OrderStep(w, p, q));
            && w'.files[o] == (if p == o then OrderStep(w, o, q).file else w.files[o])
            && Entries(w', o) == Entries(w, o) + (if p == o then OrderStep(w, o, q).posted else [])
  {
    op := if p == o then Some(q) else None;
    assert OrderSound(w, p);
    OrderStepNamed(w, p, q);
    CommittedEntries(w, p, OrderStep(w, p, q));
    assert Entries(w, o) + [] == Entries(w, o);
  }

  lemma HandledOnOrder(w: World, content: Content, accepted: bool, now: Time, o: OrderId) returns (op: Option<Op>)
    requires WorldSound(w) && o < |w.files|
    ensures var w' := Handled(w, content, accepted, now);
            && o < |w'.files|
            && w'.files[o] == (if op.Some? then OrderStep(w, o, op.value).file else w.files[o])
            && Entries(w', o) == Entries(w, o) + (if op.Some? then OrderStep(w, o, op.value).posted else [])
    ensures op.Some? ==> !op.value.OpRefund? && !op.value.OpSchedule?
  {
    op := None;
    assert Entries(w, o) + [] == Entries(w, o);
    var h := HandlerOp(w, content, accepted, now);
    if h.Some? && h.value.0 < |w.files| {
      op := CommittedOnOrder(w, h.value.0, h.value.1, o);
    }
  }

  // --- the timeline, the stopping bound, the append-only ledger --------------------------------

  /** Every reachable order's timeline replays to its current status. */
  lemma TimelinesTell(cs: seq<Command>)
    ensures var w := Run(START, cs);
            forall o :: 0 <= o < |w.files| ==> Replay(w.files[o].events).status == w.files[o].order.status
  {
    ReachableSound(cs);
    var w := Run(START, cs);
    forall o | 0 <= o < |w.files| ensures Replay(w.files[o].events).status == w.files[o].order.status {
      assert OrderSound(w, o);
    }
  }

  /** How often order o's status changes during a run from w. */
  function StatusChanges(w: World, cs: seq<Command>, o: OrderId): nat {
    if cs == [] then 0
    else
      var before := Run(w, cs[..|cs| - 1]);
      var after := Exec(before, cs[|cs| - 1]);
      StatusChanges(w, cs[..|cs| - 1], o)
      + if o < |before.files| && o < |after.files|
           && before.files[o].order.status != after.files[o].order.status then 1 else 0
  }

  /** What is left of order o's budget, or the whole of it while o does not exist. */
  function BudgetOf(w: World, o: OrderId): nat {
    if o < |w.files| && w.files[o].order.revisionsUsed <= w.files[o].order.revisionsAllowed
    then Budget(w.files[o])
    else NEW_ORDER_BUDGET
  }

  lemma ExecBudget(w: World, c: Command, o: OrderId)
    requires WorldSound(w)
    ensures var w' := Exec(w, c);
            BudgetOf(w', o) + (if o < |w.files| && o < |w'.files|
                                  && w.files[o].order.status != w'.files[o].order.status then 1 else 0)
            <= BudgetOf(w, o)
  {
    if o < |w.files| {
      assert OrderSound(w, o);
      var op := ExecOnOrder(w, c, o);
      if op.Some? {
        StepPaid(w.files[o], Entries(w, o), op.value);
      }
    } else if c.Create? {
      NewFileBudget(|w.files|, c.request, c.student, c.expert, c.amount, c.currency, c.rate, c.now);
    }
  }

  /** In any run from the start, one order's status changes at most 2 * revisions + 5 times. */
  lemma {:induction false} EveryOrderStops(cs: seq<Command>, o: OrderId)
    ensures StatusChanges(START, cs, o) + BudgetOf(Run(START, cs), o) <= NEW_ORDER_BUDGET
  {
    if cs != [] {
      var front := cs[..|cs| - 1];
      EveryOrderStops(front, o);
      ReachableSound(front);
      ExecBudget(Run(START, front), cs[|cs| - 1], o);
    }
  }

  /** Entries are only ever appended. */
  lemma {:induction false} LedgerAppendOnly(w: World, cs: seq<Command>)
    ensures w.ledger <= Run(w, cs).ledger
  {
    if cs != [] {
      LedgerAppendOnly(w, cs[..|cs| - 1]);
    }
  }

  // --- exactly-once charge, unreachable errors ---------------------------------------------------

  /** At most one charge per order, of the booked amount, exactly when it was paid; and only
      unpaid or cancelled orders are without one. */
  lemma ChargedOnce(cs: seq<Command>, o: OrderId)
    requires o < |Run(START, cs).files|
    ensures var w := Run(START, cs);
            var f, l := w.files[o], Entries(w, o);
            && Tally(l, Charge) <= 1
            && (Tally(l, Charge) == 1 <==> f.order.paidAt.Some?)
            && Total(l, Charge) == (if f.order.paidAt.Some? then f.order.amount else 0)
            && (f.order.status in {Active, Delivered, RevisionRequested, Completed, OrderStatus.Disputed} ==>
                  Tally(l, Charge) == 1)
            && (f.order.status == AwaitingPayment ==> Tally(l, Charge) == 0)
  {
    ReachableSound(cs);
    assert OrderSound(Run(START, cs), o);
  }

  /** The ledger identity of every reachable order; refunded_minor is the sum of its refund rows
      and minus its REFUND entries, and never exceeds the amount. */
  lemma BooksBalance(cs: seq<Command>, o: OrderId)
    requires o < |Run(START, cs).files|
    ensures var f, l := Run(START, cs).files[o], Entries(Run(START, cs), o);
            && Total(l, Charge) + Total(l, Ledger.Refund)
               == Total(l, Commission) + Total(l, ExpertCredit) + Total(l, Fee)
            && RefundSum(f.refunds) == -Total(l, Ledger.Refund)
            && (f.payment.Some? ==>
                  f.payment.value.refundedMinor == RefundSum(f.refunds) && 0 <= RefundSum(f.refunds) <= f.order.amount)
            && (f.payment.None? ==> f.refunds == [])
  {
    ReachableSound(cs);
    assert OrderSound(Run(START, cs), o);
  }

  /** The commission reversed of order o is within half a unit per refund of its exact share. */
  ghost predicate DriftWithin(w: World, o: OrderId)
    requires o < |w.files|
  {
    var f, l := w.files[o], Entries(w, o);
    WithinHalfUnits(f.order.amount, f.order.commissionAmount, f.order.commissionAmount - Total(l, Commission),
                    RefundSum(f.refunds), |f.refunds|)
  }

  /** After any k refunds totalling R of an order with commission C > 0 and amount A, the
      commission reversed differs from its exact share R * C / A by at most k / 2 minor units. */
  lemma RefundDriftBound(cs: seq<Command>, o: OrderId)
    requires o < |Run(START, cs).files| && Run(START, cs).files[o].order.commissionAmount > 0
    requires IsPaid(Run(START, cs).files[o])
    ensures DriftWithin(Run(START, cs), o)
  {
    ReachableSound(cs);
    DriftIn(Run(START, cs), o);
  }

  lemma DriftIn(w: World, o: OrderId)
    requires WorldSound(w) && o < |w.files| && w.files[o].order.commissionAmount > 0 && IsPaid(w.files[o])
    ensures DriftWithin(w, o)
  {
    assert OrderSound(w, o);
    DriftOfOrder(w.files[o], Entries(w, o));
  }

  lemma DriftOfOrder(f: File, l: seq<Entry>)
    requires DriftBounded(f, l) && IsPaid(f) && f.order.commissionAmount > 0
    ensures WithinHalfUnits(f.order.amount, f.order.commissionAmount,
                            f.order.commissionAmount - Total(l, Commission), RefundSum(f.refunds), |f.refunds|)
  {
    assert ReversedSoFar(f, l) == f.order.commissionAmount - Total(l, Commission);
  }

  /** The freeze flag is the openness of the order's dispute; a disputed order is flagged, a
      flagged one is disputed or was cancelled by staff. */
  lemma FreezeFlagTells(cs: seq<Command>, o: OrderId)
    requires o < |Run(START, cs).files|
    ensures var f := Run(START, cs).files[o];
            && (f.order.hasOpenDispute
                <==> f.dispute.Some? && f.dispute.value.status in {Open, UnderReview, AwaitingResponse})
            && (f.order.status == OrderStatus.Disputed ==> f.order.hasOpenDispute)
            && (f.order.hasOpenDispute ==> f.order.status in {OrderStatus.Disputed, Cancelled})
  {
    ReachableSound(cs);
    assert OrderSound(Run(START, cs), o);
  }

  /** Deliveries are numbered 0, 1, 2, ... without gaps: none while the order is active, up to
      revisions_used while delivered, up to one less while a revision is requested - also
      through a dispute, by the status before it - and the allowance is never exceeded. */
  lemma RevisionNumbers(cs: seq<Command>, o: OrderId)
    requires o < |Run(START, cs).files|
    ensures var f := Run(START, cs).files[o];
            && (forall i :: 0 <= i < |f.deliveries| ==> f.deliveries[i].revisionNumber == i)
            && f.order.revisionsUsed <= f.order.revisionsAllowed
            && (Phase(f) == Active ==> f.deliveries == [] && f.order.revisionsUsed == 0)
            && (Phase(f) == Delivered ==> |f.deliveries| == f.order.revisionsUsed + 1)
            && (Phase(f) == RevisionRequested ==> |f.deliveries| == f.order.revisionsUsed > 0)
  {
    ReachableSound(cs);
    assert OrderSound(Run(START, cs), o);
  }

  /** The uniqueness constraint on (order, revision number), the amount check and the empty
      weights of a refund split are never hit in a reachable state. */
  lemma NeverInconsistent(w: World, o: OrderId, op: Op)
    requires WorldSound(w) && o < |w.files|
    ensures OrderStep(w, o, op).error !in {Some(IntegrityError), Some(AmountMismatch), Some(ValueError)}
  {
    assert OrderSound(w, o);
    var f := w.files[o];
    NoErrorInOrder(f, Entries(w, o), op);
  }

  lemma NoErrorInOrder(f: File, l: seq<Entry>, op: Op)
    requires Rows(f)
    ensures Apply(f, l, op).error !in {Some(IntegrityError), Some(AmountMismatch), Some(ValueError)}
  {
    if PaymentOp(op) {
      PaymentNoError(f, op);
    } else if WorkOp(op) {
      WorkNoError(f, l, op);
    } else if op.OpResolve? {
      ResolveNoError(f, l, op.staff, op.outcome, op.length, op.requested);
    }
  }

  lemma PaymentNoError(f: File, op: Op)
    requires Rows(f) && PaymentOp(op)
    ensures ApplyPayment(f, op).error !in {Some(IntegrityError), Some(AmountMismatch), Some(ValueError)}
  {
    if op.OpConfirmOrder? {
      ConfirmOrderNoError(f, op.gateway, op.accepted, op.now);
    }
  }

  lemma WorkNoError(f: File, l: seq<Entry>, op: Op)
    requires Rows(f) && WorkOp(op)
    ensures ApplyWork(f, l, op).error !in {Some(IntegrityError), Some(AmountMismatch), Some(ValueError)}
  {
  }

  lemma ConfirmOrderNoError(f: File, gateway: Gateway, accepted: bool, now: Time)
    requires Rows(f)
    ensures ConfirmOrderPayment(f, gateway, accepted, now).error != Some(AmountMismatch)
  {
  }

  lemma ResolveNoError(f: File, l: seq<Entry>, staff: Option<Actor>, outcome: Outcome, length: nat,
                       requested: Option<int>)
    requires Rows(f)
    ensures Resolve(f, l, staff, outcome, length, requested).error
            !in {Some(IntegrityError), Some(AmountMismatch), Some(ValueError)}
  {
  }

  // --- payouts over runs --------------------------------------------------------------------------

  /** Once settled, an order's payout stays settled at its amount, and there is never a second one. */
  lemma {:induction false} PaidIsForever(w: World, cs: seq<Command>, o: OrderId)
    requires WorldSound(w) && o < |w.files| && HasPaidOut(w.files[o])
    ensures var w' := Run(w, cs);
            && o < |w'.files| && HasPaidOut(w'.files[o]) && |w'.files[o].payouts| == 1
            && w'.files[o].payouts[0].amountMinor == w.files[o].payouts[0].amountMinor
            && Tally(Entries(w', o), Ledger.Payout) == 1
  {
    if cs == [] {
      assert OrderSound(w, o);
    } else {
      var front, c := cs[..|cs| - 1], cs[|cs| - 1];
      PaidIsForever(w, front, o);
      RunSound(w, front);
      RunSound(w, cs);
      var mid := Run(w, front);
      var op := ExecOnOrder(mid, c, o);
      assert OrderSound(mid, o) && OrderSound(Run(w, cs), o);
      if op.Some? {
        FrozenPostsNoPayout(mid.files[o], Entries(mid, o), op.value);
      }
    }
  }

  /** While the dispute flag is up, no command posts a payout for the order. */
  lemma FrozenNoPayout(w: World, c: Command, o: OrderId)
    requires WorldSound(w) && o < |w.files| && w.files[o].order.hasOpenDispute
    ensures Tally(Entries(Exec(w, c), o), Ledger.Payout) == Tally(Entries(w, o), Ledger.Payout)
  {
    assert OrderSound(w, o);
    var op := ExecOnOrder(w, c, o);
    if op.Some? {
      FrozenPostsNoPayout(w.files[o], Entries(w, o), op.value);
      TotalConcat(Entries(w, o), OrderStep(w, o, op.value).posted, Ledger.Payout);
    }
  }

  /** No command of the run refunds an order directly once that order has a payout. */
  predicate DisciplinedRun(cs: seq<Command>) {
    cs == [] ||
    var w, c := Run(START, cs[..|cs| - 1]), cs[|cs| - 1];
    && DisciplinedRun(cs[..|cs| - 1])
    && (c.On? && c.order < |w.files| ==> Disciplined(w.files[c.order], c.op))
  }

  ghost predicate AllInStep(w: World) {
    forall o :: 0 <= o < |w.files| ==> InStep(w.files[o], Entries(w, o))
  }

  /** In disciplined runs every scheduled payout equals its order's credit balance, so
      settling it leaves exactly nothing payable. */
  lemma {:induction false} ScheduledIsOwed(cs: seq<Command>)
    requires DisciplinedRun(cs)
    ensures AllInStep(Run(START, cs))
  {
    if cs != [] {
      var front, c := cs[..|cs| - 1], cs[|cs| - 1];
      ScheduledIsOwed(front);
      ReachableSound(front);
      var w := Run(START, front);
      forall o | 0 <= o < |Exec(w, c).files| ensures InStep(Exec(w, c).files[o], Entries(Exec(w, c), o)) {
        if o < |w.files| {
          assert OrderSound(w, o);
          var op := ExecOnOrder(w, c, o);
          if op.Some? {
            StepInStep(w.files[o], Entries(w, o), op.value);
          }
        }
      }
    }
  }

  // --- global conservation -----------------------------------------------------------------------------

  /** payments.earnings_for(user)["outstanding_minor"]. */
  function Outstanding(l: seq<Entry>, u: UserId): int {
    var credit := Total(OfUser(l, u), ExpertCredit);
    var paidOut := -Total(OfUser(l, u), Ledger.Payout);
    credit - paidOut
  }

  function OutstandingBelow(l: seq<Entry>, n: nat): int {
    if n == 0 then 0 else OutstandingBelow(l, n - 1) + Outstanding(l, n - 1)
  }

  function PayableBelow(l: seq<Entry>, n: nat): int {
    if n == 0 then 0 else PayableBelow(l, n - 1) + RemainingPayable(Of(l, n - 1))
  }

  lemma {:induction false} OutstandingByKind(l: seq<Entry>, n: nat)
    ensures OutstandingBelow(l, n) == TotalByUser(l, ExpertCredit, n) + TotalByUser(l, Ledger.Payout, n)
  {
    if n > 0 { OutstandingByKind(l, n - 1); }
  }

  lemma {:induction false} PayableByKind(l: seq<Entry>, n: nat)
    ensures PayableBelow(l, n) == TotalByOrder(l, ExpertCredit, n) + TotalByOrder(l, Ledger.Payout, n)
  {
    if n > 0 { PayableByKind(l, n - 1); }
  }

  /** The per-order identities add up. */
  lemma {:induction false} IdentityBelow(w: World, n: nat)
    requires WorldSound(w) && n <= |w.files|
    ensures TotalByOrder(w.ledger, Charge, n) + TotalByOrder(w.ledger, Ledger.Refund, n)
            == TotalByOrder(w.ledger, Commission, n) + TotalByOrder(w.ledger, ExpertCredit, n)
  {
    if n > 0 {
      IdentityBelow(w, n - 1);
      assert OrderSound(w, n - 1);
    }
  }

  /** Every credit and payout entry names the expert of its order. */
  lemma CreditsNameExperts(w: World, n: nat)
    requires WorldSound(w) && forall f <- w.files :: f.order.expert < n
    ensures forall e <- w.ledger :: e.kind in {ExpertCredit, Ledger.Payout} ==> e.user.Some? && e.user.value < n
  {
    forall e <- w.ledger ensures e.kind in {ExpertCredit, Ledger.Payout} ==> e.user.Some? && e.user.value < n {
      OfMembers(w.ledger, e.order);
      assert OrderSound(w, e.order);
      assert e in Entries(w, e.order);
      assert w.files[e.order] in w.files;
    }
  }

  /** Money in minus money out is the platform's commission plus what experts are still owed;
      grouping what they are owed by expert or by order gives the same sum. */
  lemma Conservation(cs: seq<Command>, users: nat)
    requires forall f <- Run(START, cs).files :: f.order.expert < users
    ensures var w := Run(START, cs);
            && Total(w.ledger, Charge) + Total(w.ledger, Ledger.Refund) + Total(w.ledger, Ledger.Payout)
               == Total(w.ledger, Commission) + OutstandingBelow(w.ledger, users)
            && OutstandingBelow(w.ledger, users) == PayableBelow(w.ledger, |w.files|)
  {
    ReachableSound(cs);
    var w := Run(START, cs);
    var l, n := w.ledger, |w.files|;
    IdentityBelow(w, n);
    CreditsNameExperts(w, users);
    OutstandingByKind(l, users);
    PayableByKind(l, n);
    GroupedByUser(l, ExpertCredit, users);
    GroupedByUser(l, Ledger.Payout, users);
    GroupedByOrder(l, Charge, n);
    GroupedByOrder(l, Ledger.Refund, n);
    GroupedByOrder(l, Commission, n);
    GroupedByOrder(l, ExpertCredit, n);
    GroupedByOrder(l, Ledger.Payout, n);
  }
}
