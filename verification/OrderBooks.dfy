/** The ledger side of every service call: a call posts nothing, one charge, one refund or
    one payout, and the order's books balance after each. */
module OrderBooks {
  import opened Core
  import opened Ledger
  import opened Money
  import opened OrderFile
  import opened OrderSteps
  import opened OrderInvariant

  datatype Effect = Quiet | Charges | Returns(amount: int) | Settles

  ghost predicate SameTerms(o: Order, p: Order) {
    && o.amount == p.amount && o.currency == p.currency
    && o.student == p.student && o.expert == p.expert && o.request == p.request
    && o.commissionRate == p.commissionRate
    && o.commissionAmount == p.commissionAmount && o.expertAmount == p.expertAmount
    && o.revisionsAllowed == p.revisionsAllowed && o.createdAt == p.createdAt
  }

  ghost predicate SamePaidPayout(f: File, g: File) {
    && (HasPaidOut(f) <==> HasPaidOut(g))
    && (HasPaidOut(f) ==> f.payouts[0].amountMinor == g.payouts[0].amountMinor)
  }

  /** Every call leaves the booked terms alone and has one of four money effects. */
  ghost predicate HasEffect(f: File, s: Step, e: Effect) {
    && s.file.id == f.id && SameTerms(f.order, s.file.order)
    && match e
       case Quiet =>
         && s.posted == []
         && s.file.order.paidAt == f.order.paidAt && s.file.refunds == f.refunds && SamePaidPayout(f, s.file)
       case Charges =>
         && !IsPaid(f) && IsPaid(s.file)
         && s.posted == ChargeEntries(f, f.order.amount)
         && s.file.refunds == f.refunds && SamePaidPayout(f, s.file)
       case Returns(amount) =>
         && amount > 0 && NonNegative(f.order.commissionAmount) + NonNegative(f.order.expertAmount) > 0
         && IsPaid(f) && s.file.order.paidAt == f.order.paidAt
         && s.posted == RefundEntries(f, amount, ReversedCommission(f.order, amount))
         && s.file.refunds == f.refunds + [RefundRow(amount, RefundSucceeded)]
         && SamePaidPayout(f, s.file)
       case Settles =>
         && !f.order.hasOpenDispute && f.payouts != []
         && !HasPaidOut(f) && HasPaidOut(s.file)
         && s.file.payouts[0].amountMinor == f.payouts[0].amountMinor
         && s.posted == [Entry(Ledger.Payout, -f.payouts[0].amountMinor, f.id, Some(f.order.expert))]
         && s.file.order.paidAt == f.order.paidAt && s.file.refunds == f.refunds
  }

  // --- the classification ---------------------------------------------------------------------

  lemma ConfirmEffect(f: File, accepted: bool, now: Time) returns (e: Effect)
    requires Terms(f.order) && PaymentRow(f)
    ensures HasEffect(f, ConfirmPayment(f, accepted, now), e)
  {
    e := if ConfirmPayment(f, accepted, now).error.None? then Charges else Quiet;
  }

  lemma ConfirmOrderEffect(f: File, gateway: Gateway, accepted: bool, now: Time) returns (e: Effect)
    requires Terms(f.order) && PaymentRow(f)
    ensures HasEffect(f, ConfirmOrderPayment(f, gateway, accepted, now), e)
  {
    if gateway == Manual && f.payment.None? {
      assert PaymentRow(Armed(f, gateway));
      e := ConfirmEffect(Armed(f, gateway), accepted, now);
    } else {
      e := ConfirmEffect(f, accepted, now);
      if gateway != Manual { e := Quiet; }
    }
  }

  lemma RefundEffect(f: File, staff: Option<Actor>, amount: int, known: bool) returns (e: Effect)
    requires Rows(f)
    ensures HasEffect(f, IssueRefund(f, staff, amount, known), e)
    ensures e == if IssueRefund(f, staff, amount, known).error.None? then Returns(amount) else Quiet
  {
    e := if IssueRefund(f, staff, amount, known).error.None? then Returns(amount) else Quiet;
  }

  lemma ResolutionRefundEffect(f: File, staff: Option<Actor>, outcome: Outcome, requested: Option<int>)
    returns (e: Effect)
    requires Rows(f)
    ensures HasEffect(f, ResolutionRefund(f, staff, outcome, requested), e)
    ensures e.Quiet? || e.Returns?
    ensures |ResolutionRefund(f, staff, outcome, requested).file.payouts| <= 1
  {
    var amount := ResolutionRefundShape(f, staff, outcome, requested);
    if ResolutionRefund(f, staff, outcome, requested).error.Some? {
      e := Quiet;
    } else {
      e := RefundEffect(f, staff, amount, true);
      VoidedKeepsPaid(IssueRefund(f, staff, amount, true).file);
    }
  }

  /** The money effect of a resolution is that of its refund, if it has one. */
  lemma OutcomeEffect(f: File, staff: Option<Actor>, outcome: Outcome, requested: Option<int>) returns (e: Effect)
    requires Rows(f)
    ensures var s := if Refunds(outcome) then ResolutionRefund(f, staff, outcome, requested) else Done(f);
            HasEffect(f, s, e) && |s.file.payouts| <= 1
    ensures e.Quiet? || e.Returns?
  {
    if Refunds(outcome) {
      e := ResolutionRefundEffect(f, staff, outcome, requested);
    } else {
      e := Quiet;
    }
  }

  lemma ResolveEffect(f: File, l: seq<Entry>, staff: Option<Actor>, outcome: Outcome, length: nat,
                      requested: Option<int>) returns (e: Effect)
    requires Rows(f)
    ensures HasEffect(f, Resolve(f, l, staff, outcome, length, requested), e)
    ensures e.Quiet? || e.Returns?
  {
    var r := Resolve(f, l, staff, outcome, length, requested);
    if r.error.Some? {
      e := Quiet;
    } else {
      var s := ResolvedShape(f, l, staff, outcome, length, requested);
      e := OutcomeEffect(f, staff, outcome, requested);
      FinishedEffect(f, s, r, outcome, Total(l + s.posted, ExpertCredit), e);
    }
  }

  /** Correcting the payout and thawing the order does not change a call's money effect. */
  lemma FinishedEffect(f: File, s: Step, r: Step, outcome: Outcome, credit: int, e: Effect)
    requires HasEffect(f, s, e) && (e.Quiet? || e.Returns?) && |s.file.payouts| <= 1
    requires r.posted == s.posted
    requires r.file.payouts == Corrected(s.file, outcome, credit).payouts
    requires r.file == s.file.(payouts := r.file.payouts, events := r.file.events, dispute := r.file.dispute,
                               order := s.file.order.(hasOpenDispute := r.file.order.hasOpenDispute,
                                                      status := r.file.order.status))
    ensures HasEffect(f, r, e)
  {
    CorrectedKeepsPaid(s.file, outcome, credit);
  }

  lemma VoidedKeepsPaid(f: File)
    requires |f.payouts| <= 1
    ensures SamePaidPayout(f, Voided(f))
  {
  }

  lemma CorrectedKeepsPaid(f: File, outcome: Outcome, credit: int)
    requires |f.payouts| <= 1
    ensures SamePaidPayout(f, Corrected(f, outcome, credit))
  {
  }

  lemma WithPayoutQuiet(f: File, l: seq<Entry>, floor: int)
    ensures var g := WithPayout(f, l, floor); SamePaidPayout(f, g) && g == f.(payouts := g.payouts)
  {
  }

  lemma ApproveQuiet(f: File, l: seq<Entry>, approver: Approver, floor: int, now: Time)
    ensures HasEffect(f, ApproveDelivery(f, l, approver, floor, now), Quiet)
  {
    var s := ApproveDelivery(f, l, approver, floor, now);
    if s.error.None? {
      var g := s.file.(payouts := f.payouts);
      WithPayoutQuiet(g, l, floor);
      assert s.file == WithPayout(g, l, floor);
    }
  }

  lemma QuietPayments(f: File, op: Op)
    requires Rows(f) && (op.OpStart? || op.OpFailedEvent? || op.OpRefundEvent?)
    ensures HasEffect(f, ApplyPayment(f, op), Quiet)
  {
    if op.OpRefundEvent? {
      EventRows(f, op.k);
    }
  }

  lemma SubmitQuiet(f: File, actor: Actor, length: nat, owned: bool, now: Time)
    ensures HasEffect(f, SubmitDelivery(f, actor, length, owned, now), Quiet)
  {
  }

  lemma ReviseQuiet(f: File, actor: Actor, length: nat)
    ensures HasEffect(f, RequestRevision(f, actor, length), Quiet)
  {
  }

  lemma CancelQuiet(f: File, actor: Actor, given: bool, now: Time)
    ensures HasEffect(f, Cancel(f, actor, given, now), Quiet)
  {
  }

  lemma SweepQuiet(f: File, now: Time)
    ensures HasEffect(f, SweepUnpaid(f, now), Quiet)
  {
  }

  lemma QuietDisputes(f: File, l: seq<Entry>, op: Op)
    requires op.OpDispute? || op.OpTakeCase? || op.OpAwait? || op.OpClose?
    ensures HasEffect(f, ApplyDispute(f, l, op), Quiet)
  {
    if op.OpDispute? {
      OpenedShape(f, op.actor, op.reasonKnown, op.length, op.evidenceOwned, op.windowDays, op.now);
    }
  }

  lemma FailPayoutQuiet(f: File, k: nat, staff: Option<Actor>)
    requires Rows(f)
    ensures HasEffect(f, MarkPayoutFailed(f, k, staff), Quiet)
  {
  }

  lemma SettleEffect(f: File, k: nat, staff: Option<Actor>) returns (e: Effect)
    requires Rows(f)
    ensures HasEffect(f, SettlePayout(f, k, staff), e)
    ensures e == if SettlePayout(f, k, staff).error.None? then Settles else Quiet
  {
    e := if SettlePayout(f, k, staff).error.None? then Settles else Quiet;
  }

  lemma PaymentEffect(f: File, op: Op) returns (e: Effect)
    requires Rows(f) && PaymentOp(op)
    ensures HasEffect(f, ApplyPayment(f, op), e)
  {
    match op
    case OpConfirm(accepted, now) => e := ConfirmEffect(f, accepted, now);
    case OpConfirmOrder(gateway, accepted, now) => e := ConfirmOrderEffect(f, gateway, accepted, now);
    case OpSucceededEvent(accepted, now) =>
      e := ConfirmEffect(f, accepted, now);
      if f.payment.Some? && f.payment.value.status == Succeeded { e := Quiet; }
    case OpRefund(staff, amount, known) => e := RefundEffect(f, staff, amount, known);
    case _ => e := Quiet; QuietPayments(f, op);
  }

  lemma WorkQuiet(f: File, l: seq<Entry>, op: Op)
    requires WorkOp(op)
    ensures HasEffect(f, ApplyWork(f, l, op), Quiet)
  {
    match op
    case OpApprove(approver, floor, now) => ApproveQuiet(f, l, approver, floor, now);
    case OpSubmit(actor, length, owned, now) => SubmitQuiet(f, actor, length, owned, now);
    case OpRevise(actor, length) => ReviseQuiet(f, actor, length);
    case OpCancel(actor, given, now) => CancelQuiet(f, actor, given, now);
    case OpSweep(now) => SweepQuiet(f, now);
    case OpMark(marker) =>
  }

  lemma PayoutEffect(f: File, l: seq<Entry>, op: Op) returns (e: Effect)
    requires Rows(f) && PayoutOp(op)
    ensures HasEffect(f, ApplyPayout(f, l, op), e)
  {
    match op
    case OpSettle(k, staff) => e := SettleEffect(f, k, staff);
    case OpSchedule(floor) => e := Quiet; WithPayoutQuiet(f, l, floor);
    case OpFailPayout(k, staff) => e := Quiet; FailPayoutQuiet(f, k, staff);
  }

  lemma DisputeEffect(f: File, l: seq<Entry>, op: Op) returns (e: Effect)
    requires Rows(f) && !PaymentOp(op) && !WorkOp(op) && !PayoutOp(op)
    ensures HasEffect(f, ApplyDispute(f, l, op), e)
  {
    if op.OpResolve? {
      e := ResolveEffect(f, l, op.staff, op.outcome, op.length, op.requested);
    } else {
      e := Quiet;
      QuietDisputes(f, l, op);
    }
  }

  lemma StepEffect(f: File, l: seq<Entry>, op: Op) returns (e: Effect)
    requires Rows(f)
    ensures HasEffect(f, Apply(f, l, op), e)
  {
    if PaymentOp(op) {
      e := PaymentEffect(f, op);
    } else if WorkOp(op) {
      e := Quiet;
      WorkQuiet(f, l, op);
    } else if PayoutOp(op) {
      e := PayoutEffect(f, l, op);
    } else {
      e := DisputeEffect(f, l, op);
    }
  }

  // --- refused calls --------------------------------------------------------------------------

  lemma RefusedPayment(f: File, op: Op)
    requires PaymentOp(op) && ApplyPayment(f, op).error.Some?
    ensures var s := ApplyPayment(f, op);
            && s.posted == []
            && s.file == f.(payment := s.file.payment, attempts := s.file.attempts)
            && (s.file != f ==> s.error == Some(PaymentFailed) || op.OpConfirmOrder?)
  {
  }

  lemma RefusedWork(f: File, l: seq<Entry>, op: Op)
    requires WorkOp(op) && ApplyWork(f, l, op).error.Some?
    ensures ApplyWork(f, l, op).posted == [] && ApplyWork(f, l, op).file == f
  {
  }

  lemma RefusedDispute(f: File, l: seq<Entry>, op: Op)
    requires !PaymentOp(op) && !WorkOp(op) && !PayoutOp(op) && ApplyDispute(f, l, op).error.Some?
    ensures ApplyDispute(f, l, op).posted == [] && ApplyDispute(f, l, op).file == f
  {
  }

  /** A refused call rolls back: it posts nothing and changes nothing, except that a rejected
      attempt is marked and an operator's confirmation keeps the payment row it created. */
  lemma RefusedCall(f: File, l: seq<Entry>, op: Op)
    requires Apply(f, l, op).error.Some?
    ensures var s := Apply(f, l, op);
            && s.posted == []
            && s.file == f.(payment := s.file.payment, attempts := s.file.attempts)
            && (s.file != f ==> s.error == Some(PaymentFailed) || op.OpConfirmOrder?)
  {
    if PaymentOp(op) {
      RefusedPayment(f, op);
    } else if WorkOp(op) {
      RefusedWork(f, l, op);
    } else if !PayoutOp(op) {
      RefusedDispute(f, l, op);
    }
  }

  // --- the books after each effect ------------------------------------------------------------

  /** The sums the books clause speaks of, as one record. */
  ghost predicate Sums(l: seq<Entry>, charges: nat, charge: int, refund: int, commission: int, credit: int) {
    && Tally(l, Charge) == charges && Total(l, Charge) == charge
    && Total(l, Ledger.Refund) == refund
    && Total(l, Commission) == commission && Total(l, ExpertCredit) == credit
    && Total(l, Fee) == 0 && Total(l, Adjustment) == 0
  }

  lemma SumsConcat(l: seq<Entry>, p: seq<Entry>)
    ensures Tally(l + p, Charge) == Tally(l, Charge) + Tally(p, Charge)
    ensures forall k: Kind :: Total(l + p, k) == Total(l, k) + Total(p, k)
  {
    TotalConcat(l, p, Charge);
    forall k: Kind ensures Total(l + p, k) == Total(l, k) + Total(p, k) {
      TotalConcat(l, p, k);
    }
  }

  lemma ChargeSums(f: File, amount: int)
    ensures var (c, e) := BookedSplit(f.order, amount);
            Sums(ChargeEntries(f, amount), 1, amount, 0, c, e)
  {
    ChargeTotals(f, amount, Charge);
    ChargeTotals(f, amount, Commission);
    ChargeTotals(f, amount, ExpertCredit);
    ChargeTotals(f, amount, Ledger.Refund);
    ChargeTotals(f, amount, Fee);
    ChargeTotals(f, amount, Adjustment);
  }

  lemma ReturnSums(f: File, amount: int, x: int)
    ensures Sums(RefundEntries(f, amount, x), 0, 0, -amount, -x, x - amount)
  {
    RefundTotals(f, amount, x, Charge);
    RefundTotals(f, amount, x, Commission);
    RefundTotals(f, amount, x, ExpertCredit);
    RefundTotals(f, amount, x, Ledger.Refund);
    RefundTotals(f, amount, x, Fee);
    RefundTotals(f, amount, x, Adjustment);
  }

  /** What a successful refund does to the order's totals. */
  lemma RefundedTotals(f: File, l: seq<Entry>, staff: Option<Actor>, amount: int, known: bool)
    requires IssueRefund(f, staff, amount, known).error.None?
    ensures NonNegative(f.order.commissionAmount) + NonNegative(f.order.expertAmount) > 0
    ensures var s, x := IssueRefund(f, staff, amount, known), ReversedCommission(f.order, amount);
            && s.file.payouts == f.payouts && s.file.order == f.order
            && Total(l + s.posted, ExpertCredit) == Total(l, ExpertCredit) - (amount - x)
            && Total(l + s.posted, Commission) == Total(l, Commission) - x
            && Total(l + s.posted, Ledger.Payout) == Total(l, Ledger.Payout)
  {
    var s, x := IssueRefund(f, staff, amount, known), ReversedCommission(f.order, amount);
    SumsConcat(l, s.posted);
    RefundTotals(f, amount, x, ExpertCredit);
    RefundTotals(f, amount, x, Commission);
    RefundTotals(f, amount, x, Ledger.Payout);
  }

  lemma EffectBooks(f: File, l: seq<Entry>, s: Step, e: Effect)
    requires Terms(f.order) && Books(f, l) && HasEffect(f, s, e)
    ensures Books(s.file, l + s.posted)
  {
    SumsConcat(l, s.posted);
    match e
    case Quiet => assert l + [] == l;
    case Charges =>
      BookedSplitExact(f.order);
      ChargeSums(f, f.order.amount);
    case Returns(amount) =>
      ReturnSums(f, amount, ReversedCommission(f.order, amount));
      RefundSumAppend(f.refunds, RefundRow(amount, RefundSucceeded));
    case Settles =>
      TotalOne(s.posted[0], Charge);
      TotalOne(s.posted[0], Commission);
      TotalOne(s.posted[0], ExpertCredit);
      TotalOne(s.posted[0], Ledger.Refund);
      TotalOne(s.posted[0], Fee);
      TotalOne(s.posted[0], Adjustment);
  }

  lemma BookedSplitExact(o: Order)
    requires Terms(o)
    ensures var (c, e) := BookedSplit(o, o.amount); c + e == o.amount && 0 <= c && 0 <= e
  {
    RoundHalfUpWithin(o.amount, o.commissionRate, RATE_UNIT);
  }

  /** Nothing in l is a payout, so the payout books stay with the payout. */
  lemma PayoutBooksKept(f: File, g: File, l: seq<Entry>, posted: seq<Entry>)
    requires PayoutBooks(f, l) && SamePaidPayout(f, g)
    requires Total(posted, Ledger.Payout) == 0 && Tally(posted, Ledger.Payout) == 0
    ensures PayoutBooks(g, l + posted)
  {
    TotalConcat(l, posted, Ledger.Payout);
  }

  lemma EffectPayoutBooks(f: File, l: seq<Entry>, s: Step, e: Effect)
    requires Rows(f) && PayoutBooks(f, l) && HasEffect(f, s, e)
    ensures PayoutBooks(s.file, l + s.posted)
  {
    match e
    case Quiet => PayoutBooksKept(f, s.file, l, s.posted);
    case Charges =>
      ChargeTotals(f, f.order.amount, Ledger.Payout);
      PayoutBooksKept(f, s.file, l, s.posted);
    case Returns(amount) =>
      RefundTotals(f, amount, ReversedCommission(f.order, amount), Ledger.Payout);
      PayoutBooksKept(f, s.file, l, s.posted);
    case Settles =>
      TotalConcat(l, s.posted, Ledger.Payout);
      TotalOne(s.posted[0], Ledger.Payout);
  }

  lemma EffectEntriesNamed(f: File, l: seq<Entry>, s: Step, e: Effect)
    requires EntriesNamed(f, l) && HasEffect(f, s, e)
    ensures EntriesNamed(s.file, l + s.posted)
  {
  }

  // --- drift ---------------------------------------------------------------------------------------

  /** Before payment nothing is booked that could be reversed. */
  ghost predicate UnpaidClean(f: File, l: seq<Entry>) {
    !IsPaid(f) ==> f.refunds == [] && Total(l, Commission) == 0 && Total(l, ExpertCredit) == 0
  }

  lemma EffectUnpaidClean(f: File, l: seq<Entry>, s: Step, e: Effect)
    requires UnpaidClean(f, l) && HasEffect(f, s, e)
    ensures UnpaidClean(s.file, l + s.posted)
  {
    if e.Quiet? {
      assert l + [] == l;
    } else if e.Settles? {
      TotalAppend(l, s.posted[0], Commission);
      TotalAppend(l, s.posted[0], ExpertCredit);
    }
  }

  /** What an effect does to the commission reversed so far. */
  lemma EffectReversed(f: File, l: seq<Entry>, s: Step, e: Effect)
    requires UnpaidClean(f, l) && HasEffect(f, s, e)
    ensures ReversedSoFar(s.file, l + s.posted)
            == ReversedSoFar(f, l) + if e.Returns? then ReversedCommission(f.order, e.amount) else 0
    ensures RefundSum(s.file.refunds) == RefundSum(f.refunds) + if e.Returns? then e.amount else 0
    ensures |s.file.refunds| == |f.refunds| + if e.Returns? then 1 else 0
  {
    TotalConcat(l, s.posted, Commission);
    match e
    case Quiet =>
    case Charges => ChargeTotals(f, f.order.amount, Commission);
    case Returns(amount) =>
      RefundTotals(f, amount, ReversedCommission(f.order, amount), Commission);
      RefundSumAppend(f.refunds, RefundRow(amount, RefundSucceeded));
    case Settles => TotalOne(s.posted[0], Commission);
  }

  /** One more refund adds at most half a unit of drift. */
  lemma DriftStep(whole: int, commission: int, reversed: int, refunded: int, amount: int, x: int, k: nat)
    requires whole > 0
    requires Abs(2 * (whole * reversed - refunded * commission)) <= k * whole
    requires x == RoundHalfUp(amount * commission, whole)
    ensures Abs(2 * (whole * (reversed + x) - (refunded + amount) * commission)) <= (k + 1) * whole
  {
    RefundRounding(amount, commission, whole);
    Distribute(whole, reversed, x);
    assert (refunded + amount) * commission == refunded * commission + amount * commission;
    assert (k + 1) * whole == k * whole + whole;
  }

  lemma EffectDrift(f: File, l: seq<Entry>, s: Step, e: Effect)
    requires Terms(f.order) && UnpaidClean(f, l) && DriftBounded(f, l) && HasEffect(f, s, e)
    ensures DriftBounded(s.file, l + s.posted)
  {
    EffectReversed(f, l, s, e);
    if e.Returns? {
      DriftStep(f.order.amount, f.order.commissionAmount, ReversedSoFar(f, l), RefundSum(f.refunds), e.amount,
                ReversedCommission(f.order, e.amount), |f.refunds|);
    }
  }

  // --- every call ------------------------------------------------------------------------------------

  /** The full per-order invariant. */
  ghost predicate Sound(f: File, l: seq<Entry>) {
    Inv(f, l) && UnpaidClean(f, l) && DriftBounded(f, l)
  }

  lemma NewFileSound(id: OrderId, request: nat, student: UserId, expert: UserId,
                     amount: int, currency: string, rate: int, now: Time)
    requires amount > 0 && 0 <= rate <= RATE_UNIT && student != expert
    ensures Sound(NewFile(id, request, student, expert, amount, currency, rate, now), [])
  {
    NewFileInv(id, request, student, expert, amount, currency, rate, now);
  }

  /** Every service call, whatever its arguments, keeps the whole invariant. */
  lemma StepSound(f: File, l: seq<Entry>, op: Op)
    requires Sound(f, l)
    ensures var s := Apply(f, l, op); Sound(s.file, l + s.posted)
  {
    var s := Apply(f, l, op);
    StepRows(f, l, op);
    var e := StepEffect(f, l, op);
    EffectBooks(f, l, s, e);
    EffectPayoutBooks(f, l, s, e);
    EffectEntriesNamed(f, l, s, e);
    EffectUnpaidClean(f, l, s, e);
    EffectDrift(f, l, s, e);
  }
}
