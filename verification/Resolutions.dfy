/** resolve as it runs: it checks a dispute that was read before any lock and a refundable amount
    that was read before the payment was locked. When that succeeds, when it does what the atomic
    resolution does, and when it keeps the order sound. */
module Resolutions {
  import opened Core
  import opened Ledger
  import opened OrderFile
  import opened OrderSteps
  import opened OrderInvariant
  import opened OrderBooks

  /** f with its dispute as it was read earlier. */
  function AsRead(f: File, d: Option<Dispute>): File { f.(dispute := d) }

  /** d may be an earlier version of f's dispute: it is never replaced and keeps who opened it when. */
  predicate PastDispute(d: Option<Dispute>, f: File) {
    d.Some? ==>
      && f.dispute.Some?
      && d.value.openedBy == f.dispute.value.openedBy && d.value.priorStatus == f.dispute.value.priorStatus
  }

  /** read may be an earlier version of f's payment: refunds only add up. */
  predicate PastPayment(read: Option<Payment>, f: File) {
    read.Some? ==> read.value.amountMinor == f.order.amount && read.value.refundedMinor <= RefundSum(f.refunds)
  }

  predicate Refundable(p: Option<Payment>) { p.Some? && p.value.status in {Succeeded, PartiallyRefunded} }

  function Left(p: Payment): int { p.amountMinor - p.refundedMinor }

  /** The order statuses from which an outcome may conclude. */
  predicate Concludes(status: OrderStatus, outcome: Outcome, prior: OrderStatus) {
    match outcome
    case RefundFull => status != Completed
    case NoFaultClose => status == prior || Allowed(status, prior)
    case _ => status in {Delivered, RevisionRequested, OrderStatus.Disputed, Completed}
  }

  /** The amount conditions of both checks, on what was read and on what is locked. */
  predicate AmountPasses(read: Option<Payment>, p: Option<Payment>, outcome: Outcome, requested: Option<int>) {
    && Refundable(read) && Refundable(p)
    && if outcome == RefundFull then 0 < Left(read.value) <= Left(p.value)
       else requested.Some? && 0 < requested.value < Left(read.value) && requested.value <= Left(p.value)
  }

  lemma RefundPasses(f: File, read: Option<Payment>, staff: Option<Actor>, outcome: Outcome, requested: Option<int>)
    requires Terms(f.order) && Refunds(outcome) && IsStaff(staff)
    ensures var s := ResolutionRefundOf(f, read, staff, outcome, requested);
            && (s.error.None? <==> AmountPasses(read, f.payment, outcome, requested))
            && s.file.order == f.order
  {
  }

  /** The status move at the end: a transition of the table, or no move at all. */
  lemma ConcludesIsMove(status: OrderStatus, outcome: Outcome, prior: OrderStatus)
    ensures var to := OutcomeStatus(outcome, prior);
            Concludes(status, outcome, prior) <==> to == status || Allowed(status, to)
  {
  }

  /** When a resolution succeeds on whatever it read. */
  lemma ReadSucceeds(f: File, d: Option<Dispute>, read: Option<Payment>, l: seq<Entry>, staff: Option<Actor>,
                     outcome: Outcome, length: nat, requested: Option<int>)
    requires Terms(f.order)
    ensures ResolveRead(AsRead(f, d), read, l, staff, outcome, length, requested).error.None?
            <==> && IsStaff(staff) && d.Some? && d.value.status == UnderReview && length >= MIN_DISPUTE_TEXT
                 && (Refunds(outcome) ==> AmountPasses(read, f.payment, outcome, requested))
                 && Concludes(f.order.status, outcome, d.value.priorStatus)
  {
    if IsStaff(staff) && d.Some? {
      ConcludesIsMove(f.order.status, outcome, d.value.priorStatus);
      if Refunds(outcome) {
        RefundPasses(AsRead(f, d), read, staff, outcome, requested);
      }
    }
  }

  // --- what it writes -----------------------------------------------------------------------------

  /** The refund on whatever was read: issue_refund of some amount, a full one voiding the payout. */
  lemma RefundReadShape(f: File, read: Option<Payment>, staff: Option<Actor>, outcome: Outcome, requested: Option<int>)
    returns (amount: int)
    ensures var s := ResolutionRefundOf(f, read, staff, outcome, requested);
            if s.error.Some? then s.file == f && s.posted == []
            else
              var i := IssueRefund(f, staff, amount, true);
              && i.error.None? && s.posted == i.posted
              && s.file == (if outcome == RefundFull then Voided(i.file) else i.file)
  {
    amount := 0;
    if read.Some? {
      var a := ResolutionAmount(read.value, outcome, requested);
      if a.Some? {
        amount := a.value;
      }
    }
  }

  function Concluded(d: Dispute, outcome: Outcome): Dispute { d.(status := Resolved, outcome := Some(outcome)) }

  /** The rows of a successful resolution, in terms of its refund on the order as it is. */
  lemma ReadShape(f: File, d: Option<Dispute>, read: Option<Payment>, l: seq<Entry>, staff: Option<Actor>,
                  outcome: Outcome, length: nat, requested: Option<int>) returns (s: Step)
    requires ResolveRead(AsRead(f, d), read, l, staff, outcome, length, requested).error.None?
    ensures s == if Refunds(outcome) then ResolutionRefundOf(f, read, staff, outcome, requested) else Done(f)
    ensures s.error.None? && d.Some? && d.value.status == UnderReview
    ensures s.file.order == f.order && s.file.dispute == f.dispute && s.file.id == f.id
    ensures var r := ResolveRead(AsRead(f, d), read, l, staff, outcome, length, requested);
            var to := OutcomeStatus(outcome, d.value.priorStatus);
            && (to != f.order.status ==> Allowed(f.order.status, to))
            && r.posted == s.posted
            && r.file.payouts == Corrected(s.file, outcome, Total(l + s.posted, ExpertCredit)).payouts
            && r.file == s.file.(payouts := r.file.payouts, events := f.events + [DisputeResolved(outcome)],
                                 order := f.order.(hasOpenDispute := false, status := to),
                                 dispute := Some(Concluded(d.value, outcome)))
  {
    s := if Refunds(outcome) then ResolutionRefundOf(f, read, staff, outcome, requested) else Done(f);
    RefundIgnoresDispute(f, d, read, staff, outcome, requested);
  }

  lemma RefundIgnoresDispute(f: File, d: Option<Dispute>, read: Option<Payment>, staff: Option<Actor>,
                             outcome: Outcome, requested: Option<int>)
    ensures var a := ResolutionRefundOf(AsRead(f, d), read, staff, outcome, requested);
            var b := ResolutionRefundOf(f, read, staff, outcome, requested);
            && a.error == b.error && a.posted == b.posted && a.file == AsRead(b.file, d)
            && b.file.order == f.order && b.file.dispute == f.dispute && b.file.id == f.id
            && b.file.events == f.events && b.file.deliveries == f.deliveries
  {
  }

  // --- when it keeps the order sound ----------------------------------------------------------------

  /** A no-fault close puts the order back where it was disputed. Of an order that has left the
      dispute and moved on since, that misplaces it - deliveries and revisions no longer count up. */
  predicate Misplaces(f: File, outcome: Outcome) {
    && outcome == NoFaultClose && f.dispute.Some?
    && f.order.status !in {OrderStatus.Disputed, f.dispute.value.priorStatus}
    && f.dispute.value.priorStatus != Completed
  }

  lemma RefundReadRows(f: File, read: Option<Payment>, staff: Option<Actor>, outcome: Outcome, requested: Option<int>)
    requires Rows(f)
    ensures Rows(ResolutionRefundOf(f, read, staff, outcome, requested).file)
  {
    var amount := RefundReadShape(f, read, staff, outcome, requested);
    RefundRows(f, staff, amount, true);
    var i := IssueRefund(f, staff, amount, true);
    if FirstUnpaid(i.file.payouts) < |i.file.payouts| {
      VoidedRows(i.file, FirstUnpaid(i.file.payouts));
    }
  }

  /** The concluding writes, on an order whatever became of its dispute since it was read. */
  lemma ConcludedRows(f: File, d: Dispute, payouts: seq<PayoutRow>, outcome: Outcome, events: seq<Event>)
    requires Rows(f) && PastDispute(Some(d), f) && PayoutRows(f.(payouts := payouts))
    requires var to := OutcomeStatus(outcome, d.priorStatus); to != f.order.status ==> Allowed(f.order.status, to)
    ensures var to := OutcomeStatus(outcome, d.priorStatus);
            Rows(f.(payouts := payouts, events := events, order := f.order.(hasOpenDispute := false, status := to),
                    dispute := Some(Concluded(d, outcome))))
            <==> !Misplaces(f, outcome)
  {
  }

  lemma ReadRows(f: File, d: Option<Dispute>, read: Option<Payment>, l: seq<Entry>, staff: Option<Actor>,
                 outcome: Outcome, length: nat, requested: Option<int>)
    requires Rows(f) && PastDispute(d, f)
    requires ResolveRead(AsRead(f, d), read, l, staff, outcome, length, requested).error.None?
    ensures Rows(ResolveRead(AsRead(f, d), read, l, staff, outcome, length, requested).file)
            <==> !Misplaces(f, outcome)
  {
    var r := ResolveRead(AsRead(f, d), read, l, staff, outcome, length, requested);
    var s := ReadShape(f, d, read, l, staff, outcome, length, requested);
    RefundReadRows(f, read, staff, outcome, requested);
    CorrectedRows(s.file, outcome, Total(l + s.posted, ExpertCredit));
    ConcludedRows(s.file, d.value, r.file.payouts, outcome, r.file.events);
  }

  lemma ReadEffect(f: File, d: Option<Dispute>, read: Option<Payment>, l: seq<Entry>, staff: Option<Actor>,
                   outcome: Outcome, length: nat, requested: Option<int>) returns (e: Effect)
    requires Rows(f)
    requires ResolveRead(AsRead(f, d), read, l, staff, outcome, length, requested).error.None?
    ensures HasEffect(f, ResolveRead(AsRead(f, d), read, l, staff, outcome, length, requested), e)
  {
    var r := ResolveRead(AsRead(f, d), read, l, staff, outcome, length, requested);
    var s := ReadShape(f, d, read, l, staff, outcome, length, requested);
    e := Quiet;
    if Refunds(outcome) {
      var amount := RefundReadShape(f, read, staff, outcome, requested);
      e := RefundEffect(f, staff, amount, true);
      VoidedKeepsPaid(IssueRefund(f, staff, amount, true).file);
    }
    CorrectedKeepsPaid(s.file, outcome, Total(l + s.posted, ExpertCredit));
  }

  /** Everything else a resolution writes keeps the invariant, whatever it read: exactly the
      misplaced orders are unsound afterwards. */
  lemma ReadIsSound(f: File, d: Option<Dispute>, read: Option<Payment>, l: seq<Entry>, staff: Option<Actor>,
                    outcome: Outcome, length: nat, requested: Option<int>)
    requires Sound(f, l) && PastDispute(d, f)
    requires ResolveRead(AsRead(f, d), read, l, staff, outcome, length, requested).error.None?
    ensures var r := ResolveRead(AsRead(f, d), read, l, staff, outcome, length, requested);
            Sound(r.file, l + r.posted) <==> !Misplaces(f, outcome)
  {
    var s := ResolveRead(AsRead(f, d), read, l, staff, outcome, length, requested);
    ReadRows(f, d, read, l, staff, outcome, length, requested);
    var e := ReadEffect(f, d, read, l, staff, outcome, length, requested);
    EffectBooks(f, l, s, e);
    EffectPayoutBooks(f, l, s, e);
    EffectEntriesNamed(f, l, s, e);
    EffectUnpaidClean(f, l, s, e);
    EffectDrift(f, l, s, e);
  }

  // --- when it is the atomic resolution ---------------------------------------------------------------

  /** The dispute is still under review, and a partial amount leaves something of the payment. */
  predicate Current(f: File, outcome: Outcome, requested: Option<int>) {
    && f.dispute.Some? && f.dispute.value.status == UnderReview
    && (outcome in {RefundPartial, Split} ==>
          requested.Some? && f.payment.Some? && requested.value < Left(f.payment.value))
  }

  /** A full refund fixes its amount on the payment as it was read; more than is left is refused. */
  lemma FullTakesAllLeft(f: File, read: Option<Payment>)
    requires Rows(f) && PastPayment(read, f) && AmountPasses(read, f.payment, RefundFull, None)
    ensures Left(read.value) == Left(f.payment.value)
  {
  }

  lemma SameRefund(f: File, read: Option<Payment>, staff: Option<Actor>, outcome: Outcome, requested: Option<int>)
    requires Rows(f) && PastPayment(read, f) && Refunds(outcome)
    requires ResolutionRefundOf(f, read, staff, outcome, requested).error.None? && Current(f, outcome, requested)
    ensures ResolutionRefundOf(f, read, staff, outcome, requested) == ResolutionRefund(f, staff, outcome, requested)
  {
    RefundPasses(f, read, staff, outcome, requested);
    if outcome == RefundFull {
      FullTakesAllLeft(f, read);
    }
  }

  /** A successful resolution did what the atomic one does to the order as it is, if and only if
      the dispute is still under review and a partial amount leaves something; otherwise the atomic
      one is refused. */
  lemma ReadIsAtomic(f: File, d: Option<Dispute>, read: Option<Payment>, l: seq<Entry>, staff: Option<Actor>,
                     outcome: Outcome, length: nat, requested: Option<int>)
    requires Rows(f) && PastDispute(d, f) && PastPayment(read, f)
    requires ResolveRead(AsRead(f, d), read, l, staff, outcome, length, requested).error.None?
    ensures var r, a := ResolveRead(AsRead(f, d), read, l, staff, outcome, length, requested),
                        Resolve(f, l, staff, outcome, length, requested);
            && (r == a <==> Current(f, outcome, requested))
            && (a.error.None? <==> Current(f, outcome, requested))
            && r.file != f
  {
    var s := ReadShape(f, d, read, l, staff, outcome, length, requested);
    ReadSucceeds(f, d, read, l, staff, outcome, length, requested);
    ReadSucceeds(f, f.dispute, f.payment, l, staff, outcome, length, requested);
    assert AsRead(f, f.dispute) == f;
    if Current(f, outcome, requested) {
      var t := ResolvedShape(f, l, staff, outcome, length, requested);
      if Refunds(outcome) {
        SameRefund(f, read, staff, outcome, requested);
      }
    }
  }

  lemma RefusedResolution(f: File, l: seq<Entry>, staff: Option<Actor>, outcome: Outcome, length: nat,
                          requested: Option<int>)
    ensures var a := Resolve(f, l, staff, outcome, length, requested);
            a.error.Some? ==> a.file == f && a.posted == []
  {
  }

  lemma CurrentInPlace(f: File, d: Option<Dispute>, read: Option<Payment>, l: seq<Entry>, staff: Option<Actor>,
                       outcome: Outcome, length: nat, requested: Option<int>)
    requires Rows(f) && PastDispute(d, f) && Current(f, outcome, requested)
    requires ResolveRead(AsRead(f, d), read, l, staff, outcome, length, requested).error.None?
    ensures !Misplaces(f, outcome)
  {
    ReadSucceeds(f, d, read, l, staff, outcome, length, requested);
  }

  /** The same of the rows and entries it leaves; the atomic resolution never misplaces an order. */
  lemma ReadLeavesAtomic(f: File, d: Option<Dispute>, read: Option<Payment>, l: seq<Entry>, staff: Option<Actor>,
                         outcome: Outcome, length: nat, requested: Option<int>)
    requires Rows(f) && PastDispute(d, f) && PastPayment(read, f)
    requires ResolveRead(AsRead(f, d), read, l, staff, outcome, length, requested).error.None?
    ensures var r, a := ResolveRead(AsRead(f, d), read, l, staff, outcome, length, requested),
                        Resolve(f, l, staff, outcome, length, requested);
            r.file == a.file && r.posted == a.posted <==> Current(f, outcome, requested)
    ensures Current(f, outcome, requested) ==> !Misplaces(f, outcome)
  {
    ReadIsAtomic(f, d, read, l, staff, outcome, length, requested);
    RefusedResolution(f, l, staff, outcome, length, requested);
    if Current(f, outcome, requested) {
      CurrentInPlace(f, d, read, l, staff, outcome, length, requested);
    }
  }

  // --- resolving twice ----------------------------------------------------------------------------------

  /** What a first resolution leaves of the payment. */
  function LeftAfter(p: Payment, first: Outcome, amount: Option<int>): int {
    if first in {RefundPartial, Split} && amount.Some? then Left(p) - amount.value else Left(p)
  }

  /** Which second resolution goes through on the dispute as it was before the first. */
  predicate GoesThrough(f: File, first: Outcome, amount: Option<int>, second: Outcome, requested: Option<int>)
    requires f.dispute.Some?
  {
    var prior := f.dispute.value.priorStatus;
    match first
    case RefundFull => false
    case NoFaultClose =>
      (match second
       case RefundFull => prior != Completed && Refundable(f.payment)
       case ReleaseExpert => prior != Active
       case NoFaultClose => true
       case _ => prior != Active && PartOf(f.payment, first, amount, requested))
    case _ =>
      (match second
       case RefundFull => false
       case ReleaseExpert => true
       case NoFaultClose => prior == Completed
       case _ => PartOf(f.payment, first, amount, requested))
  }

  predicate PartOf(p: Option<Payment>, first: Outcome, amount: Option<int>, requested: Option<int>) {
    Refundable(p) && requested.Some? && 0 < requested.value < LeftAfter(p.value, first, amount)
  }

  /** The payment after a successful resolution. */
  lemma PaymentAfter(f: File, l: seq<Entry>, staff: Option<Actor>, first: Outcome, length: nat, amount: Option<int>)
    requires Rows(f) && Resolve(f, l, staff, first, length, amount).error.None?
    ensures var p := Resolve(f, l, staff, first, length, amount).file.payment;
            && (Refundable(p) <==> first != RefundFull && Refundable(f.payment))
            && (Refundable(p) ==> 0 < Left(p.value) == LeftAfter(f.payment.value, first, amount))
  {
    var s := ResolvedShape(f, l, staff, first, length, amount);
    if Refunds(first) {
      RefundPasses(f, f.payment, staff, first, amount);
      PaymentAfterRefund(f, staff, first, amount);
    }
  }

  lemma PaymentAfterRefund(f: File, staff: Option<Actor>, first: Outcome, amount: Option<int>)
    requires Rows(f) && Refunds(first) && ResolutionRefund(f, staff, first, amount).error.None?
    requires AmountPasses(f.payment, f.payment, first, amount)
    ensures var p := ResolutionRefund(f, staff, first, amount).file.payment;
            && (Refundable(p) <==> first != RefundFull)
            && (Refundable(p) ==> 0 < Left(p.value) == LeftAfter(f.payment.value, first, amount))
  {
  }

  /** The conditions of a second resolution on what the first one leaves. */
  lemma SecondConditions(f: File, first: Outcome, amount: Option<int>, p: Option<Payment>, second: Outcome,
                         requested: Option<int>)
    requires f.dispute.Some? && Disputable(f.dispute.value.priorStatus)
    requires Refundable(p) <==> first != RefundFull && Refundable(f.payment)
    requires Refundable(p) ==> 0 < Left(p.value) == LeftAfter(f.payment.value, first, amount)
    requires first in {RefundPartial, Split} ==> Refundable(f.payment)
    ensures var prior := f.dispute.value.priorStatus;
            (Refunds(second) ==> AmountPasses(p, p, second, requested))
            && Concludes(OutcomeStatus(first, prior), second, prior)
            <==> GoesThrough(f, first, amount, second, requested)
  {
  }

  lemma FirstLeaves(f: File, l: seq<Entry>, staff: Option<Actor>, first: Outcome, length: nat, amount: Option<int>)
    requires Rows(f) && Resolve(f, l, staff, first, length, amount).error.None?
    ensures f.dispute.Some? && Disputable(f.dispute.value.priorStatus)
    ensures first in {RefundPartial, Split} ==> Refundable(f.payment)
    ensures var g := Resolve(f, l, staff, first, length, amount).file;
            && g.order.status == OutcomeStatus(first, f.dispute.value.priorStatus) && Terms(g.order)
            && f.dispute.value.status == UnderReview && g.dispute == Some(Concluded(f.dispute.value, first))
  {
    var s := ResolvedShape(f, l, staff, first, length, amount);
    if Refunds(first) {
      RefundPasses(f, f.payment, staff, first, amount);
    }
  }

  /** resolve does not read the dispute again once it has the order: a second resolution that
      started under review goes through as well, for these pairs of outcomes and these amounts. */
  lemma StaleSecondResolution(f: File, l: seq<Entry>, staff: Option<Actor>, first: Outcome, length: nat,
                              amount: Option<int>, other: Option<Actor>, second: Outcome, notes: nat,
                              requested: Option<int>)
    requires Rows(f) && Resolve(f, l, staff, first, length, amount).error.None?
    ensures f.dispute.Some?
    ensures var r := Resolve(f, l, staff, first, length, amount);
            var g, k := r.file, l + r.posted;
            var t := ResolveRead(AsRead(g, f.dispute), g.payment, k, other, second, notes, requested);
            && (t.error.None?
                <==> IsStaff(other) && notes >= MIN_DISPUTE_TEXT && GoesThrough(f, first, amount, second, requested))
            && (t.error.None? && Refunds(second) ==> |t.file.refunds| == |g.refunds| + 1)
            && Resolve(g, k, other, second, notes, requested).error.Some?
  {
    var r := Resolve(f, l, staff, first, length, amount);
    var g, k := r.file, l + r.posted;
    FirstLeaves(f, l, staff, first, length, amount);
    PaymentAfter(f, l, staff, first, length, amount);
    SecondConditions(f, first, amount, g.payment, second, requested);
    SecondCall(g, f.dispute, k, other, second, notes, requested);
  }

  lemma SecondCall(f: File, d: Option<Dispute>, l: seq<Entry>, staff: Option<Actor>, outcome: Outcome, notes: nat,
                   requested: Option<int>)
    requires Terms(f.order) && d.Some? && d.value.status == UnderReview
    requires f.dispute.Some? && f.dispute.value.status == Resolved
    ensures var t := ResolveRead(AsRead(f, d), f.payment, l, staff, outcome, notes, requested);
            && (t.error.None?
                <==> && IsStaff(staff) && notes >= MIN_DISPUTE_TEXT
                     && (Refunds(outcome) ==> AmountPasses(f.payment, f.payment, outcome, requested))
                     && Concludes(f.order.status, outcome, d.value.priorStatus))
            && (t.error.None? && Refunds(outcome) ==> |t.file.refunds| == |f.refunds| + 1)
            && Resolve(f, l, staff, outcome, notes, requested).error.Some?
  {
    ReadSucceeds(f, d, f.payment, l, staff, outcome, notes, requested);
    ReadSucceeds(f, f.dispute, f.payment, l, staff, outcome, notes, requested);
    assert AsRead(f, f.dispute) == f;
    if ResolveRead(AsRead(f, d), f.payment, l, staff, outcome, notes, requested).error.None? && Refunds(outcome) {
      SecondRefundRow(f, d, l, staff, outcome, notes, requested);
    }
  }

  lemma SecondRefundRow(f: File, d: Option<Dispute>, l: seq<Entry>, other: Option<Actor>, outcome: Outcome, notes: nat,
                        requested: Option<int>)
    requires Refunds(outcome) && ResolveRead(AsRead(f, d), f.payment, l, other, outcome, notes, requested).error.None?
    ensures |ResolveRead(AsRead(f, d), f.payment, l, other, outcome, notes, requested).file.refunds| == |f.refunds| + 1
  {
    var s := ReadShape(f, d, f.payment, l, other, outcome, notes, requested);
    var a := RefundReadShape(f, f.payment, other, outcome, requested);
  }

  // --- a direct refund between reading and locking the payment ------------------------------------------------

  /** A partial resolution compares its amount with what was refundable before it locked the
      payment. After a direct refund of a in between it goes through where the current figure
      would refuse it exactly for the amount of all that is left. */
  lemma StalePartialReturnsAll(f: File, l: seq<Entry>, staff: Option<Actor>, a: int, other: Option<Actor>,
                               outcome: Outcome, length: nat, amount: int)
    requires Rows(f) && outcome in {RefundPartial, Split} && IssueRefund(f, staff, a, true).error.None?
    ensures f.payment.Some?
    ensures var g := IssueRefund(f, staff, a, true).file;
            var t, u := ResolveRead(g, f.payment, l, other, outcome, length, Some(amount)),
                        Resolve(g, l, other, outcome, length, Some(amount));
            && (t.error.None? && u.error.Some?
                <==> && IsStaff(other) && f.dispute.Some? && f.dispute.value.status == UnderReview
                     && length >= MIN_DISPUTE_TEXT && Concludes(f.order.status, outcome, f.dispute.value.priorStatus)
                     && 0 < amount == Left(f.payment.value) - a)
            && (t.error.None? && u.error.Some? ==> t.file.payment.Some? && t.file.payment.value.status == Refunded)
  {
    var g := IssueRefund(f, staff, a, true).file;
    RefundedPayment(f, staff, a);
    assert AsRead(g, g.dispute) == g;
    ReadSucceeds(g, g.dispute, f.payment, l, other, outcome, length, Some(amount));
    ReadSucceeds(g, g.dispute, g.payment, l, other, outcome, length, Some(amount));
    var t := ResolveRead(g, f.payment, l, other, outcome, length, Some(amount));
    if t.error.None? {
      var s := ReadShape(g, g.dispute, f.payment, l, other, outcome, length, Some(amount));
      LastRefund(g, f.payment, other, outcome, amount);
    }
  }

  lemma RefundedPayment(f: File, staff: Option<Actor>, a: int)
    requires Rows(f) && IssueRefund(f, staff, a, true).error.None?
    ensures Refundable(f.payment) && 0 < a <= Left(f.payment.value)
    ensures var g := IssueRefund(f, staff, a, true).file;
            && g.order == f.order && g.dispute == f.dispute && g.payment.Some?
            && Left(g.payment.value) == Left(f.payment.value) - a
            && (Refundable(g.payment) <==> Left(g.payment.value) > 0)
  {
  }

  lemma LastRefund(f: File, read: Option<Payment>, other: Option<Actor>, outcome: Outcome, amount: int)
    requires outcome in {RefundPartial, Split}
    requires ResolutionRefundOf(f, read, other, outcome, Some(amount)).error.None?
    ensures f.payment.Some? && ResolutionRefundOf(f, read, other, outcome, Some(amount)).file.payment.Some?
    ensures amount == Left(f.payment.value) ==>
              ResolutionRefundOf(f, read, other, outcome, Some(amount)).file.payment.value.status == Refunded
  {
  }
}
