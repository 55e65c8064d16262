/** The read-only consistency checkers (payments/services.py ledger_check,
    portal/services/reconciliation.py): what each reports, exactly, and that in every
    reachable state none of them reports anything. */
module Reconciliation {
  import opened Ledger
  import opened OrderFile
  import opened Platform

  datatype Violation = Violation(order: OrderId, chargePlusRefund: int, allocations: int)

  datatype Finding = Finding(order: OrderId, expected: int, actual: int)

  predicate Reported(violations: seq<Violation>, o: OrderId) { exists v <- violations :: v.order == o }

  predicate Found(findings: seq<Finding>, o: OrderId) { exists x <- findings :: x.order == o }

  predicate HasEntries(l: seq<Entry>, o: OrderId) { exists e <- l :: e.order == o }

  function ChargePlusRefund(l: seq<Entry>, o: OrderId): int {
    Total(Of(l, o), Charge) + Total(Of(l, o), Ledger.Refund)
  }

  function Allocations(l: seq<Entry>, o: OrderId): int {
    Total(Of(l, o), Commission) + Total(Of(l, o), ExpertCredit) + Total(Of(l, o), Fee)
  }

  /** charge + refund == commission + expert credit + fee, over the entries of order o. */
  predicate Balanced(l: seq<Entry>, o: OrderId) { ChargePlusRefund(l, o) == Allocations(l, o) }

  predicate Distinct(s: seq<OrderId>) { forall i, j :: 0 <= i < j < |s| ==> s[i] != s[j] }

  /** `values_list("order_id").distinct()`. */
  method DistinctOrders(l: seq<Entry>) returns (ids: seq<OrderId>)
    ensures Distinct(ids)
    ensures forall o :: o in ids <==> HasEntries(l, o)
  {
    ids := [];
    for i := 0 to |l|
      invariant Distinct(ids)
      invariant forall o :: o in ids <==> HasEntries(l[..i], o)
    {
      assert l[..i + 1] == l[..i] + [l[i]];
      var o := l[i].order;
      assert HasEntries(l[..i + 1], o) by { assert l[i] in l[..i + 1]; }
      assert forall p :: HasEntries(l[..i], p) ==> HasEntries(l[..i + 1], p);
      assert forall p :: p != o && HasEntries(l[..i + 1], p) ==> HasEntries(l[..i], p);
      if o !in ids {
        ids := ids + [o];
      }
    }
    assert l[..|l|] == l;
  }

  /** The nightly ledger check reports an order exactly when its entries do not balance,
      once, with the two sides it found. */
  method LedgerCheck(l: seq<Entry>) returns (checked: nat, violations: seq<Violation>)
    ensures forall o :: Reported(violations, o) <==> HasEntries(l, o) && !Balanced(l, o)
    ensures forall v <- violations ::
              v.chargePlusRefund == ChargePlusRefund(l, v.order) && v.allocations == Allocations(l, v.order)
    ensures forall i, j :: 0 <= i < j < |violations| ==> violations[i].order != violations[j].order
    ensures |violations| <= checked
  {
    var ids := DistinctOrders(l);
    checked, violations := 0, [];
    for i := 0 to |ids|
      invariant checked == i && |violations| <= i
      invariant forall v <- violations :: v.order in ids[..i]
      invariant forall v <- violations :: !Balanced(l, v.order)
      invariant forall v <- violations ::
                  v.chargePlusRefund == ChargePlusRefund(l, v.order) && v.allocations == Allocations(l, v.order)
      invariant forall o <- ids[..i] :: !Balanced(l, o) ==> Reported(violations, o)
      invariant forall j, k :: 0 <= j < k < |violations| ==> violations[j].order != violations[k].order
    {
      var o := ids[i];
      assert ids[..i + 1] == ids[..i] + [o];
      assert o !in ids[..i];
      var lhs, rhs := ChargePlusRefund(l, o), Allocations(l, o);
      checked := checked + 1;
      if lhs != rhs {
        var v := Violation(o, lhs, rhs);
        var before := violations;
        violations := violations + [v];
        assert v in violations;
        assert forall u <- before :: u in violations;
      }
    }
    assert ids[..|ids|] == ids;
    forall o ensures Reported(violations, o) <==> HasEntries(l, o) && !Balanced(l, o) {
      assert o in ids <==> HasEntries(l, o);
    }
  }

  // --- refunds against their entries ---------------------------------------------------------

  /** SUM(amount_minor) over the SUCCEEDED refund rows. */
  function SucceededRefunds(rows: seq<RefundRow>): int {
    if rows == [] then 0
    else
      var r := rows[|rows| - 1];
      SucceededRefunds(rows[..|rows| - 1]) + if r.status == RefundSucceeded then r.amountMinor else 0
  }

  predicate HasSucceededRefund(f: File) { exists r <- f.refunds :: r.status == RefundSucceeded }

  /** The order's succeeded refunds are not what its REFUND entries say. */
  predicate RefundMismatch(f: File, l: seq<Entry>) {
    HasSucceededRefund(f) && SucceededRefunds(f.refunds) != -Total(l, Ledger.Refund)
  }

  method RefundLedgerParity(w: World) returns (findings: seq<Finding>)
    ensures forall o: OrderId ::
              Found(findings, o)
              <==> o < |w.files| && RefundMismatch(w.files[o], Entries(w, o))
    ensures forall x <- findings ::
              x.order < |w.files| && x.expected == SucceededRefunds(w.files[x.order].refunds)
              && x.actual == -Total(Entries(w, x.order), Ledger.Refund)
  {
    findings := [];
    for i := 0 to |w.files|
      invariant forall x <- findings ::
                  x.order < i && x.expected == SucceededRefunds(w.files[x.order].refunds)
                  && x.actual == -Total(Entries(w, x.order), Ledger.Refund)
                  && RefundMismatch(w.files[x.order], Entries(w, x.order))
      invariant forall o: OrderId :: o < i && RefundMismatch(w.files[o], Entries(w, o)) ==>
                                       Found(findings, o)
    {
      var refundTotal, ledgerTotal := SucceededRefunds(w.files[i].refunds), -Total(Entries(w, i), Ledger.Refund);
      if HasSucceededRefund(w.files[i]) && refundTotal != ledgerTotal {
        var x := Finding(i, refundTotal, ledgerTotal);
        var before := findings;
        findings := findings + [x];
        assert x in findings;
        assert forall y <- before :: y in findings;
      }
    }
  }

  /** `Payment.refunded_minor` is positive and not the sum of the payment's refund rows. */
  predicate RefundStateWrong(f: File) {
    && f.payment.Some? && f.payment.value.refundedMinor > 0
    && RefundSum(f.refunds) != f.payment.value.refundedMinor
  }

  method PaymentRefundState(w: World) returns (findings: seq<Finding>)
    ensures forall o: OrderId ::
              Found(findings, o) <==> o < |w.files| && RefundStateWrong(w.files[o])
  {
    findings := [];
    for i := 0 to |w.files|
      invariant forall x <- findings :: x.order < i && RefundStateWrong(w.files[x.order])
      invariant forall o: OrderId :: o < i && RefundStateWrong(w.files[o]) ==> Found(findings, o)
    {
      var f := w.files[i];
      if f.payment.Some? && f.payment.value.refundedMinor > 0 {
        var rows := RefundSum(f.refunds);
        if rows != f.payment.value.refundedMinor {
          var x := Finding(i, f.payment.value.refundedMinor, rows);
          var before := findings;
          findings := findings + [x];
          assert x in findings;
          assert forall y <- before :: y in findings;
        }
      }
    }
  }

  // --- succeeded payments need a charge -------------------------------------------------------

  predicate ChargedIn(l: seq<Entry>, o: OrderId) { exists e <- l :: e.kind == Charge && e.order == o }

  predicate Uncovered(w: World, o: OrderId) {
    && o < |w.files|
    && w.files[o].payment.Some? && w.files[o].payment.value.status == Succeeded
    && !ChargedIn(w.ledger, o)
  }

  method PaymentLedgerCoverage(w: World) returns (missing: seq<OrderId>)
    ensures forall o: OrderId :: o in missing <==> Uncovered(w, o)
    ensures Distinct(missing)
    ensures missing == [] <==> forall o: OrderId :: !Uncovered(w, o)
  {
    missing := [];
    for i := 0 to |w.files|
      invariant forall o: OrderId :: o in missing <==> o < i && Uncovered(w, o)
      invariant Distinct(missing)
      invariant missing != [] ==> exists o: OrderId :: Uncovered(w, o)
    {
      if Uncovered(w, i) {
        missing := missing + [i];
      }
    }
  }

  // --- payouts against credit, webhooks ---------------------------------------------------------

  /** SUM(amount_minor) over the payouts that are scheduled or in transit. */
  function UnsettledIn(rows: seq<PayoutRow>): int {
    if rows == [] then 0
    else
      var p := rows[|rows| - 1];
      UnsettledIn(rows[..|rows| - 1]) + if p.status in {Scheduled, InTransit} then p.amountMinor else 0
  }

  function Unsettled(files: seq<File>): int {
    if files == [] then 0 else Unsettled(files[..|files| - 1]) + UnsettledIn(files[|files| - 1].payouts)
  }

  /** Reports a shortfall exactly when what is scheduled exceeds credit minus the PAYOUT entries. */
  method PayoutCreditParity(w: World) returns (found: bool)
    ensures found <==> Total(w.ledger, ExpertCredit) - Total(w.ledger, Ledger.Payout) < Unsettled(w.files)
  {
    var credit, paidOut := Total(w.ledger, ExpertCredit), Total(w.ledger, Ledger.Payout);
    var unsettled := 0;
    for i := 0 to |w.files|
      invariant unsettled == Unsettled(w.files[..i])
    {
      assert w.files[..i + 1][..i] == w.files[..i];
      unsettled := unsettled + UnsettledIn(w.files[i].payouts);
    }
    assert w.files[..|w.files|] == w.files;
    found := credit - paidOut - unsettled < 0;
  }

  /** Reports exactly when some stored event failed. */
  method WebhookHealth(w: World) returns (failed: nat)
    ensures failed == |set id | id in w.hooks && w.hooks[id].status == HookFailed|
    ensures failed > 0 <==> exists id :: id in w.hooks && w.hooks[id].status == HookFailed
  {
    var ids := set id | id in w.hooks && w.hooks[id].status == HookFailed;
    failed := |ids|;
    if failed > 0 {
      var id :| id in ids;
    } else {
      assert ids == {};
      assert forall id :: id in w.hooks && w.hooks[id].status == HookFailed ==> id in ids;
    }
  }

  // --- in reachable states ----------------------------------------------------------------------

  lemma {:induction false} SucceededAreAll(rows: seq<RefundRow>)
    requires forall r <- rows :: r.status == RefundSucceeded
    ensures SucceededRefunds(rows) == RefundSum(rows)
  {
    if rows != [] {
      assert forall r <- rows[..|rows| - 1] :: r in rows;
      assert rows[|rows| - 1] in rows;
      SucceededAreAll(rows[..|rows| - 1]);
    }
  }

  lemma {:induction false} TalliedChargeExists(l: seq<Entry>, o: OrderId)
    requires Tally(Of(l, o), Charge) > 0
    ensures ChargedIn(l, o)
  {
    var front, e := l[..|l| - 1], l[|l| - 1];
    assert e in l && forall x <- front :: x in l;
    if e.kind == Charge && e.order == o {
    } else {
      TotalAppend(Of(front, o), e, Charge);
      assert Of(front, o) + [] == Of(front, o);
      TalliedChargeExists(front, o);
    }
  }

  /** What the checkers look for does not occur in a sound world. */
  lemma NothingToReport(w: World, o: OrderId)
    requires WorldSound(w)
    ensures HasEntries(w.ledger, o) ==> Balanced(w.ledger, o)
    ensures o < |w.files| ==> !RefundMismatch(w.files[o], Entries(w, o)) && !RefundStateWrong(w.files[o])
    ensures !Uncovered(w, o)
  {
    if o < |w.files| {
      assert OrderSound(w, o);
      var f := w.files[o];
      SucceededAreAll(f.refunds);
      if f.payment.Some? && f.payment.value.status == Succeeded {
        TalliedChargeExists(w.ledger, o);
      }
    } else {
      assert forall e <- w.ledger :: e.order < |w.files|;
    }
  }

  /** The report: the six checks in order. In a sound world - so after any run of the platform -
      the four about single orders come back empty. */
  method ReconciliationReport(w: World)
    returns (violations: seq<Violation>, parity: seq<Finding>, shortfall: bool, missing: seq<OrderId>,
             state: seq<Finding>, failedHooks: nat)
    ensures forall o :: Reported(violations, o) <==> HasEntries(w.ledger, o) && !Balanced(w.ledger, o)
    ensures shortfall <==> Total(w.ledger, ExpertCredit) - Total(w.ledger, Ledger.Payout) < Unsettled(w.files)
    ensures failedHooks > 0 <==> exists id :: id in w.hooks && w.hooks[id].status == HookFailed
    ensures WorldSound(w) ==> violations == [] && parity == [] && state == [] && missing == []
  {
    var checked;
    checked, violations := LedgerCheck(w.ledger);
    parity := RefundLedgerParity(w);
    shortfall := PayoutCreditParity(w);
    missing := PaymentLedgerCoverage(w);
    state := PaymentRefundState(w);
    failedHooks := WebhookHealth(w);
    if WorldSound(w) {
      forall o: OrderId
        ensures !Reported(violations, o) && !Found(parity, o)
        ensures !Found(state, o) && !Uncovered(w, o)
      {
        NothingToReport(w, o);
      }
      EmptyByOrders(violations, parity, state);
    }
  }

  lemma EmptyByOrders(violations: seq<Violation>, parity: seq<Finding>, state: seq<Finding>)
    requires forall o: OrderId :: !Reported(violations, o)
    requires forall o: OrderId :: !Found(parity, o) && !Found(state, o)
    ensures violations == [] && parity == [] && state == []
  {
    if violations != [] { assert Reported(violations, violations[0].order); }
    if parity != [] { assert Found(parity, parity[0].order); }
    if state != [] { assert Found(state, state[0].order); }
  }
}
