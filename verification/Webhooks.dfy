/** Webhook confluence: however payment events are repeated, reordered and interleaved with
    the rest of the platform, an order waiting for payment ends up confirmed once or not at all. */
module Webhooks {
  import opened Core
  import opened Ledger
  import opened OrderFile
  import opened OrderSteps
  import opened OrderInvariant
  import opened Platform
  import opened Runs

  /** The order waits for payment and its current attempt can still be confirmed. */
  predicate Waiting(f: File, r: Reference) {
    && f.order.status == AwaitingPayment
    && f.payment.Some? && f.payment.value.reference == r
    && f.payment.value.status in {Pending, Failed}
  }

  /** The rows after confirmation at time t. */
  function ConfirmedAt(f: File, t: Time): File
    requires f.payment.Some?
  {
    f.(payment := Some(f.payment.value.(status := Succeeded, paidAt := Some(t))),
       order := f.order.(status := Active, paidAt := Some(t)),
       events := f.events + [PaymentConfirmed, PaymentConfirmed])
  }

  /** Everything of f but the outcome of its open payment attempt. */
  predicate SameButAttempt(f: File, g: File) {
    && f.payment.Some? && g.payment.Some?
    && g == f.(payment := Some(f.payment.value.(status := g.payment.value.status)))
  }

  /** Any traffic except service calls on order o. */
  predicate Admissible(c: Command, o: OrderId) { c.On? ==> c.order != o }

  /** The provider never reuses an event id for different content. */
  predicate IdsDetermineContent(cs: seq<Command>) {
    forall c, d :: c in cs && d in cs && c.Ingest? && d.Ingest? && c.event == d.event ==> c.content == d.content
  }

  predicate AlreadyProcessed(w: World, id: EventId) { id in w.hooks && w.hooks[id].status == Processed }

  /** The command runs a handler: a first delivery or a repetition after a failure on the content it
      brings, a redelivery by an administrator on the stored content whatever became of it. */
  function Delivered(w: World, c: Command): Option<Content> {
    match c
    case Ingest(id, content, _, _) => if AlreadyProcessed(w, id) then None else Some(content)
    case Redeliver(id, _, _) => if id in w.hooks then Some(w.hooks[id].content) else None
    case _ => None
  }

  /** What it delivers is the success of reference r, and the gateway confirms it. */
  predicate DeliversSuccess(w: World, c: Command, r: Reference) {
    Delivered(w, c) == Some(PaySucceeded(r)) && c.accepted
  }

  /** Some command of the run does. */
  predicate SomeDeliver(w: World, cs: seq<Command>, r: Reference) {
    cs != []
    && (SomeDeliver(w, cs[..|cs| - 1], r) || DeliversSuccess(Run(w, cs[..|cs| - 1]), cs[|cs| - 1], r))
  }

  /** A success event for reference r, not processed before the run, that the gateway confirms. */
  predicate Confirms(w: World, c: Command, r: Reference) {
    c.Ingest? && c.content == PaySucceeded(r) && c.accepted && !AlreadyProcessed(w, c.event)
  }

  ghost predicate SomeConfirms(w: World, cs: seq<Command>, r: Reference) {
    exists c :: c in cs && Confirms(w, c, r)
  }

  // --- the two handlers on a waiting order -------------------------------------------------------

  lemma SuccessOnWaiting(f: File, r: Reference, accepted: bool, now: Time)
    requires Rows(f) && Waiting(f, r)
    ensures var s := PaymentSucceededEvent(f, accepted, now);
            if accepted then s == Step(ConfirmedAt(f, now), ChargeEntries(f, f.order.amount), None)
            else s.posted == [] && s.error.Some? && Waiting(s.file, r) && SameButAttempt(f, s.file)
  {
    var e := f.events;
    assert e + [PaymentConfirmed] + [PaymentConfirmed] == e + [PaymentConfirmed, PaymentConfirmed];
  }

  lemma FailureOnWaiting(f: File, r: Reference)
    requires Waiting(f, r)
    ensures var s := PaymentFailedEvent(f);
            s.posted == [] && Waiting(s.file, r) && SameButAttempt(f, s.file)
  {
  }

  // --- one command -------------------------------------------------------------------------------------

  lemma HookOf(w: World, c: Command)
    requires c.Ingest? && !AlreadyProcessed(w, c.event)
    ensures AlreadyProcessed(Exec(w, c), c.event)
            <==> HandlerOutcome(w, c.content, c.accepted, c.at) == Processed
  {
  }

  /** Commands leave the hooks of other events alone. */
  lemma OtherHooks(w: World, c: Command, id: EventId)
    requires !c.Redeliver? && (c.Ingest? ==> c.event != id)
    ensures AlreadyProcessed(Exec(w, c), id) <==> AlreadyProcessed(w, id)
  {
  }

  /** A delivery is one call of its handler on the order it is about, or nothing. */
  lemma DeliveredOnOrder(w: World, c: Command, o: OrderId) returns (op: Option<Op>)
    requires WorldSound(w) && o < |w.files| && Delivered(w, c).Some?
    ensures var h := HandlerOp(w, Delivered(w, c).value, c.accepted, c.at);
            op == if h.Some? && h.value.0 == o then Some(h.value.1) else None
    ensures var w' := Exec(w, c);
            && o < |w'.files|
            && w'.files[o] == (if op.Some? then OrderStep(w, o, op.value).file else w.files[o])
            && Entries(w', o) == Entries(w, o) + (if op.Some? then OrderStep(w, o, op.value).posted else [])
  {
    var k := Delivered(w, c).value;
    assert Exec(w, c).files == Handled(w, k, c.accepted, c.at).files;
    assert Exec(w, c).ledger == Handled(w, k, c.accepted, c.at).ledger;
    var h := HandlerOp(w, k, c.accepted, c.at);
    op := None;
    assert Entries(w, o) + [] == Entries(w, o);
    if h.Some? && h.value.0 < |w.files| {
      op := CommittedOnOrder(w, h.value.0, h.value.1, o);
    }
  }

  /** The handlers about reference r, and about others, on the waiting order. */
  lemma HandlerOnWaiting(w: World, k: Content, accepted: bool, now: Time, o: OrderId, r: Reference)
    requires WorldSound(w) && o < |w.files| && Waiting(w.files[o], r)
    ensures var h := HandlerOp(w, k, accepted, now);
            && (k == PaySucceeded(r) ==> h == Some((o, OpSucceededEvent(accepted, now))))
            && (h.Some? && h.value.0 == o ==>
                  || (h.value.1 == OpSucceededEvent(accepted, now) && k == PaySucceeded(r))
                  || h.value.1 == OpFailedEvent || h.value.1.OpRefundEvent?)
  {
    assert OrderSound(w, o);
  }

  /** What a delivery does to the waiting order. */
  lemma DeliveryOnOrder(w: World, c: Command, o: OrderId, r: Reference)
    requires WorldSound(w) && o < |w.files| && Waiting(w.files[o], r) && Delivered(w, c).Some?
    ensures var w' := Exec(w, c);
            && o < |w'.files|
            && if DeliversSuccess(w, c, r) then
                 w'.files[o] == ConfirmedAt(w.files[o], c.at)
                 && Entries(w', o) == Entries(w, o) + ChargeEntries(w.files[o], w.files[o].order.amount)
               else
                 Waiting(w'.files[o], r) && SameButAttempt(w.files[o], w'.files[o])
                 && Entries(w', o) == Entries(w, o)
    ensures Delivered(w, c) == Some(PaySucceeded(r)) && !c.accepted ==>
              HandlerOutcome(w, PaySucceeded(r), c.accepted, c.at) == HookFailed
  {
    assert OrderSound(w, o);
    var f, l := w.files[o], Entries(w, o);
    var op := DeliveredOnOrder(w, c, o);
    HandlerOnWaiting(w, Delivered(w, c).value, c.accepted, c.at, o, r);
    assert l + [] == l;
    if op.Some? {
      match op.value
      case OpSucceededEvent(_, _) => SuccessOnWaiting(f, r, c.accepted, c.at);
      case OpFailedEvent => FailureOnWaiting(f, r);
      case OpRefundEvent(k) => EventRows(f, k);
    }
  }

  /** A command that does not confirm leaves the order waiting and posts nothing for it. */
  lemma StillWaiting(w: World, c: Command, o: OrderId, r: Reference)
    requires WorldSound(w) && o < |w.files| && Waiting(w.files[o], r)
    requires Admissible(c, o) && !DeliversSuccess(w, c, r)
    ensures var w' := Exec(w, c);
            && o < |w'.files| && Waiting(w'.files[o], r) && SameButAttempt(w.files[o], w'.files[o])
            && Entries(w', o) == Entries(w, o)
    ensures c.Ingest? && c.content == PaySucceeded(r) ==>
              (AlreadyProcessed(Exec(w, c), c.event) <==> AlreadyProcessed(w, c.event))
  {
    if Delivered(w, c).Some? {
      if c.Ingest? { HookOf(w, c); }
      DeliveryOnOrder(w, c, o, r);
    } else {
      UntouchedOrder(w, c, o);
    }
  }

  lemma UntouchedOrder(w: World, c: Command, o: OrderId)
    requires WorldSound(w) && o < |w.files| && Admissible(c, o) && Delivered(w, c).None?
    ensures var w' := Exec(w, c);
            o < |w'.files| && w'.files[o] == w.files[o] && Entries(w', o) == Entries(w, o)
  {
    if c.On? && c.order < |w.files| {
      var op := CommittedOnOrder(w, c.order, c.op, o);
      assert Entries(w, o) + [] == Entries(w, o);
    }
  }

  /** Once confirmed, further traffic - redeliveries included - changes nothing about the order. */
  lemma StaysConfirmed(w: World, c: Command, o: OrderId, r: Reference)
    requires WorldSound(w) && o < |w.files| && Admissible(c, o)
    requires var f := w.files[o];
             f.payment.Some? && f.payment.value.reference == r && f.payment.value.status == Succeeded
    ensures var w' := Exec(w, c);
            o < |w'.files| && w'.files[o] == w.files[o] && Entries(w', o) == Entries(w, o)
  {
    assert OrderSound(w, o);
    if Delivered(w, c).Some? {
      var op := DeliveredOnOrder(w, c, o);
      assert Entries(w, o) + [] == Entries(w, o);
      if op.Some? {
        HandlerOnConfirmed(w.files[o], Entries(w, o), op.value);
      }
    } else {
      UntouchedOrder(w, c, o);
    }
  }

  lemma HandlerOnConfirmed(f: File, l: seq<Entry>, op: Op)
    requires Rows(f) && f.payment.Some? && f.payment.value.status == Succeeded
    requires op.OpSucceededEvent? || op.OpFailedEvent? || op.OpRefundEvent?
    ensures Apply(f, l, op).file == f && Apply(f, l, op).posted == []
  {
    if op.OpRefundEvent? { EventRows(f, op.k); }
  }

  // --- whole runs -----------------------------------------------------------------------------------------

  ghost predicate EndsConfirmed(w: World, w': World, o: OrderId)
    requires o < |w.files| && w.files[o].payment.Some?
  {
    && o < |w'.files|
    && (exists t: Time :: w'.files[o] == ConfirmedAt(w.files[o], t))
    && Entries(w', o) == Entries(w, o) + ChargeEntries(w.files[o], w.files[o].order.amount)
  }

  ghost predicate EndsWaiting(w: World, w': World, o: OrderId, r: Reference)
    requires o < |w.files|
  {
    && o < |w'.files|
    && Waiting(w'.files[o], r) && SameButAttempt(w.files[o], w'.files[o])
    && Entries(w', o) == Entries(w, o)
  }

  /** While the order waits, no success event has been processed that was not so before. */
  ghost predicate NoNewSuccess(w: World, w': World, cs: seq<Command>, r: Reference) {
    forall c :: c in cs && c.Ingest? && c.content == PaySucceeded(r) ==>
                  (AlreadyProcessed(w', c.event) <==> AlreadyProcessed(w, c.event))
  }

  /** However deliveries and redeliveries are repeated, reordered and mixed with other traffic, the
      order ends confirmed - once, with the same rows and the same three entries - exactly when one
      of them delivers a success of its reference that the gateway confirms. */
  lemma {:induction false} AnyTraffic(w: World, cs: seq<Command>, o: OrderId, r: Reference)
    requires WorldSound(w) && o < |w.files| && Waiting(w.files[o], r)
    requires forall c <- cs :: Admissible(c, o)
    ensures SomeDeliver(w, cs, r) ==> EndsConfirmed(w, Run(w, cs), o)
    ensures !SomeDeliver(w, cs, r) ==> EndsWaiting(w, Run(w, cs), o, r)
  {
    if cs != [] {
      var front, c := cs[..|cs| - 1], cs[|cs| - 1];
      assert c in cs && forall d <- front :: d in cs;
      AnyTraffic(w, front, o, r);
      var mid := Run(w, front);
      RunSound(w, front);
      if SomeDeliver(w, front, r) {
        StaysConfirmed(mid, c, o, r);
      } else if DeliversSuccess(mid, c, r) {
        LastConfirms(w, mid, c, o, r);
      } else {
        StillWaiting(mid, c, o, r);
      }
    }
  }

  lemma LastConfirms(w: World, mid: World, c: Command, o: OrderId, r: Reference)
    requires WorldSound(mid) && o < |w.files| && EndsWaiting(w, mid, o, r)
    requires DeliversSuccess(mid, c, r) && w.files[o].payment.Some?
    ensures EndsConfirmed(w, Exec(mid, c), o)
  {
    DeliveryOnOrder(mid, c, o, r);
    var f, g := w.files[o], mid.files[o];
    assert ConfirmedAt(g, c.at) == ConfirmedAt(f, c.at);
    assert ChargeEntries(g, g.order.amount) == ChargeEntries(f, f.order.amount);
  }

  /** Without redeliveries, and if event ids determine content, that is said of the events alone,
      whatever their order: one of them is a confirmed success not processed before the run. */
  lemma {:induction false} Confluence(w: World, cs: seq<Command>, o: OrderId, r: Reference)
    requires WorldSound(w) && o < |w.files| && Waiting(w.files[o], r)
    requires forall c <- cs :: Admissible(c, o) && !c.Redeliver?
    requires IdsDetermineContent(cs)
    ensures SomeConfirms(w, cs, r) ==> EndsConfirmed(w, Run(w, cs), o)
    ensures !SomeConfirms(w, cs, r) ==> EndsWaiting(w, Run(w, cs), o, r)
  {
    AnyTraffic(w, cs, o, r);
    DeliversExactly(w, cs, cs, o, r);
  }

  /** While the order waits, a delivery of its success is one of an event not processed before the run. */
  lemma SuccessIsNew(w: World, mid: World, c: Command, all: seq<Command>, r: Reference)
    requires c in all && !c.Redeliver? && NoNewSuccess(w, mid, all, r)
    ensures DeliversSuccess(mid, c, r) <==> Confirms(w, c, r)
  {
  }

  lemma ConfirmsAppend(w: World, cs: seq<Command>, c: Command, r: Reference)
    ensures SomeConfirms(w, cs + [c], r) <==> SomeConfirms(w, cs, r) || Confirms(w, c, r)
  {
    var all := cs + [c];
    if SomeConfirms(w, cs, r) {
      var d :| d in cs && Confirms(w, d, r);
      assert d in all;
    }
    assert c in all;
  }

  lemma {:induction false} DeliversExactly(w: World, cs: seq<Command>, all: seq<Command>, o: OrderId, r: Reference)
    requires WorldSound(w) && o < |w.files| && Waiting(w.files[o], r)
    requires forall c <- all :: Admissible(c, o) && !c.Redeliver?
    requires IdsDetermineContent(all) && forall c <- cs :: c in all
    ensures SomeDeliver(w, cs, r) <==> SomeConfirms(w, cs, r)
    ensures !SomeDeliver(w, cs, r) ==> NoNewSuccess(w, Run(w, cs), all, r)
    decreases |cs|
  {
    if cs != [] {
      var front, c := cs[..|cs| - 1], cs[|cs| - 1];
      assert cs == front + [c];
      DeliversExactly(w, front, all, o, r);
      ConfirmsAppend(w, front, c, r);
      if !SomeDeliver(w, front, r) {
        SuccessIsNew(w, Run(w, front), c, all, r);
        if !DeliversSuccess(Run(w, front), c, r) {
          AnyTraffic(w, front, o, r);
          RunSound(w, front);
          LastWaits(w, Run(w, front), c, all, o, r);
        }
      }
    }
  }

  lemma LastWaits(w: World, mid: World, c: Command, all: seq<Command>, o: OrderId, r: Reference)
    requires WorldSound(mid) && o < |w.files| && EndsWaiting(w, mid, o, r) && NoNewSuccess(w, mid, all, r)
    requires c in all && Admissible(c, o) && !c.Redeliver? && IdsDetermineContent(all) && !DeliversSuccess(mid, c, r)
    ensures NoNewSuccess(w, Exec(mid, c), all, r)
  {
    StillWaiting(mid, c, o, r);
    forall d | d in all && d.Ingest? && d.content == PaySucceeded(r)
      ensures AlreadyProcessed(Exec(mid, c), d.event) <==> AlreadyProcessed(w, d.event)
    {
      if !(c.Ingest? && c.event == d.event) {
        OtherHooks(mid, c, d.event);
      }
    }
  }
}
