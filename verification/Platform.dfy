/** All orders over one ledger and one webhook table, and what holds over whole runs. */
module Platform {
  import opened Core
  import opened Ledger
  import opened Money
  import opened OrderFile
  import opened OrderSteps
  import opened OrderBooks
  import opened Timeline

  type EventId = nat

  /** The normalized content of a verified provider event. */
  datatype Content =
    | PaySucceeded(reference: Reference)
    | PayFailed(reference: Reference)
    | RefundDone(order: OrderId, k: nat)
    | Unhandled

  datatype HookStatus = Processed | HookFailed

  datatype Hook = Hook(content: Content, status: HookStatus)

  /** An order's primary key is its position in `files`. */
  datatype World = World(files: seq<File>, ledger: seq<Entry>, hooks: map<EventId, Hook>)

  const START := World([], [], map[])

  datatype Command =
    | Create(request: nat, student: UserId, expert: UserId, amount: int, currency: string, rate: int, now: Time)
    | On(order: OrderId, op: Op)
    | Ingest(event: EventId, content: Content, accepted: bool, at: Time)
    | Redeliver(event: EventId, accepted: bool, at: Time)

  /** The ledger entries of order o. */
  function Entries(w: World, o: OrderId): seq<Entry> { Of(w.ledger, o) }

  function Committed(w: World, o: OrderId, s: Step): World
    requires o < |w.files|
  {
    w.(files := w.files[o := s.file], ledger := w.ledger + s.posted)
  }

  function OrderStep(w: World, o: OrderId, op: Op): Step
    requires o < |w.files|
  {
    Apply(w.files[o], Entries(w, o), op)
  }

  /** `Payment.objects.filter(provider_reference=...)`. */
  predicate Matches(w: World, r: Reference) {
    r.order < |w.files| && w.files[r.order].payment.Some? && w.files[r.order].payment.value.reference == r
  }

  /** The order operation a handler runs, if its event concerns a known row. */
  function HandlerOp(w: World, c: Content, accepted: bool, now: Time): Option<(OrderId, Op)> {
    match c
    case PaySucceeded(r) => if Matches(w, r) then Some((r.order, OpSucceededEvent(accepted, now))) else None
    case PayFailed(r) => if Matches(w, r) then Some((r.order, OpFailedEvent)) else None
    case RefundDone(o, k) => if o < |w.files| then Some((o, OpRefundEvent(k))) else None
    case Unhandled => None
  }

  /** A handler succeeds unless its payment is unknown, its type unhandled or its call refused. */
  function HandlerOutcome(w: World, c: Content, accepted: bool, now: Time): HookStatus {
    match HandlerOp(w, c, accepted, now)
    case Some((o, op)) =>
      if o < |w.files| && OrderStep(w, o, op).error.None? then Processed else HookFailed
    case None => if c.PaySucceeded? || c.Unhandled? then HookFailed else Processed
  }

  function Handled(w: World, c: Content, accepted: bool, now: Time): World {
    match HandlerOp(w, c, accepted, now)
    case Some((o, op)) => if o < |w.files| then Committed(w, o, OrderStep(w, o, op)) else w
    case None => w
  }

  /** Run the handler on content c; the stored row keeps the content it was first received with. */
  function Process(w: World, id: EventId, c: Content, accepted: bool, now: Time): World {
    var stored := if id in w.hooks then w.hooks[id].content else c;
    Handled(w, c, accepted, now).(hooks := w.hooks[id := Hook(stored, HandlerOutcome(w, c, accepted, now))])
  }

  function Exec(w: World, c: Command): World {
    match c
    case Create(request, student, expert, amount, currency, rate, now) =>
      if amount < MIN_OFFER_MINOR || student == expert || !(0 <= rate <= RATE_UNIT) then w
      else w.(files := w.files + [NewFile(|w.files|, request, student, expert, amount, currency, rate, now)])
    case On(o, op) => if o < |w.files| then Committed(w, o, OrderStep(w, o, op)) else w
    case Ingest(id, content, accepted, now) =>
      if id in w.hooks && w.hooks[id].status == Processed then w
      else Process(w, id, content, accepted, now)
    case Redeliver(id, accepted, now) =>
      if id !in w.hooks then w else Process(w, id, w.hooks[id].content, accepted, now)
  }

  function Run(w: World, cs: seq<Command>): World {
    if cs == [] then w else Exec(Run(w, cs[..|cs| - 1]), cs[|cs| - 1])
  }

  // --- the invariant over every run --------------------------------------------------------

  ghost predicate OrderSound(w: World, o: OrderId)
    requires o < |w.files|
  {
    && w.files[o].id == o
    && Sound(w.files[o], Entries(w, o))
    && Tells(w.files[o])
  }

  ghost predicate WorldSound(w: World) {
    && (forall o :: 0 <= o < |w.files| ==> OrderSound(w, o))
    && (forall e <- w.ledger :: e.order < |w.files|)
  }

  /** A call on one order leaves the entries of the others alone. */
  lemma CommittedEntries(w: World, o: OrderId, s: Step)
    requires o < |w.files| && forall e <- s.posted :: e.order == o
    ensures Entries(Committed(w, o, s), o) == Entries(w, o) + s.posted
    ensures forall p: OrderId :: p != o ==> Entries(Committed(w, o, s), p) == Entries(w, p)
  {
    OfConcat(w.ledger, s.posted, o);
    OfPosted(s.posted, o, o);
    forall p: OrderId | p != o ensures Entries(Committed(w, o, s), p) == Entries(w, p) {
      OfConcat(w.ledger, s.posted, p);
      OfPosted(s.posted, o, p);
      assert Of(w.ledger, p) + [] == Of(w.ledger, p);
    }
  }

  lemma OrderStepNamed(w: World, o: OrderId, op: Op)
    requires o < |w.files| && OrderSound(w, o)
    ensures forall e <- OrderStep(w, o, op).posted :: e.order == o
    ensures OrderStep(w, o, op).file.id == o
  {
    var f, l := w.files[o], Entries(w, o);
    StepSound(f, l, op);
    var s := Apply(f, l, op);
    var e := StepEffect(f, l, op);
    forall e <- s.posted ensures e.order == o {
      assert e in l + s.posted;
    }
  }

  lemma CommittedSound(w: World, o: OrderId, op: Op)
    requires WorldSound(w) && o < |w.files|
    ensures WorldSound(Committed(w, o, OrderStep(w, o, op)))
  {
    var s := OrderStep(w, o, op);
    var w' := Committed(w, o, s);
    assert OrderSound(w, o);
    OrderStepNamed(w, o, op);
    CommittedEntries(w, o, s);
    forall p | 0 <= p < |w'.files| ensures OrderSound(w', p) {
      assert OrderSound(w, p);
      if p == o {
        StepSound(w.files[o], Entries(w, o), op);
        StepTells(w.files[o], Entries(w, o), op);
      }
    }
  }

  lemma CreateSound(w: World, c: Command)
    requires WorldSound(w) && c.Create?
    ensures WorldSound(Exec(w, c))
  {
    var w' := Exec(w, c);
    if w' != w {
      NewFileSound(|w.files|, c.request, c.student, c.expert, c.amount, c.currency, c.rate, c.now);
      NewFileTells(|w.files|, c.request, c.student, c.expert, c.amount, c.currency, c.rate, c.now);
      NoEntries(w.ledger, |w.files|);
      forall p | 0 <= p < |w'.files| ensures OrderSound(w', p) {
        assert p < |w.files| ==> OrderSound(w, p);
      }
    }
  }

  lemma NoEntries(l: seq<Entry>, o: OrderId)
    requires forall e <- l :: e.order != o
    ensures Of(l, o) == []
  {
    OfMembers(l, o);
    if Of(l, o) != [] {
      assert Of(l, o)[0] in Of(l, o);
    }
  }

  lemma ExecSound(w: World, c: Command)
    requires WorldSound(w)
    ensures WorldSound(Exec(w, c))
  {
    match c
    case Create(_, _, _, _, _, _, _) => CreateSound(w, c);
    case On(o, op) => if o < |w.files| { CommittedSound(w, o, op); }
    case Ingest(id, content, accepted, now) =>
      if !(id in w.hooks && w.hooks[id].status == Processed) { ProcessSound(w, id, content, accepted, now); }
    case Redeliver(id, accepted, now) =>
      if id in w.hooks { ProcessSound(w, id, w.hooks[id].content, accepted, now); }
  }

  lemma ProcessSound(w: World, id: EventId, c: Content, accepted: bool, now: Time)
    requires WorldSound(w)
    ensures WorldSound(Process(w, id, c, accepted, now))
  {
    var h := HandlerOp(w, c, accepted, now);
    if h.Some? && h.value.0 < |w.files| {
      CommittedSound(w, h.value.0, h.value.1);
    }
    var w1, w2 := Handled(w, c, accepted, now), Process(w, id, c, accepted, now);
    assert w1.files == w2.files && w1.ledger == w2.ledger;
    forall o | 0 <= o < |w2.files| ensures OrderSound(w2, o) {
      assert OrderSound(w1, o);
    }
  }

  /** In every reachable state every order is sound: charged at most once, its ledger identity
      holds, refunds mirror their rows, its timeline replays to its status. */
  lemma {:induction false} RunSound(w: World, cs: seq<Command>)
    requires WorldSound(w)
    ensures WorldSound(Run(w, cs))
  {
    if cs != [] {
      RunSound(w, cs[..|cs| - 1]);
      ExecSound(Run(w, cs[..|cs| - 1]), cs[|cs| - 1]);
    }
  }

  lemma ReachableSound(cs: seq<Command>)
    ensures WorldSound(Run(START, cs))
  {
    RunSound(START, cs);
  }
}
