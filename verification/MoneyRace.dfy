/** Concurrent confirmation, refund, settlement, delivery, revision, dispute and resolution of one
    order, with every row lock a step of its own. All but the resolution re-read a row when they
    lock it and write back only what they have locked. A resolution takes the dispute as it was
    before it locked anything and its amount from a payment it has not locked yet. Every schedule is
    sound exactly as long as no no-fault close misplaces the order, and a serial run of the atomic
    services exactly as long as resolutions commit on a dispute still under review and leave
    something of the payment when they are partial. */
module MoneyRace {
  import opened Core
  import opened Ledger
  import opened OrderFile
  import opened OrderSteps
  import opened OrderInvariant
  import opened OrderBooks
  import opened Resolutions

  datatype Job =
    | Confirming(now: Time)
    | MarkingFailed
    | Refunding(staff: Option<Actor>, amount: int, reasonKnown: bool)
    | Settling(k: nat, staff: Option<Actor>)
    | Submitting(expert: Actor, length: nat, attachmentsOwned: bool, now: Time)
    | Revising(student: Actor, length: nat)
    | Disputing(actor: Actor, reasonKnown: bool, length: nat, evidenceOwned: bool, windowDays: nat, now: Time)
    | Resolving(staff: Option<Actor>, outcome: Outcome, length: nat, requested: Option<int>)

  /** PaymentRead is a read without a lock. */
  datatype RowKind = OrderLock | PaymentRead | PaymentLock | PayoutLock

  /** The rows a job locks, in its own order. Settlement takes the payout before the order, so
      deadlocks with other orders of locking are possible; the database aborts a victim. A
      resolution that only corrects the payout does not lock it before it writes it, but settlement
      cannot commit without the order, which the resolution holds by then. */
  function LockOrder(j: Job): seq<RowKind> {
    match j
    case Confirming(_) => [OrderLock, PaymentLock]
    case MarkingFailed => [PaymentLock]
    case Refunding(_, _, _) => [PaymentLock]
    case Settling(_, _) => [PayoutLock, OrderLock]
    case Submitting(_, _, _, _) => [OrderLock]
    case Revising(_, _) => [OrderLock]
    case Disputing(_, _, _, _, _, _) => [OrderLock]
    case Resolving(_, outcome, _, _) =>
      if Refunds(outcome) then [OrderLock, PaymentRead, PaymentLock, PayoutLock] else [OrderLock]
  }

  datatype Phase = Running | Finished | Rolled

  /** `seen` is what the transaction has read: stale rows until they are locked, and in a
      resolution the dispute for good. `read` is the payment a resolution fixes its amount on. */
  datatype Proc = Proc(job: Job, locked: nat, seen: File, read: Option<Payment>, phase: Phase)

  /** The committed rows of the order and its ledger entries. */
  datatype Store = Store(file: File, entries: seq<Entry>)

  datatype Race = Race(store: Store, procs: seq<Proc>)

  datatype Event = Lock(p: nat) | Commit(p: nat) | Abort(p: nat)

  // --- rows ------------------------------------------------------------------------------

  /** f with row r - and what is only written under its lock - taken from g. */
  function WithRow(f: File, g: File, r: RowKind): File {
    match r
    case OrderLock => f.(order := g.order, dispute := g.dispute, deliveries := g.deliveries, events := g.events)
    case PaymentRead => f
    case PaymentLock => f.(payment := g.payment, attempts := g.attempts, refunds := g.refunds)
    case PayoutLock => f.(payouts := g.payouts)
  }

  predicate SameRow(f: File, g: File, r: RowKind) { WithRow(f, g, r) == f }

  function WithRows(f: File, g: File, rows: seq<RowKind>): File {
    if rows == [] then f else WithRow(WithRows(f, g, rows[..|rows| - 1]), g, rows[|rows| - 1])
  }

  predicate Holds(x: Proc, r: RowKind) {
    r != PaymentRead && x.phase.Running? && x.locked <= |LockOrder(x.job)| && r in LockOrder(x.job)[..x.locked]
  }

  // --- jobs --------------------------------------------------------------------------------

  function AtomicOp(j: Job): Op {
    match j
    case Confirming(now) => OpConfirm(true, now)
    case MarkingFailed => OpFailedEvent
    case Refunding(staff, amount, known) => OpRefund(staff, amount, known)
    case Settling(k, staff) => OpSettle(k, staff)
    case Submitting(expert, length, owned, now) => OpSubmit(expert, length, owned, now)
    case Revising(student, length) => OpRevise(student, length)
    case Disputing(actor, known, length, owned, days, now) => OpDispute(actor, known, length, owned, days, now)
    case Resolving(staff, outcome, length, requested) => OpResolve(staff, outcome, length, requested)
  }

  /** What the job computes from the rows it has read and the entries l. A rejected attempt is
      marked failed only while it is still open; a resolution sums the order's credit. */
  function Computed(x: Proc, l: seq<Entry>): Step {
    match x.job
    case MarkingFailed =>
      if x.seen.payment.Some? && OpenAttempt(x.seen.payment.value.status) then PaymentFailedEvent(x.seen)
      else Done(x.seen)
    case Resolving(staff, outcome, length, requested) =>
      ResolveRead(x.seen, if Refunds(outcome) then x.read else x.seen.payment, l, staff, outcome, length, requested)
    case _ => Apply(x.seen, l, AtomicOp(x.job))
  }

  // --- steps -------------------------------------------------------------------------------

  predicate Enabled(s: Race, e: Event) {
    && e.p < |s.procs| && s.procs[e.p].phase.Running?
    && match e
       case Lock(p) =>
         && s.procs[p].locked < |LockOrder(s.procs[p].job)|
         && forall q :: 0 <= q < |s.procs| ==> !Holds(s.procs[q], LockOrder(s.procs[p].job)[s.procs[p].locked])
       case Commit(p) => s.procs[p].locked == |LockOrder(s.procs[p].job)|
       case Abort(p) => true
  }

  /** The proc once row r is locked, or only read: a resolution keeps the dispute it has. */
  function Locked(x: Proc, f: File, r: RowKind): Proc {
    var now := WithRow(x.seen, f, r);
    x.(locked := x.locked + 1,
       seen := if x.job.Resolving? then AsRead(now, x.seen.dispute) else now,
       read := if r == PaymentRead then f.payment else x.read)
  }

  /** What a commit leaves; a refused call is rolled back. */
  function Written(c: Store, x: Proc): Store {
    var step := Computed(x, c.entries);
    if step.error.Some? then c
    else Store(WithRows(c.file, step.file, LockOrder(x.job)), c.entries + step.posted)
  }

  function Next(s: Race, e: Event): Race {
    if !Enabled(s, e) then s
    else
      var x := s.procs[e.p];
      match e
      case Lock(p) => s.(procs := s.procs[p := Locked(x, s.store.file, LockOrder(x.job)[x.locked])])
      case Commit(p) => Race(Written(s.store, x), s.procs[p := x.(phase := Finished)])
      case Abort(p) => s.(procs := s.procs[p := x.(phase := Rolled)])
  }

  function Run(s: Race, es: seq<Event>): Race {
    if es == [] then s else Next(Run(s, es[..|es| - 1]), es[|es| - 1])
  }

  // --- what a transaction has locked is as it read it ---------------------------------------

  /** What was read, with the dispute of a resolution as it is now. */
  function Refreshed(x: Proc, f: File): File { if x.job.Resolving? then AsRead(x.seen, f.dispute) else x.seen }

  ghost predicate Faithful(f: File, x: Proc) {
    && x.locked <= |LockOrder(x.job)|
    && x.seen.id == f.id && SameTerms(f.order, x.seen.order)
    && (x.job.Resolving? ==> PastDispute(x.seen.dispute, f))
    && PastPayment(x.read, f)
    && (x.phase.Running? ==> forall i :: 0 <= i < x.locked ==> SameRow(Refreshed(x, f), f, LockOrder(x.job)[i]))
  }

  ghost predicate Exclusive(s: Race) {
    forall p, q, r: RowKind :: 0 <= p < q < |s.procs| && Holds(s.procs[p], r) ==> !Holds(s.procs[q], r)
  }

  ghost predicate RaceInv(s: Race) {
    && Sound(s.store.file, s.store.entries)
    && Exclusive(s)
    && forall p :: 0 <= p < |s.procs| ==> Faithful(s.store.file, s.procs[p])
  }

  // --- a commit is the atomic service --------------------------------------------------------

  lemma TwoRows(f: File, g: File, r: RowKind, t: RowKind)
    ensures WithRows(f, g, [r, t]) == WithRow(WithRow(f, g, r), g, t)
    ensures WithRows(f, g, [r]) == WithRow(f, g, r)
  {
    assert [r][..0] == [] && [r, t][..1] == [r];
    assert WithRows(f, g, [r]) == WithRow(WithRows(f, g, []), g, r);
    assert WithRows(f, g, [r, t]) == WithRow(WithRows(f, g, [r]), g, t);
  }

  lemma RefundLocal(f: File, seen: File, staff: Option<Actor>, amount: int, known: bool)
    requires seen.id == f.id && SameTerms(f.order, seen.order) && SameRow(seen, f, PaymentLock)
    ensures var a, b := IssueRefund(seen, staff, amount, known), IssueRefund(f, staff, amount, known);
            a.error == b.error && a.posted == b.posted && WithRow(f, a.file, PaymentLock) == b.file
  {
  }

  lemma SettleLocal(f: File, seen: File, k: nat, staff: Option<Actor>)
    requires seen.id == f.id && SameRow(seen, f, PayoutLock) && SameRow(seen, f, OrderLock)
    ensures var a, b := SettlePayout(seen, k, staff), SettlePayout(f, k, staff);
            && a.error == b.error && a.posted == b.posted
            && WithRow(WithRow(f, a.file, PayoutLock), a.file, OrderLock) == b.file
  {
  }

  lemma ConfirmLocal(f: File, seen: File, now: Time)
    requires seen.id == f.id && SameRow(seen, f, OrderLock) && SameRow(seen, f, PaymentLock)
    ensures var a, b := ConfirmPayment(seen, true, now), ConfirmPayment(f, true, now);
            && a.error == b.error && a.posted == b.posted
            && WithRow(WithRow(f, a.file, OrderLock), a.file, PaymentLock) == b.file
  {
  }

  lemma SubmitLocal(f: File, seen: File, expert: Actor, length: nat, owned: bool, now: Time)
    requires seen.id == f.id && SameRow(seen, f, OrderLock)
    ensures var a, b := SubmitDelivery(seen, expert, length, owned, now), SubmitDelivery(f, expert, length, owned, now);
            && a.error == b.error && a.posted == b.posted && (b.error.Some? ==> b.file == f && b.posted == [])
            && (b.error.None? ==> WithRow(f, a.file, OrderLock) == b.file)
  {
  }

  lemma ReviseLocal(f: File, seen: File, student: Actor, length: nat)
    requires seen.id == f.id && SameRow(seen, f, OrderLock)
    ensures var a, b := RequestRevision(seen, student, length), RequestRevision(f, student, length);
            && a.error == b.error && a.posted == b.posted && (b.error.Some? ==> b.file == f && b.posted == [])
            && (b.error.None? ==> WithRow(f, a.file, OrderLock) == b.file)
  {
  }

  lemma DisputeLocal(f: File, seen: File, j: Job)
    requires j.Disputing? && seen.id == f.id && SameRow(seen, f, OrderLock)
    ensures var a, b := Apply(seen, [], AtomicOp(j)), Apply(f, [], AtomicOp(j));
            && a.error == b.error && a.posted == b.posted && (b.error.Some? ==> b.file == f && b.posted == [])
            && (b.error.None? ==> WithRow(f, a.file, OrderLock) == b.file)
  {
  }

  /** The calls a commit amounts to. */
  function Committed(c: Store, x: Proc): seq<Op> {
    match x.job
    case MarkingFailed =>
      if c.file.payment.Some? && OpenAttempt(c.file.payment.value.status) then [OpFailedEvent] else []
    case Resolving(_, _, _, _) => if Computed(x, c.entries).error.Some? then [] else [AtomicOp(x.job)]
    case _ => [AtomicOp(x.job)]
  }

  function ReplayOn(c: Store, ops: seq<Op>): Store {
    if ops == [] then c
    else
      var d := ReplayOn(c, ops[..|ops| - 1]);
      var s := Apply(d.file, d.entries, ops[|ops| - 1]);
      Store(s.file, d.entries + s.posted)
  }

  lemma ReplayOne(c: Store, ops: seq<Op>, op: Op)
    ensures ReplayOn(c, ops + [op])
            == var d := ReplayOn(c, ops); var s := Apply(d.file, d.entries, op); Store(s.file, d.entries + s.posted)
  {
    assert (ops + [op])[..|ops|] == ops;
  }

  lemma ReplaySingle(c: Store, op: Op)
    ensures ReplayOn(c, [op]) == var s := Apply(c.file, c.entries, op); Store(s.file, c.entries + s.posted)
  {
    assert [op][..0] == [];
  }

  /** These services do not read the ledger; a resolution does. */
  lemma LedgerBlind(f: File, l: seq<Entry>, j: Job)
    requires !j.Resolving?
    ensures Apply(f, l, AtomicOp(j)) == Apply(f, [], AtomicOp(j))
  {
  }

  lemma RefusalRestores(f: File, j: Job)
    requires j.Confirming? || j.Refunding? || j.Settling?
    ensures var s := Apply(f, [], AtomicOp(j)); s.error.Some? ==> s.file == f && s.posted == []
  {
  }

  lemma MarkFailedLocal(f: File, x: Proc, l: seq<Entry>)
    requires x.job.MarkingFailed? && SameRow(x.seen, f, PaymentLock)
    ensures Computed(x, l).posted == [] && Computed(x, l).error.None?
    ensures Apply(f, l, OpFailedEvent).posted == []
    ensures WithRow(f, Computed(x, l).file, PaymentLock)
            == if f.payment.Some? && OpenAttempt(f.payment.value.status) then Apply(f, l, OpFailedEvent).file else f
  {
  }

  /** A service that re-reads what it locks does what the atomic one does. */
  lemma CommitIsAtomic(c: Store, x: Proc)
    requires Faithful(c.file, x) && x.phase.Running? && x.locked == |LockOrder(x.job)| && !x.job.Resolving?
    ensures Written(c, x) == ReplayOn(c, Committed(c, x))
  {
    var rows, l := LockOrder(x.job), c.entries;
    assert SameRow(Refreshed(x, c.file), c.file, rows[0]);
    TwoRows(c.file, Computed(x, l).file, rows[0], rows[|rows| - 1]);
    assert l + [] == l;
    if x.job.MarkingFailed? {
      MarkFailedLocal(c.file, x, l);
      ReplaySingle(c, OpFailedEvent);
    } else {
      ReplaySingle(c, AtomicOp(x.job));
      LedgerBlind(c.file, l, x.job);
      LedgerBlind(x.seen, l, x.job);
      ServiceCommit(c, x);
    }
  }

  lemma ServiceCommit(c: Store, x: Proc)
    requires Faithful(c.file, x) && x.phase.Running? && x.locked == |LockOrder(x.job)|
    requires !x.job.Resolving? && !x.job.MarkingFailed?
    requires var rows, g := LockOrder(x.job), Computed(x, c.entries).file;
             WithRows(c.file, g, rows)
             == if |rows| == 1 then WithRow(c.file, g, rows[0]) else WithRow(WithRow(c.file, g, rows[0]), g, rows[1])
    requires Apply(c.file, c.entries, AtomicOp(x.job)) == Apply(c.file, [], AtomicOp(x.job))
    requires Apply(x.seen, c.entries, AtomicOp(x.job)) == Apply(x.seen, [], AtomicOp(x.job))
    ensures var s := Apply(c.file, c.entries, AtomicOp(x.job));
            Written(c, x) == Store(s.file, c.entries + s.posted)
  {
    var rows := LockOrder(x.job);
    assert SameRow(Refreshed(x, c.file), c.file, rows[0]);
    assert c.entries + [] == c.entries;
    match x.job
    case Confirming(now) =>
      assert SameRow(Refreshed(x, c.file), c.file, rows[1]);
      ConfirmLocal(c.file, x.seen, now);
      RefusalRestores(c.file, x.job);
    case Refunding(staff, amount, known) =>
      RefundLocal(c.file, x.seen, staff, amount, known);
      RefusalRestores(c.file, x.job);
    case Settling(k, staff) =>
      assert SameRow(Refreshed(x, c.file), c.file, rows[1]);
      SettleLocal(c.file, x.seen, k, staff);
      RefusalRestores(c.file, x.job);
    case Submitting(expert, length, owned, now) => SubmitLocal(c.file, x.seen, expert, length, owned, now);
    case Revising(student, length) => ReviseLocal(c.file, x.seen, student, length);
    case Disputing(_, _, _, _, _, _) => DisputeLocal(c.file, x.seen, x.job);
  }

  // --- what a resolution commits ------------------------------------------------------------------

  /** The resolution on the rows as they are, with the dispute and the payment it has read. */
  function Resolved(c: Store, x: Proc): Step
    requires x.job.Resolving?
  {
    ResolveRead(AsRead(c.file, x.seen.dispute), if Refunds(x.job.outcome) then x.read else c.file.payment, c.entries,
                x.job.staff, x.job.outcome, x.job.length, x.job.requested)
  }

  /** Without a refund only the order and the dispute matter. */
  lemma ConcludeLocal(f: File, seen: File, d: Option<Dispute>, l: seq<Entry>, staff: Option<Actor>, outcome: Outcome,
                      length: nat, requested: Option<int>)
    requires !Refunds(outcome) && seen.id == f.id && SameRow(AsRead(seen, f.dispute), f, OrderLock) && seen.dispute == d
    ensures var a := ResolveRead(seen, seen.payment, l, staff, outcome, length, requested);
            var b := ResolveRead(AsRead(f, d), f.payment, l, staff, outcome, length, requested);
            && a.error == b.error && a.posted == b.posted
            && (b.error.None? ==> WithRow(f, a.file, OrderLock) == b.file)
  {
  }

  lemma AllRows(f: File, g: File)
    requires f.id == g.id
    ensures WithRows(f, g, [OrderLock, PaymentRead, PaymentLock, PayoutLock]) == g
  {
    var rows := [OrderLock, PaymentRead, PaymentLock, PayoutLock];
    assert rows[..3][..2] == [OrderLock, PaymentRead] && rows[..3] == [OrderLock, PaymentRead, PaymentLock];
    TwoRows(f, g, OrderLock, PaymentRead);
    assert WithRows(f, g, rows[..3]) == WithRow(WithRows(f, g, rows[..3][..2]), g, PaymentLock);
    assert WithRows(f, g, rows) == WithRow(WithRows(f, g, rows[..3]), g, PayoutLock);
  }

  lemma AllSeen(f: File, x: Proc)
    requires Faithful(f, x) && x.phase.Running? && x.locked == |LockOrder(x.job)|
    requires x.job.Resolving? && Refunds(x.job.outcome)
    ensures x.seen == AsRead(f, x.seen.dispute)
  {
    var rows := LockOrder(x.job);
    assert SameRow(Refreshed(x, f), f, rows[0]) && SameRow(Refreshed(x, f), f, rows[2])
           && SameRow(Refreshed(x, f), f, rows[3]);
  }

  lemma ResolutionWrites(c: Store, x: Proc)
    requires Faithful(c.file, x) && x.phase.Running? && x.locked == |LockOrder(x.job)| && x.job.Resolving?
    ensures Computed(x, c.entries).error == Resolved(c, x).error
    ensures Written(c, x) == if Resolved(c, x).error.Some? then c
                             else Store(Resolved(c, x).file, c.entries + Resolved(c, x).posted)
  {
    var j, rows := x.job, LockOrder(x.job);
    if Refunds(j.outcome) {
      AllSeen(c.file, x);
      if Resolved(c, x).error.None? {
        var s := ReadShape(c.file, x.seen.dispute, x.read, c.entries, j.staff, j.outcome, j.length, j.requested);
        AllRows(c.file, Resolved(c, x).file);
      }
    } else {
      assert SameRow(Refreshed(x, c.file), c.file, rows[0]);
      ConcludeLocal(c.file, x.seen, x.seen.dispute, c.entries, j.staff, j.outcome, j.length, j.requested);
      TwoRows(c.file, Computed(x, c.entries).file, OrderLock, OrderLock);
    }
  }

  // --- what a commit keeps, and when ----------------------------------------------------------------

  /** g may follow f: same terms, no refund less, the same dispute if there was one. */
  ghost predicate Later(f: File, g: File) {
    && g.id == f.id && SameTerms(f.order, g.order)
    && RefundSum(f.refunds) <= RefundSum(g.refunds)
    && PastDispute(f.dispute, g)
  }

  lemma EffectLater(f: File, s: Step, e: Effect)
    requires HasEffect(f, s, e) && PastDispute(f.dispute, s.file)
    ensures Later(f, s.file)
    ensures !e.Returns? ==> s.file.refunds == f.refunds
  {
    if e.Returns? {
      RefundSumAppend(f.refunds, RefundRow(e.amount, RefundSucceeded));
    }
  }

  lemma KeepsDispute(f: File, l: seq<Entry>, j: Job)
    requires !j.Resolving? && f.dispute.Some?
    ensures Apply(f, l, AtomicOp(j)).file.dispute == f.dispute
  {
  }

  lemma AtomicKeeps(f: File, l: seq<Entry>, j: Job)
    requires Sound(f, l) && !j.Resolving?
    ensures var s := Apply(f, l, AtomicOp(j));
            && Sound(s.file, l + s.posted) && Later(f, s.file)
            && (f.dispute.Some? ==> s.file.dispute == f.dispute)
            && (!j.Refunding? ==> s.file.refunds == f.refunds)
  {
    var op := AtomicOp(j);
    StepSound(f, l, op);
    var e := StepEffect(f, l, op);
    if f.dispute.Some? {
      KeepsDispute(f, l, j);
    }
    EffectLater(f, Apply(f, l, op), e);
    if !j.Refunding? {
      NoRefund(f, l, j);
    }
  }

  /** The commit of any other service. */
  lemma ServiceKeeps(c: Store, x: Proc)
    requires Sound(c.file, c.entries) && Faithful(c.file, x)
    requires x.phase.Running? && x.locked == |LockOrder(x.job)| && !x.job.Resolving?
    ensures var d := Written(c, x);
            && d == ReplayOn(c, Committed(c, x)) && Sound(d.file, d.entries) && Later(c.file, d.file)
            && (c.file.dispute.Some? ==> d.file.dispute == c.file.dispute)
            && (!x.job.Refunding? ==> d.file.refunds == c.file.refunds)
  {
    CommitIsAtomic(c, x);
    ReplaySingle(c, AtomicOp(x.job));
    AtomicKeeps(c.file, c.entries, x.job);
  }

  lemma NoRefund(f: File, l: seq<Entry>, j: Job)
    requires !j.Resolving? && !j.Refunding?
    ensures Apply(f, l, AtomicOp(j)).file.refunds == f.refunds
  {
  }

  lemma ResolvedSound(c: Store, x: Proc)
    requires Sound(c.file, c.entries) && Faithful(c.file, x) && x.job.Resolving? && Resolved(c, x).error.None?
    ensures Later(c.file, Resolved(c, x).file)
    ensures Sound(Resolved(c, x).file, c.entries + Resolved(c, x).posted) <==> !Misplaces(c.file, x.job.outcome)
  {
    var j, read := x.job, if Refunds(x.job.outcome) then x.read else c.file.payment;
    ReadIsSound(c.file, x.seen.dispute, read, c.entries, j.staff, j.outcome, j.length, j.requested);
    var e := ReadEffect(c.file, x.seen.dispute, read, c.entries, j.staff, j.outcome, j.length, j.requested);
    var s := ReadShape(c.file, x.seen.dispute, read, c.entries, j.staff, j.outcome, j.length, j.requested);
    EffectLater(c.file, Resolved(c, x), e);
  }

  lemma ResolvedAtomic(c: Store, x: Proc)
    requires Sound(c.file, c.entries) && Faithful(c.file, x) && x.job.Resolving? && Resolved(c, x).error.None?
    ensures var j, r := x.job, Resolved(c, x);
            var a := Resolve(c.file, c.entries, j.staff, j.outcome, j.length, j.requested);
            && (r.file == a.file && r.posted == a.posted <==> Current(c.file, j.outcome, j.requested))
            && (Current(c.file, j.outcome, j.requested) ==> !Misplaces(c.file, j.outcome))
  {
    var j, read := x.job, if Refunds(x.job.outcome) then x.read else c.file.payment;
    OwnPaymentPast(c.file);
    ReadLeavesAtomic(c.file, x.seen.dispute, read, c.entries, j.staff, j.outcome, j.length, j.requested);
  }

  lemma SameEntries(l: seq<Entry>, a: seq<Entry>, b: seq<Entry>)
    ensures l + a == l + b <==> a == b
  {
    assert (l + a)[|l|..] == a && (l + b)[|l|..] == b;
  }

  lemma ResolveIsOp(f: File, l: seq<Entry>, j: Job)
    requires j.Resolving?
    ensures Apply(f, l, AtomicOp(j)) == Resolve(f, l, j.staff, j.outcome, j.length, j.requested)
  {
  }

  /** The commit of a resolution: sound exactly unless it misplaces the order, and the atomic call
      exactly if the dispute is still under review and a partial amount leaves something. */
  lemma ResolutionKeeps(c: Store, x: Proc)
    requires Sound(c.file, c.entries) && Faithful(c.file, x)
    requires x.phase.Running? && x.locked == |LockOrder(x.job)| && x.job.Resolving?
    requires Computed(x, c.entries).error.None?
    ensures var d := Written(c, x);
            && Later(c.file, d.file)
            && (Sound(d.file, d.entries) <==> !Misplaces(c.file, x.job.outcome))
            && (d == ReplayOn(c, Committed(c, x)) <==> Current(c.file, x.job.outcome, x.job.requested))
            && (Current(c.file, x.job.outcome, x.job.requested) ==> !Misplaces(c.file, x.job.outcome))
  {
    ResolutionWrites(c, x);
    ResolvedSound(c, x);
    ResolvedAtomic(c, x);
    ReplaySingle(c, AtomicOp(x.job));
    ResolveIsOp(c.file, c.entries, x.job);
    SameEntries(c.entries, Resolved(c, x).posted, Apply(c.file, c.entries, AtomicOp(x.job)).posted);
  }

  lemma OwnPaymentPast(f: File)
    requires Rows(f)
    ensures PastPayment(f.payment, f)
  {
  }

  // --- every step ------------------------------------------------------------------------------

  /** Locking one more row: the others stay as read, and this one is read afresh. */
  lemma LockFaithful(f: File, x: Proc, y: Proc)
    requires Rows(f) && Faithful(f, x) && x.phase.Running? && x.locked < |LockOrder(x.job)|
    requires y == Locked(x, f, LockOrder(x.job)[x.locked])
    ensures Faithful(f, y)
    ensures forall u: RowKind :: Holds(y, u) ==> u == LockOrder(x.job)[x.locked] || Holds(x, u)
  {
    OwnPaymentPast(f);
    assert LockOrder(x.job)[..x.locked + 1] == LockOrder(x.job)[..x.locked] + [LockOrder(x.job)[x.locked]];
    forall i | 0 <= i < y.locked ensures SameRow(Refreshed(y, f), f, LockOrder(y.job)[i]) {
      if i < x.locked {
        assert SameRow(Refreshed(x, f), f, LockOrder(x.job)[i]);
      }
    }
  }

  lemma LockKeeps(s: Race, p: nat)
    requires RaceInv(s) && Enabled(s, Lock(p))
    ensures RaceInv(Next(s, Lock(p))) && Next(s, Lock(p)).store == s.store
  {
    var t := Next(s, Lock(p));
    assert Faithful(s.store.file, s.procs[p]);
    LockFaithful(s.store.file, s.procs[p], t.procs[p]);
  }

  lemma UnlistedRow(f: File, g: File, j: Job, u: RowKind)
    requires u !in LockOrder(j)
    ensures SameRow(f, WithRows(f, g, LockOrder(j)), u)
  {
    var rows := LockOrder(j);
    if |rows| <= 2 {
      TwoRows(f, g, rows[0], rows[|rows| - 1]);
      assert rows[0] in rows && rows[|rows| - 1] in rows;
    }
  }

  /** A commit writes no row that another transaction holds. */
  lemma CommitSpares(s: Race, p: nat, q: nat, u: RowKind)
    requires RaceInv(s) && Enabled(s, Commit(p)) && q < |s.procs| && q != p && Holds(s.procs[q], u)
    ensures SameRow(s.store.file, Next(s, Commit(p)).store.file, u)
  {
    var x := s.procs[p];
    var rows := LockOrder(x.job);
    assert rows[..|rows|] == rows;
    assert Holds(x, u) <==> u in rows;
    UnlistedRow(s.store.file, Computed(x, s.store.entries).file, x.job, u);
  }

  lemma StaysFaithful(f: File, g: File, y: Proc)
    requires Faithful(f, y) && Later(f, g)
    requires y.phase.Running? ==>
               forall i :: 0 <= i < y.locked ==>
                 LockOrder(y.job)[i] == PaymentRead || SameRow(f, g, LockOrder(y.job)[i])
    ensures Faithful(g, y)
  {
    if y.phase.Running? {
      forall i | 0 <= i < y.locked ensures SameRow(Refreshed(y, g), g, LockOrder(y.job)[i]) {
        assert SameRow(Refreshed(y, f), f, LockOrder(y.job)[i]);
      }
    }
  }

  /** A commit that leaves a sound order leaves every other transaction with what it has locked. */
  lemma CommitKeeps(s: Race, p: nat)
    requires RaceInv(s) && Enabled(s, Commit(p))
    requires var d := Next(s, Commit(p)).store; Sound(d.file, d.entries) && Later(s.store.file, d.file)
    ensures RaceInv(Next(s, Commit(p)))
  {
    var t := Next(s, Commit(p));
    forall q | 0 <= q < |t.procs| ensures Faithful(t.store.file, t.procs[q]) {
      var y := s.procs[q];
      assert Faithful(s.store.file, y);
      if q != p && y.phase.Running? {
        forall i | 0 <= i < y.locked
          ensures LockOrder(y.job)[i] == PaymentRead || SameRow(s.store.file, t.store.file, LockOrder(y.job)[i])
        {
          var u := LockOrder(y.job)[i];
          assert LockOrder(y.job)[..y.locked][i] == u;
          if u != PaymentRead {
            CommitSpares(s, p, q, u);
          }
        }
      }
      StaysFaithful(s.store.file, t.store.file, t.procs[q]);
    }
  }

  lemma AbortKeeps(s: Race, p: nat)
    requires RaceInv(s) && Enabled(s, Abort(p))
    ensures RaceInv(Next(s, Abort(p))) && Next(s, Abort(p)).store == s.store
  {
    assert Faithful(s.store.file, s.procs[p]);
  }

  /** The event commits a resolution. */
  predicate Resolves(s: Race, e: Event) {
    && Enabled(s, e) && e.Commit? && s.procs[e.p].job.Resolving?
    && Computed(s.procs[e.p], s.store.entries).error.None?
  }

  predicate InPlace(s: Race, e: Event) { Resolves(s, e) ==> !Misplaces(s.store.file, s.procs[e.p].job.outcome) }

  predicate OnTime(s: Race, e: Event) {
    Resolves(s, e) ==> Current(s.store.file, s.procs[e.p].job.outcome, s.procs[e.p].job.requested)
  }

  function Serialized(s: Race, e: Event): seq<Op> {
    if Enabled(s, e) && e.Commit? then Committed(s.store, s.procs[e.p]) else []
  }

  lemma RefusedWritesNothing(c: Store, x: Proc)
    requires x.job.Resolving? && Computed(x, c.entries).error.Some?
    ensures Written(c, x) == c && ReplayOn(c, Committed(c, x)) == c
  {
  }

  lemma CommitExactly(s: Race, p: nat)
    requires RaceInv(s) && Enabled(s, Commit(p))
    ensures var t := Next(s, Commit(p));
            && (Sound(t.store.file, t.store.entries) <==> InPlace(s, Commit(p)))
            && (t.store == ReplayOn(s.store, Committed(s.store, s.procs[p])) <==> OnTime(s, Commit(p)))
            && (OnTime(s, Commit(p)) ==> InPlace(s, Commit(p)))
            && (InPlace(s, Commit(p)) ==> RaceInv(t))
  {
    var x := s.procs[p];
    assert Faithful(s.store.file, x);
    if !x.job.Resolving? {
      ServiceKeeps(s.store, x);
    } else if Computed(x, s.store.entries).error.Some? {
      RefusedWritesNothing(s.store, x);
    } else {
      ResolutionKeeps(s.store, x);
    }
    if InPlace(s, Commit(p)) {
      CommitKeeps(s, p);
    }
  }

  lemma StepExactly(s: Race, e: Event)
    requires RaceInv(s)
    ensures var t := Next(s, e);
            && (Sound(t.store.file, t.store.entries) <==> InPlace(s, e))
            && (t.store == ReplayOn(s.store, Serialized(s, e)) <==> OnTime(s, e))
            && (OnTime(s, e) ==> InPlace(s, e)) && (InPlace(s, e) ==> RaceInv(t))
  {
    if Enabled(s, e) {
      match e
      case Lock(p) => LockKeeps(s, p);
      case Abort(p) => AbortKeeps(s, p);
      case Commit(p) => CommitExactly(s, p);
    }
  }

  // --- whole schedules ----------------------------------------------------------------------------

  function Serial(s: Race, es: seq<Event>): seq<Op> {
    if es == [] then []
    else Serial(s, es[..|es| - 1]) + Serialized(Run(s, es[..|es| - 1]), es[|es| - 1])
  }

  predicate AllInPlace(s: Race, es: seq<Event>) {
    es == [] || (AllInPlace(s, es[..|es| - 1]) && InPlace(Run(s, es[..|es| - 1]), es[|es| - 1]))
  }

  predicate AllOnTime(s: Race, es: seq<Event>) {
    es == [] || (AllOnTime(s, es[..|es| - 1]) && OnTime(Run(s, es[..|es| - 1]), es[|es| - 1]))
  }

  /** The order is sound after every event of the schedule. */
  ghost predicate SoundThroughout(s: Race, es: seq<Event>) {
    && Sound(Run(s, es).store.file, Run(s, es).store.entries)
    && (es == [] || SoundThroughout(s, es[..|es| - 1]))
  }

  /** After every event the store is what the committed calls leave, one after the other. */
  ghost predicate SerialThroughout(s: Race, es: seq<Event>) {
    && Run(s, es).store == ReplayOn(s.store, Serial(s, es))
    && (es == [] || SerialThroughout(s, es[..|es| - 1]))
  }

  lemma {:induction false} ReplayConcat(c: Store, ops: seq<Op>, more: seq<Op>)
    ensures ReplayOn(c, ops + more) == ReplayOn(ReplayOn(c, ops), more)
  {
    if more == [] {
      assert ops + more == ops;
    } else {
      var front, op := more[..|more| - 1], more[|more| - 1];
      assert ops + more == (ops + front) + [op];
      ReplayConcat(c, ops, front);
      ReplayOne(c, ops + front, op);
    }
  }

  /** Any schedule of any number of confirmations, failed attempts, refunds, settlements, deliveries,
      revisions, disputes and resolutions of one order - aborts and stale first reads included -
      keeps the order sound if and only if none of its no-fault closes misplaces the order. */
  lemma {:induction false} ScheduleIsSound(s: Race, es: seq<Event>)
    requires RaceInv(s)
    ensures SoundThroughout(s, es) <==> AllInPlace(s, es)
    ensures AllInPlace(s, es) ==> RaceInv(Run(s, es))
  {
    if es != [] {
      ScheduleIsSound(s, es[..|es| - 1]);
      if AllInPlace(s, es[..|es| - 1]) {
        StepExactly(Run(s, es[..|es| - 1]), es[|es| - 1]);
      }
    }
  }

  /** And it commits what its calls do one after the other, in the order of their commits, if and
      only if every resolution commits on a dispute still under review and, when it is partial, with
      something of the payment left. */
  lemma {:induction false} ScheduleIsSerial(s: Race, es: seq<Event>)
    requires RaceInv(s)
    ensures SerialThroughout(s, es) <==> AllOnTime(s, es)
    ensures AllOnTime(s, es) ==> AllInPlace(s, es) && RaceInv(Run(s, es))
  {
    if es != [] {
      var front := es[..|es| - 1];
      ScheduleIsSerial(s, front);
      if AllOnTime(s, front) {
        StepExactly(Run(s, front), es[|es| - 1]);
        ReplayConcat(s.store, Serial(s, front), Serialized(Run(s, front), es[|es| - 1]));
      }
    }
  }

  /** Transactions that begin on arbitrary earlier reads of a sound order. */
  ghost predicate Beginning(c: Store, procs: seq<Proc>) {
    && Sound(c.file, c.entries)
    && forall p :: 0 <= p < |procs| ==>
         && procs[p].locked == 0 && procs[p].phase.Running? && procs[p].read.None?
         && procs[p].seen.id == c.file.id && SameTerms(c.file.order, procs[p].seen.order)
         && PastDispute(procs[p].seen.dispute, c.file)
  }

  lemma Begins(c: Store, procs: seq<Proc>)
    requires Beginning(c, procs)
    ensures RaceInv(Race(c, procs))
  {
  }

  /** Without a no-fault close every schedule is sound, resolutions on stale reads included: one
      charge, refunds within the payment, one payout, none while a dispute is open. */
  lemma RaceStaysSound(c: Store, procs: seq<Proc>, es: seq<Event>)
    requires Beginning(c, procs)
    requires forall p :: 0 <= p < |procs| && procs[p].job.Resolving? ==> procs[p].job.outcome != NoFaultClose
    ensures var end := Run(Race(c, procs), es).store;
            && Sound(end.file, end.entries)
            && Tally(end.entries, Charge) <= 1 && Tally(end.entries, Ledger.Payout) <= 1
            && (end.file.payment.Some? ==> end.file.payment.value.refundedMinor <= end.file.payment.value.amountMinor)
  {
    var s := Race(c, procs);
    NoCloseInPlace(s, es);
    ScheduleIsSound(s, es);
  }

  lemma {:induction false} SameJobs(s: Race, es: seq<Event>)
    ensures |Run(s, es).procs| == |s.procs|
    ensures forall p :: 0 <= p < |s.procs| ==> Run(s, es).procs[p].job == s.procs[p].job
  {
    if es != [] {
      SameJobs(s, es[..|es| - 1]);
    }
  }

  lemma {:induction false} NoCloseInPlace(s: Race, es: seq<Event>)
    requires forall p :: 0 <= p < |s.procs| && s.procs[p].job.Resolving? ==> s.procs[p].job.outcome != NoFaultClose
    ensures AllInPlace(s, es)
  {
    if es != [] {
      NoCloseInPlace(s, es[..|es| - 1]);
      SameJobs(s, es[..|es| - 1]);
    }
  }

  // --- one resolution ----------------------------------------------------------------------------------

  predicate Partial(j: Job) { j.Resolving? && j.outcome in {RefundPartial, Split} }

  /** Only q resolves, and beside a partial resolution nobody refunds. */
  predicate OneResolution(s: Race, q: nat) {
    && q < |s.procs|
    && (forall p :: 0 <= p < |s.procs| && p != q ==> !s.procs[p].job.Resolving?)
    && (Partial(s.procs[q].job) ==> forall p :: 0 <= p < |s.procs| ==> !s.procs[p].job.Refunding?)
  }

  /** What q has read is still so. */
  ghost predicate Unmoved(f: File, x: Proc) {
    x.phase.Running? && x.job.Resolving? ==>
      && (x.seen.dispute.Some? ==> x.seen.dispute == f.dispute)
      && (Partial(x.job) && x.read.Some? ==> x.read.value.refundedMinor == RefundSum(f.refunds))
  }

  lemma UnmovedOnTime(s: Race, p: nat)
    requires RaceInv(s) && Enabled(s, Commit(p)) && Unmoved(s.store.file, s.procs[p])
    ensures OnTime(s, Commit(p))
  {
    var c, x := s.store, s.procs[p];
    if Resolves(s, Commit(p)) {
      assert Faithful(c.file, x);
      var read := if Refunds(x.job.outcome) then x.read else c.file.payment;
      ResolutionWrites(c, x);
      ReadSucceeds(c.file, x.seen.dispute, read, c.entries, x.job.staff, x.job.outcome, x.job.length, x.job.requested);
    }
  }

  lemma StaysUnmoved(s: Race, e: Event, q: nat)
    requires RaceInv(s) && OneResolution(s, q) && Unmoved(s.store.file, s.procs[q])
    ensures OnTime(s, e) && Unmoved(Next(s, e).store.file, Next(s, e).procs[q])
  {
    if Enabled(s, e) {
      match e
      case Lock(p) =>
        assert Rows(s.store.file);
      case Abort(p) =>
      case Commit(p) =>
        if p == q {
          UnmovedOnTime(s, p);
        } else {
          assert Faithful(s.store.file, s.procs[p]);
          ServiceKeeps(s.store, s.procs[p]);
        }
    }
  }

  lemma {:induction false} OneResolutionOnTime(s: Race, es: seq<Event>, q: nat)
    requires RaceInv(s) && OneResolution(s, q) && Unmoved(s.store.file, s.procs[q])
    ensures AllOnTime(s, es) && RaceInv(Run(s, es)) && OneResolution(Run(s, es), q)
    ensures Unmoved(Run(s, es).store.file, Run(s, es).procs[q])
  {
    SameJobs(s, es);
    if es != [] {
      var front := es[..|es| - 1];
      OneResolutionOnTime(s, front, q);
      StaysUnmoved(Run(s, front), es[|es| - 1], q);
      StepExactly(Run(s, front), es[|es| - 1]);
    }
  }

  /** A single resolution that read the current dispute, a partial one with no refund beside it,
      among any other jobs: every schedule is sound and a serial run of the atomic services. */
  lemma OneResolutionIsSerial(c: Store, procs: seq<Proc>, es: seq<Event>, q: nat)
    requires Beginning(c, procs) && OneResolution(Race(c, procs), q)
    requires procs[q].job.Resolving? ==> procs[q].seen.dispute == c.file.dispute
    ensures var end := Run(Race(c, procs), es).store;
            Sound(end.file, end.entries) && end == ReplayOn(c, Serial(Race(c, procs), es))
  {
    var s := Race(c, procs);
    OneResolutionOnTime(s, es, q);
    ScheduleIsSerial(s, es);
  }

  // --- what the two conditions keep out --------------------------------------------------------------------

  lemma RunTwo(s: Race, es: seq<Event>, a: Event, b: Event)
    ensures Run(s, es + [a] + [b]) == Next(Next(Run(s, es), a), b)
  {
    assert (es + [a] + [b])[..|es| + 1] == es + [a] && (es + [a])[..|es|] == es;
  }

  /** The order lock is free and x, which takes no other, has not started. */
  predicate OrderFree(s: Race, p: nat) {
    && p < |s.procs| && s.procs[p].phase.Running? && s.procs[p].locked == 0
    && LockOrder(s.procs[p].job) == [OrderLock]
    && forall q :: 0 <= q < |s.procs| ==> !Holds(s.procs[q], OrderLock)
  }

  /** Such a proc locks and commits with nothing in between. */
  function AtOnce(s: Race, p: nat): Race { Next(Next(s, Lock(p)), Commit(p)) }

  lemma AtOnceShape(s: Race, p: nat)
    requires OrderFree(s, p)
    ensures var x := s.procs[p]; var y := Locked(x, s.store.file, OrderLock);
            AtOnce(s, p) == Race(Written(s.store, y), s.procs[p := y.(phase := Finished)])
    ensures forall q :: 0 <= q < |s.procs| && q != p && OrderFree(s, q) ==> OrderFree(AtOnce(s, p), q)
  {
    var x := s.procs[p];
    var y := Locked(x, s.store.file, OrderLock);
    assert Next(s, Lock(p)) == s.(procs := s.procs[p := y]);
    assert Enabled(Next(s, Lock(p)), Commit(p));
    assert s.procs[p := y][p := y.(phase := Finished)] == s.procs[p := y.(phase := Finished)];
  }

  /** A no-fault close, on the dispute as it has read it. */
  lemma CloseAtOnce(s: Race, p: nat, staff: Actor, length: nat)
    requires OrderFree(s, p) && s.procs[p].job == Resolving(Some(staff), NoFaultClose, length, None)
    requires s.procs[p].seen.id == s.store.file.id
    ensures var f, l := s.store.file, s.store.entries;
            var r := ResolveRead(AsRead(f, s.procs[p].seen.dispute), f.payment, l, Some(staff), NoFaultClose, length,
                                 None);
            AtOnce(s, p).store == if r.error.Some? then s.store else Store(r.file, l + r.posted)
  {
    var y := Locked(s.procs[p], s.store.file, OrderLock);
    AtOnceShape(s, p);
    TwoRows(s.store.file, Computed(y, s.store.entries).file, OrderLock, OrderLock);
    ConcludeLocal(s.store.file, y.seen, y.seen.dispute, s.store.entries, Some(staff), NoFaultClose, length, None);
  }

  lemma ReviseAtOnce(s: Race, p: nat, student: Actor, length: nat)
    requires OrderFree(s, p) && s.procs[p].job == Revising(student, length)
    requires s.procs[p].seen.id == s.store.file.id
    ensures var r := RequestRevision(s.store.file, student, length);
            r.posted == [] ==> AtOnce(s, p).store == s.store.(file := r.file)
  {
    var y := Locked(s.procs[p], s.store.file, OrderLock);
    AtOnceShape(s, p);
    TwoRows(s.store.file, Computed(y, s.store.entries).file, OrderLock, OrderLock);
    ReviseLocal(s.store.file, y.seen, student, length);
    assert s.store.entries + [] == s.store.entries;
  }

  ghost predicate Closable(f: File, l: seq<Entry>) {
    && Sound(f, l) && f.order.status == OrderStatus.Disputed && f.dispute.Some?
    && f.dispute.value.status == UnderReview && f.dispute.value.priorStatus == Delivered
    && f.order.revisionsUsed < f.order.revisionsAllowed
  }

  /** Closed without fault. */
  lemma ClosedOnce(f: File, l: seq<Entry>, staff: Actor, length: nat)
    requires Closable(f, l) && staff.staff && length >= MIN_DISPUTE_TEXT
    ensures var a := ResolveRead(f, f.payment, l, Some(staff), NoFaultClose, length, None);
            && a.error.None? && a.posted == [] && Sound(a.file, l) && a.file.id == f.id
            && a.file.order.status == Delivered && a.file.order.revisionsUsed < a.file.order.revisionsAllowed
            && a.file.order.student == f.order.student && PastDispute(f.dispute, a.file)
  {
    assert AsRead(f, f.dispute) == f && l + [] == l;
    ReadSucceeds(f, f.dispute, f.payment, l, Some(staff), NoFaultClose, length, None);
    var s := ResolvedShape(f, l, Some(staff), NoFaultClose, length, None);
    ReadIsSound(f, f.dispute, f.payment, l, Some(staff), NoFaultClose, length, None);
  }

  /** Closed again after a revision, on the dispute as it was. */
  lemma ClosedAgain(f: File, d: Option<Dispute>, l: seq<Entry>, staff: Actor, length: nat)
    requires Sound(f, l) && staff.staff && length >= MIN_DISPUTE_TEXT && f.order.status == RevisionRequested
    requires d.Some? && d.value.status == UnderReview && d.value.priorStatus == Delivered && PastDispute(d, f)
    ensures var a := ResolveRead(AsRead(f, d), f.payment, l, Some(staff), NoFaultClose, length, None);
            && a.error.None? && a.posted == [] && !Sound(a.file, l)
            && a.file.order.status == Delivered && a.file.deliveries == f.deliveries
            && a.file.order.revisionsUsed == f.order.revisionsUsed
  {
    assert l + [] == l;
    ReadSucceeds(f, d, f.payment, l, Some(staff), NoFaultClose, length, None);
    var s := ReadShape(f, d, f.payment, l, Some(staff), NoFaultClose, length, None);
    ReadIsSound(f, d, f.payment, l, Some(staff), NoFaultClose, length, None);
  }

  /** Sent back once more. */
  lemma RevisedOnce(f: File, l: seq<Entry>)
    requires Sound(f, l) && f.order.status == Delivered && f.order.revisionsUsed < f.order.revisionsAllowed
    ensures var b := RequestRevision(f, Actor(f.order.student, false), MIN_REVISION_NOTE);
            && b.error.None? && b.posted == [] && Sound(b.file, l) && b.file.id == f.id && b.file.dispute == f.dispute
            && b.file.order.status == RevisionRequested && |b.file.deliveries| == b.file.order.revisionsUsed
            && Terms(b.file.order)
  {
    StepSound(f, l, OpRevise(Actor(f.order.student, false), MIN_REVISION_NOTE));
    assert l + [] == l;
  }

  lemma RunSix(s: Race)
    ensures Run(s, [Lock(0), Commit(0), Lock(1), Commit(1), Lock(2), Commit(2)]) == AtOnce(AtOnce(AtOnce(s, 0), 1), 2)
  {
    assert Run(s, []) == s;
    RunTwo(s, [], Lock(0), Commit(0));
    RunTwo(s, [] + [Lock(0)] + [Commit(0)], Lock(1), Commit(1));
    RunTwo(s, [] + [Lock(0)] + [Commit(0)] + [Lock(1)] + [Commit(1)], Lock(2), Commit(2));
    assert [Lock(0), Commit(0), Lock(1), Commit(1), Lock(2), Commit(2)]
           == [] + [Lock(0)] + [Commit(0)] + [Lock(1)] + [Commit(1)] + [Lock(2)] + [Commit(2)];
  }

  function Closing(f: File, staff: Actor, length: nat): Proc {
    Proc(Resolving(Some(staff), NoFaultClose, length, None), 0, f, None, Running)
  }

  function Sending(f: File): Proc {
    Proc(Revising(Actor(f.order.student, false), MIN_REVISION_NOTE), 0, f, None, Running)
  }

  ghost predicate Start(s: Race, f: File, staff: Actor, length: nat) {
    && s.store.file == f && |s.procs| == 3
    && s.procs[0] == s.procs[2] == Closing(f, staff, length) && s.procs[1] == Sending(f)
    && OrderFree(s, 0) && OrderFree(s, 1) && OrderFree(s, 2)
  }

  lemma Starts(c: Store, staff: Actor, length: nat)
    requires Closable(c.file, c.entries)
    ensures var s := Race(c, [Closing(c.file, staff, length), Sending(c.file), Closing(c.file, staff, length)]);
            Start(s, c.file, staff, length) && Beginning(c, s.procs)
  {
  }

  lemma FirstClose(s: Race, f: File, staff: Actor, length: nat)
    requires Start(s, f, staff, length) && Closable(f, s.store.entries) && staff.staff && length >= MIN_DISPUTE_TEXT
    ensures var t := AtOnce(s, 0);
            && t.store.entries == s.store.entries && Sound(t.store.file, t.store.entries) && t.store.file.id == f.id
            && t.store.file.order.student == f.order.student && t.store.file.order.status == Delivered
            && t.store.file.order.revisionsUsed < t.store.file.order.revisionsAllowed
            && PastDispute(f.dispute, t.store.file)
            && |t.procs| == 3 && t.procs[1] == Sending(f) && t.procs[2] == Closing(f, staff, length)
            && OrderFree(t, 1) && OrderFree(t, 2)
  {
    assert AsRead(f, f.dispute) == f && s.store.entries + [] == s.store.entries;
    ClosedOnce(f, s.store.entries, staff, length);
    CloseAtOnce(s, 0, staff, length);
    AtOnceShape(s, 0);
  }

  lemma ThenRevise(s: Race, f: File)
    requires |s.procs| == 3 && s.procs[1] == Sending(f) && OrderFree(s, 1) && OrderFree(s, 2)
    requires Sound(s.store.file, s.store.entries) && s.store.file.id == f.id
    requires s.store.file.order.student == f.order.student && s.store.file.order.status == Delivered
    requires s.store.file.order.revisionsUsed < s.store.file.order.revisionsAllowed
    ensures var t := AtOnce(s, 1);
            && t.store.entries == s.store.entries && Sound(t.store.file, t.store.entries) && t.store.file.id == f.id
            && t.store.file.dispute == s.store.file.dispute && t.store.file.order.status == RevisionRequested
            && |t.store.file.deliveries| == t.store.file.order.revisionsUsed
            && |t.procs| == 3 && t.procs[2] == s.procs[2] && OrderFree(t, 2)
  {
    RevisedOnce(s.store.file, s.store.entries);
    ReviseAtOnce(s, 1, Actor(f.order.student, false), MIN_REVISION_NOTE);
    AtOnceShape(s, 1);
  }

  lemma LastClose(s: Race, f: File, staff: Actor, length: nat)
    requires |s.procs| == 3 && s.procs[2] == Closing(f, staff, length) && OrderFree(s, 2)
    requires Sound(s.store.file, s.store.entries) && s.store.file.id == f.id && PastDispute(f.dispute, s.store.file)
    requires s.store.file.order.status == RevisionRequested && staff.staff && length >= MIN_DISPUTE_TEXT
    requires f.dispute.Some? && f.dispute.value.status == UnderReview && f.dispute.value.priorStatus == Delivered
    requires |s.store.file.deliveries| == s.store.file.order.revisionsUsed
    ensures var end := AtOnce(s, 2).store;
            && end.file.order.status == Delivered && |end.file.deliveries| == end.file.order.revisionsUsed
            && !Sound(end.file, end.entries)
  {
    ClosedAgain(s.store.file, f.dispute, s.store.entries, staff, length);
    CloseAtOnce(s, 2, staff, length);
    assert s.store.entries + [] == s.store.entries;
  }

  /** Two no-fault closes that both began under review, and a revision between them: the second
      puts the revised order back to delivered, one delivery short. */
  lemma SecondCloseMisplaces(c: Store, staff: Actor, length: nat)
    requires Closable(c.file, c.entries) && staff.staff && length >= MIN_DISPUTE_TEXT
    ensures var s := Race(c, [Closing(c.file, staff, length), Sending(c.file), Closing(c.file, staff, length)]);
            var end := Run(s, [Lock(0), Commit(0), Lock(1), Commit(1), Lock(2), Commit(2)]).store;
            && Beginning(c, s.procs)
            && end.file.order.status == Delivered && |end.file.deliveries| == end.file.order.revisionsUsed
            && !Sound(end.file, end.entries)
  {
    var s := Race(c, [Closing(c.file, staff, length), Sending(c.file), Closing(c.file, staff, length)]);
    RunSix(s);
    Starts(c, staff, length);
    FirstClose(s, c.file, staff, length);
    ThenRevise(AtOnce(s, 0), c.file);
    LastClose(AtOnce(AtOnce(s, 0), 1), c.file, staff, length);
  }

  /** A partial resolution of what a refund of a will leave, and that refund. */
  function Returning(f: File, staff: Actor, length: nat, amount: int): Proc {
    Proc(Resolving(Some(staff), RefundPartial, length, Some(amount)), 0, f, None, Running)
  }

  function Giving(f: File, staff: Actor, a: int): Proc { Proc(Refunding(Some(staff), a, true), 0, f, None, Running) }

  /** The resolution has locked the order and read the payment when the refund locks and commits
      the payment; then it goes on. */
  const REFUND_BETWEEN: seq<Event> := [Lock(0), Lock(0), Lock(1), Commit(1), Lock(0), Lock(0)]

  lemma ReadsFirst(c: Store, x: Proc, y: Proc)
    requires x.job.Resolving? && Refunds(x.job.outcome) && x.phase.Running? && x.locked == y.locked == 0
    requires x.seen == c.file
    ensures Next(Next(Race(c, [x, y]), Lock(0)), Lock(0)) == Race(c, [x.(locked := 2, read := c.file.payment), y])
  {
    var s := Race(c, [x, y]);
    assert Enabled(s, Lock(0)) && Next(s, Lock(0)) == Race(c, [x.(locked := 1), y]);
    assert Enabled(Next(s, Lock(0)), Lock(0));
  }

  function Refunded(c: Store, staff: Actor, a: int): Store {
    var r := IssueRefund(c.file, Some(staff), a, true);
    Store(r.file, c.entries + r.posted)
  }

  lemma RefundsThen(c: Store, x: Proc, staff: Actor, a: int)
    requires !Holds(x, PaymentLock) && IssueRefund(c.file, Some(staff), a, true).error.None?
    ensures var y := Giving(c.file, staff, a);
            Next(Next(Race(c, [x, y]), Lock(1)), Commit(1))
            == Race(Refunded(c, staff, a), [x, y.(locked := 1, phase := Finished)])
  {
    var y := Giving(c.file, staff, a);
    var s := Race(c, [x, y]);
    assert Enabled(s, Lock(1)) && Next(s, Lock(1)) == Race(c, [x, y.(locked := 1)]);
    assert Enabled(Next(s, Lock(1)), Commit(1));
    TwoRows(c.file, IssueRefund(c.file, Some(staff), a, true).file, PaymentLock, PaymentLock);
    RefundLocal(c.file, c.file, Some(staff), a, true);
  }

  lemma LocksRest(c: Store, x: Proc, y: Proc)
    requires x.job.Resolving? && Refunds(x.job.outcome) && x.phase.Running? && x.locked == 2 && !y.phase.Running?
    requires x.seen.dispute == c.file.dispute && WithRow(x.seen, c.file, PaymentLock) == c.file
    ensures Next(Next(Race(c, [x, y]), Lock(0)), Lock(0)) == Race(c, [x.(locked := 4, seen := c.file), y])
  {
    var s := Race(c, [x, y]);
    assert Enabled(s, Lock(0)) && Next(s, Lock(0)) == Race(c, [x.(locked := 3, seen := c.file), y]);
    assert Enabled(Next(s, Lock(0)), Lock(0));
  }

  lemma RunPairs(s: Race, t: Race, u: Race, v: Race)
    requires t == Next(Next(s, Lock(0)), Lock(0)) && u == Next(Next(t, Lock(1)), Commit(1))
    requires v == Next(Next(u, Lock(0)), Lock(0))
    ensures Run(s, REFUND_BETWEEN) == v
  {
    assert Run(s, []) == s;
    RunTwo(s, [], Lock(0), Lock(0));
    RunTwo(s, [] + [Lock(0)] + [Lock(0)], Lock(1), Commit(1));
    RunTwo(s, [] + [Lock(0)] + [Lock(0)] + [Lock(1)] + [Commit(1)], Lock(0), Lock(0));
    assert REFUND_BETWEEN == [] + [Lock(0)] + [Lock(0)] + [Lock(1)] + [Commit(1)] + [Lock(0)] + [Lock(0)];
  }

  /** Where the schedule has got to when the resolution is about to commit. */
  lemma BeforeReturning(c: Store, staff: Actor, length: nat, amount: int, a: int)
    requires Rows(c.file) && IssueRefund(c.file, Some(staff), a, true).error.None?
    ensures var x, y, d := Returning(c.file, staff, length, amount), Giving(c.file, staff, a), Refunded(c, staff, a);
            Run(Race(c, [x, y]), REFUND_BETWEEN)
            == Race(d, [x.(locked := 4, read := c.file.payment, seen := d.file), y.(locked := 1, phase := Finished)])
  {
    var x, y, d := Returning(c.file, staff, length, amount), Giving(c.file, staff, a), Refunded(c, staff, a);
    var x2, y2 := x.(locked := 2, read := c.file.payment), y.(locked := 1, phase := Finished);
    ReadsFirst(c, x, y);
    RefundsThen(c, x2, staff, a);
    RefundKeepsOrder(c.file, staff, a);
    LocksRest(d, x2, y2);
    RunPairs(Race(c, [x, y]), Race(c, [x2, y]), Race(d, [x2, y2]), Race(d, [x2.(locked := 4, seen := d.file), y2]));
  }

  lemma RefundKeepsOrder(f: File, staff: Actor, a: int)
    ensures var g := IssueRefund(f, Some(staff), a, true).file;
            g.dispute == f.dispute && WithRow(f, g, PaymentLock) == g
  {
  }

  /** A partial amount of all that a refund left passes the check on the figure before it. */
  lemma LateAmount(f: File, l: seq<Entry>, staff: Actor, length: nat, amount: int, a: int)
    requires Rows(f) && staff.staff && length >= MIN_DISPUTE_TEXT
    requires f.dispute.Some? && f.dispute.value.status == UnderReview
    requires f.order.status == OrderStatus.Disputed && f.payment.Some?
    requires IssueRefund(f, Some(staff), a, true).error.None? && 0 < amount == Left(f.payment.value) - a
    ensures var g := IssueRefund(f, Some(staff), a, true).file;
            && ResolveRead(g, f.payment, l, Some(staff), RefundPartial, length, Some(amount)).error.None?
            && !Current(g, RefundPartial, Some(amount))
  {
    RefundedPayment(f, Some(staff), a);
    StalePartialReturnsAll(f, l, Some(staff), a, Some(staff), RefundPartial, length, amount);
  }

  lemma LateCommit(s: Race, read: Option<Payment>, staff: Option<Actor>, length: nat, amount: int)
    requires |s.procs| == 2 && s.procs[0].phase.Running? && s.procs[0].locked == 4
    requires s.procs[0].job == Resolving(staff, RefundPartial, length, Some(amount))
    requires s.procs[0].seen == s.store.file && s.procs[0].read == read
    requires ResolveRead(s.store.file, read, s.store.entries, staff, RefundPartial, length, Some(amount)).error.None?
    requires !Current(s.store.file, RefundPartial, Some(amount))
    ensures !OnTime(s, Commit(0))
  {
    assert Enabled(s, Commit(0));
  }

  lemma NotAllOnTime(s: Race, es: seq<Event>, e: Event)
    requires RaceInv(s) && !OnTime(Run(s, es), e)
    ensures !SerialThroughout(s, es + [e])
  {
    assert (es + [e])[..|es|] == es;
    ScheduleIsSerial(s, es + [e]);
  }

  /** A partial resolution whose amount was checked before a refund committed returns all that the
      refund left: what is committed is no longer what the calls do one after the other. */
  lemma PartialBesideRefund(c: Store, staff: Actor, length: nat, amount: int, a: int)
    requires Sound(c.file, c.entries) && staff.staff && length >= MIN_DISPUTE_TEXT
    requires c.file.dispute.Some? && c.file.dispute.value.status == UnderReview
    requires c.file.order.status == OrderStatus.Disputed && c.file.payment.Some?
    requires IssueRefund(c.file, Some(staff), a, true).error.None? && 0 < amount == Left(c.file.payment.value) - a
    ensures var s := Race(c, [Returning(c.file, staff, length, amount), Giving(c.file, staff, a)]);
            Beginning(c, s.procs) && !SerialThroughout(s, REFUND_BETWEEN + [Commit(0)])
  {
    var s := Race(c, [Returning(c.file, staff, length, amount), Giving(c.file, staff, a)]);
    assert Beginning(c, s.procs);
    Begins(c, s.procs);
    BeforeReturning(c, staff, length, amount, a);
    LateAmount(c.file, Refunded(c, staff, a).entries, staff, length, amount, a);
    LateCommit(Run(s, REFUND_BETWEEN), c.file.payment, Some(staff), length, amount);
    NotAllOnTime(s, REFUND_BETWEEN, Commit(0));
  }
}
