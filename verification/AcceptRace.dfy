/** Concurrent acceptances of one request, with every row lock a step of its own: whatever the
    interleaving and whoever is aborted, what is committed is a serial run of the atomic
    acceptances, so at most one of them succeeds. */
module AcceptRace {
  import opened Core
  import opened Acquisition
  import opened AcquisitionInvariant

  /** Accept row k as user `who` (the student for an offer, else the invited expert). */
  datatype Intent = Intent(k: nat, who: UserId, eligible: bool)

  /** select_for_update on the row, then on the request, then the re-check at a moment in time
      and the sibling update, one row at a time. */
  datatype Phase = Start | HasRow | HasBoth | Checked(at: Time) | Committed | Aborted

  /** `visited` siblings have been examined, `closed` ones were pending and are locked and
      rewritten in the uncommitted transaction. */
  datatype Proc = Proc(intent: Intent, phase: Phase, visited: set<nat>, closed: set<nat>)

  /** `store` is what other transactions can read. */
  datatype Race = Race(store: Case, procs: seq<Proc>)

  datatype Event =
    | LockRow(p: nat)
    | LockRequest(p: nat)
    | Recheck(p: nat, now: Time)
    | CloseSibling(p: nat, i: nat)
    | Commit(p: nat)
    | Abort(p: nat)
    | Other(op: Op)

  // --- locks ---------------------------------------------------------------------------------

  predicate Running(phase: Phase) { phase.HasRow? || phase.HasBoth? || phase.Checked? }

  predicate HoldsRow(x: Proc, i: nat) { Running(x.phase) && (i == x.intent.k || i in x.closed) }

  predicate HoldsRequest(x: Proc) { x.phase.HasBoth? || x.phase.Checked? }

  predicate RowFree(s: Race, i: nat) { forall q :: 0 <= q < |s.procs| ==> !HoldsRow(s.procs[q], i) }

  predicate RowFreeFor(s: Race, p: nat, i: nat) {
    forall q :: 0 <= q < |s.procs| && q != p ==> !HoldsRow(s.procs[q], i)
  }

  predicate RequestFree(s: Race) { forall q :: 0 <= q < |s.procs| ==> !HoldsRequest(s.procs[q]) }

  // --- one acceptor ------------------------------------------------------------------------------

  function AcceptOp(c: Case, x: Intent, now: Time): Op
    requires x.k < |c.rows|
  {
    match c.rows[x.k].path
    case Offered => OpAcceptOffer(x.k, x.who, x.eligible)
    case Invited => OpAcceptInvitation(x.k, x.who, x.eligible, now)
    case Assigned => OpAcceptDirect(x.k, x.who, x.eligible, now)
  }

  /** The guards re-evaluated on the locked row and request. */
  predicate Passes(c: Case, x: Intent, now: Time)
    requires x.k < |c.rows|
  {
    var r := c.rows[x.k];
    match r.path
    case Offered =>
      c.request.student == x.who && r.expert != x.who && r.status == Pending && c.request.status == Open && x.eligible
    case _ => ResponseGuard(c, x.k, r.path, x.who, x.eligible, now).None?
  }

  predicate IsSibling(c: Case, k: nat, i: nat) {
    k < |c.rows| && i < |c.rows| && i != k && c.rows[k].path != Assigned && c.rows[i].path == c.rows[k].path
  }

  /** The transaction's writes, applied. */
  function Written(c: Case, k: nat, closed: set<nat>): Case
    requires k < |c.rows|
  {
    var r := c.rows[k];
    var amount := if r.path == Invited && c.request.quote.Some? then c.request.quote.value
                  else if r.price.Some? then r.price.value else 0;
    var currency := if r.path == Invited then c.request.currency else r.currency;
    Case(c.request.(status := Matched),
         seq(|c.rows|, i requires 0 <= i < |c.rows| =>
           if i == k then c.rows[i].(status := Accepted)
           else if i in closed then c.rows[i].(status := Declined)
           else c.rows[i]),
         c.orders + [Placed(r.path, r.expert, amount, currency)])
  }

  function SetProc(s: Race, p: nat, x: Proc): Race
    requires p < |s.procs|
  {
    s.(procs := s.procs[p := x])
  }

  /** The transaction is over and its locks are released. */
  function Ended(x: Proc, phase: Phase): Proc { x.(phase := phase, visited := {}, closed := {}) }

  // --- steps -----------------------------------------------------------------------------------------

  /** Services that lock or rewrite one row only. */
  predicate RowCall(op: Op) { op.OpWithdraw? || op.OpDecline? || op.OpDeclineRow? || op.OpSupersede? }

  /** Services that rewrite the request only. */
  predicate RequestCall(op: Op) {
    op.OpCancelRequest? || op.OpExpireRequest? || op.OpOrderPaid? || op.OpOrderCancelled?
  }

  /** The job that lapses invitations and assignments in one statement, locking those it rewrites. */
  predicate BulkCall(op: Op) { op.OpExpireRows? }

  predicate OtherCall(op: Op) { RowCall(op) || RequestCall(op) || BulkCall(op) }

  predicate Enabled(s: Race, e: Event) {
    match e
    case LockRow(p) =>
      p < |s.procs| && s.procs[p].phase.Start? && s.procs[p].intent.k < |s.store.rows|
      && RowFree(s, s.procs[p].intent.k)
    case LockRequest(p) => p < |s.procs| && s.procs[p].phase.HasRow? && RequestFree(s)
    case Recheck(p, _) => p < |s.procs| && s.procs[p].phase.HasBoth?
    case CloseSibling(p, i) =>
      p < |s.procs| && s.procs[p].phase.Checked? && IsSibling(s.store, s.procs[p].intent.k, i)
      && i !in s.procs[p].visited && RowFreeFor(s, p, i)
    case Commit(p) =>
      p < |s.procs| && s.procs[p].phase.Checked? && s.procs[p].intent.k < |s.store.rows|
      && s.store.rows[s.procs[p].intent.k].expert != s.store.request.student
      && forall i: nat :: i < |s.store.rows| && IsSibling(s.store, s.procs[p].intent.k, i) ==> i in s.procs[p].visited
    case Abort(p) => p < |s.procs| && !s.procs[p].phase.Committed?
    case Other(op) =>
      && OtherCall(op)
      && (RowCall(op) ==> RowFree(s, op.k))
      && (RequestCall(op) || op.OpWithdraw? ==> RequestFree(s))
      && (BulkCall(op) ==> forall i: nat :: i < |s.store.rows| && RowDue(s.store.rows[i], op.now) ==> RowFree(s, i))
  }

  function Next(s: Race, e: Event): Race {
    if !Enabled(s, e) then s
    else
      match e
      case LockRow(p) => SetProc(s, p, s.procs[p].(phase := HasRow))
      case LockRequest(p) => SetProc(s, p, s.procs[p].(phase := HasBoth))
      case Recheck(p, now) =>
        var x := s.procs[p];
        if x.intent.k < |s.store.rows| && Passes(s.store, x.intent, now)
        then SetProc(s, p, x.(phase := Checked(now), visited := {}, closed := {}))
        else SetProc(s, p, Ended(x, Aborted))
      case CloseSibling(p, i) =>
        var x := s.procs[p];
        SetProc(s, p, x.(visited := x.visited + {i},
                         closed := if s.store.rows[i].status == Pending then x.closed + {i} else x.closed))
      case Commit(p) =>
        var x := s.procs[p];
        SetProc(s, p, Ended(x, Committed)).(store := Written(s.store, x.intent.k, x.closed))
      case Abort(p) => SetProc(s, p, Ended(s.procs[p], Aborted))
      case Other(op) => s.(store := Apply(s.store, op, 0).kase)
  }

  function Run(s: Race, es: seq<Event>): Race {
    if es == [] then s else Next(Run(s, es[..|es| - 1]), es[|es| - 1])
  }

  // --- the invariant -------------------------------------------------------------------------------------

  ghost predicate Exclusive(s: Race) {
    && (forall p, q, i: nat :: 0 <= p < q < |s.procs| && HoldsRow(s.procs[p], i) ==> !HoldsRow(s.procs[q], i))
    && (forall p, q :: 0 <= p < q < |s.procs| && HoldsRequest(s.procs[p]) ==> !HoldsRequest(s.procs[q]))
  }

  /** What a running acceptor has read under its locks is still so. */
  ghost predicate Faithful(c: Case, x: Proc) {
    && (Running(x.phase) ==> x.intent.k < |c.rows|)
    && (!x.phase.Checked? ==> x.closed == {})
    && (x.phase.Checked? ==>
          && Passes(c, x.intent, x.phase.at)
          && (forall i: nat :: i in x.visited ==>
                IsSibling(c, x.intent.k, i) && (i in x.closed <==> c.rows[i].status == Pending))
          && x.closed <= x.visited)
  }

  ghost predicate RaceInv(s: Race) {
    && CaseSound(s.store)
    && Exclusive(s)
    && (forall p :: 0 <= p < |s.procs| ==> Faithful(s.store, s.procs[p]))
  }

  /** The atomic acceptance is exactly what the transaction wrote. */
  lemma CommitIsAtomic(c: Case, x: Proc)
    requires CaseSound(c) && Faithful(c, x) && x.phase.Checked?
    requires c.rows[x.intent.k].expert != c.request.student
    requires forall i: nat :: i < |c.rows| && IsSibling(c, x.intent.k, i) ==> i in x.visited
    ensures Apply(c, AcceptOp(c, x.intent, x.phase.at), 0) == Done(Written(c, x.intent.k, x.closed))
  {
    var k := x.intent.k;
    var r := c.rows[k];
    assert HasPrice(r);
    var d := Apply(c, AcceptOp(c, x.intent, x.phase.at), 0);
    assert d.error.None?;
    var w := Written(c, k, x.closed);
    forall i: nat | i < |c.rows| ensures d.kase.rows[i] == w.rows[i] {
      if i != k && IsSibling(c, k, i) {
        assert i in x.visited;
      }
    }
    assert d.kase.rows == w.rows;
  }

  // --- every step keeps it ---------------------------------------------------------------------------------

  /** Acceptor p moves on to x, taking no row or request somebody else holds. */
  lemma ProcStepInv(s: Race, p: nat, x: Proc)
    requires RaceInv(s) && p < |s.procs| && Faithful(s.store, x)
    requires forall i: nat :: HoldsRow(x, i) ==> RowFreeFor(s, p, i)
    requires HoldsRequest(x) ==> forall q :: 0 <= q < |s.procs| && q != p ==> !HoldsRequest(s.procs[q])
    ensures RaceInv(SetProc(s, p, x))
  {
    var t := SetProc(s, p, x);
    assert forall q :: 0 <= q < |s.procs| && q != p ==> t.procs[q] == s.procs[q];
  }

  lemma HeldIsFree(s: Race, p: nat, i: nat)
    requires Exclusive(s) && p < |s.procs| && HoldsRow(s.procs[p], i)
    ensures RowFreeFor(s, p, i)
  {
  }

  /** Steps that only take or release locks. */
  lemma LockStepInv(s: Race, e: Event)
    requires RaceInv(s) && Enabled(s, e)
    requires e.LockRow? || e.LockRequest? || e.Abort? || e.Recheck?
    ensures RaceInv(Next(s, e)) && Next(s, e).store == s.store
  {
    var x, y := s.procs[e.p], Next(s, e).procs[e.p];
    assert Faithful(s.store, x);
    forall i: nat | HoldsRow(y, i) ensures RowFreeFor(s, e.p, i) {
      if HoldsRow(x, i) { HeldIsFree(s, e.p, i); }
    }
    ProcStepInv(s, e.p, y);
  }

  lemma CloseStepInv(s: Race, p: nat, i: nat)
    requires RaceInv(s) && Enabled(s, CloseSibling(p, i))
    ensures RaceInv(Next(s, CloseSibling(p, i))) && Next(s, CloseSibling(p, i)).store == s.store
  {
    var x, y := s.procs[p], Next(s, CloseSibling(p, i)).procs[p];
    assert Faithful(s.store, x);
    forall j: nat | HoldsRow(y, j) ensures RowFreeFor(s, p, j) {
      if HoldsRow(x, j) { HeldIsFree(s, p, j); }
    }
    ProcStepInv(s, p, y);
  }

  /** A commit is the atomic acceptance; nobody else was past the request lock. */
  lemma CommitStepInv(s: Race, p: nat)
    requires RaceInv(s) && Enabled(s, Commit(p))
    ensures RaceInv(Next(s, Commit(p)))
    ensures var x := s.procs[p];
            Next(s, Commit(p)).store == Apply(s.store, AcceptOp(s.store, x.intent, x.phase.at), 0).kase
    ensures |Next(s, Commit(p)).store.orders| == |s.store.orders| + 1
  {
    var x := s.procs[p];
    assert Faithful(s.store, x);
    CommitIsAtomic(s.store, x);
    CaseStep(s.store, AcceptOp(s.store, x.intent, x.phase.at), 0);
    var t := Next(s, Commit(p));
    forall q | 0 <= q < |t.procs| ensures Faithful(t.store, t.procs[q]) {
      assert Faithful(s.store, s.procs[q]);
      if q != p {
        assert !HoldsRequest(s.procs[q]);
      }
    }
  }

  /** A call on a row that x has not locked. */
  lemma RowCallKeepsFaithful(c: Case, op: Op, x: Proc)
    requires Faithful(c, x) && RowCall(op) && !HoldsRow(x, op.k) && (op.OpWithdraw? ==> !HoldsRequest(x))
    ensures Faithful(Apply(c, op, 0).kase, x)
    ensures Apply(c, op, 0).kase.orders == c.orders
  {
  }

  /** A call on a request that x has not locked. */
  lemma RequestCallKeepsFaithful(c: Case, op: Op, x: Proc)
    requires Faithful(c, x) && RequestCall(op) && !HoldsRequest(x)
    ensures Faithful(Apply(c, op, 0).kase, x)
    ensures Apply(c, op, 0).kase.orders == c.orders
  {
  }

  /** The job spares what x has locked; what x left alone was not pending. */
  lemma BulkCallKeepsFaithful(c: Case, op: Op, x: Proc)
    requires Faithful(c, x) && BulkCall(op)
    requires forall i: nat :: i < |c.rows| && RowDue(c.rows[i], op.now) ==> !HoldsRow(x, i)
    ensures Faithful(Apply(c, op, 0).kase, x)
    ensures Apply(c, op, 0).kase.orders == c.orders
  {
    var d := Apply(c, op, 0).kase;
    assert d == ExpireRows(c, op.now);
    if Running(x.phase) {
      assert HoldsRow(x, x.intent.k);
      assert d.rows[x.intent.k] == c.rows[x.intent.k];
    }
    if x.phase.Checked? {
      forall i: nat | i in x.visited
        ensures IsSibling(d, x.intent.k, i) && (i in x.closed <==> d.rows[i].status == Pending)
      {
        assert IsSibling(c, x.intent.k, i);
        if i in x.closed { assert HoldsRow(x, i); }
      }
    }
  }

  /** Another service call leaves what x has locked as it read it. */
  lemma OtherKeepsFaithful(c: Case, op: Op, x: Proc)
    requires Faithful(c, x) && OtherCall(op)
    requires RowCall(op) ==> !HoldsRow(x, op.k)
    requires RequestCall(op) || op.OpWithdraw? ==> !HoldsRequest(x)
    requires BulkCall(op) ==> forall i: nat :: i < |c.rows| && RowDue(c.rows[i], op.now) ==> !HoldsRow(x, i)
    ensures Faithful(Apply(c, op, 0).kase, x)
    ensures Apply(c, op, 0).kase.orders == c.orders
  {
    if RowCall(op) {
      RowCallKeepsFaithful(c, op, x);
    } else if BulkCall(op) {
      BulkCallKeepsFaithful(c, op, x);
    } else {
      RequestCallKeepsFaithful(c, op, x);
    }
  }

  lemma OtherSteps(s: Race, op: Op)
    requires Enabled(s, Other(op)) && forall q :: 0 <= q < |s.procs| ==> Faithful(s.store, s.procs[q])
    ensures var c := Apply(s.store, op, 0).kase;
            c.orders == s.store.orders && forall q :: 0 <= q < |s.procs| ==> Faithful(c, s.procs[q])
  {
    OtherKeepsFaithful(s.store, op, Proc(Intent(0, 0, false), Start, {}, {}));
    forall q | 0 <= q < |s.procs| ensures Faithful(Apply(s.store, op, 0).kase, s.procs[q]) {
      OtherKeepsFaithful(s.store, op, s.procs[q]);
    }
  }

  lemma OtherStepInv(s: Race, op: Op)
    requires RaceInv(s) && Enabled(s, Other(op))
    ensures RaceInv(Next(s, Other(op)))
    ensures Next(s, Other(op)).store.orders == s.store.orders
  {
    CaseStep(s.store, op, 0);
    OtherSteps(s, op);
    assert Next(s, Other(op)).procs == s.procs;
  }

  // --- whole schedules ------------------------------------------------------------------------------------------

  /** The atomic service calls a step amounts to: one for a commit or another call, else none. */
  function Serialized(s: Race, e: Event): seq<Op> {
    if !Enabled(s, e) then []
    else
      match e
      case Commit(p) =>
        [AcceptOp(s.store, s.procs[p].intent, s.procs[p].phase.at)]
      case Other(op) => [op]
      case _ => []
  }

  function Serial(s: Race, es: seq<Event>): seq<Op> {
    if es == [] then []
    else Serial(s, es[..|es| - 1]) + Serialized(Run(s, es[..|es| - 1]), es[|es| - 1])
  }

  function Replay(c: Case, ops: seq<Op>): Case {
    if ops == [] then c else Apply(Replay(c, ops[..|ops| - 1]), ops[|ops| - 1], 0).kase
  }

  lemma ReplayOne(c: Case, ops: seq<Op>, op: Op)
    ensures Replay(c, ops + [op]) == Apply(Replay(c, ops), op, 0).kase
  {
    assert (ops + [op])[..|ops|] == ops;
  }

  function Winners(procs: seq<Proc>): nat {
    if procs == [] then 0
    else Winners(procs[..|procs| - 1]) + if procs[|procs| - 1].phase.Committed? then 1 else 0
  }

  lemma {:induction false} WinnersUpdate(procs: seq<Proc>, p: nat, x: Proc)
    requires p < |procs|
    ensures Winners(procs[p := x]) + (if procs[p].phase.Committed? then 1 else 0)
            == Winners(procs) + if x.phase.Committed? then 1 else 0
  {
    var n := |procs| - 1;
    if p == n {
      assert procs[p := x][..n] == procs[..n];
    } else {
      assert procs[p := x][..n] == procs[..n][p := x];
      WinnersUpdate(procs[..n], p, x);
    }
  }

  /** Each commit wins one order; nothing else does. */
  lemma StepWinners(s: Race, e: Event)
    requires RaceInv(s)
    ensures RaceInv(Next(s, e))
    ensures Winners(Next(s, e).procs) - Winners(s.procs) == |Next(s, e).store.orders| - |s.store.orders|
  {
    if Enabled(s, e) {
      match e
      case Commit(p) =>
        CommitStepInv(s, p);
        WinnersUpdate(s.procs, p, Next(s, e).procs[p]);
      case CloseSibling(p, i) =>
        CloseStepInv(s, p, i);
        WinnersUpdate(s.procs, p, Next(s, e).procs[p]);
      case Other(op) => OtherStepInv(s, op);
      case _ =>
        LockStepInv(s, e);
        WinnersUpdate(s.procs, e.p, Next(s, e).procs[e.p]);
    }
  }

  lemma StepSerial(s: Race, e: Event, c: Case, ops: seq<Op>)
    requires RaceInv(s) && s.store == Replay(c, ops)
    ensures Next(s, e).store == Replay(c, ops + Serialized(s, e))
  {
    assert ops + [] == ops;
    if Enabled(s, e) {
      match e
      case Commit(p) =>
        CommitStepInv(s, p);
        ReplayOne(c, ops, Serialized(s, e)[0]);
      case CloseSibling(p, i) => CloseStepInv(s, p, i);
      case Other(op) => ReplayOne(c, ops, op);
      case _ => LockStepInv(s, e);
    }
  }

  /** Every schedule is equivalent to the serial run of the atomic services it commits. */
  lemma {:induction false} ScheduleIsSerial(s: Race, es: seq<Event>)
    requires RaceInv(s)
    ensures RaceInv(Run(s, es))
    ensures Run(s, es).store == Replay(s.store, Serial(s, es))
    ensures Winners(Run(s, es).procs) - Winners(s.procs) == |Run(s, es).store.orders| - |s.store.orders|
  {
    if es != [] {
      var front := es[..|es| - 1];
      ScheduleIsSerial(s, front);
      StepWinners(Run(s, front), es[|es| - 1]);
      StepSerial(Run(s, front), es[|es| - 1], s.store, Serial(s, front));
    }
  }

  /** N acceptors, any interleaving, any aborts: at most one commits, and only if the request
      had no order before; the request ends with one order per winner. */
  lemma AtMostOneWinner(c: Case, intents: seq<Intent>, es: seq<Event>)
    requires CaseSound(c)
    ensures var start := Race(c, seq(|intents|, i requires 0 <= i < |intents| => Proc(intents[i], Start, {}, {})));
            var end := Run(start, es);
            && Winners(end.procs) + |c.orders| == |end.store.orders| <= 1
            && CaseSound(end.store)
            && end.store == Replay(c, Serial(start, es))
  {
    var start := Race(c, seq(|intents|, i requires 0 <= i < |intents| => Proc(intents[i], Start, {}, {})));
    assert RaceInv(start);
    NobodyWon(start.procs);
    ScheduleIsSerial(start, es);
  }

  lemma {:induction false} NobodyWon(procs: seq<Proc>)
    requires forall p :: 0 <= p < |procs| ==> !procs[p].phase.Committed?
    ensures Winners(procs) == 0
  {
    if procs != [] {
      NobodyWon(procs[..|procs| - 1]);
    }
  }

  // --- without contention --------------------------------------------------------------------------------------

  /** Visit the rows below n in order. */
  function Visits(n: nat): seq<Event> {
    if n == 0 then [] else Visits(n - 1) + [CloseSibling(0, n - 1)]
  }

  /** What an acceptor that nobody disturbs does. */
  function Alone(c: Case, now: Time): seq<Event> {
    [LockRow(0), LockRequest(0), Recheck(0, now)] + Visits(|c.rows|) + [Commit(0)]
  }

  lemma RunAppend(s: Race, es: seq<Event>, e: Event)
    ensures Run(s, es + [e]) == Next(Run(s, es), e)
  {
    assert (es + [e])[..|es|] == es;
  }

  lemma {:induction false} RunConcat(s: Race, es: seq<Event>, fs: seq<Event>)
    ensures Run(s, es + fs) == Run(Run(s, es), fs)
  {
    if fs == [] {
      assert es + fs == es;
    } else {
      var front, f := fs[..|fs| - 1], fs[|fs| - 1];
      assert es + fs == (es + front) + [f];
      RunAppend(s, es + front, f);
      RunConcat(s, es, front);
    }
  }

  /** The siblings below n, and only they, have been visited. */
  ghost predicate VisitedBelow(c: Case, x: Intent, at: Time, t: Race, n: nat) {
    && t.store == c && |t.procs| == 1
    && t.procs[0].intent == x && t.procs[0].phase == Checked(at)
    && forall i: nat :: i in t.procs[0].visited <==> i < n && IsSibling(c, x.k, i)
  }

  lemma VisitOne(c: Case, x: Intent, at: Time, t: Race, n: nat)
    requires VisitedBelow(c, x, at, t, n) && n < |c.rows|
    ensures VisitedBelow(c, x, at, Next(t, CloseSibling(0, n)), n + 1)
  {
    var y := Next(t, CloseSibling(0, n)).procs[0];
    if IsSibling(c, x.k, n) {
      assert Enabled(t, CloseSibling(0, n));
      assert y.visited == t.procs[0].visited + {n};
    }
  }

  lemma VisitNext(c: Case, x: Intent, at: Time, s: Race, n: nat)
    requires n < |c.rows| && VisitedBelow(c, x, at, Run(s, Visits(n)), n)
    ensures VisitedBelow(c, x, at, Run(s, Visits(n + 1)), n + 1)
  {
    RunAppend(s, Visits(n), CloseSibling(0, n));
    VisitOne(c, x, at, Run(s, Visits(n)), n);
  }

  lemma {:induction false} VisitsAll(c: Case, x: Intent, at: Time, s: Race, n: nat)
    requires VisitedBelow(c, x, at, s, 0) && n <= |c.rows|
    ensures VisitedBelow(c, x, at, Run(s, Visits(n)), n)
  {
    if n > 0 {
      VisitsAll(c, x, at, s, n - 1);
      VisitNext(c, x, at, s, n - 1);
    }
  }

  lemma {:induction false} VisitsIdle(s: Race, n: nat)
    requires |s.procs| == 1 && !s.procs[0].phase.Checked?
    ensures Run(s, Visits(n)) == s
  {
    if n > 0 {
      VisitsIdle(s, n - 1);
      RunAppend(s, Visits(n - 1), CloseSibling(0, n - 1));
    }
  }

  /** When the re-check fails, so does the atomic call. */
  lemma RefusedAtomically(c: Case, x: Intent, now: Time)
    requires x.k < |c.rows|
    requires !Passes(c, x, now) || c.rows[x.k].expert == c.request.student
    ensures Apply(c, AcceptOp(c, x, now), 0).kase == c
  {
  }

  lemma LocksAlone(c: Case, x: Intent, now: Time)
    requires x.k < |c.rows|
    ensures var s := Run(Race(c, [Proc(x, Start, {}, {})]), [LockRow(0), LockRequest(0), Recheck(0, now)]);
            s == Race(c, [Proc(x, if Passes(c, x, now) then Checked(now) else Aborted, {}, {})])
  {
    var s := Race(c, [Proc(x, Start, {}, {})]);
    var s1, s2 := Next(s, LockRow(0)), Next(Next(s, LockRow(0)), LockRequest(0));
    assert s1 == Race(c, [Proc(x, HasRow, {}, {})]);
    assert s2 == Race(c, [Proc(x, HasBoth, {}, {})]);
    assert Run(s, []) == s;
    RunAppend(s, [], LockRow(0));
    RunAppend(s, [LockRow(0)], LockRequest(0));
    RunAppend(s, [LockRow(0), LockRequest(0)], Recheck(0, now));
    assert [] + [LockRow(0)] == [LockRow(0)];
    assert [LockRow(0)] + [LockRequest(0)] == [LockRow(0), LockRequest(0)];
    assert [LockRow(0), LockRequest(0)] + [Recheck(0, now)] == [LockRow(0), LockRequest(0), Recheck(0, now)];
  }

  lemma CommitAlone(c: Case, x: Intent, now: Time, t: Race)
    requires RaceInv(t) && VisitedBelow(c, x, now, t, |c.rows|) && x.k < |c.rows|
    ensures Next(t, Commit(0)).store == Apply(c, AcceptOp(c, x, now), 0).kase
  {
    assert Faithful(t.store, t.procs[0]);
    if c.rows[x.k].expert == c.request.student {
      RefusedAtomically(c, x, now);
    } else {
      assert Enabled(t, Commit(0));
      CommitStepInv(t, 0);
    }
  }

  /** The run is the locks, then the visits, then the commit. */
  lemma AloneRun(c: Case, x: Intent, now: Time)
    requires CaseSound(c) && x.k < |c.rows|
    ensures var s := Race(c, [Proc(x, if Passes(c, x, now) then Checked(now) else Aborted, {}, {})]);
            var t := Run(s, Visits(|c.rows|));
            RaceInv(t) && Run(Race(c, [Proc(x, Start, {}, {})]), Alone(c, now)) == Next(t, Commit(0))
  {
    var start, locks := Race(c, [Proc(x, Start, {}, {})]), [LockRow(0), LockRequest(0), Recheck(0, now)];
    LocksAlone(c, x, now);
    RunConcat(start, locks, Visits(|c.rows|));
    RunAppend(start, locks + Visits(|c.rows|), Commit(0));
    assert RaceInv(start);
    ScheduleIsSerial(start, locks + Visits(|c.rows|));
  }

  /** The protocol loses nothing: undisturbed, its steps do exactly what the atomic acceptance
      does, success and refusal alike. */
  lemma AloneIsAtomic(c: Case, x: Intent, now: Time)
    requires CaseSound(c) && x.k < |c.rows|
    ensures Run(Race(c, [Proc(x, Start, {}, {})]), Alone(c, now)).store == Apply(c, AcceptOp(c, x, now), 0).kase
  {
    var s := Race(c, [Proc(x, if Passes(c, x, now) then Checked(now) else Aborted, {}, {})]);
    AloneRun(c, x, now);
    if Passes(c, x, now) {
      VisitsAll(c, x, now, s, |c.rows|);
      CommitAlone(c, x, now, Run(s, Visits(|c.rows|)));
    } else {
      VisitsIdle(s, |c.rows|);
      RefusedAtomically(c, x, now);
    }
  }
}
