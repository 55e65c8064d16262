/** The running backend: mutable tables, one transaction per service call, webhook ingestion
    and the batch workers. Each method is proved against the platform's specification. */
module Backend {
  import opened Core
  import opened Ledger
  import opened Money
  import opened OrderFile
  import opened OrderSteps
  import opened OrderInvariant
  import opened OrderPromises
  import opened Platform
  import opened Sessions

  // --- what the workers select ----------------------------------------------------------

  /** Delivered and past its review deadline. */
  predicate Due(f: File, now: Time) {
    f.order.status == Delivered && f.order.autoApproveAt.Some? && f.order.autoApproveAt.value <= now
  }

  /** The sweeper's query: payment SUCCEEDED, order completed, no payout, no open dispute. */
  predicate Sweepable(f: File) {
    && f.payment.Some? && f.payment.value.status == Succeeded
    && f.order.status == Completed && f.payouts == [] && !f.order.hasOpenDispute
  }

  /** The ids of the rows that satisfy p, in table order. */
  function Select(files: seq<File>, p: File -> bool): (ids: seq<OrderId>)
    ensures forall o: OrderId :: o in ids <==> o < |files| && p(files[o])
    ensures forall i, j :: 0 <= i < j < |ids| ==> ids[i] != ids[j]
  {
    if files == [] then []
    else
      var n := |files| - 1;
      var front := Select(files[..n], p);
      assert forall o: OrderId :: o < n ==> files[..n][o] == files[o];
      assert forall o: OrderId :: o in front <==> o < n && p(files[o]);
      assert forall i :: 0 <= i < |front| ==> front[i] in front;
      if p(files[n]) then front + [n] else front
  }

  lemma SelectNone(files: seq<File>, p: File -> bool)
    requires forall f <- files :: !p(f)
    ensures Select(files, p) == []
  {
    if Select(files, p) != [] {
      assert Select(files, p)[0] in Select(files, p);
    }
  }

  /** What the worker checks again once it holds the row: the deadline itself is not compared. */
  predicate Rechecked(f: File) { f.order.status == Delivered && f.order.autoApproveAt.Some? }

  /** The rows after the worker's approval of a delivered order, which is never refused. */
  function AutoApproval(f: File, l: seq<Entry>, floor: int, at: Time): (g: File)
    requires f.order.status == Delivered
    ensures var s := ApproveDelivery(f, l, ByWorker, floor, at);
            s == Step(g, [], None) && g.order.status == Completed
  {
    ApproveDelivery(f, l, ByWorker, floor, at).file
  }

  lemma {:induction false} PositiveRefundSum(rows: seq<RefundRow>)
    requires RefundRowsPositive(rows)
    ensures RefundSum(rows) >= 0 && (rows != [] ==> RefundSum(rows) > 0)
  {
    if rows != [] {
      assert forall r <- rows[..|rows| - 1] :: r in rows;
      assert rows[|rows| - 1] in rows;
      PositiveRefundSum(rows[..|rows| - 1]);
    }
  }

  /** The sweeper selects exactly the completed, dispute-free orders without a payout of which
      nothing was ever refunded. */
  lemma SweepableExactly(f: File)
    requires Rows(f)
    ensures Sweepable(f)
            <==> f.order.status == Completed && f.payouts == [] && !f.order.hasOpenDispute && f.refunds == []
  {
    PositiveRefundSum(f.refunds);
  }

  /** The rows after schedule_payout on an order the sweeper selected. */
  lemma SweptRows(f: File, l: seq<Entry>, floor: int)
    requires Sweepable(f)
    ensures SchedulePayout(f, l, floor) == Step(WithPayout(f, l, floor), [], None)
    ensures WithPayout(f, l, floor).payouts != [] <==> Total(l, ExpertCredit) >= floor
  {
  }

  /** schedule_payout on each of the orders in turn. */
  function SweepAll(files: seq<File>, l: seq<Entry>, ids: seq<OrderId>, floor: int): (out: seq<File>)
    ensures |out| == |files|
  {
    if ids == [] then files
    else
      var o, before := ids[|ids| - 1], SweepAll(files, l, ids[..|ids| - 1], floor);
      if o < |before| then before[o := WithPayout(before[o], Of(l, o), floor)] else before
  }

  lemma {:induction false} SweepAllAt(files: seq<File>, l: seq<Entry>, ids: seq<OrderId>, floor: int, o: OrderId)
    requires forall i, j :: 0 <= i < j < |ids| ==> ids[i] != ids[j]
    requires o < |files|
    ensures SweepAll(files, l, ids, floor)[o] == if o in ids then WithPayout(files[o], Of(l, o), floor) else files[o]
  {
    if ids != [] {
      var front, last := ids[..|ids| - 1], ids[|ids| - 1];
      assert ids == front + [last];
      SweepAllAt(files, l, front, floor, o);
    }
  }

  /** The tables' orders after a run of the sweeper. */
  function Swept(w: World, floor: int): seq<File> {
    SweepAll(w.files, w.ledger, Select(w.files, f => Sweepable(f)), floor)
  }

  lemma SweptAt(w: World, floor: int, o: OrderId)
    requires o < |w.files|
    ensures Swept(w, floor)[o]
            == if Sweepable(w.files[o]) then WithPayout(w.files[o], Entries(w, o), floor) else w.files[o]
  {
    SweepAllAt(w.files, w.ledger, Select(w.files, f => Sweepable(f)), floor, o);
  }

  /** What the sweeper leaves without a payout: of the completed, dispute-free orders that had
      none, exactly those with a refund or with a balance below the floor. */
  lemma UnpaidAfterSweep(w: World, floor: int, o: OrderId)
    requires WorldSound(w) && o < |w.files|
    requires w.files[o].order.status == Completed && !w.files[o].order.hasOpenDispute
    ensures Swept(w, floor)[o].payouts == []
            <==> w.files[o].payouts == []
                 && (w.files[o].refunds != [] || Total(Entries(w, o), ExpertCredit) < floor)
  {
    assert OrderSound(w, o);
    SweptAt(w, floor, o);
    if w.files[o].payouts == [] {
      SweepableExactly(w.files[o]);
    }
  }

  /** The same of every reachable state. */
  lemma UnpaidAfterAnySweep(cs: seq<Command>, floor: int, o: OrderId)
    requires o < |Run(START, cs).files|
    requires Run(START, cs).files[o].order.status == Completed && !Run(START, cs).files[o].order.hasOpenDispute
    ensures var w := Run(START, cs);
            Swept(w, floor)[o].payouts == []
            <==> w.files[o].payouts == []
                 && (w.files[o].refunds != [] || Total(Entries(w, o), ExpertCredit) < floor)
  {
    ReachableSound(cs);
    UnpaidAfterSweep(Run(START, cs), floor, o);
  }

  /** How many of the orders have a credit balance at or above the floor. */
  function AtFloor(ids: seq<OrderId>, l: seq<Entry>, floor: int): nat {
    if ids == [] then 0
    else
      AtFloor(ids[..|ids| - 1], l, floor)
      + if Total(Of(l, ids[|ids| - 1]), ExpertCredit) >= floor then 1 else 0
  }

  /** One more order of the sweep: it is still as selected, and the count moves by it. */
  lemma SweepNext(files: seq<File>, l: seq<Entry>, todo: seq<OrderId>, floor: int, i: nat)
    requires forall j, k :: 0 <= j < k < |todo| ==> todo[j] != todo[k]
    requires i < |todo| && todo[i] < |files|
    ensures var o, before := todo[i], SweepAll(files, l, todo[..i], floor);
            && before[o] == files[o]
            && SweepAll(files, l, todo[..i + 1], floor) == before[o := WithPayout(files[o], Of(l, o), floor)]
    ensures AtFloor(todo[..i + 1], l, floor)
            == AtFloor(todo[..i], l, floor) + if Total(Of(l, todo[i]), ExpertCredit) >= floor then 1 else 0
  {
    var o := todo[i];
    assert o in todo && o !in todo[..i];
    assert todo[..i + 1] == todo[..i] + [o] && todo[..i + 1][..i] == todo[..i];
    SweepAllAt(files, l, todo[..i], floor, o);
  }

  class Backend {
    var files: seq<File>
    var ledger: seq<Entry>
    var hooks: map<EventId, Hook>

    constructor ()
      ensures Snapshot() == START
    {
      files, ledger, hooks := [], [], map[];
    }

    function Snapshot(): World
      reads this
    {
      World(files, ledger, hooks)
    }

    method CreateOrder(request: nat, student: UserId, expert: UserId, amount: int, currency: string, rate: int,
                       now: Time)
      returns (error: Option<Error>)
      modifies `files
      ensures Snapshot() == Exec(old(Snapshot()), Create(request, student, expert, amount, currency, rate, now))
      ensures error.None? <==> amount >= 500 && student != expert && 0 <= rate <= 10_000
      ensures error.Some? ==> files == old(files) && (error == Some(SelfDealing) <==> student == expert)
      ensures error.None? ==>
                && |files| == |old(files)| + 1 && files[..|old(files)|] == old(files)
                && var f := files[|old(files)|];
                   var o := f.order;
                   && f.id == |old(files)| && o.request == request && o.student == student && o.expert == expert
                   && o.amount == amount && o.currency == currency && o.status == AwaitingPayment
                   && SplitAt(amount, rate, o.commissionAmount, o.expertAmount)
    {
      if student == expert {
        return Some(SelfDealing);
      }
      if amount < MIN_OFFER_MINOR || !(0 <= rate <= RATE_UNIT) {
        return Some(ValidationError);
      }
      files := files + [NewFile(|files|, request, student, expert, amount, currency, rate, now)];
      NewOrder(|files| - 1, request, student, expert, amount, currency, rate, now);
      return None;
    }

    /** One service call: fetch the order's rows, run the transaction, save. */
    method Call(o: OrderId, op: Op) returns (error: Option<Error>)
      modifies `files, `ledger
      ensures Snapshot() == Exec(old(Snapshot()), On(o, op))
      ensures o >= |old(files)| ==> error == Some(NotFound)
      ensures o < |old(files)| ==> error == OrderStep(old(Snapshot()), o, op).error
    {
      if o >= |files| {
        return Some(NotFound);
      }
      var s := new Session(files[o], Of(ledger, o));
      error := s.Serve(op);
      files, ledger := files[o := s.Rows()], ledger + s.posted;
    }

    // --- webhooks ----------------------------------------------------------------------------

    /** Find the row an event concerns and run its handler; tells whether it succeeded. */
    method Handle(content: Content, accepted: bool, now: Time) returns (ok: bool)
      modifies `files, `ledger
      ensures Snapshot() == Handled(old(Snapshot()), content, accepted, now)
      ensures ok == HandlerOutcome(old(Snapshot()), content, accepted, now).Processed?
    {
      var error := None;
      match content {
        case PaySucceeded(r) =>
          if !Matches(Snapshot(), r) {
            return false;
          }
          error := Call(r.order, OpSucceededEvent(accepted, now));
        case PayFailed(r) =>
          if Matches(Snapshot(), r) {
            error := Call(r.order, OpFailedEvent);
          }
        case RefundDone(o, k) =>
          if o < |files| {
            error := Call(o, OpRefundEvent(k));
          }
        case Unhandled =>
          return false;
      }
      return error.None?;
    }

    /** webhooks.ingest after signature verification; tells whether the event was processed now. */
    method IngestEvent(id: EventId, content: Content, accepted: bool, now: Time) returns (processedNow: bool)
      modifies this
      ensures Snapshot() == Exec(old(Snapshot()), Ingest(id, content, accepted, now))
      ensures processedNow <==> !(id in old(hooks) && old(hooks)[id].status == Processed)
    {
      var stored := content;
      if id in hooks {
        if hooks[id].status == Processed {
          return false;
        }
        stored := hooks[id].content;
      }
      var ok := Handle(content, accepted, now);
      hooks := hooks[id := Hook(stored, if ok then Processed else HookFailed)];
      return true;
    }

    method RedeliverEvent(id: EventId, accepted: bool, now: Time)
      modifies this
      ensures Snapshot() == Exec(old(Snapshot()), Redeliver(id, accepted, now))
    {
      if id in hooks {
        var content := hooks[id].content;
        var ok := Handle(content, accepted, now);
        hooks := hooks[id := Hook(content, if ok then Processed else HookFailed)];
      }
    }

    /** A call that posts nothing rewrites the rows of its own order only. */
    method QuietCall(o: OrderId, op: Op) returns (error: Option<Error>)
      requires o < |files| && OrderStep(Snapshot(), o, op).posted == []
      modifies `files, `ledger
      ensures ledger == old(ledger)
      ensures var s := Apply(old(files)[o], Of(ledger, o), op);
              files == old(files)[o := s.file] && error == s.error
      ensures WorldSound(old(Snapshot())) ==> WorldSound(Snapshot())
    {
      error := Call(o, op);
      assert old(ledger) + [] == old(ledger);
      if WorldSound(old(Snapshot())) {
        ExecSound(old(Snapshot()), On(o, op));
      }
    }

    // --- batch workers -------------------------------------------------------------------------

    /** One transaction of the worker: skips what is no longer delivered with a deadline. */
    method ApproveOne(o: OrderId, at: Time, floor: int) returns (done: bool)
      requires o < |files|
      modifies `files, `ledger
      ensures ledger == old(ledger) && (done <==> Rechecked(old(files)[o]))
      ensures files == old(files)[o := if Rechecked(old(files)[o])
                                       then AutoApproval(old(files)[o], Of(ledger, o), floor, at) else old(files)[o]]
      ensures WorldSound(old(Snapshot())) ==> WorldSound(Snapshot())
    {
      if files[o].order.status != Delivered || files[o].order.autoApproveAt.None? {
        return false;
      }
      ghost var expected := AutoApproval(files[o], Of(ledger, o), floor, at);
      var error := QuietCall(o, OpApprove(ByWorker, floor, at));
      return error.None?;
    }

    /** The worker's loop: one transaction per id; `at` is the clock each of them reads. */
    method ApproveEach(ids: seq<OrderId>, at: OrderId -> Time, floor: int) returns (approved: nat)
      requires forall i, j :: 0 <= i < j < |ids| ==> ids[i] != ids[j]
      requires forall o <- ids :: o < |files|
      modifies `files, `ledger
      ensures approved <= |ids| && |files| == |old(files)| && ledger == old(ledger)
      ensures forall o: OrderId :: o < |files| ==>
                files[o] == if o in ids && Rechecked(old(files)[o])
                            then AutoApproval(old(files)[o], Of(ledger, o), floor, at(o)) else old(files)[o]
      ensures (forall o <- ids :: Rechecked(old(files)[o])) ==> approved == |ids|
      ensures WorldSound(old(Snapshot())) ==> WorldSound(Snapshot())
    {
      approved := 0;
      for i := 0 to |ids|
        invariant approved <= i && |files| == |old(files)| && ledger == old(ledger)
        invariant forall o: OrderId :: o < |files| ==>
                    files[o] == if o in ids[..i] && Rechecked(old(files)[o])
                                then AutoApproval(old(files)[o], Of(ledger, o), floor, at(o)) else old(files)[o]
        invariant (forall o <- ids :: Rechecked(old(files)[o])) ==> approved == i
        invariant WorldSound(old(Snapshot())) ==> WorldSound(Snapshot())
      {
        var o := ids[i];
        assert o in ids && o !in ids[..i];
        assert ids[..i + 1] == ids[..i] + [o];
        var done := ApproveOne(o, at(o), floor);
        if done {
          approved := approved + 1;
        }
      }
      assert ids[..|ids|] == ids;
    }

    /** Approve every delivered order past its deadline: each due order is completed as by the
        worker's own approval, no other order changes, and nothing is due afterwards - so a
        second run returns 0. */
    method AutoApproveDue(now: Time, at: OrderId -> Time, floor: int) returns (approved: nat)
      modifies `files, `ledger
      ensures |files| == |old(files)| && ledger == old(ledger)
      ensures forall o: OrderId :: o < |files| ==>
                files[o] == if Due(old(files)[o], now) then AutoApproval(old(files)[o], Of(ledger, o), floor, at(o))
                            else old(files)[o]
      ensures forall o: OrderId :: o < |files| && Due(old(files)[o], now) ==> files[o].order.status == Completed
      ensures approved == |Select(old(files), f => Due(f, now))|
      ensures Select(files, f => Due(f, now)) == []
      ensures WorldSound(old(Snapshot())) ==> WorldSound(Snapshot())
    {
      var due := Select(files, f => Due(f, now));
      approved := ApproveEach(due, at, floor);
      SelectNone(files, f => Due(f, now));
    }

    /** Cancel every order left unpaid for 72 hours, and no other. */
    method SweepUnpaidOrders(now: Time) returns (count: nat)
      modifies `files, `ledger
      ensures |files| == |old(files)| && ledger == old(ledger)
      ensures forall o: OrderId :: o < |files| ==> files[o] == SweepUnpaid(old(files)[o], now).file
      ensures forall o: OrderId :: o < |files| && !UnpaidTooLong(old(files)[o], now) ==> files[o] == old(files)[o]
      ensures forall o: OrderId :: o < |files| && UnpaidTooLong(old(files)[o], now) ==>
                                     files[o].order.status == Cancelled
      ensures count == |Select(old(files), f => UnpaidTooLong(f, now))|
      ensures Select(files, f => UnpaidTooLong(f, now)) == []
    {
      ghost var before := files;
      var stale := Select(files, f => UnpaidTooLong(f, now));
      count := 0;
      for i := 0 to |stale|
        invariant count == i
        invariant |files| == |before| && ledger == old(ledger)
        invariant forall o: OrderId :: o < |files| ==>
                    files[o] == (if o in stale[..i] then SweepUnpaid(before[o], now).file else before[o])
      {
        var o := stale[i];
        assert o in stale && o !in stale[..i];
        assert stale[..i + 1] == stale[..i] + [o];
        var error := QuietCall(o, OpSweep(now));
        count := count + 1;
      }
      assert stale[..|stale|] == stale;
      SelectNone(files, f => UnpaidTooLong(f, now));
    }

    /** schedule_payout on one selected order; tells whether it now has a payout. */
    method ScheduleOne(o: OrderId, floor: int) returns (scheduled: bool)
      requires o < |files| && Sweepable(files[o])
      modifies `files, `ledger
      ensures ledger == old(ledger)
      ensures files == old(files)[o := WithPayout(old(files)[o], Of(ledger, o), floor)]
      ensures scheduled <==> Total(Of(ledger, o), ExpertCredit) >= floor
    {
      SweptRows(files[o], Of(ledger, o), floor);
      var error := QuietCall(o, OpSchedule(floor));
      scheduled := files[o].payouts != [];
    }

    /** The sweeper's loop: one transaction per selected order. */
    method ScheduleEach(todo: seq<OrderId>, floor: int) returns (created: nat)
      requires forall i, j :: 0 <= i < j < |todo| ==> todo[i] != todo[j]
      requires forall o <- todo :: o < |files| && Sweepable(files[o])
      modifies `files, `ledger
      ensures ledger == old(ledger) && files == SweepAll(old(files), ledger, todo, floor)
      ensures created == AtFloor(todo, ledger, floor)
    {
      created := 0;
      ghost var before := files;
      for i := 0 to |todo|
        invariant ledger == old(ledger) && files == SweepAll(before, ledger, todo[..i], floor)
        invariant created == AtFloor(todo[..i], ledger, floor)
      {
        assert todo[i] in todo;
        SweepNext(before, ledger, todo, floor, i);
        var scheduled := ScheduleOne(todo[i], floor);
        if scheduled {
          created := created + 1;
        }
      }
      assert todo[..|todo|] == todo;
    }

    /** Schedule the missing payouts: each selected order at or above the floor gets one, of
        exactly its balance, and nothing else changes. Of a sound platform's completed,
        dispute-free orders those left without are exactly the ones that had none and were
        refunded something or are owed less than the floor. */
    method PayoutSweeper(floor: int) returns (created: nat)
      modifies `files, `ledger
      ensures |files| == |old(files)| && ledger == old(ledger) && files == Swept(old(Snapshot()), floor)
      ensures forall o: OrderId :: o < |files| ==>
                var f, credit := old(files)[o], Total(Of(ledger, o), ExpertCredit);
                files[o] == if Sweepable(f) && credit >= floor
                            then f.(payouts := [PayoutRow(f.order.expert, credit, Scheduled)]) else f
      ensures WorldSound(old(Snapshot())) ==>
                forall o: OrderId ::
                  o < |files| && files[o].order.status == Completed && !files[o].order.hasOpenDispute ==>
                  (files[o].payouts == []
                   <==> old(files)[o].payouts == []
                        && (files[o].refunds != [] || Total(Of(ledger, o), ExpertCredit) < floor))
      ensures created == AtFloor(Select(old(files), f => Sweepable(f)), ledger, floor)
    {
      var todo := Select(files, f => Sweepable(f));
      ghost var before := Snapshot();
      created := ScheduleEach(todo, floor);
      forall o: OrderId | o < |files|
        ensures files[o]
                == if Sweepable(before.files[o]) then WithPayout(before.files[o], Of(ledger, o), floor)
                   else before.files[o]
        ensures WorldSound(before) && files[o].order.status == Completed && !files[o].order.hasOpenDispute ==>
                  (files[o].payouts == []
                   <==> before.files[o].payouts == []
                        && (files[o].refunds != [] || Total(Of(ledger, o), ExpertCredit) < floor))
      {
        SweptAt(before, floor, o);
        if WorldSound(before) && files[o].order.status == Completed && !files[o].order.hasOpenDispute {
          UnpaidAfterSweep(before, floor, o);
        }
      }
    }
  }

  /** A delivered order is due exactly from 72 hours after its last delivery on. */
  lemma DueExactly(f: File, now: Time)
    requires Rows(f)
    ensures Due(f, now)
            <==> f.order.status == Delivered
                 && f.deliveries != [] && f.deliveries[|f.deliveries| - 1].submittedAt + 259_200 <= now
  {
  }

  /** No order is due before 72 hours from its last delivery. */
  lemma NeverEarly(cs: seq<Command>, o: OrderId, now: Time)
    requires o < |Run(START, cs).files| && Due(Run(START, cs).files[o], now)
    ensures var ds := Run(START, cs).files[o].deliveries;
            ds != [] && ds[|ds| - 1].submittedAt + AUTO_APPROVE <= now
  {
    ReachableSound(cs);
    assert OrderSound(Run(START, cs), o);
  }
}
