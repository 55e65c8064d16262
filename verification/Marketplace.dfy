/** The whole marketplace: requests and their offers on one side, orders and their money on the
    other. An acceptance calls the order factory; an order's life feeds back into its request. */
module Marketplace {
  import opened Core
  import opened Money
  import opened OrderFile
  import L = Ledger
  import OS = OrderSteps
  import opened OrderInvariant
  import opened OrderBooks
  import A = Acquisition
  import AI = AcquisitionInvariant
  import M = Market
  import P = Platform
  import R = Runs
  import opened OrderPromises

  datatype System = System(market: seq<A.Case>, world: P.World)

  const EMPTY := System([], P.START)

  datatype Command =
    | Ask(student: UserId, mode: A.Mode, complete: bool, currency: string)
    | Negotiate(request: nat, op: A.Op, rate: int, now: Time)
    | Serve(command: P.Command)

  /** The follow-ups are not services of their own. */
  predicate FollowUpOp(op: A.Op) { op.OpOrderPaid? || op.OpOrderCompleted? || op.OpOrderCancelled? }

  /** The order factory is called with what the acceptance recorded. */
  function Factory(c: A.Case, q: nat, rate: int, now: Time): P.Command
    requires c.orders != []
  {
    var o := c.orders[|c.orders| - 1];
    P.Create(q, c.request.student, o.expert, o.amount, o.currency, rate, now)
  }

  /** The order a command concerns, if it exists. */
  function Touched(w: P.World, c: P.Command): Option<nat> {
    match c
    case Create(_, _, _, _, _, _, _) => None
    case On(o, _) => if o < |w.files| then Some(o) else None
    case Ingest(id, content, accepted, at) =>
      if id in w.hooks && w.hooks[id].status.Processed? then None else Handles(w, content, accepted, at)
    case Redeliver(id, accepted, at) =>
      if id in w.hooks then Handles(w, w.hooks[id].content, accepted, at) else None
  }

  function Handles(w: P.World, content: P.Content, accepted: bool, at: Time): Option<nat> {
    match P.HandlerOp(w, content, accepted, at)
    case Some((o, _)) => if o < |w.files| then Some(o) else None
    case None => None
  }

  /** What a change of the order's rows from f to g does to its request. */
  function FollowUp(k: A.Case, f: File, g: File, c: P.Command): A.Case {
    if f.order.paidAt.None? && g.order.paidAt.Some? then A.OrderPaid(k)
    else if c.On? && c.op.OpApprove? && f.order.status != g.order.status then A.OrderCompleted(k)
    else if c.On? && c.op.OpCancel? && f.order.status != g.order.status then A.OrderCancelled(k)
    else k
  }

  function Followed(s: System, c: P.Command): seq<A.Case> {
    var w' := P.Exec(s.world, c);
    match Touched(s.world, c)
    case None => s.market
    case Some(o) =>
      if o < |s.world.files| && o < |w'.files| && s.world.files[o].order.request < |s.market| then
        var q := s.world.files[o].order.request;
        s.market[q := FollowUp(s.market[q], s.world.files[o], w'.files[o], c)]
      else s.market
  }

  function Exec(s: System, c: Command): System {
    match c
    case Ask(student, mode, complete, currency) =>
      s.(market := M.Exec(s.market, M.NewRequest(student, mode, complete, currency)))
    case Negotiate(q, op, rate, now) =>
      if q >= |s.market| || FollowUpOp(op) || !(0 <= rate <= RATE_UNIT) then s
      else
        var market := M.Exec(s.market, M.On(q, op));
        if |market[q].orders| > |s.market[q].orders|
        then System(market, P.Exec(s.world, Factory(market[q], q, rate, now)))
        else s.(market := market)
    case Serve(command) =>
      if command.Create? then s else System(Followed(s, command), P.Exec(s.world, command))
  }

  function Run(cs: seq<Command>): System {
    if cs == [] then EMPTY else Exec(Run(cs[..|cs| - 1]), cs[|cs| - 1])
  }

  // --- the link between orders and requests -------------------------------------------------

  /** The order row is the one its request's acceptance called for. */
  ghost predicate Stems(o: Order, c: A.Case) {
    && |c.orders| == 1
    && o.student == c.request.student
    && o.expert == c.orders[0].expert && o.amount == c.orders[0].amount && o.currency == c.orders[0].currency
  }

  /** The request follows the order's payment. */
  ghost predicate InPhase(f: File, c: A.Case) {
    if f.order.paidAt.Some? then c.request.status in {A.InProgress, A.Completed, A.Cancelled}
    else c.request.status in {A.Matched, A.Cancelled}
  }

  ghost predicate FileLinked(s: System, o: nat)
    requires o < |s.world.files|
  {
    var f := s.world.files[o];
    && f.order.request < |s.market|
    && Stems(f.order, s.market[f.order.request])
    && InPhase(f, s.market[f.order.request])
  }

  predicate HasOrder(s: System, q: nat) { exists o :: 0 <= o < |s.world.files| && s.world.files[o].order.request == q }

  ghost predicate Linked(s: System) {
    && (forall o: nat :: o < |s.world.files| ==> FileLinked(s, o))
    && (forall o, p :: 0 <= o < p < |s.world.files| ==>
          s.world.files[o].order.request != s.world.files[p].order.request)
    && (forall q: nat :: q < |s.market| && s.market[q].orders != [] ==> HasOrder(s, q))
  }

  ghost predicate SystemSound(s: System) {
    M.MarketSound(s.market) && P.WorldSound(s.world) && Linked(s)
  }

  // --- negotiation ------------------------------------------------------------------------------

  predicate AcceptOp(op: A.Op) { op.OpAcceptOffer? || op.OpAcceptInvitation? || op.OpAcceptDirect? }

  lemma OnlyAcceptOrders(c: A.Case, op: A.Op, pending: nat)
    requires AI.CaseSound(c) && !AcceptOp(op)
    ensures var d := A.Apply(c, op, pending).kase;
            c.orders == d.orders && d.request.student == c.request.student
  {
  }

  lemma AcceptOrders(c: A.Case, op: A.Op, pending: nat)
    requires AI.CaseSound(c) && AcceptOp(op)
    ensures var d := A.Apply(c, op, pending).kase;
            && d.request.student == c.request.student
            && (d.orders == c.orders || (|d.orders| == |c.orders| + 1 && d.request.status == A.Matched))
            && c.orders <= d.orders
  {
  }

  lemma KeepsOrders(c: A.Case, op: A.Op, pending: nat)
    requires AI.CaseSound(c)
    ensures var d := A.Apply(c, op, pending).kase;
            c.orders <= d.orders && d.request.student == c.request.student
  {
    if AcceptOp(op) {
      AcceptOrders(c, op, pending);
    } else {
      OnlyAcceptOrders(c, op, pending);
    }
  }

  /** A call that produces an order does so on a request without one, and leaves it matched. */
  lemma NewOrderMatched(c: A.Case, op: A.Op, pending: nat)
    requires AI.CaseSound(c) && |A.Apply(c, op, pending).kase.orders| > |c.orders|
    ensures var d := A.Apply(c, op, pending).kase;
            c.orders == [] && |d.orders| == 1 && d.request.status == A.Matched
            && d.request.student == c.request.student
  {
    if AcceptOp(op) {
      AcceptOrders(c, op, pending);
      if c.orders != [] {
        M.AcceptRefused(c, op, pending);
      }
    } else {
      OnlyAcceptOrders(c, op, pending);
    }
  }

  /** Once there is an order, negotiation can at most cancel the request. */
  lemma SettledRequest(c: A.Case, op: A.Op, pending: nat)
    requires AI.CaseSound(c) && c.orders != [] && !FollowUpOp(op)
    ensures var d := A.Apply(c, op, pending).kase;
            d.orders == c.orders && d.request.student == c.request.student
            && d.request.status in {c.request.status, A.Cancelled}
  {
    M.FrozenStep(c, op, pending);
    KeepsOrders(c, op, pending);
    if op.OpAcceptOffer? || op.OpAcceptInvitation? || op.OpAcceptDirect? {
      M.AcceptRefused(c, op, pending);
    }
  }

  /** Case q changes without gaining an order. */
  lemma CaseReplaced(s: System, q: nat, d: A.Case)
    requires Linked(s) && q < |s.market|
    requires d.orders == s.market[q].orders && d.request.student == s.market[q].request.student
    requires d.orders != [] ==> d.request.status in {s.market[q].request.status, A.Cancelled}
    ensures Linked(s.(market := s.market[q := d]))
  {
    var t := s.(market := s.market[q := d]);
    forall o: nat | o < |t.world.files| ensures FileLinked(t, o) {
      assert FileLinked(s, o);
    }
    forall p: nat | p < |t.market| && t.market[p].orders != [] ensures HasOrder(t, p) {
      assert HasOrder(s, p);
    }
  }

  /** Case q gained its order: the factory's new row is the only one for this request. */
  lemma OrderCreated(s: System, q: nat, d: A.Case, rate: int, now: Time)
    requires SystemSound(s) && q < |s.market| && s.market[q].orders == []
    requires AI.CaseSound(d) && |d.orders| == 1 && d.request.status == A.Matched && 0 <= rate <= RATE_UNIT
    ensures Linked(System(s.market[q := d], P.Exec(s.world, Factory(d, q, rate, now))))
  {
    var t := System(s.market[q := d], P.Exec(s.world, Factory(d, q, rate, now)));
    var n := |s.world.files|;
    assert |t.world.files| == n + 1 && t.world.files[..n] == s.world.files;
    forall o: nat | o < |t.world.files| ensures FileLinked(t, o) && (o < n ==> t.world.files[o].order.request != q) {
      if o < n {
        assert FileLinked(s, o) && t.world.files[o] == s.world.files[o];
      }
    }
    forall p: nat | p < |t.market| && t.market[p].orders != [] ensures HasOrder(t, p) {
      if p == q {
        assert t.world.files[n].order.request == q;
      } else {
        assert HasOrder(s, p);
        var o :| 0 <= o < n && s.world.files[o].order.request == p;
        assert t.world.files[o] == s.world.files[o];
      }
    }
  }

  lemma NegotiateSound(s: System, q: nat, op: A.Op, rate: int, now: Time)
    requires SystemSound(s) && q < |s.market| && !FollowUpOp(op) && 0 <= rate <= RATE_UNIT
    ensures SystemSound(Exec(s, Negotiate(q, op, rate, now)))
  {
    var c, pending := s.market[q], M.PendingFor(s.market, op);
    var d := A.Apply(c, op, pending).kase;
    M.ExecMarketSound(s.market, M.On(q, op));
    assert M.Exec(s.market, M.On(q, op)) == s.market[q := d];
    AI.CaseStep(c, op, pending);
    KeepsOrders(c, op, pending);
    if |d.orders| > |c.orders| {
      NewOrderMatched(c, op, pending);
      OrderCreated(s, q, d, rate, now);
      P.ExecSound(s.world, Factory(d, q, rate, now));
    } else {
      if c.orders != [] {
        SettledRequest(c, op, pending);
      }
      CaseReplaced(s, q, d);
    }
  }

  lemma AskSound(s: System, c: Command)
    requires SystemSound(s) && c.Ask?
    ensures SystemSound(Exec(s, c))
  {
    var t := Exec(s, c);
    M.ExecMarketSound(s.market, M.NewRequest(c.student, c.mode, c.complete, c.currency));
    forall o: nat | o < |t.world.files| ensures FileLinked(t, o) {
      assert FileLinked(s, o);
    }
    forall p: nat | p < |t.market| && t.market[p].orders != [] ensures HasOrder(t, p) {
      assert HasOrder(s, p);
    }
  }

  // --- the order's life -------------------------------------------------------------------------------

  /** A command leaves every order but the one it concerns alone. */
  lemma OthersUntouched(w: P.World, c: P.Command, o: nat)
    requires o < |w.files| && !c.Create? && Touched(w, c) != Some(o)
    ensures o < |P.Exec(w, c).files| && P.Exec(w, c).files[o] == w.files[o]
  {
  }

  lemma StepKeepsTerms(f: File, l: seq<L.Entry>, op: OS.Op)
    requires Rows(f)
    ensures var g := OS.Apply(f, l, op).file;
            SameTerms(f.order, g.order) && (f.order.paidAt.Some? ==> g.order.paidAt.Some?)
  {
    var e := StepEffect(f, l, op);
  }

  lemma SameCount(w: P.World, c: P.Command)
    requires !c.Create?
    ensures |P.Exec(w, c).files| == |w.files|
  {
  }

  /** One service call: terms stay, payment is never undone, and only the touched order moves. */
  lemma ServedOrder(w: P.World, c: P.Command, o: nat)
    requires P.WorldSound(w) && o < |w.files| && !c.Create?
    ensures var w' := P.Exec(w, c);
            && |w'.files| == |w.files| && SameTerms(w.files[o].order, w'.files[o].order)
            && (w.files[o].order.paidAt.Some? ==> w'.files[o].order.paidAt.Some?)
            && (Touched(w, c) != Some(o) ==> w'.files[o] == w.files[o])
  {
    SameCount(w, c);
    if Touched(w, c) != Some(o) {
      OthersUntouched(w, c, o);
    } else {
      assert P.OrderSound(w, o);
      var op := R.ExecOnOrder(w, c, o);
      if op.Some? {
        StepKeepsTerms(w.files[o], P.Entries(w, o), op.value);
      }
    }
  }

  /** An approval only completes an order that was paid before. */
  lemma ApprovedWasPaid(w: P.World, c: P.Command, o: nat)
    requires P.WorldSound(w) && o < |w.files| && c.On? && c.order == o && c.op.OpApprove?
    ensures var g := P.Exec(w, c).files[o];
            g.order.status != w.files[o].order.status ==> w.files[o].order.paidAt.Some?
  {
    assert P.OrderSound(w, o);
  }

  lemma FollowUpSound(k: A.Case, f: File, g: File, c: P.Command)
    requires AI.CaseSound(k)
    ensures var d := FollowUp(k, f, g, c);
            AI.CaseSound(d) && d.rows == k.rows && d.orders == k.orders && d.request.student == k.request.student
  {
    var d := FollowUp(k, f, g, c);
    if d != k {
      var op := if d == A.OrderPaid(k) then A.OpOrderPaid
                else if d == A.OrderCompleted(k) then A.OpOrderCompleted else A.OpOrderCancelled;
      AI.RequestOpSound(k, op);
      AI.RequestOpShape(k, op);
    }
  }

  lemma FollowUpInPhase(k: A.Case, f: File, g: File, c: P.Command)
    requires InPhase(f, k) && (f.order.paidAt.Some? ==> g.order.paidAt.Some?)
    requires c.On? && c.op.OpApprove? && f.order.status != g.order.status ==> f.order.paidAt.Some?
    ensures InPhase(g, FollowUp(k, f, g, c))
  {
  }

  lemma FollowedMarket(s: System, c: P.Command)
    requires SystemSound(s) && !c.Create?
    ensures M.MarketSound(Followed(s, c)) && |Followed(s, c)| == |s.market|
  {
    var t := Touched(s.world, c);
    if t.Some? && t.value < |s.world.files| {
      var o := t.value;
      ServedOrder(s.world, c, o);
      assert FileLinked(s, o);
      var q := s.world.files[o].order.request;
      var d := FollowUp(s.market[q], s.world.files[o], P.Exec(s.world, c).files[o], c);
      FollowUpSound(s.market[q], s.world.files[o], P.Exec(s.world, c).files[o], c);
      var after := s.market[q := d];
      forall e: UserId ensures M.PendingOffers(after, e) <= A.MAX_PENDING_OFFERS {
        M.PendingUpdate(s.market, q, d, e);
      }
    }
  }

  lemma ServedLinked(s: System, c: P.Command, o: nat)
    requires SystemSound(s) && !c.Create? && o < |s.world.files|
    ensures o < |P.Exec(s.world, c).files| && FileLinked(System(Followed(s, c), P.Exec(s.world, c)), o)
    ensures P.Exec(s.world, c).files[o].order.request == s.world.files[o].order.request
  {
    FollowedMarket(s, c);
    ServedOrder(s.world, c, o);
    assert FileLinked(s, o);
    var q, f, g := s.world.files[o].order.request, s.world.files[o], P.Exec(s.world, c).files[o];
    var t := Touched(s.world, c);
    if t == Some(o) {
      FollowUpSound(s.market[q], f, g, c);
      if c.On? && c.op.OpApprove? { ApprovedWasPaid(s.world, c, o); }
      FollowUpInPhase(s.market[q], f, g, c);
    } else if t.Some? {
      // another order, hence another request
      assert t.value < |s.world.files|;
      assert s.world.files[t.value].order.request != q;
    }
  }

  lemma ServeSound(s: System, c: P.Command)
    requires SystemSound(s) && !c.Create?
    ensures SystemSound(System(Followed(s, c), P.Exec(s.world, c)))
  {
    var t := System(Followed(s, c), P.Exec(s.world, c));
    P.ExecSound(s.world, c);
    FollowedMarket(s, c);
    SameCount(s.world, c);
    forall o: nat | o < |t.world.files|
      ensures FileLinked(t, o) && t.world.files[o].order.request == s.world.files[o].order.request
    {
      ServedLinked(s, c, o);
    }
    forall q: nat | q < |t.market| && t.market[q].orders != [] ensures HasOrder(t, q) {
      ServedOrders(s, c, q);
      var o :| 0 <= o < |s.world.files| && s.world.files[o].order.request == q;
      assert t.world.files[o].order.request == q;
    }
  }

  lemma ServedOrders(s: System, c: P.Command, q: nat)
    requires SystemSound(s) && !c.Create? && q < |Followed(s, c)| && Followed(s, c)[q].orders != []
    ensures HasOrder(s, q)
  {
    var t := Touched(s.world, c);
    if t.Some? && t.value < |s.world.files| {
      ServedOrder(s.world, c, t.value);
      assert FileLinked(s, t.value);
    }
    assert s.market[q].orders != [];
  }

  // --- runs -------------------------------------------------------------------------------------------------

  lemma ExecSystemSound(s: System, c: Command)
    requires SystemSound(s)
    ensures SystemSound(Exec(s, c))
  {
    match c
    case Ask(_, _, _, _) => AskSound(s, c);
    case Negotiate(q, op, rate, now) =>
      if !(q >= |s.market| || FollowUpOp(op) || !(0 <= rate <= RATE_UNIT)) { NegotiateSound(s, q, op, rate, now); }
    case Serve(command) =>
      if !command.Create? { ServeSound(s, command); }
  }

  lemma {:induction false} ReachableSystemSound(cs: seq<Command>)
    ensures SystemSound(Run(cs))
  {
    if cs != [] {
      ReachableSystemSound(cs[..|cs| - 1]);
      ExecSystemSound(Run(cs[..|cs| - 1]), cs[|cs| - 1]);
    }
  }

  /** Over every run of the whole marketplace: a request has an order row exactly when one of
      its offers, invitations or assignments was accepted, never more than one, with the
      accepted expert and - for offers and assignments - the accepted price; and the request is
      matched only while its order is unpaid, running or completed only once it is paid. */
  lemma OneOrderAcrossPaths(cs: seq<Command>, q: nat)
    requires q < |Run(cs).market|
    ensures var s := Run(cs);
            var c := s.market[q];
            && (HasOrder(s, q) <==> AI.Count(c.rows, AI.IsAccepted) == 1)
            && (!HasOrder(s, q) <==> AI.Count(c.rows, AI.IsAccepted) == 0)
            && forall o :: 0 <= o < |s.world.files| && s.world.files[o].order.request == q ==>
                 var f := s.world.files[o];
                 && (forall p :: 0 <= p < |s.world.files| && s.world.files[p].order.request == q ==> p == o)
                 && (forall r <- c.rows :: r.status == A.Accepted ==>
                       f.order.expert == r.expert && (r.price.Some? ==> f.order.amount == r.price.value))
                 && (c.request.status == A.Matched ==> f.order.paidAt.None?)
                 && (c.request.status in {A.InProgress, A.Completed} ==> f.order.paidAt.Some?)
  {
    ReachableSystemSound(cs);
    var s := Run(cs);
    var c := s.market[q];
    assert AI.CaseSound(c);
    forall o | 0 <= o < |s.world.files| && s.world.files[o].order.request == q
      ensures |c.orders| == 1 && Stems(s.world.files[o].order, c) && InPhase(s.world.files[o], c)
    {
      assert FileLinked(s, o);
    }
  }

  // --- what an order row keeps ---------------------------------------------------------------------------

  lemma ExecKeepsTerms(s: System, c: Command, o: nat)
    requires SystemSound(s) && o < |s.world.files|
    ensures o < |Exec(s, c).world.files|
    ensures SameTerms(s.world.files[o].order, Exec(s, c).world.files[o].order)
  {
    if c.Serve? && !c.command.Create? {
      ServedOrder(s.world, c.command, o);
    }
  }

  /** The parties, the price, its split and the request of an order never change once it
      exists: whatever the acceptance fixed holds at the end of every longer run. */
  lemma {:induction false} TermsForever(cs: seq<Command>, more: seq<Command>, o: nat)
    requires o < |Run(cs).world.files|
    ensures o < |Run(cs + more).world.files|
    ensures SameTerms(Run(cs).world.files[o].order, Run(cs + more).world.files[o].order)
    decreases |more|
  {
    if more == [] {
      assert cs + more == cs;
    } else {
      var front, c := more[..|more| - 1], more[|more| - 1];
      assert (cs + more)[..|cs + more| - 1] == cs + front;
      TermsForever(cs, front, o);
      ReachableSystemSound(cs + front);
      ExecKeepsTerms(Run(cs + front), c, o);
    }
  }

  // --- the request of an order under way ---------------------------------------------------------------------

  /** Paying an order puts its matched request in progress, and approving its delivery completes a
      request in progress; a cancelled request stays cancelled. */
  lemma RequestKeepsUp(s: System, c: P.Command, o: nat)
    requires SystemSound(s) && o < |s.world.files| && !c.Create?
    ensures var t, f := Exec(s, Serve(c)), s.world.files[o];
            && f.order.request < |s.market| == |t.market| && o < |t.world.files|
            && var before, after := s.market[f.order.request].request.status, t.market[f.order.request].request.status;
               var g := t.world.files[o];
               && (f.order.paidAt.None? && g.order.paidAt.Some? ==>
                     after == if before == A.Matched then A.InProgress else before)
               && (c.On? && c.order == o && c.op.OpApprove? && f.order.status != g.order.status ==>
                     after == if before == A.InProgress then A.Completed else before)
  {
    assert FileLinked(s, o);
    ServedOrder(s.world, c, o);
    FollowedMarket(s, c);
    var f, g := s.world.files[o], P.Exec(s.world, c).files[o];
    if c.On? && c.order == o && c.op.OpApprove? { ApprovedWasPaid(s.world, c, o); }
    if Touched(s.world, c) == Some(o) {
      FollowUpStatus(s.market[f.order.request], f, g, c);
    }
  }

  lemma FollowUpStatus(k: A.Case, f: File, g: File, c: P.Command)
    ensures var d := FollowUp(k, f, g, c);
            && (f.order.paidAt.None? && g.order.paidAt.Some? ==>
                  d.request.status == if k.request.status == A.Matched then A.InProgress else k.request.status)
            && (f.order.paidAt.Some? && c.On? && c.op.OpApprove? && f.order.status != g.order.status ==>
                  d.request.status == if k.request.status == A.InProgress then A.Completed else k.request.status)
  {
  }

  // --- the order an acceptance creates --------------------------------------------------------------------

  /** The rate an acceptance brings is the rate of its order: one row more, for the request and its
      student, at the accepted expert and amount, split at that rate. */
  lemma NegotiatedOrder(s: System, q: nat, op: A.Op, rate: int, now: Time)
    requires SystemSound(s) && q < |s.market| && !FollowUpOp(op) && 0 <= rate <= RATE_UNIT
    ensures var t, n := Exec(s, Negotiate(q, op, rate, now)), |s.world.files|;
            && |t.market| == |s.market| && s.world.files <= t.world.files
            && (|t.world.files| == n + 1 <==> |t.market[q].orders| == |s.market[q].orders| + 1)
            && (|t.world.files| != n ==>
                  && |t.world.files| == n + 1 && |t.market[q].orders| == 1
                  && var o, p := t.world.files[n].order, t.market[q].orders[0];
                     && o.request == q && o.student == s.market[q].request.student
                     && o.expert == p.expert && o.amount == p.amount && o.currency == p.currency
                     && SplitAt(o.amount, rate, o.commissionAmount, o.expertAmount)
                     && o.status == OrderStatus.AwaitingPayment && o.paidAt.None?)
  {
    var c, pending := s.market[q], M.PendingFor(s.market, op);
    var d := A.Apply(c, op, pending).kase;
    AI.CaseStep(c, op, pending);
    KeepsOrders(c, op, pending);
    if |d.orders| > |c.orders| {
      NewOrderMatched(c, op, pending);
      OrderCreated(s, q, d, rate, now);
      var p := d.orders[0];
      NewOrder(|s.world.files|, q, d.request.student, p.expert, p.amount, p.currency, rate, now);
    }
  }

  // --- requests of cancelled orders --------------------------------------------------------------------------

  lemma SweepIsQuiet(f: File, l: seq<L.Entry>, now: Time)
    requires OS.UnpaidTooLong(f, now)
    ensures var s := OS.Apply(f, l, OS.OpSweep(now));
            s.file.order.status == OrderStatus.Cancelled && s.file.order.paidAt == f.order.paidAt
  {
  }

  /** The unpaid sweep cancels the order and leaves its request where it was, matched unless the
      student cancelled it before. */
  lemma SweepLeavesRequest(s: System, o: nat, now: Time)
    requires SystemSound(s) && o < |s.world.files| && OS.UnpaidTooLong(s.world.files[o], now)
    ensures var t := Exec(s, Serve(P.On(o, OS.OpSweep(now))));
            && t.market == s.market && o < |t.world.files|
            && t.world.files[o].order.status == OrderStatus.Cancelled
            && s.world.files[o].order.request < |s.market|
            && s.market[s.world.files[o].order.request].request.status in {A.Matched, A.Cancelled}
  {
    assert FileLinked(s, o) && P.OrderSound(s.world, o);
    SweepIsQuiet(s.world.files[o], P.Entries(s.world, o), now);
    var q := s.world.files[o].order.request;
    assert s.market[q := s.market[q]] == s.market;
  }

  /** A cancellation through the service closes the request too, unless it was completed. */
  lemma CancelClosesRequest(s: System, o: nat, actor: Actor, now: Time)
    requires SystemSound(s) && o < |s.world.files|
    requires OS.Cancel(s.world.files[o], actor, true, now).error.None?
    ensures var t := Exec(s, Serve(P.On(o, OS.OpCancel(actor, true, now))));
            var q := s.world.files[o].order.request;
            && q < |s.market| == |t.market|
            && t.market[q].request.status
               == if s.market[q].request.status == A.Completed then A.Completed else A.Cancelled
  {
    assert FileLinked(s, o);
    var f, c := s.world.files[o], P.On(o, OS.OpCancel(actor, true, now));
    CancelledOrder(f, P.Entries(s.world, o), actor, now);
    CancelFollowUp(s.market[f.order.request], f, P.Exec(s.world, c).files[o], c);
  }

  lemma CancelFollowUp(k: A.Case, f: File, g: File, c: P.Command)
    requires InPhase(f, k) && g.order.paidAt == f.order.paidAt && g.order.status != f.order.status
    requires c.On? && c.op.OpCancel?
    ensures FollowUp(k, f, g, c).request.status
            == if k.request.status == A.Completed then A.Completed else A.Cancelled
  {
  }

  lemma CancelledOrder(f: File, l: seq<L.Entry>, actor: Actor, now: Time)
    requires OS.Cancel(f, actor, true, now).error.None?
    ensures var g := OS.Apply(f, l, OS.OpCancel(actor, true, now)).file;
            && g.order.status == OrderStatus.Cancelled && f.order.status != OrderStatus.Cancelled
            && g.order.paidAt == f.order.paidAt
  {
  }

  // --- paid orders of cancelled requests ---------------------------------------------------------------------

  /** The order is paid and goes on although its request is cancelled. */
  predicate Orphaned(s: System, o: nat)
    requires o < |s.world.files|
  {
    var f := s.world.files[o];
    && f.order.paidAt.Some? && f.order.status != OrderStatus.Cancelled
    && f.order.request < |s.market| && s.market[f.order.request].request.status == A.Cancelled
  }

  /** The owner cancels the request of order o. */
  predicate OwnerCancels(s: System, c: Command, o: nat)
    requires o < |s.world.files|
  {
    var q := s.world.files[o].order.request;
    && c.Negotiate? && c.request == q < |s.market| && 0 <= c.rate <= RATE_UNIT
    && c.op.OpCancelRequest? && c.op.actor == s.market[q].request.student
  }

  lemma OnlyOwnerCancels(c: A.Case, op: A.Op, pending: nat)
    requires AI.CaseSound(c) && c.orders != [] && !FollowUpOp(op) && c.request.status != A.Cancelled
    ensures A.Apply(c, op, pending).kase.request.status == A.Cancelled
            <==> op.OpCancelRequest? && op.actor == c.request.student && c.request.status in {A.Matched, A.InProgress}
  {
    if AcceptOp(op) {
      M.AcceptRefused(c, op, pending);
    }
  }

  lemma PaidIsActive(f: File, l: seq<L.Entry>, op: OS.Op)
    requires f.order.paidAt.None?
    ensures var g := OS.Apply(f, l, op).file; g.order.paidAt.Some? ==> g.order.status == OrderStatus.Active
  {
    if OS.PaymentOp(op) {
      PaymentActivates(f, op);
    } else {
      OthersUnpaid(f, l, op);
    }
  }

  lemma PaymentActivates(f: File, op: OS.Op)
    requires f.order.paidAt.None? && OS.PaymentOp(op)
    ensures var g := OS.ApplyPayment(f, op).file; g.order.paidAt.Some? ==> g.order.status == OrderStatus.Active
  {
  }

  lemma OthersUnpaid(f: File, l: seq<L.Entry>, op: OS.Op)
    requires f.order.paidAt.None? && !OS.PaymentOp(op)
    ensures OS.Apply(f, l, op).file.order.paidAt.None?
  {
    if op.OpResolve? {
      var r := OS.Resolve(f, l, op.staff, op.outcome, op.length, op.requested);
      if r.error.None? {
        var s := ResolvedShape(f, l, op.staff, op.outcome, op.length, op.requested);
      }
    }
  }

  lemma CancelledStays(f: File, l: seq<L.Entry>, op: OS.Op)
    requires Rows(f) && f.order.status == OrderStatus.Cancelled
    ensures OS.Apply(f, l, op).file.order.status == OrderStatus.Cancelled
  {
    if op.OpResolve? {
      var r := OS.Resolve(f, l, op.staff, op.outcome, op.length, op.requested);
      if r.error.None? {
        var s := ResolvedShape(f, l, op.staff, op.outcome, op.length, op.requested);
      }
    } else if !OS.PaymentOp(op) && !OS.WorkOp(op) && !OS.PayoutOp(op) {
      DisputeStays(f, l, op);
    }
  }

  lemma DisputeStays(f: File, l: seq<L.Entry>, op: OS.Op)
    requires f.order.status == OrderStatus.Cancelled && !op.OpResolve?
    requires !OS.PaymentOp(op) && !OS.WorkOp(op) && !OS.PayoutOp(op)
    ensures OS.ApplyDispute(f, l, op).file.order == f.order
  {
  }

  /** What a served command does to the order's status. */
  lemma ServedStatus(w: P.World, c: P.Command, o: nat)
    requires P.WorldSound(w) && !c.Create? && o < |w.files|
    ensures o < |P.Exec(w, c).files|
    ensures var f, g := w.files[o], P.Exec(w, c).files[o];
            && (f.order.status == OrderStatus.Cancelled ==> g.order.status == OrderStatus.Cancelled)
            && (f.order.paidAt.None? && g.order.paidAt.Some? ==> g.order.status == OrderStatus.Active)
            && (c.On? && c.order == o ==> g == OS.Apply(f, P.Entries(w, o), c.op).file)
  {
    assert P.OrderSound(w, o);
    var op := R.ExecOnOrder(w, c, o);
    if op.Some? {
      var f, l := w.files[o], P.Entries(w, o);
      if f.order.paidAt.None? { PaidIsActive(f, l, op.value); }
      if f.order.status == OrderStatus.Cancelled { CancelledStays(f, l, op.value); }
    }
  }

  /** What a served command does to the request's being cancelled. */
  lemma ServedOrphan(s: System, c: P.Command, o: nat)
    requires SystemSound(s) && !c.Create? && o < |s.world.files| && s.world.files[o].order.request < |s.market|
    requires o < |P.Exec(s.world, c).files|
    requires c.On? && c.order == o ==>
               P.Exec(s.world, c).files[o] == OS.Apply(s.world.files[o], P.Entries(s.world, o), c.op).file
    ensures var m, q := Followed(s, c), s.world.files[o].order.request;
            && |m| == |s.market|
            && (s.market[q].request.status == A.Cancelled ==> m[q].request.status == A.Cancelled)
            && (s.market[q].request.status != A.Cancelled && m[q].request.status == A.Cancelled ==>
                  P.Exec(s.world, c).files[o].order.status == OrderStatus.Cancelled)
  {
    var f, g := s.world.files[o], P.Exec(s.world, c).files[o];
    var t := Touched(s.world, c);
    if t == Some(o) {
      FollowUpCancels(s.market[f.order.request], f, g, c, P.Entries(s.world, o));
    } else if t.Some? {
      assert t.value < |s.world.files|;
      assert s.world.files[t.value].order.request != f.order.request;
    }
  }

  lemma FollowUpCancels(k: A.Case, f: File, g: File, c: P.Command, l: seq<L.Entry>)
    requires c.On? ==> g == OS.Apply(f, l, c.op).file
    ensures var d := FollowUp(k, f, g, c);
            && (k.request.status == A.Cancelled ==> d.request.status == A.Cancelled)
            && (k.request.status != A.Cancelled && d.request.status == A.Cancelled ==>
                  g.order.status == OrderStatus.Cancelled)
  {
  }

  /** How a paid order goes on without its request, over all commands: its student cancels the
      request in progress, or it is paid after the student has cancelled the request. */
  lemma OrphanedExactly(s: System, c: Command, o: nat)
    requires SystemSound(s) && o < |s.world.files|
    ensures o < |Exec(s, c).world.files| && s.world.files[o].order.request < |s.market|
    ensures var f, t := s.world.files[o], Exec(s, c);
            var status := s.market[f.order.request].request.status;
            !Orphaned(s, o) && Orphaned(t, o)
            <==> || (OwnerCancels(s, c, o) && status == A.InProgress && f.order.status != OrderStatus.Cancelled)
                 || (f.order.paidAt.None? && t.world.files[o].order.paidAt.Some? && status == A.Cancelled)
  {
    assert FileLinked(s, o);
    match c
    case Ask(_, _, _, _) =>
    case Negotiate(q, op, rate, now) =>
      if q < |s.market| && !FollowUpOp(op) && 0 <= rate <= RATE_UNIT { NegotiatedOrphan(s, c, o); }
    case Serve(command) =>
      if !command.Create? {
        ServedOrder(s.world, command, o);
        ServedStatus(s.world, command, o);
        ServedOrphan(s, command, o);
      }
  }

  lemma NegotiatedOrphan(s: System, c: Command, o: nat)
    requires SystemSound(s) && o < |s.world.files| && c.Negotiate? && c.request < |s.market|
    requires !FollowUpOp(c.op) && 0 <= c.rate <= RATE_UNIT
    ensures var t, q := Exec(s, c), s.world.files[o].order.request;
            && o < |t.world.files| && t.world.files[o] == s.world.files[o] && q < |t.market| == |s.market|
            && (c.request != q ==> t.market[q] == s.market[q])
            && (s.market[q].request.status == A.Cancelled ==> t.market[q].request.status == A.Cancelled)
            && (s.market[q].request.status != A.Cancelled ==>
                  (t.market[q].request.status == A.Cancelled
                   <==> OwnerCancels(s, c, o) && s.market[q].request.status in {A.Matched, A.InProgress}))
  {
    assert FileLinked(s, o);
    var k, pending := s.market[c.request], M.PendingFor(s.market, c.op);
    KeepsOrders(k, c.op, pending);
    if c.request == s.world.files[o].order.request {
      SettledRequest(k, c.op, pending);
      if k.request.status != A.Cancelled { OnlyOwnerCancels(k, c.op, pending); }
    }
  }
}
