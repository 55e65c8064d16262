/** What every acquisition step keeps about one request: at most one order, one accepted row
    behind it, and counters that count. */
module AcquisitionInvariant {
  import opened Core
  import opened Money
  import opened Acquisition

  // --- counting rows ---------------------------------------------------------------------

  function Count(rows: seq<Row>, p: Row -> bool): nat {
    if rows == [] then 0
    else Count(rows[..|rows| - 1], p) + if p(rows[|rows| - 1]) then 1 else 0
  }

  lemma CountAppend(rows: seq<Row>, r: Row, p: Row -> bool)
    ensures Count(rows + [r], p) == Count(rows, p) + if p(r) then 1 else 0
  {
    assert (rows + [r])[..|rows|] == rows;
  }

  /** Row by row the count of p does not exceed that of q. */
  lemma {:induction false} CountMonotone(rows: seq<Row>, p: Row -> bool, other: seq<Row>, q: Row -> bool)
    requires |rows| == |other|
    requires forall i :: 0 <= i < |rows| && p(rows[i]) ==> q(other[i])
    ensures Count(rows, p) <= Count(other, q)
  {
    if rows != [] {
      CountMonotone(rows[..|rows| - 1], p, other[..|rows| - 1], q);
    }
  }

  lemma CountAgrees(rows: seq<Row>, p: Row -> bool, other: seq<Row>, q: Row -> bool)
    requires |rows| == |other|
    requires forall i :: 0 <= i < |rows| ==> p(rows[i]) == q(other[i])
    ensures Count(rows, p) == Count(other, q)
  {
    CountMonotone(rows, p, other, q);
    CountMonotone(other, q, rows, p);
  }

  /** Only row k differs: the count moves by what row k contributes. */
  lemma {:induction false} CountElsewhereSame(rows: seq<Row>, other: seq<Row>, k: nat, p: Row -> bool)
    requires |rows| == |other| && k < |rows|
    requires forall i :: 0 <= i < |rows| && i != k ==> p(rows[i]) == p(other[i])
    ensures Count(other, p) + (if p(rows[k]) then 1 else 0) == Count(rows, p) + if p(other[k]) then 1 else 0
  {
    var n := |rows| - 1;
    if k == n {
      CountAgrees(rows[..n], p, other[..n], p);
    } else {
      CountElsewhereSame(rows[..n], other[..n], k, p);
    }
  }

  lemma {:induction false} CountConcatNone(rows: seq<Row>, more: seq<Row>, p: Row -> bool)
    requires forall r <- more :: !p(r)
    ensures Count(rows + more, p) == Count(rows, p)
  {
    if more == [] {
      assert rows + more == rows;
    } else {
      var front, r := more[..|more| - 1], more[|more| - 1];
      assert rows + more == (rows + front) + [r];
      assert r in more && forall s <- front :: s in more;
      CountAppend(rows + front, r, p);
      CountConcatNone(rows, front, p);
    }
  }

  lemma {:induction false} CountPositive(rows: seq<Row>, p: Row -> bool)
    ensures Count(rows, p) > 0 <==> exists i :: 0 <= i < |rows| && p(rows[i])
  {
    if rows != [] {
      var n := |rows| - 1;
      CountPositive(rows[..n], p);
      if i :| 0 <= i < |rows| && p(rows[i]) {
        assert i < n ==> p(rows[..n][i]);
      }
      if j :| 0 <= j < n && p(rows[..n][j]) {
        assert p(rows[j]);
      }
    }
  }

  // --- the clauses ----------------------------------------------------------------------------

  function IsAccepted(r: Row): bool { r.status == Accepted }

  /** What offer_count counts. */
  function IsLiveOffer(r: Row): bool { r.path == Offered && r.status != Withdrawn }

  function IsPendingOfferOf(e: UserId): Row -> bool {
    (r: Row) => r.path == Offered && r.status == Pending && r.expert == e
  }

  ghost predicate OneOrder(c: Case) {
    Count(c.rows, IsAccepted) == |c.orders| <= 1
  }

  /** An accepted row r agrees with the order o placed for it. */
  predicate Backs(r: Row, o: Placed) {
    && o.path == r.path && o.expert == r.expert
    && (r.price.Some? ==> o.amount == r.price.value && o.currency == r.currency)
  }

  /** The order, if any, has the expert and the price of the accepted row. */
  ghost predicate OrderMatchesRow(c: Case) {
    && (c.orders != [] ==> c.orders[0].expert != c.request.student && c.orders[0].amount >= MIN_OFFER_MINOR)
    && forall i :: 0 <= i < |c.rows| && c.rows[i].status == Accepted && c.orders != [] ==>
                     Backs(c.rows[i], c.orders[0])
  }

  ghost predicate StatusTellsOrders(c: Case) {
    && (c.request.status in {Matched, InProgress, Completed} ==> |c.orders| == 1)
    && (c.request.status in {Draft, Open, InReview, Pooled, Expired, Rejected} ==> c.orders == [])
  }

  /** Offers belong to open-market requests, invitations and assignments to managed ones. */
  ghost predicate ModeTellsRows(c: Case) {
    && (forall i :: 0 <= i < |c.rows| ==> (c.rows[i].path == Offered <==> c.request.mode == OpenMarket))
    && (c.request.status in {InReview, Pooled, Rejected} ==> c.request.mode == Managed)
    && (c.request.status == Draft ==> c.rows == [])
    && (c.request.status == InReview ==> forall i :: 0 <= i < |c.rows| ==> c.rows[i].path == Assigned)
  }

  /** One offer and one invitation per expert; one pending assignment per expert. */
  ghost predicate RowsDistinct(c: Case) {
    forall i, j :: 0 <= i < j < |c.rows| ==> Compatible(c.rows[i], c.rows[j])
  }

  predicate Compatible(r: Row, s: Row) {
    r.path == s.path && r.expert == s.expert ==> r.path == Assigned && !(r.status == Pending && s.status == Pending)
  }

  ghost predicate Priced(c: Case) {
    && (c.request.quote.Some? ==> c.request.quote.value >= MIN_OFFER_MINOR)
    && (c.request.status == Pooled ==> c.request.quote.Some?)
    && forall i :: 0 <= i < |c.rows| ==> HasPrice(c.rows[i])
  }

  predicate HasPrice(r: Row) {
    if r.path == Invited then r.price.None? else r.price.Some? && r.price.value >= MIN_OFFER_MINOR
  }

  /** Selecting an offer leaves no other offer pending. */
  ghost predicate SelectionCloses(c: Case) {
    c.request.mode == OpenMarket && c.orders != [] ==>
      forall i :: 0 <= i < |c.rows| ==> c.rows[i].status != Pending
  }

  ghost predicate CaseSound(c: Case) {
    && OneOrder(c)
    && OrderMatchesRow(c)
    && StatusTellsOrders(c)
    && ModeTellsRows(c)
    && RowsDistinct(c)
    && Priced(c)
    && SelectionCloses(c)
    && c.request.offerCount == Count(c.rows, IsLiveOffer)
  }

  lemma NewCaseSound(student: UserId, mode: Mode, complete: bool, currency: string)
    ensures CaseSound(NewCase(student, mode, complete, currency))
  {
  }

  // --- rows that only leave pending --------------------------------------------------------------

  /** Some pending rows got another status, never Accepted or Withdrawn. */
  ghost predicate OnlyClosed(rows: seq<Row>, out: seq<Row>) {
    && |out| == |rows|
    && forall i :: 0 <= i < |rows| ==>
         out[i] == rows[i]
         || (rows[i].status == Pending && out[i].status in {Declined, Lapsed, Superseded}
             && out[i] == rows[i].(status := out[i].status))
  }

  lemma ClosedSound(c: Case, rows: seq<Row>)
    requires CaseSound(c) && OnlyClosed(c.rows, rows)
    ensures CaseSound(c.(rows := rows))
  {
    CountAgrees(c.rows, IsAccepted, rows, IsAccepted);
    CountAgrees(c.rows, IsLiveOffer, rows, IsLiveOffer);
  }

  /** The request's own fields may move as long as the clauses about them stay true. */
  lemma MovedSound(c: Case, r: Request)
    requires CaseSound(c)
    requires r.student == c.request.student && r.offerCount == c.request.offerCount && r.mode == c.request.mode
    requires var d := c.(request := r); StatusTellsOrders(d) && ModeTellsRows(d) && Priced(d)
    ensures CaseSound(c.(request := r))
  {
  }

  // --- requests ----------------------------------------------------------------------------------------

  predicate OnRequestOnly(op: Op) {
    op.OpPublish? || op.OpCancelRequest? || op.OpReopen? || op.OpExpireRequest? || op.OpSetQuote?
    || op.OpOrderPaid? || op.OpOrderCompleted? || op.OpOrderCancelled? || op.OpUpdateDraft?
  }

  /** These calls write the request row only, and no new order can come of them. */
  lemma RequestOpShape(c: Case, op: Op)
    requires CaseSound(c) && OnRequestOnly(op)
    ensures var d, r := Apply(c, op, 0).kase, c.request;
            && d.rows == c.rows && d.orders == c.orders
            && d.request.student == r.student && d.request.offerCount == r.offerCount
            && (d.request.mode == r.mode || r.status == Draft)
            && (d.request.status == r.status || (Allowed(r.status, d.request.status) && d.request.status != Matched))
            && (d.request.quote == r.quote || (d.request.quote.Some? && d.request.quote.value >= MIN_OFFER_MINOR))
  {
  }

  lemma RequestOpSound(c: Case, op: Op)
    requires CaseSound(c) && OnRequestOnly(op)
    ensures CaseSound(Apply(c, op, 0).kase)
  {
    var d := Apply(c, op, 0).kase;
    RequestOpShape(c, op);
  }

  lemma ExpireStaleSound(c: Case, now: Time)
    requires CaseSound(c)
    ensures CaseSound(ExpireStale(c, now))
  {
    var d := ExpireStale(c, now);
    ClosedSound(c, d.rows);
    MovedSound(c.(rows := d.rows), d.request);
  }

  // --- offers and other rows -------------------------------------------------------------------------------

  /** A new pending offer on a request without an order, by an expert who had none there. */
  lemma OfferAdded(c: Case, r: Row)
    requires CaseSound(c) && c.request.mode == OpenMarket && c.request.status == Open && !HasOffer(c, r.expert)
    requires r.path == Offered && r.status == Pending && HasPrice(r)
    ensures CaseSound(c.(rows := c.rows + [r], request := c.request.(offerCount := c.request.offerCount + 1)))
  {
    CountAppend(c.rows, r, IsAccepted);
    CountAppend(c.rows, r, IsLiveOffer);
    assert forall i :: 0 <= i < |c.rows| ==> c.rows[i] in c.rows;
  }

  lemma SubmitSound(c: Case, expert: UserId, amount: Option<int>, currency: string, eligible: bool, pending: nat,
                    now: Time)
    requires CaseSound(c)
    ensures CaseSound(SubmitOffer(c, expert, amount, currency, eligible, pending, now).kase)
  {
    if SubmitOffer(c, expert, amount, currency, eligible, pending, now).error.None? {
      OfferAdded(c, Row(Offered, expert, amount, currency, Pending, None));
    }
  }

  lemma UpdateSound(c: Case, k: nat, expert: UserId, amount: Option<int>, eligible: bool, now: Time)
    requires CaseSound(c)
    ensures CaseSound(UpdateOffer(c, k, expert, amount, eligible, now).kase)
  {
    var d := UpdateOffer(c, k, expert, amount, eligible, now).kase;
    CountAgrees(c.rows, IsAccepted, d.rows, IsAccepted);
    CountAgrees(c.rows, IsLiveOffer, d.rows, IsLiveOffer);
  }

  lemma WithdrawSound(c: Case, k: nat, expert: UserId)
    requires CaseSound(c)
    ensures CaseSound(WithdrawOffer(c, k, expert).kase)
  {
    if WithdrawOffer(c, k, expert).error.None? {
      var rows := c.rows[k := c.rows[k].(status := Withdrawn)];
      CountAgrees(c.rows, IsAccepted, rows, IsAccepted);
      CountElsewhereSame(c.rows, rows, k, IsLiveOffer);
    }
  }

  lemma ResubmitSound(c: Case, k: nat, expert: UserId, eligible: bool, pending: nat, now: Time)
    requires CaseSound(c)
    ensures CaseSound(ResubmitOffer(c, k, expert, eligible, pending, now).kase)
  {
    if ResubmitOffer(c, k, expert, eligible, pending, now).error.None? {
      var rows := c.rows[k := c.rows[k].(status := Pending)];
      CountAgrees(c.rows, IsAccepted, rows, IsAccepted);
      CountElsewhereSame(c.rows, rows, k, IsLiveOffer);
    }
  }

  predicate CloseOp(op: Op) { op.OpDecline? || op.OpDeclineRow? || op.OpSupersede? || op.OpExpireRows? }

  lemma CloseOpShape(c: Case, op: Op)
    requires CloseOp(op)
    ensures var d := Apply(c, op, 0).kase; OnlyClosed(c.rows, d.rows) && d == c.(rows := d.rows)
  {
  }

  lemma CloseOpSound(c: Case, op: Op)
    requires CaseSound(c) && CloseOp(op)
    ensures CaseSound(Apply(c, op, 0).kase)
  {
    CloseOpShape(c, op);
    ClosedSound(c, Apply(c, op, 0).kase.rows);
  }

  // --- triage --------------------------------------------------------------------------------------------------

  lemma RejectSound(c: Case, staff: Option<Actor>, given: bool)
    requires CaseSound(c)
    ensures CaseSound(RejectManaged(c, staff, given).kase)
  {
    var d := RejectManaged(c, staff, given).kase;
    ClosedSound(c, d.rows);
    MovedSound(c.(rows := d.rows), d.request);
  }

  lemma AssignSound(c: Case, staff: Option<Actor>, expert: UserId, price: int, eligible: bool, now: Time)
    requires CaseSound(c)
    ensures CaseSound(AssignDirect(c, staff, expert, price, eligible, now).kase)
  {
    var r := Row(Assigned, expert, Some(price), c.request.currency, Pending, Some(now + DIRECT_TTL));
    CountAppend(c.rows, r, IsAccepted);
    CountAppend(c.rows, r, IsLiveOffer);
  }

  lemma PoolSound(c: Case, staff: Option<Actor>, candidates: seq<UserId>, quote: Option<int>, now: Time)
    requires CaseSound(c)
    ensures CaseSound(ApprovePool(c, staff, candidates, quote, now).kase)
  {
    var more := Invitations(candidates, c.request.currency, now);
    CountConcatNone(c.rows, more, IsAccepted);
    CountConcatNone(c.rows, more, IsLiveOffer);
  }

  // --- convergence -------------------------------------------------------------------------------------------------

  /** Row k is accepted, its pending siblings on the path - and no other rows - are declined. */
  ghost predicate Selected(rows: seq<Row>, k: nat, out: seq<Row>) {
    && k < |rows| == |out| && rows[k].status == Pending
    && out[k] == rows[k].(status := Accepted)
    && forall i :: 0 <= i < |rows| && i != k ==>
         out[i] == if rows[k].path != Assigned && rows[i].path == rows[k].path && rows[i].status == Pending
                   then rows[i].(status := Declined) else rows[i]
  }

  lemma SelectedCounts(rows: seq<Row>, k: nat, out: seq<Row>)
    requires Selected(rows, k, out)
    ensures Count(out, IsAccepted) == Count(rows, IsAccepted) + 1
    ensures Count(out, IsLiveOffer) == Count(rows, IsLiveOffer)
  {
    CountElsewhereSame(rows, out, k, IsAccepted);
    CountAgrees(rows, IsLiveOffer, out, IsLiveOffer);
  }

  /** A successful acceptance, as a whole. */
  lemma ConvergeShape(c: Case, k: nat, amount: int, currency: string)
    requires k < |c.rows| && c.rows[k].status == Pending
    requires Converge(c, k, amount, currency).error.None?
    ensures var d, r := Converge(c, k, amount, currency).kase, c.rows[k];
            && Selected(c.rows, k, d.rows) && Allowed(c.request.status, Matched) && r.expert != c.request.student
            && d == Case(c.request.(status := Matched), d.rows, c.orders + [Placed(r.path, r.expert, amount, currency)])
  {
  }

  lemma NoneAccepted(rows: seq<Row>)
    requires Count(rows, IsAccepted) == 0
    ensures forall i :: 0 <= i < |rows| ==> rows[i].status != Accepted
  {
    CountPositive(rows, IsAccepted);
    forall i | 0 <= i < |rows| ensures rows[i].status != Accepted {
      assert !IsAccepted(rows[i]);
    }
  }

  /** Nothing was accepted before, row k is accepted after, the siblings are closed. */
  lemma ConvergeSound(c: Case, k: nat, amount: int, currency: string)
    requires CaseSound(c) && k < |c.rows| && c.rows[k].status == Pending && c.orders == []
    requires amount >= MIN_OFFER_MINOR
    requires c.rows[k].price.Some? ==> amount == c.rows[k].price.value && currency == c.rows[k].currency
    ensures CaseSound(Converge(c, k, amount, currency).kase)
  {
    if Converge(c, k, amount, currency).error.None? {
      ConvergeShape(c, k, amount, currency);
      NoneAccepted(c.rows);
      SelectedSound(c, k, Converge(c, k, amount, currency).kase, amount, currency);
    }
  }

  lemma SelectedSound(c: Case, k: nat, d: Case, amount: int, currency: string)
    requires CaseSound(c) && c.orders == [] && Selected(c.rows, k, d.rows) && amount >= MIN_OFFER_MINOR
    requires forall i :: 0 <= i < |c.rows| ==> c.rows[i].status != Accepted
    requires c.rows[k].price.Some? ==> amount == c.rows[k].price.value && currency == c.rows[k].currency
    requires Allowed(c.request.status, Matched) && c.rows[k].expert != c.request.student
    requires d == Case(c.request.(status := Matched), d.rows,
                       [Placed(c.rows[k].path, c.rows[k].expert, amount, currency)])
    ensures CaseSound(d)
  {
    SelectedCounts(c.rows, k, d.rows);
    SelectedRows(c, k, d);
    assert OrderMatchesRow(d) by {
      forall i | 0 <= i < |d.rows| && d.rows[i].status == Accepted ensures Backs(d.rows[i], d.orders[0]) {
        assert i == k;
      }
    }
  }

  lemma SelectedRows(c: Case, k: nat, d: Case)
    requires ModeTellsRows(c) && RowsDistinct(c) && Priced(c) && Selected(c.rows, k, d.rows)
    requires d.request == c.request.(status := Matched)
    requires Allowed(c.request.status, Matched)
    ensures ModeTellsRows(d) && RowsDistinct(d) && Priced(d) && SelectionCloses(d)
  {
  }

  lemma AcceptSound(c: Case, op: Op)
    requires CaseSound(c)
    requires op.OpAcceptOffer? || op.OpAcceptInvitation? || op.OpAcceptDirect?
    ensures CaseSound(Apply(c, op, 0).kase)
  {
    if Apply(c, op, 0).error.None? {
      var r := c.rows[op.k];
      var amount := if op.OpAcceptInvitation? then c.request.quote.value else r.price.value;
      var currency := if op.OpAcceptInvitation? then c.request.currency else r.currency;
      ConvergeSound(c, op.k, amount, currency);
    }
  }

  lemma OfferSound(c: Case, op: Op, pending: nat)
    requires CaseSound(c)
    requires op.OpSubmit? || op.OpUpdate? || op.OpWithdraw? || op.OpResubmit?
    ensures CaseSound(Apply(c, op, pending).kase)
  {
    match op
    case OpSubmit(expert, amount, currency, eligible, now) =>
      SubmitSound(c, expert, amount, currency, eligible, pending, now);
    case OpUpdate(k, expert, amount, eligible, now) => UpdateSound(c, k, expert, amount, eligible, now);
    case OpWithdraw(k, expert) => WithdrawSound(c, k, expert);
    case OpResubmit(k, expert, eligible, now) => ResubmitSound(c, k, expert, eligible, pending, now);
  }

  lemma TriageSound(c: Case, op: Op)
    requires CaseSound(c)
    requires op.OpReject? || op.OpAssign? || op.OpApprovePool?
    ensures CaseSound(Apply(c, op, 0).kase)
  {
    match op
    case OpReject(staff, given) => RejectSound(c, staff, given);
    case OpAssign(staff, expert, price, eligible, now) => AssignSound(c, staff, expert, price, eligible, now);
    case OpApprovePool(staff, candidates, quote, now) => PoolSound(c, staff, candidates, quote, now);
  }

  /** Every acquisition step keeps the whole invariant. */
  lemma CaseStep(c: Case, op: Op, pending: nat)
    requires CaseSound(c)
    ensures CaseSound(Apply(c, op, pending).kase)
  {
    if op.OpAcceptOffer? || op.OpAcceptInvitation? || op.OpAcceptDirect? {
      AcceptSound(c, op);
    } else if CloseOp(op) {
      CloseOpSound(c, op);
    } else if op.OpReject? || op.OpAssign? || op.OpApprovePool? {
      TriageSound(c, op);
    } else if op.OpSubmit? || op.OpUpdate? || op.OpWithdraw? || op.OpResubmit? {
      OfferSound(c, op, pending);
    } else if op.OpExpireStale? {
      ExpireStaleSound(c, op.now);
    } else {
      RequestOpSound(c, op);
    }
  }
}
