/** The append-only signed ledger (payments/models.py LedgerEntry) and its aggregations. */
module Ledger {
  import opened Core

  type OrderId = nat

  datatype Kind = Charge | Commission | ExpertCredit | Refund | Payout | Fee | Adjustment

  datatype Entry = Entry(kind: Kind, amount: int, order: OrderId, user: Option<UserId>)

  /** SUM(amount_minor) over the entries of one type. */
  function Total(l: seq<Entry>, k: Kind): int {
    if l == [] then 0
    else
      var e := l[|l| - 1];
      Total(l[..|l| - 1], k) + if e.kind == k then e.amount else 0
  }

  /** COUNT(*) over the entries of one type. */
  function Tally(l: seq<Entry>, k: Kind): nat {
    if l == [] then 0
    else Tally(l[..|l| - 1], k) + if l[|l| - 1].kind == k then 1 else 0
  }

  /** The entries that reference order o. */
  function Of(l: seq<Entry>, o: OrderId): seq<Entry> {
    if l == [] then []
    else
      var e := l[|l| - 1];
      Of(l[..|l| - 1], o) + if e.order == o then [e] else []
  }

  /** The entries that reference user u. */
  function OfUser(l: seq<Entry>, u: UserId): seq<Entry> {
    if l == [] then []
    else
      var e := l[|l| - 1];
      OfUser(l[..|l| - 1], u) + if e.user == Some(u) then [e] else []
  }

  lemma {:induction false} TotalConcat(l: seq<Entry>, p: seq<Entry>, k: Kind)
    ensures Total(l + p, k) == Total(l, k) + Total(p, k)
    ensures Tally(l + p, k) == Tally(l, k) + Tally(p, k)
  {
    if p == [] {
      assert l + p == l;
    } else {
      assert (l + p)[..|l + p| - 1] == l + p[..|p| - 1];
      TotalConcat(l, p[..|p| - 1], k);
    }
  }

  lemma TotalOne(e: Entry, k: Kind)
    ensures Total([e], k) == if e.kind == k then e.amount else 0
    ensures Tally([e], k) == if e.kind == k then 1 else 0
  {
    assert [e][..0] == [];
  }

  lemma TotalAppend(l: seq<Entry>, e: Entry, k: Kind)
    ensures Total(l + [e], k) == Total(l, k) + if e.kind == k then e.amount else 0
    ensures Tally(l + [e], k) == Tally(l, k) + if e.kind == k then 1 else 0
  {
    assert (l + [e])[..|l|] == l;
  }

  lemma {:induction false} OfConcat(l: seq<Entry>, p: seq<Entry>, o: OrderId)
    ensures Of(l + p, o) == Of(l, o) + Of(p, o)
  {
    if p == [] {
      assert l + p == l;
    } else {
      assert (l + p)[..|l + p| - 1] == l + p[..|p| - 1];
      OfConcat(l, p[..|p| - 1], o);
    }
  }

  /** Posting for one order extends that order's entries and no other's. */
  lemma {:induction false} OfPosted(p: seq<Entry>, o: OrderId, other: OrderId)
    requires forall e <- p :: e.order == o
    ensures Of(p, other) == if o == other then p else []
  {
    if p != [] {
      var front := p[..|p| - 1];
      assert forall e <- front :: e in p;
      OfPosted(front, o, other);
      assert p[|p| - 1] in p;
    }
  }

  lemma {:induction false} OfMembers(l: seq<Entry>, o: OrderId)
    ensures forall e :: e in Of(l, o) <==> e in l && e.order == o
  {
    if l != [] {
      OfMembers(l[..|l| - 1], o);
      assert l == l[..|l| - 1] + [l[|l| - 1]];
    }
  }

  /** Sum of the order totals of the orders below n. */
  function TotalByOrder(l: seq<Entry>, k: Kind, n: nat): int {
    if n == 0 then 0 else TotalByOrder(l, k, n - 1) + Total(Of(l, n - 1), k)
  }

  /** Sum of the user totals of the users below n. */
  function TotalByUser(l: seq<Entry>, k: Kind, n: nat): int {
    if n == 0 then 0 else TotalByUser(l, k, n - 1) + Total(OfUser(l, n - 1), k)
  }

  lemma {:induction false} ByOrderAppend(l: seq<Entry>, e: Entry, k: Kind, n: nat)
    ensures TotalByOrder(l + [e], k, n)
            == TotalByOrder(l, k, n) + if e.kind == k && e.order < n then e.amount else 0
  {
    if n > 0 {
      ByOrderAppend(l, e, k, n - 1);
      assert (l + [e])[..|l|] == l;
      TotalAppend(Of(l, n - 1), e, k);
      assert Of(l, n - 1) + [] == Of(l, n - 1);
    }
  }

  lemma {:induction false} ByUserAppend(l: seq<Entry>, e: Entry, k: Kind, n: nat)
    ensures TotalByUser(l + [e], k, n)
            == TotalByUser(l, k, n)
               + if e.kind == k && e.user.Some? && e.user.value < n then e.amount else 0
  {
    if n > 0 {
      ByUserAppend(l, e, k, n - 1);
      assert (l + [e])[..|l|] == l;
      TotalAppend(OfUser(l, n - 1), e, k);
      assert OfUser(l, n - 1) + [] == OfUser(l, n - 1);
    }
  }

  lemma {:induction false} ByOrderEmpty(k: Kind, n: nat)
    ensures TotalByOrder([], k, n) == 0 && TotalByUser([], k, n) == 0
  {
    if n > 0 { ByOrderEmpty(k, n - 1); }
  }

  /** Grouping by order loses nothing when every entry's order is below the bound. */
  lemma {:induction false} GroupedByOrder(l: seq<Entry>, k: Kind, n: nat)
    requires forall e <- l :: e.order < n
    ensures TotalByOrder(l, k, n) == Total(l, k)
  {
    if l == [] {
      ByOrderEmpty(k, n);
    } else {
      var front, e := l[..|l| - 1], l[|l| - 1];
      assert l == front + [e] && e in l;
      assert forall x <- front :: x in l;
      GroupedByOrder(front, k, n);
      ByOrderAppend(front, e, k, n);
    }
  }

  /** Grouping by user loses nothing for an entry type that always names a user below the bound. */
  lemma {:induction false} GroupedByUser(l: seq<Entry>, k: Kind, n: nat)
    requires forall e <- l :: e.kind == k ==> e.user.Some? && e.user.value < n
    ensures TotalByUser(l, k, n) == Total(l, k)
  {
    if l == [] {
      ByOrderEmpty(k, n);
    } else {
      var front, e := l[..|l| - 1], l[|l| - 1];
      assert l == front + [e] && e in l;
      assert forall x <- front :: x in l;
      GroupedByUser(front, k, n);
      ByUserAppend(front, e, k, n);
    }
  }
}
