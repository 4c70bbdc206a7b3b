/** The shared-expenses screen's derived values (components/SharedExpenses.tsx):
    the shared records sorted newest first, split into pending and settled,
    the pending total and the plural suffix of its caption. */
module SharedView {
  import opened Types
  import opened Seqs
  import Ledger

  predicate IsShared(e: Expense) { e.isShared }
  predicate IsUnsettled(e: Expense) { !e.isSettled }
  predicate IsSettled(e: Expense) { e.isSettled }
  predicate IsPendingShared(e: Expense) { e.isShared && !e.isSettled }
  predicate IsSettledShared(e: Expense) { e.isShared && e.isSettled }

  predicate SortedNewestFirst(s: seq<Expense>) {
    forall i, j :: 0 <= i < j < |s| ==> NotOlder(s[i].date, s[j].date)
  }

  /** The records dated on day `d`. */
  function SameDay(d: Date): Expense -> bool {
    (e: Expense) => e.date == d
  }

  /** Putting a record in front of a newest-first list that it is not older
      than any of keeps the list newest first. */
  lemma ConsSorted(x: Expense, t: seq<Expense>)
    requires SortedNewestFirst(t)
    requires forall i :: 0 <= i < |t| ==> NotOlder(x.date, t[i].date)
    ensures SortedNewestFirst([x] + t)
  {
    var r := [x] + t;
    forall i, j | 0 <= i < j < |r|
      ensures NotOlder(r[i].date, r[j].date)
    {
      assert r[j] == t[j - 1];
      if i > 0 {
        assert r[i] == t[i - 1];
      }
    }
  }

  /** The step of `Insert` that passes over the head `s[0]`: the head is
      newer than `x` and than the rest of `s`, so it can stay in front. */
  lemma InsertPastHead(x: Expense, s: seq<Expense>, rest: seq<Expense>)
    requires |s| > 0 && SortedNewestFirst(s) && !NotOlder(x.date, s[0].date)
    requires SortedNewestFirst(rest)
    requires multiset(rest) == multiset(s[1..]) + multiset{x}
    ensures SortedNewestFirst([s[0]] + rest)
  {
    forall i | 0 <= i < |rest|
      ensures NotOlder(s[0].date, rest[i].date)
    {
      assert rest[i] in multiset(rest);
      if rest[i] != x {
        assert rest[i] in s[1..];
        var m :| 0 <= m < |s[1..]| && s[1..][m] == rest[i];
        assert s[m + 1] == rest[i];
      }
    }
    ConsSorted(s[0], rest);
  }

  /** Insert `x` before the first record it is not older than, so that among
      records of the same date the earlier one in the input stays first. */
  function Insert(x: Expense, s: seq<Expense>): (r: seq<Expense>)
    requires SortedNewestFirst(s)
    ensures SortedNewestFirst(r)
    ensures multiset(r) == multiset(s) + multiset{x}
  {
    if |s| == 0 then [x]
    else if NotOlder(x.date, s[0].date) then [x] + s
    else
      var rest := Insert(x, s[1..]);
      assert s == [s[0]] + s[1..];
      InsertPastHead(x, s, rest);
      [s[0]] + rest
  }

  /** Inserting keeps `x` in front of the records of its own date, so the
      records of any one day keep their order. */
  lemma {:induction false} InsertStable(x: Expense, s: seq<Expense>, d: Date)
    requires SortedNewestFirst(s)
    ensures Filter(Insert(x, s), SameDay(d)) == Filter([x] + s, SameDay(d))
  {
    if |s| > 0 && !NotOlder(x.date, s[0].date) {
      var D := SameDay(d);
      var rest := Insert(x, s[1..]);
      assert s == [s[0]] + s[1..];
      assert Insert(x, s) == [s[0]] + rest;
      assert x.date != s[0].date;
      InsertStable(x, s[1..], d);
      FilterCons(s[0], rest, D);
      FilterCons(x, s[1..], D);
      FilterCons(s[0], s[1..], D);
      FilterCons(x, s, D);
      if D(x) {
        assert Filter(Insert(x, s), D) == [x] + Filter(s[1..], D);
      } else if D(s[0]) {
        assert Filter([x] + s, D) == [s[0]] + Filter(s[1..], D);
      }
    }
  }

  /** The comparator sort `new Date(b.date) - new Date(a.date)`: newest
      first, and stable, so the records of any one day keep their input
      order. */
  function SortNewestFirst(s: seq<Expense>): (r: seq<Expense>)
    ensures SortedNewestFirst(r)
    ensures multiset(r) == multiset(s)
    ensures forall d :: Filter(r, SameDay(d)) == Filter(s, SameDay(d))
  {
    if |s| == 0 then []
    else
      var t := SortNewestFirst(s[1..]);
      assert s == [s[0]] + s[1..];
      var r := Insert(s[0], t);
      assert forall d :: Filter(r, SameDay(d)) == Filter(s, SameDay(d)) by {
        forall d
          ensures Filter(r, SameDay(d)) == Filter(s, SameDay(d))
        {
          InsertStable(s[0], t, d);
          FilterCons(s[0], t, SameDay(d));
          FilterCons(s[0], s[1..], SameDay(d));
        }
      }
      r
  }

  /** `sharedExpenses`: a permutation of the shared records, newest first. */
  function SharedList(l: seq<Expense>): (r: seq<Expense>)
    ensures SortedNewestFirst(r)
    ensures multiset(r) == multiset(Filter(l, IsShared))
    ensures forall e :: e in r <==> e in l && e.isShared
    ensures forall d :: Filter(r, SameDay(d)) == Filter(Filter(l, IsShared), SameDay(d))
  {
    var r := SortNewestFirst(Filter(l, IsShared));
    assert forall e :: e in r <==> e in multiset(Filter(l, IsShared));
    r
  }

  /** `pendingExpenses`. */
  function Pending(l: seq<Expense>): seq<Expense> {
    Filter(SharedList(l), IsUnsettled)
  }

  /** `settledExpenses`. */
  function Settled(l: seq<Expense>): seq<Expense> {
    Filter(SharedList(l), IsSettled)
  }

  /** `totalPending`. */
  function TotalPending(l: seq<Expense>): real {
    Sum(Pending(l), Amount)
  }

  /** Filtering a newest-first list keeps it newest first. */
  lemma {:induction false} FilterKeepsSorted(s: seq<Expense>, p: Expense -> bool)
    requires SortedNewestFirst(s)
    ensures SortedNewestFirst(Filter(s, p))
  {
    if |s| > 0 {
      FilterKeepsSorted(s[1..], p);
      var rest := Filter(s[1..], p);
      if p(s[0]) {
        var r := [s[0]] + rest;
        forall i, j | 0 <= i < j < |r|
          ensures NotOlder(r[i].date, r[j].date)
        {
          if i == 0 {
            assert r[j] == rest[j - 1];
            assert r[j] in s[1..];
            var m :| 0 <= m < |s[1..]| && s[1..][m] == r[j];
            assert s[m + 1] == r[j];
          } else {
            assert r[i] == rest[i - 1] && r[j] == rest[j - 1];
          }
        }
      }
    }
  }

  /** Pending and settled are both newest first, hold exactly the shared
      records that are respectively unsettled and settled, never share a
      record, and together make up the shared list, amounts included. */
  lemma SharedPartition(l: seq<Expense>)
    ensures SortedNewestFirst(Pending(l)) && SortedNewestFirst(Settled(l))
    ensures forall e :: e in Pending(l) <==> e in l && e.isShared && !e.isSettled
    ensures forall e :: e in Settled(l) <==> e in l && e.isShared && e.isSettled
    ensures forall e :: !(e in Pending(l) && e in Settled(l))
    ensures multiset(Pending(l)) + multiset(Settled(l)) == multiset(SharedList(l))
    ensures Sum(Pending(l), Amount) + Sum(Settled(l), Amount) == Sum(SharedList(l), Amount)
    ensures forall d :: Filter(Pending(l), SameDay(d)) == Filter(Filter(l, IsPendingShared), SameDay(d))
    ensures forall d :: Filter(Settled(l), SameDay(d)) == Filter(Filter(l, IsSettledShared), SameDay(d))
  {
    forall d
      ensures Filter(Pending(l), SameDay(d)) == Filter(Filter(l, IsPendingShared), SameDay(d))
      ensures Filter(Settled(l), SameDay(d)) == Filter(Filter(l, IsSettledShared), SameDay(d))
    {
      SubviewKeepsDayOrder(l, IsUnsettled, IsPendingShared, d);
      SubviewKeepsDayOrder(l, IsSettled, IsSettledShared, d);
    }
    FilterKeepsSorted(SharedList(l), IsUnsettled);
    FilterKeepsSorted(SharedList(l), IsSettled);
    FilterPartition(SharedList(l), IsUnsettled, IsSettled);
    SumConcat(Pending(l), Settled(l), Amount);
    SumPermutation(Pending(l) + Settled(l), SharedList(l), Amount);
  }

  /** A sub-list of the shared list keeps, day by day, the ledger order of
      the records it selects. */
  lemma SubviewKeepsDayOrder(l: seq<Expense>, q: Expense -> bool, sq: Expense -> bool, d: Date)
    requires forall e :: sq(e) == (e.isShared && q(e))
    ensures Filter(Filter(SharedList(l), q), SameDay(d)) == Filter(Filter(l, sq), SameDay(d))
  {
    var D := SameDay(d);
    var qd := (e: Expense) => q(e) && e.date == d;
    var sqd := (e: Expense) => sq(e) && e.date == d;
    var shared := SharedList(l);
    var fs := Filter(l, IsShared);
    FilterFilter(shared, q, D, qd);
    FilterFilter(shared, D, q, qd);
    assert Filter(shared, D) == Filter(fs, D);
    FilterFilter(fs, D, q, qd);
    FilterFilter(l, IsShared, qd, sqd);
    FilterFilter(l, sq, D, sqd);
  }

  /** The pending list is, up to order, the pending shared records of the
      ledger, so the pending total is their plain sum. */
  lemma PendingIsLedgerFilter(l: seq<Expense>)
    ensures multiset(Pending(l)) == multiset(Filter(l, IsPendingShared))
    ensures TotalPending(l) == Sum(Filter(l, IsPendingShared), Amount)
  {
    FilterPermutation(SharedList(l), Filter(l, IsShared), IsUnsettled);
    FilterFilter(l, IsShared, IsUnsettled, IsPendingShared);
    SumPermutation(Pending(l), Filter(l, IsPendingShared), Amount);
  }

  function PendingWithId(id: string): Expense -> bool {
    (e: Expense) => e.id == id && e.isShared && !e.isSettled
  }

  /** Settling removes from the pending sum exactly the pending shared
      records carrying the id. */
  lemma {:induction false} SettlePendingSum(l: seq<Expense>, id: string)
    ensures Sum(Filter(Ledger.Settle(l, id), IsPendingShared), Amount)
      == Sum(Filter(l, IsPendingShared), Amount) - Sum(Filter(l, PendingWithId(id)), Amount)
  {
    if |l| > 0 {
      var r := Ledger.Settle(l, id);
      assert r[1..] == Ledger.Settle(l[1..], id);
      SettlePendingSum(l[1..], id);
      assert r[0] == if l[0].id == id then l[0].(isSettled := true) else l[0];
    }
  }

  /** With unique ids, the records carrying the id of `l[k]` are `l[k]` alone. */
  lemma OnlyRecordWithId(l: seq<Expense>, k: nat)
    requires UniqueIds(l)
    requires k < |l| && l[k].isShared && !l[k].isSettled
    ensures Sum(Filter(l, PendingWithId(l[k].id)), Amount) == l[k].amount
  {
    var p := PendingWithId(l[k].id);
    var a, b := l[..k], l[k + 1..];
    assert l == a + [l[k]] + b;
    forall i | 0 <= i < |a| ensures !p(a[i]) {
      assert a[i] == l[i];
    }
    forall i | 0 <= i < |b| ensures !p(b[i]) {
      assert b[i] == l[k + 1 + i];
    }
    NothingPasses(a, p);
    NothingPasses(b, p);
    FilterConcat(a + [l[k]], b, p);
    FilterConcat(a, [l[k]], p);
  }

  /** Settling a pending shared record moves it to the settled list, leaves
      no record with its id pending, and lowers the pending total by its
      amount. */
  lemma SettleMovesToSettled(l: seq<Expense>, k: nat)
    requires UniqueIds(l)
    requires k < |l| && l[k].isShared && !l[k].isSettled
    ensures l[k].(isSettled := true) in Settled(Ledger.Settle(l, l[k].id))
    ensures forall e :: e in Pending(Ledger.Settle(l, l[k].id)) ==> e.id != l[k].id
    ensures TotalPending(Ledger.Settle(l, l[k].id)) == TotalPending(l) - l[k].amount
  {
    var id := l[k].id;
    var r := Ledger.Settle(l, id);
    assert r[k] == l[k].(isSettled := true) by {
      assert r[k].(isSettled := false) == l[k];
    }
    SharedPartition(r);
    forall e | e in Pending(r)
      ensures e.id != id
    {
      var j :| 0 <= j < |r| && r[j] == e;
    }
    PendingIsLedgerFilter(l);
    PendingIsLedgerFilter(r);
    SettlePendingSum(l, id);
    OnlyRecordWithId(l, k);
  }

  /** The caption says "transactions" unless there is exactly one. */
  function PluralSuffix(count: nat): (r: string)
    ensures r == "s" <==> count != 1
    ensures r == "" <==> count == 1
  {
    if count != 1 then "s" else ""
  }
}
