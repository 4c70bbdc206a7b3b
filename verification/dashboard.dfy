/** The dashboard's derived values (components/Dashboard.tsx): this month's
    expenses and their total, the per-category breakdown behind the pie
    chart, and the five most recent records. */
module Dashboard {
  import opened Types
  import opened Seqs

  /** `monthlyExpenses`: the records dated in the year and month of `today`,
      in ledger order. The source compares zero-based months on both sides,
      which is the same as comparing calendar months. */
  function MonthlyExpenses(l: seq<Expense>, today: Date): (r: seq<Expense>)
    ensures forall e :: e in r <==> e in l && InMonth(e, today.year, today.month)
    ensures forall e :: multiset(r)[e] == if InMonth(e, today.year, today.month) then multiset(l)[e] else 0
    ensures forall k :: 0 <= k <= |l| ==> MonthlyExpenses(l[..k], today) <= r
  {
    var r := Filter(l, MonthFilter(today.year, today.month));
    assert forall k :: 0 <= k <= |l| ==> Filter(l[..k], MonthFilter(today.year, today.month)) <= r by {
      forall k | 0 <= k <= |l| {
        FilterPrefix(l, k, MonthFilter(today.year, today.month));
      }
    }
    r
  }

  /** `totalMonthly`. */
  function TotalMonthly(l: seq<Expense>, today: Date): real {
    Sum(MonthlyExpenses(l, today), Amount)
  }

  /** The month's total is the sum of the ledger's amounts dated in it;
      with non-negative amounts it is non-negative. */
  lemma TotalMonthlyCounts(l: seq<Expense>, today: Date)
    ensures TotalMonthly(l, today) == Sum(l, MonthAmount(today))
    ensures (forall i :: 0 <= i < |l| ==> l[i].amount >= 0.0) ==> TotalMonthly(l, today) >= 0.0
  {
    SumFilterIndicator(l, MonthFilter(today.year, today.month), MonthAmount(today));
    if forall i :: 0 <= i < |l| ==> l[i].amount >= 0.0 {
      SumNonNegative(l, MonthAmount(today));
    }
  }

  /** An expense's amount when it is dated in the month of `today`, else zero. */
  function MonthAmount(today: Date): Expense -> real {
    (e: Expense) => if InMonth(e, today.year, today.month) then e.amount else 0.0
  }

  /** Summing a filter is summing the amounts masked by the predicate. */
  lemma {:induction false} SumFilterIndicator(s: seq<Expense>, p: Expense -> bool, masked: Expense -> real)
    requires forall e :: masked(e) == if p(e) then e.amount else 0.0
    ensures Sum(Filter(s, p), Amount) == Sum(s, masked)
  {
    if |s| > 0 {
      SumFilterIndicator(s[1..], p, masked);
    }
  }

  function CategoryOf(e: Expense): string {
    e.category
  }

  /** `allCats`: the settings categories followed by every category used in
      the ledger, each once, at its first occurrence. */
  function ChartCategories(categories: seq<string>, l: seq<Expense>): (r: seq<string>)
    ensures Distinct(r)
    ensures forall c :: c in r <==> c in categories || exists i :: 0 <= i < |l| && l[i].category == c
    ensures forall i, j :: 0 <= i < j < |r| ==>
      FirstIndex(categories + Map(l, CategoryOf), r[i]) < FirstIndex(categories + Map(l, CategoryOf), r[j])
  {
    var all := categories + Map(l, CategoryOf);
    assert forall c :: c in all <==> c in categories || c in Map(l, CategoryOf);
    assert forall c :: c in Map(l, CategoryOf) <==> exists i :: 0 <= i < |l| && l[i].category == c by {
      forall c
        ensures c in Map(l, CategoryOf) <==> exists i :: 0 <= i < |l| && l[i].category == c
      {
        if c in Map(l, CategoryOf) {
          var i :| 0 <= i < |l| && Map(l, CategoryOf)[i] == c;
        }
      }
    }
    Dedup(all)
  }

  /** The settings categories keep their own order at the head of the list. */
  lemma ChartCategoriesStartWithSettings(categories: seq<string>, l: seq<Expense>)
    requires Distinct(categories)
    ensures |categories| <= |ChartCategories(categories, l)|
    ensures ChartCategories(categories, l)[..|categories|] == categories
  {
    DedupKeepsPrefix(categories, Map(l, CategoryOf));
  }

  /** A pie slice: a category and its total this month. */
  datatype Slice = Slice(name: string, value: real)

  function SliceValue(s: Slice): real {
    s.value
  }

  function CategoryIs(c: string): Expense -> bool {
    (e: Expense) => e.category == c
  }

  /** The month's total for one category. */
  function CategoryTotal(monthly: seq<Expense>, c: string): real {
    Sum(Filter(monthly, CategoryIs(c)), Amount)
  }

  function SliceFor(monthly: seq<Expense>): string -> Slice {
    c => Slice(c, CategoryTotal(monthly, c))
  }

  function SliceName(s: Slice): string {
    s.name
  }

  function HasPositiveTotal(monthly: seq<Expense>): string -> bool {
    c => CategoryTotal(monthly, c) > 0.0
  }

  predicate Positive(s: Slice) {
    s.value > 0.0
  }

  /** `chartData`: one slice per chart category with its monthly total,
      dropping those whose total is not positive. */
  function ChartData(categories: seq<string>, l: seq<Expense>, today: Date): seq<Slice> {
    var monthly := MonthlyExpenses(l, today);
    Filter(Map(ChartCategories(categories, l), SliceFor(monthly)), Positive)
  }

  /** Every slice is positive and carries its category's monthly total; slice
      names are distinct; and every chart category with a positive total has
      a slice, orphaned labels included. */
  lemma ChartDataSpec(categories: seq<string>, l: seq<Expense>, today: Date)
    ensures forall s :: s in ChartData(categories, l, today) ==>
      s.value > 0.0 && s.value == CategoryTotal(MonthlyExpenses(l, today), s.name)
      && s.name in ChartCategories(categories, l)
    ensures forall c :: c in ChartCategories(categories, l) && CategoryTotal(MonthlyExpenses(l, today), c) > 0.0 ==>
      Slice(c, CategoryTotal(MonthlyExpenses(l, today), c)) in ChartData(categories, l, today)
    ensures Distinct(Map(ChartData(categories, l, today), SliceName))
    ensures Map(ChartData(categories, l, today), SliceName)
      == Filter(ChartCategories(categories, l), HasPositiveTotal(MonthlyExpenses(l, today)))
  {
    SlicesSpec(ChartCategories(categories, l), MonthlyExpenses(l, today));
    SliceNamesInOrder(ChartCategories(categories, l), MonthlyExpenses(l, today));
  }

  /** The slices follow the chart categories' order: their names are the
      categories with a positive total, in list order. */
  lemma {:induction false} SliceNamesInOrder(cats: seq<string>, monthly: seq<Expense>)
    ensures Map(Filter(Map(cats, SliceFor(monthly)), Positive), SliceName) == Filter(cats, HasPositiveTotal(monthly))
  {
    if |cats| > 0 {
      SliceNamesInOrder(cats[1..], monthly);
      var all := Map(cats, SliceFor(monthly));
      assert all[1..] == Map(cats[1..], SliceFor(monthly));
      assert all[0] == Slice(cats[0], CategoryTotal(monthly, cats[0]));
      var rest := Filter(Map(cats[1..], SliceFor(monthly)), Positive);
      if Positive(all[0]) {
        assert Filter(all, Positive) == [all[0]] + rest;
        assert Map([all[0]] + rest, SliceName)[1..] == Map(rest, SliceName);
      }
    }
  }

  /** The slice laws for any duplicate-free category list and any list of
      the month's records. */
  lemma SlicesSpec(cats: seq<string>, monthly: seq<Expense>)
    requires Distinct(cats)
    ensures forall s :: s in Filter(Map(cats, SliceFor(monthly)), Positive) ==>
      s.value > 0.0 && s.value == CategoryTotal(monthly, s.name) && s.name in cats
    ensures forall c :: c in cats && CategoryTotal(monthly, c) > 0.0 ==>
      Slice(c, CategoryTotal(monthly, c)) in Filter(Map(cats, SliceFor(monthly)), Positive)
    ensures Distinct(Map(Filter(Map(cats, SliceFor(monthly)), Positive), SliceName))
  {
    var all := Map(cats, SliceFor(monthly));
    forall s | s in all
      ensures s.value == CategoryTotal(monthly, s.name) && s.name in cats
    {
      var i :| 0 <= i < |all| && all[i] == s;
    }
    forall c | c in cats && CategoryTotal(monthly, c) > 0.0
      ensures Slice(c, CategoryTotal(monthly, c)) in all
    {
      var i :| 0 <= i < |cats| && cats[i] == c;
      assert all[i] == Slice(c, CategoryTotal(monthly, c));
    }
    assert Distinct(all) by {
      forall i, j | 0 <= i < j < |all| ensures all[i] != all[j] {
        assert all[i].name == cats[i] && all[j].name == cats[j];
      }
    }
    FilterKeepsDistinct(all, Positive);
    var chart := Filter(all, Positive);
    var names := Map(chart, SliceName);
    forall i, j | 0 <= i < j < |names|
      ensures names[i] != names[j]
    {
      assert chart[i] in all && chart[j] in all;
      assert chart[i] != chart[j];
    }
  }

  function Indicator(x: Expense): string -> real {
    c => if x.category == c then x.amount else 0.0
  }

  function TotalsFor(xs: seq<Expense>): string -> real {
    c => CategoryTotal(xs, c)
  }

  /** Over a duplicate-free list, `x`'s amount is counted once when its
      category is listed and not at all otherwise. */
  lemma {:induction false} SumIndicator(cats: seq<string>, x: Expense)
    requires Distinct(cats)
    ensures Sum(cats, Indicator(x)) == if x.category in cats then x.amount else 0.0
  {
    if |cats| > 0 {
      SumIndicator(cats[1..], x);
      assert cats == [cats[0]] + cats[1..];
      if x.category == cats[0] {
        assert x.category !in cats[1..];
      }
    }
  }

  /** Over a duplicate-free list covering every category of `xs`, the
      per-category totals add up to the total. */
  lemma {:induction false} CategoryTotalsCover(cats: seq<string>, xs: seq<Expense>)
    requires Distinct(cats)
    requires forall i :: 0 <= i < |xs| ==> xs[i].category in cats
    ensures Sum(cats, TotalsFor(xs)) == Sum(xs, Amount)
  {
    if |xs| == 0 {
      SumZero(cats, TotalsFor(xs));
    } else {
      var x, rest := xs[0], xs[1..];
      CategoryTotalsCover(cats, rest);
      forall c
        ensures TotalsFor(xs)(c) == Indicator(x)(c) + TotalsFor(rest)(c)
      {
        assert Filter(xs, CategoryIs(c)) ==
          (if x.category == c then [x] else []) + Filter(rest, CategoryIs(c));
        SumConcat(if x.category == c then [x] else [], Filter(rest, CategoryIs(c)), Amount);
      }
      SumAdd(cats, Indicator(x), TotalsFor(rest), TotalsFor(xs));
      SumIndicator(cats, x);
    }
  }

  lemma {:induction false} SumMap<U>(s: seq<U>, g: U -> Slice, h: U -> real)
    requires forall u :: h(u) == g(u).value
    ensures Sum(Map(s, g), SliceValue) == Sum(s, h)
  {
    if |s| > 0 {
      SumMap(s[1..], g, h);
      assert Map(s, g)[1..] == Map(s[1..], g);
    }
  }

  /** With non-negative amounts the slices add up to the month's total. */
  lemma ChartSumsToTotal(categories: seq<string>, l: seq<Expense>, today: Date)
    requires forall i :: 0 <= i < |l| ==> l[i].amount >= 0.0
    ensures Sum(ChartData(categories, l, today), SliceValue) == TotalMonthly(l, today)
  {
    var monthly := MonthlyExpenses(l, today);
    var cats := ChartCategories(categories, l);
    var all := Map(cats, SliceFor(monthly));
    forall c
      ensures CategoryTotal(monthly, c) >= 0.0
    {
      var f := Filter(monthly, CategoryIs(c));
      forall i | 0 <= i < |f| ensures Amount(f[i]) >= 0.0 {
        assert f[i] in l;
      }
      SumNonNegative(f, Amount);
    }
    SumFilterZeros(all, SliceValue, Positive);
    SumMap(cats, SliceFor(monthly), TotalsFor(monthly));
    forall i | 0 <= i < |monthly|
      ensures monthly[i].category in cats
    {
      assert monthly[i] in l;
      var j :| 0 <= j < |l| && l[j] == monthly[i];
    }
    CategoryTotalsCover(cats, monthly);
  }

  /** The recent list: the first five records in ledger order (fewer when
      the ledger is shorter). */
  function Recent(l: seq<Expense>): (r: seq<Expense>)
    ensures |r| == if |l| < 5 then |l| else 5
    ensures forall i :: 0 <= i < |r| ==> r[i] == l[i]
  {
    l[..if |l| < 5 then |l| else 5]
  }
}
