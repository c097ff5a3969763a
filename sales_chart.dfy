/**
 * The sales chart's data: one point per calendar day, days in ascending
 * order, each carrying the sum of that day's transaction totals.
 */
module SalesChart {
  import opened Ledger
  import opened Rows
  import Sums
  import Text
  import Sorting

  /** One bar of the chart: `{ name: date, penjualan: total }`. */
  datatype Point = Point(name: Date, penjualan: int)

  function Penjualan(p: Point): int {
    p.penjualan
  }

  /** Some row is dated `day`. */
  predicate SoldOn(ts: seq<Transaction>, day: Date) {
    DatedOn(ts, day) != []
  }

  lemma SoldOnMeans(ts: seq<Transaction>, day: Date)
    ensures SoldOn(ts, day) <==> exists t :: t in ts && t.date == day
  {
    if SoldOn(ts, day) {
      assert DatedOn(ts, day)[0] in DatedOn(ts, day);
    }
  }

  /** `aggregateSalesByDay`. */
  method AggregateSalesByDay(ts: seq<Transaction>) returns (points: seq<Point>)
    ensures forall i, j :: 0 <= i < j < |points| ==> Text.Less(points[i].name, points[j].name)
    ensures forall d :: SoldOn(ts, d) <==> exists i :: 0 <= i < |points| && points[i].name == d
    ensures forall i :: 0 <= i < |points| ==>
      points[i].penjualan == Sums.SumBy(DatedOn(ts, points[i].name), SaleTotal)
    ensures Sums.SumBy(points, Penjualan) == Sums.SumBy(ts, SaleTotal)
  {
    var salesMap := SalesByDate(ts);
    var sortedDates := SortedDates(salesMap.Keys);
    points := ToPoints(sortedDates, salesMap);
    PointsCoverDays(ts, salesMap, sortedDates, points);
  }

  /** `sortedDates.map(date => ({ name: date, penjualan: salesMap.get(date) }))`. */
  method ToPoints(sortedDates: seq<Date>, salesMap: map<Date, int>) returns (points: seq<Point>)
    requires forall d :: d in sortedDates ==> d in salesMap
    ensures |points| == |sortedDates|
    ensures forall k :: 0 <= k < |sortedDates| ==>
      sortedDates[k] in salesMap && points[k] == Point(sortedDates[k], salesMap[sortedDates[k]])
  {
    points := [];
    var j := 0;
    while j < |sortedDates|
      invariant 0 <= j <= |sortedDates|
      invariant |points| == j
      invariant forall k :: 0 <= k < j ==>
        sortedDates[k] in salesMap && points[k] == Point(sortedDates[k], salesMap[sortedDates[k]])
    {
      assert sortedDates[j] in sortedDates;
      points := points + [Point(sortedDates[j], salesMap[sortedDates[j]])];
      j := j + 1;
    }
  }

  lemma PointsCoverDays(ts: seq<Transaction>, salesMap: map<Date, int>, sortedDates: seq<Date>,
                        points: seq<Point>)
    requires forall d :: d in salesMap <==> SoldOn(ts, d)
    requires forall d :: d in salesMap ==> salesMap[d] == Sums.SumBy(DatedOn(ts, d), SaleTotal)
    requires Sorting.SortedBy(sortedDates, Text.Less)
    requires forall d :: d in sortedDates <==> d in salesMap.Keys
    requires |points| == |sortedDates|
    requires forall k :: 0 <= k < |sortedDates| ==>
      sortedDates[k] in salesMap && points[k] == Point(sortedDates[k], salesMap[sortedDates[k]])
    ensures forall i, j :: 0 <= i < j < |points| ==> Text.Less(points[i].name, points[j].name)
    ensures forall d :: SoldOn(ts, d) <==> exists i :: 0 <= i < |points| && points[i].name == d
    ensures forall i :: 0 <= i < |points| ==>
      points[i].penjualan == Sums.SumBy(DatedOn(ts, points[i].name), SaleTotal)
    ensures Sums.SumBy(points, Penjualan) == Sums.SumBy(ts, SaleTotal)
  {
    forall i, j | 0 <= i < j < |points| ensures Text.Less(points[i].name, points[j].name) {
      assert points[i].name == sortedDates[i] && points[j].name == sortedDates[j];
    }
    forall d | SoldOn(ts, d) ensures exists k :: 0 <= k < |points| && points[k].name == d {
      var k :| 0 <= k < |sortedDates| && sortedDates[k] == d;
      assert points[k].name == d;
    }
    forall k | 0 <= k < |points| ensures SoldOn(ts, points[k].name) {
      assert points[k].name == sortedDates[k];
    }
    forall t | t in ts ensures t.date in sortedDates {
      SoldOnMeans(ts, t.date);
    }
    Text.LessIsStrictTotalOrder();
    DaySumsOfPoints(ts, sortedDates, points);
    DaySumsCover(ts, sortedDates);
  }

  /** `m` holds an entry for `d` iff some row of `rows` has that date, and the entry is that date's sum. */
  predicate TalliesDay(rows: seq<Transaction>, m: map<Date, int>, d: Date) {
    (d in m <==> SoldOn(rows, d)) && (d in m ==> m[d] == Sums.SumBy(DatedOn(rows, d), SaleTotal))
  }

  ghost predicate Tallies(rows: seq<Transaction>, m: map<Date, int>) {
    forall d: Date :: TalliesDay(rows, m, d)
  }

  /** The `forEach` that fills `salesMap`: one entry per date, holding that date's total. */
  method SalesByDate(ts: seq<Transaction>) returns (salesMap: map<Date, int>)
    ensures forall d :: d in salesMap <==> SoldOn(ts, d)
    ensures forall d :: d in salesMap ==> salesMap[d] == Sums.SumBy(DatedOn(ts, d), SaleTotal)
  {
    salesMap := map[];
    var i := 0;
    while i < |ts|
      invariant 0 <= i <= |ts|
      invariant Tallies(ts[..i], salesMap)
    {
      var t := ts[i];
      salesMap := AddSale(ts[..i], t, salesMap);
      assert ts[..i + 1] == ts[..i] + [t];
      i := i + 1;
    }
    assert ts[..i] == ts;
    forall d ensures (d in salesMap <==> SoldOn(ts, d))
      && (d in salesMap ==> salesMap[d] == Sums.SumBy(DatedOn(ts, d), SaleTotal))
    {
      assert TalliesDay(ts, salesMap, d);
    }
  }

  /** One step of the `forEach`: `salesMap.set(date, (salesMap.get(date) || nothing) + total)`. */
  method AddSale(seen: seq<Transaction>, t: Transaction, salesMap: map<Date, int>)
    returns (next: map<Date, int>)
    requires Tallies(seen, salesMap)
    ensures Tallies(seen + [t], next)
  {
    if t.date in salesMap {
      next := salesMap[t.date := salesMap[t.date] + t.total];
    } else {
      next := salesMap[t.date := t.total];
    }
    forall d ensures TalliesDay(seen + [t], next, d) {
      assert TalliesDay(seen, salesMap, d);
      OneMoreSale(seen, t, d);
    }
  }

  /** What one more row does to a single day: it counts only for its own date. */
  lemma OneMoreSale(seen: seq<Transaction>, t: Transaction, d: Date)
    ensures SoldOn(seen + [t], d) <==> SoldOn(seen, d) || t.date == d
    ensures Sums.SumBy(DatedOn(seen + [t], d), SaleTotal)
      == Sums.SumBy(DatedOn(seen, d), SaleTotal) + (if t.date == d then t.total else 0)
  {
    DatedOnSnoc(seen, t, d);
    if t.date == d {
      Sums.SumBySnoc(DatedOn(seen, d), t, SaleTotal);
    } else {
      assert DatedOn(seen, d) + [] == DatedOn(seen, d);
    }
  }

  /** `Array.from(keys).sort()`: the dates, each once, in ascending order. */
  method SortedDates(keys: set<Date>) returns (sorted: seq<Date>)
    ensures Sorting.SortedBy(sorted, Text.Less)
    ensures forall d :: d in sorted <==> d in keys
  {
    Text.LessIsStrictTotalOrder();
    sorted := [];
    var pending := keys;
    while pending != {}
      invariant pending <= keys
      invariant Sorting.SortedBy(sorted, Text.Less)
      invariant forall d :: d in sorted <==> d in keys && d !in pending
      decreases |pending|
    {
      var d :| d in pending;
      assert forall k :: 0 <= k < |sorted| ==> sorted[k] in sorted && sorted[k] != d;
      Sorting.InsertMembers(sorted, d, Text.Less);
      sorted := Sorting.Insert(sorted, d, Text.Less);
      pending := pending - {d};
    }
  }

  /** Sum over the days `ds` of each day's sales. */
  ghost function DaySums(ts: seq<Transaction>, ds: seq<Date>): int
    decreases |ds|
  {
    if |ds| == 0 then 0 else Sums.SumBy(DatedOn(ts, ds[0]), SaleTotal) + DaySums(ts, ds[1..])
  }

  lemma {:induction false} DaySumsOfPoints(ts: seq<Transaction>, ds: seq<Date>, points: seq<Point>)
    requires |points| == |ds|
    requires forall k :: 0 <= k < |ds| ==>
      points[k].name == ds[k] && points[k].penjualan == Sums.SumBy(DatedOn(ts, ds[k]), SaleTotal)
    ensures Sums.SumBy(points, Penjualan) == DaySums(ts, ds)
    decreases |ds|
  {
    if |ds| > 0 {
      DaySumsOfPoints(ts, ds[1..], points[1..]);
    }
  }

  /** `v` counted once for every occurrence of `day` in `ds`. */
  function Hits(ds: seq<Date>, day: Date, v: int): int
    decreases |ds|
  {
    if |ds| == 0 then 0 else (if ds[0] == day then v else 0) + Hits(ds[1..], day, v)
  }

  lemma {:induction false} HitsOnce(ds: seq<Date>, day: Date, v: int)
    requires forall i, j :: 0 <= i < j < |ds| ==> ds[i] != ds[j]
    ensures Hits(ds, day, v) == if day in ds then v else 0
    decreases |ds|
  {
    if |ds| > 0 {
      HitsOnce(ds[1..], day, v);
      if ds[0] == day {
        assert day !in ds[1..];
      }
    }
  }

  lemma {:induction false} DaySumsEmpty(ds: seq<Date>)
    ensures DaySums([], ds) == 0
    decreases |ds|
  {
    if |ds| > 0 {
      DaySumsEmpty(ds[1..]);
    }
  }

  /** Taking the first row out of every day's sum. */
  lemma {:induction false} DaySumsCons(t: Transaction, rest: seq<Transaction>, ds: seq<Date>)
    ensures DaySums([t] + rest, ds) == Hits(ds, t.date, t.total) + DaySums(rest, ds)
    decreases |ds|
  {
    if |ds| > 0 {
      assert ([t] + rest)[0] == t && ([t] + rest)[1..] == rest;
      var own := if t.date == ds[0] then [t] else [];
      assert DatedOn([t] + rest, ds[0]) == own + DatedOn(rest, ds[0]);
      Sums.SumByAppend(own, DatedOn(rest, ds[0]), SaleTotal);
      DaySumsCons(t, rest, ds[1..]);
    }
  }

  /** Summing day by day over distinct days that cover every row gives the overall sum. */
  lemma {:induction false} DaySumsCover(ts: seq<Transaction>, ds: seq<Date>)
    requires forall i, j :: 0 <= i < j < |ds| ==> ds[i] != ds[j]
    requires forall t :: t in ts ==> t.date in ds
    ensures DaySums(ts, ds) == Sums.SumBy(ts, SaleTotal)
    decreases |ts|
  {
    if |ts| == 0 {
      DaySumsEmpty(ds);
    } else {
      assert ts == [ts[0]] + ts[1..];
      assert ts[0] in ts;
      assert forall t :: t in ts[1..] ==> t in ts;
      DaySumsCons(ts[0], ts[1..], ds);
      HitsOnce(ds, ts[0].date, ts[0].total);
      DaySumsCover(ts[1..], ds);
    }
  }
}
