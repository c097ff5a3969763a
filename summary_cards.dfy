/**
 * The dashboard's "today" cards: sales, profit and units sold, counting
 * only the rows dated today. The browser clock's date is the `today`
 * parameter.
 */
module SummaryCards {
  import opened Ledger
  import opened Rows
  import Sums

  datatype TodayTotals = TodayTotals(sales: int, profit: int, productsSold: int)

  /** What the three cards show: sums over today's rows only. */
  function Expected(ts: seq<Transaction>, today: Date): TodayTotals {
    var todays := DatedOn(ts, today);
    TodayTotals(Sums.SumBy(todays, SaleTotal), Sums.SumBy(todays, LineProfit),
                Sums.SumBy(todays, UnitsSold))
  }

  /** `calculateSummary`: one pass that adds each row dated today to three accumulators. */
  method CalculateSummary(ts: seq<Transaction>, today: Date) returns (r: TodayTotals)
    ensures r == Expected(ts, today)
  {
    var sales, profit, productsSold := 0, 0, 0;
    var i := 0;
    while i < |ts|
      invariant 0 <= i <= |ts|
      invariant sales == Sums.SumBy(DatedOn(ts[..i], today), SaleTotal)
      invariant profit == Sums.SumBy(DatedOn(ts[..i], today), LineProfit)
      invariant productsSold == Sums.SumBy(DatedOn(ts[..i], today), UnitsSold)
    {
      var t := ts[i];
      assert ts[..i + 1] == ts[..i] + [t];
      DatedOnSnoc(ts[..i], t, today);
      var before := DatedOn(ts[..i], today);
      if t.date == today {
        Sums.SumBySnoc(before, t, SaleTotal);
        Sums.SumBySnoc(before, t, LineProfit);
        Sums.SumBySnoc(before, t, UnitsSold);
        sales := sales + t.total;
        profit := profit + t.profitPerUnit * t.quantity;
        productsSold := productsSold + t.quantity;
      } else {
        assert before + [] == before;
      }
      i := i + 1;
    }
    assert ts[..i] == ts;
    r := TodayTotals(sales, profit, productsSold);
  }

  /** A row dated on another day, wherever it sits in the list, changes none of the cards. */
  lemma OtherDayChangesNothing(before: seq<Transaction>, t: Transaction, after: seq<Transaction>, today: Date)
    requires t.date != today
    ensures Expected(before + [t] + after, today) == Expected(before + after, today)
  {
    DatedOnAppend(before + [t], after, today);
    DatedOnSnoc(before, t, today);
    DatedOnAppend(before, after, today);
    assert DatedOn(before, today) + [] == DatedOn(before, today);
  }

  /** With nothing dated today every card shows 0. */
  lemma NothingTodayGivesZeros(ts: seq<Transaction>, today: Date)
    requires forall t :: t in ts ==> t.date != today
    ensures Expected(ts, today) == TodayTotals(0, 0, 0)
  {
    DatedOnNone(ts, today);
  }
}
