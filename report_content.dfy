/**
 * The report page's summary: total sales, gross profit, total expenses and
 * net profit over the rows the server returned for the chosen period.
 */
module ReportContent {
  import opened Ledger
  import opened Rows
  import Sums
  import LedgerLemmas

  datatype Summary = Summary(totalSales: int, grossProfit: int, totalExpenses: int, netProfit: int)

  // The three `reduce` callbacks.

  function AddTotal(acc: int, t: Transaction): int {
    acc + t.total
  }

  function AddLineProfit(acc: int, t: Transaction): int {
    acc + t.profitPerUnit * t.quantity
  }

  function AddAmount(acc: int, e: Expense): int {
    acc + e.amount
  }

  /** `calculateSummary(transactionsData, expensesData)`. */
  function CalculateSummary(ts: seq<Transaction>, es: seq<Expense>): (s: Summary)
    ensures s.totalSales == Sums.SumBy(ts, SaleTotal)
    ensures s.grossProfit == Sums.SumBy(ts, LineProfit)
    ensures s.totalExpenses == Sums.SumBy(es, ExpenseAmount)
    ensures s.netProfit == s.grossProfit - s.totalExpenses
  {
    Sums.ReduceAdds(ts, AddTotal, SaleTotal, 0);
    Sums.ReduceAdds(ts, AddLineProfit, LineProfit, 0);
    Sums.ReduceAdds(es, AddAmount, ExpenseAmount, 0);
    var totalSales := Sums.Reduce(ts, AddTotal, 0);
    var grossProfit := Sums.Reduce(ts, AddLineProfit, 0);
    var totalExpenses := Sums.Reduce(es, AddAmount, 0);
    Summary(totalSales, grossProfit, totalExpenses, grossProfit - totalExpenses)
  }

  lemma EmptyReportIsZero()
    ensures CalculateSummary([], []) == Summary(0, 0, 0, 0)
  {
  }

  /** What the shop paid for the goods of a row. */
  function CostOfGoods(t: Transaction): int {
    t.quantity * t.costPrice
  }

  /** On rows the server priced, gross profit is sales minus the cost of the goods sold. */
  lemma {:induction false} GrossProfitIsSalesMinusCost(ts: seq<Transaction>)
    requires forall t :: t in ts ==> Priced(t)
    ensures CalculateSummary(ts, []).grossProfit ==
      CalculateSummary(ts, []).totalSales - Sums.SumBy(ts, CostOfGoods)
    decreases |ts|
  {
    if |ts| > 0 {
      assert ts[0] in ts;
      assert forall t :: t in ts[1..] ==> t in ts;
      GrossProfitIsSalesMinusCost(ts[1..]);
    }
  }

  /** Every report over rows the server listed from a database built by its own requests. */
  lemma ServerReportGrossProfit(db: Db, requests: seq<(Request, Date)>, startDate: Date, endDate: Date,
                                rows: seq<Transaction>)
    requires db == Run(Empty(), requests)
    requires TransactionListing(db, startDate, endDate, rows)
    ensures CalculateSummary(rows, []).grossProfit ==
      CalculateSummary(rows, []).totalSales - Sums.SumBy(rows, CostOfGoods)
  {
    LedgerLemmas.RunKeepsInvariants(Empty(), requests);
    GrossProfitIsSalesMinusCost(rows);
  }
}
