/**
 * The transaction rows the frontend receives from GET /api/transactions and
 * the per-row quantities its reports add up.
 */
module Rows {
  import opened Ledger

  function SaleTotal(t: Transaction): int {
    t.total
  }

  /** `t.profitPerUnit * t.quantity`. */
  function LineProfit(t: Transaction): int {
    t.profitPerUnit * t.quantity
  }

  function UnitsSold(t: Transaction): int {
    t.quantity
  }

  /** The rows dated `day`, in their original order. */
  function DatedOn(ts: seq<Transaction>, day: Date): (r: seq<Transaction>)
    ensures forall t :: t in r <==> t in ts && t.date == day
    decreases |ts|
  {
    if |ts| == 0 then []
    else (if ts[0].date == day then [ts[0]] else []) + DatedOn(ts[1..], day)
  }

  lemma {:induction false} DatedOnAppend(a: seq<Transaction>, b: seq<Transaction>, day: Date)
    ensures DatedOn(a + b, day) == DatedOn(a, day) + DatedOn(b, day)
    decreases |a|
  {
    if |a| == 0 {
      assert a + b == b;
    } else {
      assert (a + b)[0] == a[0] && (a + b)[1..] == a[1..] + b;
      DatedOnAppend(a[1..], b, day);
    }
  }

  lemma DatedOnSnoc(a: seq<Transaction>, t: Transaction, day: Date)
    ensures DatedOn(a + [t], day) == DatedOn(a, day) + (if t.date == day then [t] else [])
  {
    DatedOnAppend(a, [t], day);
  }

  lemma {:induction false} DatedOnNone(ts: seq<Transaction>, day: Date)
    requires forall t :: t in ts ==> t.date != day
    ensures DatedOn(ts, day) == []
    decreases |ts|
  {
    if |ts| > 0 {
      assert ts[0] in ts;
      DatedOnNone(ts[1..], day);
    }
  }
}
