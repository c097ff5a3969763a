/**
 * What the ledger's endpoints promise across calls: stock and sold units
 * balance, create/delete round trips, the capital history mirrors the
 * expenses, and invariants that every request keeps.
 */
module LedgerLemmas {
  import opened Ledger
  import Sums
  import Text
  import Sorting

  // ---------------------------------------------------------------- stock

  ghost predicate StockNonNegative(db: Db) {
    forall n :: n in db.products ==> db.products[n].stock >= 0
  }

  ghost predicate QuantitiesNonNegative(db: Db) {
    forall k :: k in db.transactions ==> db.transactions[k].quantity >= 0
  }

  /** Stock on hand plus units sold by the recorded transactions did not change for `name`. */
  ghost predicate StockConserved(before: Db, after: Db, name: string) {
    name in before.products && name in after.products ==>
      after.products[name].stock + Sold(after, name) == before.products[name].stock + Sold(before, name)
  }

  /** A sale lowers its product's stock by the quantity, touches no other product and records the row. */
  lemma CreateTransactionEffect(db: Db, name: string, quantity: int, costPrice: int,
                                sellingPrice: int, today: Date)
    requires name in db.products && db.products[name].stock >= quantity
    ensures var r := CreateTransaction(db, name, quantity, costPrice, sellingPrice, today);
      && r.status == Ok(db.nextTransactionId)
      && r.db.products.Keys == db.products.Keys
      && r.db.products[name].stock == db.products[name].stock - quantity
      && (forall n :: n in db.products && n != name ==> r.db.products[n] == db.products[n])
      && r.db.transactions == db.transactions[db.nextTransactionId :=
           Transaction(db.nextTransactionId, name, quantity, costPrice, sellingPrice,
                       sellingPrice - costPrice, quantity * sellingPrice, today)]
  {
  }

  /** An edit moves stock by the change in quantity and recomputes the row, keeping name and date. */
  lemma UpdateTransactionEffect(db: Db, id: int, quantity: int, costPrice: int, sellingPrice: int)
    requires id in db.transactions
    requires var t := db.transactions[id];
      t.productName in db.products && db.products[t.productName].stock >= quantity - t.quantity
    ensures var t := db.transactions[id];
      var r := UpdateTransaction(db, id, quantity, costPrice, sellingPrice);
      && r.status == Ok(id)
      && r.db.products[t.productName].stock == db.products[t.productName].stock - (quantity - t.quantity)
      && (forall n :: n in db.products && n != t.productName ==> r.db.products[n] == db.products[n])
      && r.db.transactions == db.transactions[id := t.(quantity := quantity, costPrice := costPrice,
           sellingPrice := sellingPrice, total := quantity * sellingPrice,
           profitPerUnit := sellingPrice - costPrice)]
  {
  }

  /** A delete removes only that row and gives its quantity back to the product of that name, if any. */
  lemma DeleteTransactionEffect(db: Db, id: int)
    requires id in db.transactions
    ensures var t := db.transactions[id];
      var r := DeleteTransaction(db, id);
      && r.status == Ok(id)
      && r.db.transactions == db.transactions - {id}
      && (t.productName in db.products ==>
            r.db.products[t.productName].stock == db.products[t.productName].stock + t.quantity)
      && (t.productName !in db.products ==> r.db.products == db.products)
      && (forall n :: n in db.products && n != t.productName ==> r.db.products[n] == db.products[n])
  {
  }

  lemma CreateTransactionConservesStock(db: Db, productName: string, quantity: int, costPrice: int,
                                        sellingPrice: int, today: Date, name: string)
    requires WellFormed(db)
    ensures StockConserved(db, CreateTransaction(db, productName, quantity, costPrice, sellingPrice, today).db, name)
  {
    var r := CreateTransaction(db, productName, quantity, costPrice, sellingPrice, today);
    if r.status.Ok? {
      var id := db.nextTransactionId;
      Sums.MapSumInsert(db.transactions, SoldUnits(name), id, r.db.transactions[id]);
    }
  }

  lemma UpdateTransactionConservesStock(db: Db, id: int, quantity: int, costPrice: int,
                                        sellingPrice: int, name: string)
    requires WellFormed(db)
    ensures StockConserved(db, UpdateTransaction(db, id, quantity, costPrice, sellingPrice).db, name)
  {
    var r := UpdateTransaction(db, id, quantity, costPrice, sellingPrice);
    if r.status.Ok? {
      Sums.MapSumReplace(db.transactions, SoldUnits(name), id, r.db.transactions[id]);
    }
  }

  lemma DeleteTransactionConservesStock(db: Db, id: int, name: string)
    requires WellFormed(db)
    ensures StockConserved(db, DeleteTransaction(db, id).db, name)
  {
    var r := DeleteTransaction(db, id);
    if r.status.Ok? {
      Sums.MapSumRemove(db.transactions, SoldUnits(name), id);
    }
  }

  lemma CreateTransactionKeepsStockNonNegative(db: Db, productName: string, quantity: int,
                                               costPrice: int, sellingPrice: int, today: Date)
    requires StockNonNegative(db)
    ensures StockNonNegative(CreateTransaction(db, productName, quantity, costPrice, sellingPrice, today).db)
  {
  }

  lemma UpdateTransactionKeepsStockNonNegative(db: Db, id: int, quantity: int, costPrice: int,
                                               sellingPrice: int)
    requires StockNonNegative(db)
    ensures StockNonNegative(UpdateTransaction(db, id, quantity, costPrice, sellingPrice).db)
  {
  }

  /** Deleting gives stock back, so it keeps stock non-negative while no quantity is negative. */
  lemma DeleteTransactionKeepsStockNonNegative(db: Db, id: int)
    requires StockNonNegative(db) && QuantitiesNonNegative(db)
    ensures StockNonNegative(DeleteTransaction(db, id).db)
  {
  }

  /**
   * The server never checks that a quantity is positive: a sale of -5 units
   * raises the stock, and deleting it later can leave the stock at -5.
   */
  lemma NegativeQuantityDrivesStockNegative()
    ensures var db0 := CreateProduct(Empty(), "Pulsa", 0, 10000, 8000).db;
      var db1 := CreateTransaction(db0, "Pulsa", -5, 8000, 10000, "2024-01-02").db;
      var db2 := CreateTransaction(db1, "Pulsa", 5, 8000, 10000, "2024-01-02").db;
      var db3 := DeleteTransaction(db2, 1).db;
      && StockNonNegative(db0) && StockNonNegative(db2)
      && db3.products["Pulsa"].stock == -5
  {
    var db0 := CreateProduct(Empty(), "Pulsa", 0, 10000, 8000).db;
    assert db0.products == map["Pulsa" := Product(1, "Pulsa", 0, 10000, 8000)];
    var db1 := CreateTransaction(db0, "Pulsa", -5, 8000, 10000, "2024-01-02").db;
    assert db1.products["Pulsa"].stock == 5 && db1.transactions[1].quantity == -5;
    var db2 := CreateTransaction(db1, "Pulsa", 5, 8000, 10000, "2024-01-02").db;
    assert db2.products == map["Pulsa" := Product(1, "Pulsa", 0, 10000, 8000)];
    assert 1 in db2.transactions && db2.transactions[1].quantity == -5;
  }

  /** Recording a sale and deleting it gives back the products and transactions tables. */
  lemma CreateThenDeleteTransaction(db: Db, name: string, quantity: int, costPrice: int,
                                    sellingPrice: int, today: Date)
    requires WellFormed(db)
    requires CreateTransaction(db, name, quantity, costPrice, sellingPrice, today).status.Ok?
    ensures var r1 := CreateTransaction(db, name, quantity, costPrice, sellingPrice, today);
      var r2 := DeleteTransaction(r1.db, r1.status.id);
      && r2.status.Ok?
      && r2.db.products == db.products
      && r2.db.transactions == db.transactions
  {
    var r1 := CreateTransaction(db, name, quantity, costPrice, sellingPrice, today);
    var id := r1.status.id;
    var p := db.products[name];
    assert id == db.nextTransactionId && id !in db.transactions;
    assert r1.db.transactions[id].productName == name && r1.db.transactions[id].quantity == quantity;
    assert r1.db.products == db.products[name := p.(stock := p.stock - quantity)];
    RestockRestores(db.products, name, quantity);
    assert r1.db.transactions - {id} == db.transactions;
  }

  /** Taking `q` units out of a product and putting them back restores the table. */
  lemma RestockRestores(products: map<string, Product>, name: string, q: int)
    requires name in products
    ensures var p := products[name];
      var lowered := products[name := p.(stock := p.stock - q)];
      lowered[name := lowered[name].(stock := lowered[name].stock + q)] == products
  {
    var p := products[name];
    assert p.(stock := p.stock - q + q) == p;
  }

  /** Editing a row back to its old values restores both tables, when the stock was not negative. */
  lemma UpdateThenRevertTransaction(db: Db, id: int, quantity: int, costPrice: int, sellingPrice: int)
    requires StockNonNegative(db)
    requires UpdateTransaction(db, id, quantity, costPrice, sellingPrice).status.Ok?
    ensures var t := db.transactions[id];
      var r1 := UpdateTransaction(db, id, quantity, costPrice, sellingPrice);
      var r2 := UpdateTransaction(r1.db, id, t.quantity, t.costPrice, t.sellingPrice);
      t.total == t.quantity * t.sellingPrice && t.profitPerUnit == t.sellingPrice - t.costPrice ==>
        && r2.status.Ok?
        && r2.db.products == db.products
        && r2.db.transactions == db.transactions
  {
    var t := db.transactions[id];
    var r1 := UpdateTransaction(db, id, quantity, costPrice, sellingPrice);
    var p := db.products[t.productName];
    assert r1.db.products[t.productName := p] == db.products;
    if t.total == t.quantity * t.sellingPrice && t.profitPerUnit == t.sellingPrice - t.costPrice {
      assert r1.db.transactions[id := t] == db.transactions;
    }
  }

  // ---------------------------------------------------------------- products

  /** Once a product is deleted no transaction names it and every other product is kept. */
  lemma DeleteProductEffect(db: Db, id: int)
    requires WellFormed(db)
    requires DeleteProduct(db, id).status.Ok?
    ensures var r := DeleteProduct(db, id);
      exists name :: name in db.products && db.products[name].id == id
        && !Referenced(db, name)
        && r.db.products == db.products - {name}
        && forall n :: n in r.db.products ==> r.db.products[n].id != id
  {
    var name := ProductNameOf(db.products, id).value;
    assert name in db.products && db.products[name].id == id;
  }

  // ---------------------------------------------------------------- capital

  lemma TotalCapitalAppend(a: seq<CapitalEntry>, b: seq<CapitalEntry>)
    ensures TotalCapital(a + b) == TotalCapital(a) + TotalCapital(b)
  {
    Sums.SumByAppend(a, b, SignedAmount);
  }

  /** Appending one entry moves the total by that entry's signed amount. */
  lemma TotalCapitalSnoc(a: seq<CapitalEntry>, e: CapitalEntry)
    ensures TotalCapital(a + [e]) == TotalCapital(a) + SignedAmount(e)
  {
    Sums.SumBySnoc(a, e, SignedAmount);
  }

  /** The signed sum is what was added minus everything of any other type, and 0 when empty. */
  lemma {:induction false} TotalCapitalIsAddedMinusWithdrawn(capital: seq<CapitalEntry>)
    ensures TotalCapital(capital) ==
      Sums.SumBy(capital, AddedAmount) - Sums.SumBy(capital, WithdrawnAmount)
    ensures capital == [] ==> TotalCapital(capital) == 0
    decreases |capital|
  {
    if |capital| > 0 {
      TotalCapitalIsAddedMinusWithdrawn(capital[1..]);
    }
  }

  ghost function ExpenseTotal(db: Db): int {
    Sums.MapSum(db.expenses, ExpenseAmount)
  }

  /** Capital plus recorded expenses: what expense requests leave unchanged. */
  ghost function CapitalBalance(db: Db): int {
    TotalCapital(db.capital) + ExpenseTotal(db)
  }

  lemma CreateExpenseMirrorsCapital(db: Db, description: string, amount: int, today: Date)
    requires WellFormed(db)
    ensures var r := CreateExpense(db, description, amount, today);
      && TotalCapital(r.db.capital) == TotalCapital(db.capital) - amount
      && r.db.expenses[r.status.id] == Expense(r.status.id, description, amount, today)
      && CapitalBalance(r.db) == CapitalBalance(db)
  {
    var r := CreateExpense(db, description, amount, today);
    TotalCapitalSnoc(db.capital, CapitalEntry(NextCapitalId(db), amount, today, SubtractKind));
    Sums.MapSumInsert(db.expenses, ExpenseAmount, r.status.id, r.db.expenses[r.status.id]);
  }

  lemma UpdateExpenseMirrorsCapital(db: Db, id: int, description: string, amount: int)
    requires WellFormed(db)
    requires id in db.expenses
    ensures var r := UpdateExpense(db, id, description, amount);
      && TotalCapital(r.db.capital) == TotalCapital(db.capital) + db.expenses[id].amount - amount
      && r.db.expenses[id].date == db.expenses[id].date
      && CapitalBalance(r.db) == CapitalBalance(db)
  {
    var r := UpdateExpense(db, id, description, amount);
    var e := db.expenses[id];
    var n := NextCapitalId(db);
    var back := CapitalEntry(n, e.amount, e.date, AddKind);
    var out := CapitalEntry(n + 1, amount, e.date, SubtractKind);
    TotalCapitalSnoc(db.capital, back);
    TotalCapitalSnoc(db.capital + [back], out);
    assert db.capital + [back] + [out] == db.capital + [back, out];
    Sums.MapSumReplace(db.expenses, ExpenseAmount, id, r.db.expenses[id]);
  }

  lemma DeleteExpenseMirrorsCapital(db: Db, id: int)
    requires WellFormed(db)
    requires id in db.expenses
    ensures var r := DeleteExpense(db, id);
      && TotalCapital(r.db.capital) == TotalCapital(db.capital) + db.expenses[id].amount
      && CapitalBalance(r.db) == CapitalBalance(db)
  {
    var r := DeleteExpense(db, id);
    var e := db.expenses[id];
    TotalCapitalSnoc(db.capital, CapitalEntry(NextCapitalId(db), e.amount, e.date, AddKind));
    Sums.MapSumRemove(db.expenses, ExpenseAmount, id);
  }

  /** Recording an expense and deleting it restores the total capital and the expenses table. */
  lemma CreateThenDeleteExpense(db: Db, description: string, amount: int, today: Date)
    requires WellFormed(db)
    ensures var r1 := CreateExpense(db, description, amount, today);
      var r2 := DeleteExpense(r1.db, r1.status.id);
      && r2.status.Ok?
      && TotalCapital(r2.db.capital) == TotalCapital(db.capital)
      && r2.db.expenses == db.expenses
      && |r2.db.capital| == |db.capital| + 2
  {
    var r1 := CreateExpense(db, description, amount, today);
    CreateExpenseMirrorsCapital(db, description, amount, today);
    DeleteExpenseMirrorsCapital(r1.db, r1.status.id);
    assert r1.db.expenses - {r1.status.id} == db.expenses;
  }

  /** POST /api/capital moves the total by the amount: up for 'add', down for any other type. */
  lemma AddCapitalMovesTotal(db: Db, amount: int, kind: string, today: Date)
    ensures var r := AddCapital(db, amount, kind, today);
      TotalCapital(r.db.capital) == TotalCapital(db.capital) + (if kind == AddKind then amount else -amount)
  {
    TotalCapitalSnoc(db.capital, CapitalEntry(|db.capital| + 1, amount, today, kind));
  }

  // ---------------------------------------------------------------- every request

  /**
   * Every transaction names a product that exists, and carries the derived
   * columns the handlers compute.
   */
  ghost predicate Consistent(db: Db) {
    forall k :: k in db.transactions ==>
      db.transactions[k].productName in db.products && Priced(db.transactions[k])
  }

  /** Errors change nothing, the capital history only grows, and both invariants are kept. */
  lemma ApplyKeepsInvariants(db: Db, req: Request, today: Date)
    ensures var r := Apply(db, req, today);
      && (!r.status.Ok? ==> r.db == db)
      && db.capital <= r.db.capital
      && (WellFormed(db) ==> WellFormed(r.db))
      && (Consistent(db) ==> Consistent(r.db))
  {
    var r := Apply(db, req, today);
    match req
    case RemoveProduct(id) =>
      if r.status.Ok? && Consistent(db) {
        var name := ProductNameOf(db.products, id).value;
        forall k | k in r.db.transactions
          ensures r.db.transactions[k].productName in r.db.products && Priced(r.db.transactions[k])
        {
          assert db.transactions[k].productName != name;
        }
      }
    case _ =>
  }

  ghost predicate Reachable(db: Db) {
    exists requests :: db == Run(Empty(), requests)
  }

  lemma {:induction false} RunKeepsInvariants(db: Db, requests: seq<(Request, Date)>)
    requires WellFormed(db) && Consistent(db)
    ensures WellFormed(Run(db, requests)) && Consistent(Run(db, requests))
    decreases |requests|
  {
    if |requests| > 0 {
      ApplyKeepsInvariants(db, requests[0].0, requests[0].1);
      RunKeepsInvariants(Apply(db, requests[0].0, requests[0].1).db, requests[1..]);
    }
  }

  /**
   * From a fresh database every transaction names an existing product, so the
   * two "product missing" branches of the transaction endpoints are never taken.
   */
  lemma ReachableDbHasNoOrphanTransactions(db: Db, id: int)
    requires Reachable(db)
    ensures WellFormed(db) && Consistent(db)
    ensures id in db.transactions ==> forall quantity, costPrice, sellingPrice ::
      UpdateTransaction(db, id, quantity, costPrice, sellingPrice).status != NotFound
    ensures id in db.transactions ==>
      var name := db.transactions[id].productName;
      DeleteTransaction(db, id).db.products[name].stock == db.products[name].stock + db.transactions[id].quantity
  {
    var requests :| db == Run(Empty(), requests);
    RunKeepsInvariants(Empty(), requests);
  }

  /** The signed amount that a request adds to capital without recording an expense. */
  function Injected(req: Request): int {
    match req
    case PostCapital(amount, kind) => if kind == AddKind then amount else -amount
    case _ => 0
  }

  function InjectedTotal(requests: seq<(Request, Date)>): int
    decreases |requests|
  {
    if |requests| == 0 then 0 else Injected(requests[0].0) + InjectedTotal(requests[1..])
  }

  lemma ApplyMovesBalance(db: Db, req: Request, today: Date)
    requires WellFormed(db)
    ensures CapitalBalance(Apply(db, req, today).db) == CapitalBalance(db) + Injected(req)
  {
    match req
    case PostExpense(d, a) => CreateExpenseMirrorsCapital(db, d, a, today);
    case PutExpense(id, d, a) =>
      if id in db.expenses {
        UpdateExpenseMirrorsCapital(db, id, d, a);
      }
    case RemoveExpense(id) =>
      if id in db.expenses {
        DeleteExpenseMirrorsCapital(db, id);
      }
    case PostCapital(a, kind) => AddCapitalMovesTotal(db, a, kind, today);
    case _ =>
  }

  /**
   * Total capital always equals the net manual capital posted minus the
   * expenses on record: sales, stock edits and products never move it.
   */
  lemma {:induction false} RunBalancesCapital(db: Db, requests: seq<(Request, Date)>)
    requires WellFormed(db)
    ensures TotalCapital(Run(db, requests).capital) ==
      TotalCapital(db.capital) + ExpenseTotal(db) + InjectedTotal(requests) - ExpenseTotal(Run(db, requests))
    decreases |requests|
  {
    if |requests| > 0 {
      var next := Apply(db, requests[0].0, requests[0].1).db;
      ApplyMovesBalance(db, requests[0].0, requests[0].1);
      ApplyKeepsInvariants(db, requests[0].0, requests[0].1);
      RunBalancesCapital(next, requests[1..]);
    }
  }

  // ---------------------------------------------------------------- listing orders

  /** `ORDER BY date DESC, id DESC` is a strict order, total on rows with distinct ids. */
  lemma NewerFirstIsStrictTotalOrder()
    ensures Sorting.Transitive(NewerFirst)
    ensures forall a, b :: NewerFirst(a, b) ==> !NewerFirst(b, a)
    ensures forall a: Transaction, b: Transaction :: a.id != b.id ==> NewerFirst(a, b) || NewerFirst(b, a)
  {
    forall a, b, c | NewerFirst(a, b) && NewerFirst(b, c) ensures NewerFirst(a, c) {
      if Text.Less(b.date, a.date) && Text.Less(c.date, b.date) {
        Text.LessTransitive(c.date, b.date, a.date);
      }
    }
    forall a, b | NewerFirst(a, b) ensures !NewerFirst(b, a) {
      if Text.Less(b.date, a.date) {
        Text.LessAsymmetric(b.date, a.date);
      } else {
        Text.LessIrreflexive(a.date);
      }
    }
    forall a: Transaction, b: Transaction | a.id != b.id ensures NewerFirst(a, b) || NewerFirst(b, a) {
      if a.date != b.date {
        Text.LessTotal(a.date, b.date);
      }
    }
  }

  lemma NewerExpenseFirstIsStrictTotalOrder()
    ensures Sorting.Transitive(NewerExpenseFirst)
    ensures forall a, b :: NewerExpenseFirst(a, b) ==> !NewerExpenseFirst(b, a)
    ensures forall a: Expense, b: Expense :: a.id != b.id ==> NewerExpenseFirst(a, b) || NewerExpenseFirst(b, a)
  {
    forall a, b, c | NewerExpenseFirst(a, b) && NewerExpenseFirst(b, c) ensures NewerExpenseFirst(a, c) {
      if Text.Less(b.date, a.date) && Text.Less(c.date, b.date) {
        Text.LessTransitive(c.date, b.date, a.date);
      }
    }
    forall a, b | NewerExpenseFirst(a, b) ensures !NewerExpenseFirst(b, a) {
      if Text.Less(b.date, a.date) {
        Text.LessAsymmetric(b.date, a.date);
      } else {
        Text.LessIrreflexive(a.date);
      }
    }
    forall a: Expense, b: Expense | a.id != b.id ensures NewerExpenseFirst(a, b) || NewerExpenseFirst(b, a) {
      if a.date != b.date {
        Text.LessTotal(a.date, b.date);
      }
    }
  }

  /** `ORDER BY name ASC` is a strict order, total on products with distinct names. */
  lemma NameBeforeIsStrictTotalOrder()
    ensures Sorting.Transitive(NameBefore)
    ensures forall a, b :: NameBefore(a, b) ==> !NameBefore(b, a)
    ensures forall a: Product, b: Product :: a.name != b.name ==> NameBefore(a, b) || NameBefore(b, a)
  {
    forall a, b, c | NameBefore(a, b) && NameBefore(b, c) ensures NameBefore(a, c) {
      Text.LessTransitive(a.name, b.name, c.name);
    }
    forall a, b | NameBefore(a, b) ensures !NameBefore(b, a) {
      Text.LessAsymmetric(a.name, b.name);
    }
    forall a: Product, b: Product | a.name != b.name ensures NameBefore(a, b) || NameBefore(b, a) {
      Text.LessTotal(a.name, b.name);
    }
  }

  /** A listing is unique: two answers to the same query are the same sequence. */
  lemma {:induction false} SortedSetIsUnique<T(!new)>(a: seq<T>, b: seq<T>, lt: (T, T) -> bool)
    requires forall x, y :: lt(x, y) ==> !lt(y, x)
    requires Sorting.SortedBy(a, lt) && Sorting.SortedBy(b, lt)
    requires forall x :: x in a <==> x in b
    ensures a == b
    decreases |a|
  {
    assert |a| > 0 ==> a[0] in b;
    assert |b| > 0 ==> b[0] in a;
    if |a| > 0 {
      assert a == [a[0]] + a[1..] && b == [b[0]] + b[1..];
      // the first element of each precedes every other element of both
      if a[0] != b[0] {
        assert false;
      }
      forall x ensures x in a[1..] <==> x in b[1..] {
        if x in a[1..] {
          var j :| 1 <= j < |a| && a[j] == x;
          assert lt(a[0], x);
          assert x in b && x != b[0];
        }
        if x in b[1..] {
          var j :| 1 <= j < |b| && b[j] == x;
          assert lt(b[0], x);
          assert x in a && x != a[0];
        }
      }
      SortedSetIsUnique(a[1..], b[1..], lt);
    }
  }

  // ---------------------------------------------------------------- scenarios

  /** Widget: 10 in stock, 3 sold at 100 with cost 60, then the sale deleted. */
  lemma WidgetScenario()
    ensures var db0 := CreateProduct(Empty(), "Widget", 10, 100, 60).db;
      var r1 := CreateTransaction(db0, "Widget", 3, 60, 100, "2024-05-01");
      var r2 := DeleteTransaction(r1.db, r1.status.id);
      && r1.status == Ok(1)
      && r1.db.products["Widget"].stock == 7
      && r1.db.transactions[1].total == 300 && r1.db.transactions[1].profitPerUnit == 40
      && r2.db.products["Widget"].stock == 10
      && 1 !in r2.db.transactions
  {
  }

  /** Capital: 1000 added, 200 subtracted, then a 500 rent expense that is later deleted. */
  lemma CapitalScenario()
    ensures var db1 := AddCapital(Empty(), 1000, "add", "2024-05-01").db;
      var db2 := AddCapital(db1, 200, "subtract", "2024-05-01").db;
      var r3 := CreateExpense(db2, "Rent", 500, "2024-05-02");
      var db4 := DeleteExpense(r3.db, r3.status.id).db;
      && TotalCapital(db2.capital) == 800
      && r3.db.capital[2] == CapitalEntry(3, 500, "2024-05-02", "subtract")
      && TotalCapital(r3.db.capital) == 300
      && db4.capital[3] == CapitalEntry(4, 500, "2024-05-02", "add")
      && TotalCapital(db4.capital) == 800
  {
    var e1 := CapitalEntry(1, 1000, "2024-05-01", AddKind);
    var e2 := CapitalEntry(2, 200, "2024-05-01", "subtract");
    var e3 := CapitalEntry(3, 500, "2024-05-02", SubtractKind);
    var e4 := CapitalEntry(4, 500, "2024-05-02", AddKind);
    var db1 := AddCapital(Empty(), 1000, "add", "2024-05-01").db;
    var db2 := AddCapital(db1, 200, "subtract", "2024-05-01").db;
    var r3 := CreateExpense(db2, "Rent", 500, "2024-05-02");
    var db4 := DeleteExpense(r3.db, r3.status.id).db;
    assert db1.capital == [] + [e1];
    assert db2.capital == db1.capital + [e2];
    assert r3.db.capital == db2.capital + [e3];
    assert r3.db.expenses[r3.status.id] == Expense(1, "Rent", 500, "2024-05-02");
    assert db4.capital == r3.db.capital + [e4];
    TotalCapitalSnoc([], e1);
    TotalCapitalSnoc(db1.capital, e2);
    TotalCapitalSnoc(db2.capital, e3);
    TotalCapitalSnoc(r3.db.capital, e4);
  }
}
