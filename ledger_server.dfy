/**
 * The Express server over its SQLite file, as an object whose tables are
 * fields that each request handler updates in place. Every handler is
 * proved to do exactly what the matching step of `Ledger` does, and every
 * query is proved to answer what the `Ledger` listing predicates describe.
 */
module LedgerServer {
  import opened Wrappers
  import opened Ledger
  import Sums
  import Sorting
  import LedgerLemmas

  class Server {
    var products: map<string, Product>
    var transactions: map<int, Transaction>
    var expenses: map<int, Expense>
    var capital: seq<CapitalEntry>
    var nextProductId: int
    var nextTransactionId: int
    var nextExpenseId: int

    /** The tables as one value. */
    ghost function Db(): Ledger.Db
      reads this
    {
      Ledger.Db(products, transactions, expenses, capital,
                nextProductId, nextTransactionId, nextExpenseId)
    }

    ghost predicate Valid()
      reads this
    {
      WellFormed(Db())
    }

    /** `CREATE TABLE IF NOT EXISTS` on a new database file. */
    constructor ()
      ensures Valid()
      ensures Db() == Empty()
    {
      products, transactions, expenses, capital := map[], map[], map[], [];
      nextProductId, nextTransactionId, nextExpenseId := 1, 1, 1;
    }

    // -------------------------------------------------------------- transactions

    method CreateTransaction(productName: string, quantity: int, costPrice: int,
                             sellingPrice: int, today: Date) returns (status: Status)
      requires Valid()
      modifies this
      ensures Valid()
      ensures var r := Ledger.CreateTransaction(old(Db()), productName, quantity, costPrice, sellingPrice, today);
        status == r.status && Db() == r.db
    {
      ghost var r := Ledger.CreateTransaction(Db(), productName, quantity, costPrice, sellingPrice, today);
      if productName !in products {
        return NotFound;
      }
      var product := products[productName];
      if product.stock < quantity {
        return InsufficientStock;
      }
      products := products[productName := product.(stock := product.stock - quantity)];
      var id := nextTransactionId;
      transactions := transactions[id := Transaction(id, productName, quantity, costPrice, sellingPrice,
                                                     sellingPrice - costPrice, quantity * sellingPrice, today)];
      nextTransactionId := id + 1;
      status := Ok(id);
      assert Db() == r.db;
    }

    method DeleteTransaction(id: int) returns (status: Status)
      requires Valid()
      modifies this
      ensures Valid()
      ensures var r := Ledger.DeleteTransaction(old(Db()), id);
        status == r.status && Db() == r.db
    {
      ghost var r := Ledger.DeleteTransaction(Db(), id);
      if id !in transactions {
        return NotFound;
      }
      var row := transactions[id];
      if row.productName in products {
        var p := products[row.productName];
        products := products[row.productName := p.(stock := p.stock + row.quantity)];
      }
      transactions := transactions - {id};
      status := Ok(id);
      assert Db() == r.db;
    }

    method UpdateTransaction(id: int, quantity: int, costPrice: int, sellingPrice: int)
      returns (status: Status)
      requires Valid()
      modifies this
      ensures Valid()
      ensures var r := Ledger.UpdateTransaction(old(Db()), id, quantity, costPrice, sellingPrice);
        status == r.status && Db() == r.db
    {
      ghost var r := Ledger.UpdateTransaction(Db(), id, quantity, costPrice, sellingPrice);
      if id !in transactions {
        return NotFound;
      }
      var original := transactions[id];
      var quantityDifference := quantity - original.quantity;
      if original.productName !in products {
        return NotFound;
      }
      var product := products[original.productName];
      if product.stock < quantityDifference {
        return InsufficientStock;
      }
      products := products[original.productName := product.(stock := product.stock - quantityDifference)];
      transactions := transactions[id := original.(quantity := quantity, costPrice := costPrice,
                                                   sellingPrice := sellingPrice,
                                                   total := quantity * sellingPrice,
                                                   profitPerUnit := sellingPrice - costPrice)];
      status := Ok(id);
      assert Db() == r.db;
    }

    /** GET /api/transactions: the rows of the date range, newest first. */
    method ListTransactions(startDate: Date, endDate: Date) returns (rows: seq<Transaction>)
      requires Valid()
      ensures TransactionListing(Db(), startDate, endDate, rows)
    {
      LedgerLemmas.NewerFirstIsStrictTotalOrder();
      rows := [];
      var pending := transactions.Keys;
      while pending != {}
        invariant pending <= transactions.Keys
        invariant Sorting.SortedBy(rows, NewerFirst)
        invariant forall t :: t in rows <==>
          t.id in transactions && t.id !in pending && transactions[t.id] == t &&
          InDateRange(t.date, startDate, endDate)
        decreases |pending|
      {
        Sums.NonEmptyKeys(pending);
        var k :| k in pending;
        var t := transactions[k];
        if InDateRange(t.date, startDate, endDate) {
          assert forall j :: 0 <= j < |rows| ==> rows[j] in rows && rows[j].id != t.id;
          Sorting.InsertMembers(rows, t, NewerFirst);
          rows := Sorting.Insert(rows, t, NewerFirst);
        }
        pending := pending - {k};
      }
    }

    // -------------------------------------------------------------- products

    method CreateProduct(name: string, stock: int, price: int, costPrice: int) returns (status: Status)
      requires Valid()
      modifies this
      ensures Valid()
      ensures var r := Ledger.CreateProduct(old(Db()), name, stock, price, costPrice);
        status == r.status && Db() == r.db
    {
      if name in products {
        return Conflict;
      }
      var id := nextProductId;
      products := products[name := Product(id, name, stock, price, costPrice)];
      nextProductId := id + 1;
      status := Ok(id);
    }

    /** `SELECT name FROM products WHERE id = ?`. */
    method FindProduct(id: int) returns (r: Option<string>)
      requires Valid()
      ensures r == ProductNameOf(products, id)
    {
      r := None;
      var pending := products.Keys;
      while pending != {}
        invariant pending <= products.Keys
        invariant r.None? ==> forall n :: n in products && n !in pending ==> products[n].id != id
        invariant r.Some? ==> r.value in products && products[r.value].id == id
        decreases |pending|
      {
        var n :| n in pending;
        if products[n].id == id {
          r := Some(n);
        }
        pending := pending - {n};
      }
      var expected := ProductNameOf(products, id);
      if r.Some? && expected.Some? && r.value != expected.value {
        assert false;
      }
    }

    /** `SELECT 1 FROM transactions WHERE productName = ? LIMIT 1`. */
    method HasTransactionFor(name: string) returns (found: bool)
      ensures found <==> Referenced(Db(), name)
    {
      found := false;
      var pending := transactions.Keys;
      while pending != {} && !found
        invariant pending <= transactions.Keys
        invariant !found <==> forall k :: k in transactions && k !in pending ==> transactions[k].productName != name
        decreases |pending|
      {
        Sums.NonEmptyKeys(pending);
        var k :| k in pending;
        found := transactions[k].productName == name;
        pending := pending - {k};
      }
    }

    /** PUT /api/products/:id answers 404 when no row was changed. */
    method UpdateProductStock(id: int, stock: int) returns (status: Status)
      requires Valid()
      modifies this
      ensures Valid()
      ensures var r := Ledger.UpdateProductStock(old(Db()), id, stock);
        status == r.status && Db() == r.db
    {
      var name := FindProduct(id);
      if name.None? {
        return NotFound;
      }
      var p := products[name.value];
      products := products[name.value := p.(stock := stock)];
      status := Ok(id);
    }

    method DeleteProduct(id: int) returns (status: Status)
      requires Valid()
      modifies this
      ensures Valid()
      ensures var r := Ledger.DeleteProduct(old(Db()), id);
        status == r.status && Db() == r.db
    {
      var name := FindProduct(id);
      if name.None? {
        return NotFound;
      }
      var referenced := HasTransactionFor(name.value);
      if referenced {
        return Conflict;
      }
      products := products - {name.value};
      status := Ok(id);
    }

    /** GET /api/products: the products whose name holds the search text, by name. */
    method ListProducts(search: string) returns (rows: seq<Product>)
      requires Valid()
      ensures ProductListing(Db(), search, rows)
    {
      LedgerLemmas.NameBeforeIsStrictTotalOrder();
      rows := [];
      var pending := products.Keys;
      while pending != {}
        invariant pending <= products.Keys
        invariant Sorting.SortedBy(rows, NameBefore)
        invariant forall p :: p in rows <==>
          p.name in products && p.name !in pending && products[p.name] == p && MatchesSearch(p.name, search)
        decreases |pending|
      {
        var n :| n in pending;
        var p := products[n];
        if MatchesSearch(p.name, search) {
          assert forall j :: 0 <= j < |rows| ==> rows[j] in rows && rows[j].name != p.name;
          Sorting.InsertMembers(rows, p, NameBefore);
          rows := Sorting.Insert(rows, p, NameBefore);
        }
        pending := pending - {n};
      }
    }

    // -------------------------------------------------------------- expenses and capital

    method CreateExpense(description: string, amount: int, today: Date) returns (status: Status)
      requires Valid()
      modifies this
      ensures Valid()
      ensures var r := Ledger.CreateExpense(old(Db()), description, amount, today);
        status == r.status && Db() == r.db
    {
      var id := nextExpenseId;
      expenses := expenses[id := Expense(id, description, amount, today)];
      nextExpenseId := id + 1;
      capital := capital + [CapitalEntry(|capital| + 1, amount, today, SubtractKind)];
      status := Ok(id);
    }

    method UpdateExpense(id: int, description: string, amount: int) returns (status: Status)
      requires Valid()
      modifies this
      ensures Valid()
      ensures var r := Ledger.UpdateExpense(old(Db()), id, description, amount);
        status == r.status && Db() == r.db
    {
      if id !in expenses {
        return NotFound;
      }
      var original := expenses[id];
      capital := capital + [CapitalEntry(|capital| + 1, original.amount, original.date, AddKind)];
      capital := capital + [CapitalEntry(|capital| + 1, amount, original.date, SubtractKind)];
      expenses := expenses[id := original.(description := description, amount := amount)];
      status := Ok(id);
    }

    method DeleteExpense(id: int) returns (status: Status)
      requires Valid()
      modifies this
      ensures Valid()
      ensures var r := Ledger.DeleteExpense(old(Db()), id);
        status == r.status && Db() == r.db
    {
      if id !in expenses {
        return NotFound;
      }
      var e := expenses[id];
      capital := capital + [CapitalEntry(|capital| + 1, e.amount, e.date, AddKind)];
      expenses := expenses - {id};
      status := Ok(id);
    }

    /** GET /api/expenses: the expenses of the date range, newest first. */
    method ListExpenses(startDate: Date, endDate: Date) returns (rows: seq<Expense>)
      requires Valid()
      ensures ExpenseListing(Db(), startDate, endDate, rows)
    {
      LedgerLemmas.NewerExpenseFirstIsStrictTotalOrder();
      rows := [];
      var pending := expenses.Keys;
      while pending != {}
        invariant pending <= expenses.Keys
        invariant Sorting.SortedBy(rows, NewerExpenseFirst)
        invariant forall e :: e in rows <==>
          e.id in expenses && e.id !in pending && expenses[e.id] == e &&
          InDateRange(e.date, startDate, endDate)
        decreases |pending|
      {
        Sums.NonEmptyKeys(pending);
        var k :| k in pending;
        var e := expenses[k];
        if InDateRange(e.date, startDate, endDate) {
          assert forall j :: 0 <= j < |rows| ==> rows[j] in rows && rows[j].id != e.id;
          Sorting.InsertMembers(rows, e, NewerExpenseFirst);
          rows := Sorting.Insert(rows, e, NewerExpenseFirst);
        }
        pending := pending - {k};
      }
    }

    method AddCapital(amount: int, kind: string, today: Date) returns (status: Status)
      requires Valid()
      modifies this
      ensures Valid()
      ensures var r := Ledger.AddCapital(old(Db()), amount, kind, today);
        status == r.status && Db() == r.db
    {
      var id := |capital| + 1;
      capital := capital + [CapitalEntry(id, amount, today, kind)];
      status := Ok(id);
    }

    /** GET /api/capital/total: the signed sum over the history, 0 when it is empty. */
    method GetTotalCapital() returns (total: int)
      ensures total == TotalCapital(capital)
    {
      total := 0;
      var i := 0;
      while i < |capital|
        invariant 0 <= i <= |capital|
        invariant total == TotalCapital(capital[..i])
      {
        Sums.SumBySnoc(capital[..i], capital[i], SignedAmount);
        assert capital[..i + 1] == capital[..i] + [capital[i]];
        total := total + SignedAmount(capital[i]);
        i := i + 1;
      }
      assert capital[..i] == capital;
    }
  }
}
