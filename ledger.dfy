/**
 * The ledger service of the point-of-sale backend: four tables (products,
 * transactions, expenses and the append-only capital history) and one
 * all-or-nothing step per HTTP endpoint. Each step returns the endpoint's
 * status and the database after the step; every error status leaves the
 * database exactly as it was, as the handlers' ROLLBACK does.
 *
 * Money and quantities are integers (Rupiah and units). The server's
 * `getLocalDate()` is the `today` parameter. Query parameters that are
 * missing or empty are the empty string, since JavaScript treats both as
 * false.
 */
module Ledger {
  import opened Wrappers
  import Sums
  import Text
  import Sorting

  /** A calendar day written `YYYY-MM-DD`, compared as text. */
  type Date = string

  datatype Product = Product(id: int, name: string, stock: int, price: int, costPrice: int)

  datatype Transaction = Transaction(
    id: int,
    productName: string,
    quantity: int,
    costPrice: int,
    sellingPrice: int,
    profitPerUnit: int,
    total: int,
    date: Date)

  /** The two derived columns as the POST and PUT handlers compute them. */
  predicate Priced(t: Transaction) {
    t.profitPerUnit == t.sellingPrice - t.costPrice && t.total == t.quantity * t.sellingPrice
  }

  datatype Expense = Expense(id: int, description: string, amount: int, date: Date)

  /** One row of `capital_history`; `kind` is the column `type`, free text. */
  datatype CapitalEntry = CapitalEntry(id: int, amount: int, date: Date, kind: string)

  /** What an endpoint answers: 2xx with the row id, 404, or one of the two 400s. */
  datatype Status = Ok(id: int) | NotFound | InsufficientStock | Conflict

  /**
   * The four tables and the AUTOINCREMENT counters. Products are keyed by
   * their UNIQUE name; transactions and expenses by id. The capital history
   * is never updated or deleted, so its ids are the positions plus one.
   */
  datatype Db = Db(
    products: map<string, Product>,
    transactions: map<int, Transaction>,
    expenses: map<int, Expense>,
    capital: seq<CapitalEntry>,
    nextProductId: int,
    nextTransactionId: int,
    nextExpenseId: int)

  datatype Outcome = Outcome(status: Status, db: Db)

  const AddKind: string := "add"
  const SubtractKind: string := "subtract"

  /** The database the server creates on first start. */
  function Empty(): Db {
    Db(map[], map[], map[], [], 1, 1, 1)
  }

  /** Keys agree with the rows, ids are unique, positive and below the counters. */
  ghost predicate WellFormed(db: Db) {
    && 1 <= db.nextProductId && 1 <= db.nextTransactionId && 1 <= db.nextExpenseId
    && (forall n :: n in db.products ==>
          db.products[n].name == n && 1 <= db.products[n].id < db.nextProductId)
    && (forall n, n' :: n in db.products && n' in db.products && n != n' ==>
          db.products[n].id != db.products[n'].id)
    && (forall k :: k in db.transactions ==>
          db.transactions[k].id == k && 1 <= k < db.nextTransactionId)
    && (forall k :: k in db.expenses ==>
          db.expenses[k].id == k && 1 <= k < db.nextExpenseId)
    && (forall i :: 0 <= i < |db.capital| ==> db.capital[i].id == i + 1)
  }

  /** Some transaction carries this product name. */
  ghost predicate Referenced(db: Db, name: string) {
    exists k :: k in db.transactions && db.transactions[k].productName == name
  }

  /** The name of the product whose id is `id`, if any (`SELECT ... WHERE id = ?`). */
  ghost function ProductNameOf(products: map<string, Product>, id: int): (r: Option<string>)
    ensures r.Some? ==> r.value in products && products[r.value].id == id
    ensures r.None? ==> forall n :: n in products ==> products[n].id != id
  {
    if exists n :: n in products && products[n].id == id then
      var n :| n in products && products[n].id == id;
      Some(n)
    else
      None
  }

  function NextCapitalId(db: Db): int {
    |db.capital| + 1
  }

  // ---------------------------------------------------------------- transactions

  /** POST /api/transactions. */
  function CreateTransaction(db: Db, productName: string, quantity: int, costPrice: int,
                             sellingPrice: int, today: Date): (r: Outcome)
    ensures r.status == NotFound <==> productName !in db.products
    ensures r.status == InsufficientStock <==>
      productName in db.products && db.products[productName].stock < quantity
    ensures r.status.Ok? || r.status == NotFound || r.status == InsufficientStock
    ensures !r.status.Ok? ==> r.db == db
    ensures r.db.capital == db.capital && r.db.expenses == db.expenses
    ensures WellFormed(db) ==> WellFormed(r.db)
  {
    if productName !in db.products then Outcome(NotFound, db)
    else
      var product := db.products[productName];
      if product.stock < quantity then Outcome(InsufficientStock, db)
      else
        var id := db.nextTransactionId;
        var row := Transaction(id, productName, quantity, costPrice, sellingPrice,
                               sellingPrice - costPrice, quantity * sellingPrice, today);
        Outcome(Ok(id), db.(
          products := db.products[productName := product.(stock := product.stock - quantity)],
          transactions := db.transactions[id := row],
          nextTransactionId := id + 1))
  }

  /** DELETE /api/transactions/:id. Stock goes back by name; a missing product is skipped. */
  function DeleteTransaction(db: Db, id: int): (r: Outcome)
    ensures r.status == NotFound <==> id !in db.transactions
    ensures r.status == Ok(id) || r.status == NotFound
    ensures !r.status.Ok? ==> r.db == db
    ensures r.db.capital == db.capital && r.db.expenses == db.expenses
    ensures r.db.products.Keys == db.products.Keys
    ensures WellFormed(db) ==> WellFormed(r.db)
  {
    if id !in db.transactions then Outcome(NotFound, db)
    else
      var row := db.transactions[id];
      var products :=
        if row.productName in db.products then
          var p := db.products[row.productName];
          db.products[row.productName := p.(stock := p.stock + row.quantity)]
        else db.products;
      Outcome(Ok(id), db.(products := products, transactions := db.transactions - {id}))
  }

  /** PUT /api/transactions/:id. Name and date of the row stay as they were. */
  function UpdateTransaction(db: Db, id: int, quantity: int, costPrice: int,
                             sellingPrice: int): (r: Outcome)
    ensures r.status == NotFound <==>
      id !in db.transactions || db.transactions[id].productName !in db.products
    ensures r.status == InsufficientStock <==>
      id in db.transactions && db.transactions[id].productName in db.products &&
      db.products[db.transactions[id].productName].stock < quantity - db.transactions[id].quantity
    ensures r.status == Ok(id) || r.status == NotFound || r.status == InsufficientStock
    ensures !r.status.Ok? ==> r.db == db
    ensures r.db.capital == db.capital && r.db.expenses == db.expenses
    ensures r.db.transactions.Keys == db.transactions.Keys
    ensures r.db.products.Keys == db.products.Keys
    ensures WellFormed(db) ==> WellFormed(r.db)
  {
    if id !in db.transactions then Outcome(NotFound, db)
    else
      var original := db.transactions[id];
      var quantityDifference := quantity - original.quantity;
      if original.productName !in db.products then Outcome(NotFound, db)
      else
        var product := db.products[original.productName];
        if product.stock < quantityDifference then Outcome(InsufficientStock, db)
        else
          var row := original.(quantity := quantity, costPrice := costPrice,
                               sellingPrice := sellingPrice, total := quantity * sellingPrice,
                               profitPerUnit := sellingPrice - costPrice);
          Outcome(Ok(id), db.(
            products := db.products[original.productName :=
                          product.(stock := product.stock - quantityDifference)],
            transactions := db.transactions[id := row]))
  }

  // ---------------------------------------------------------------- products

  /** POST /api/products. The UNIQUE constraint on `name` rejects a second product. */
  function CreateProduct(db: Db, name: string, stock: int, price: int, costPrice: int): (r: Outcome)
    ensures r.status == Conflict <==> name in db.products
    ensures r.status.Ok? || r.status == Conflict
    ensures !r.status.Ok? ==> r.db == db
    ensures r.db.capital == db.capital && r.db.expenses == db.expenses
    ensures r.db.transactions == db.transactions
    ensures r.status.Ok? ==>
      && r.status == Ok(db.nextProductId)
      && r.db.products == db.products[name := Product(db.nextProductId, name, stock, price, costPrice)]
      && r.db.nextProductId == db.nextProductId + 1
    ensures WellFormed(db) ==> WellFormed(r.db)
  {
    if name in db.products then Outcome(Conflict, db)
    else
      var id := db.nextProductId;
      Outcome(Ok(id), db.(
        products := db.products[name := Product(id, name, stock, price, costPrice)],
        nextProductId := id + 1))
  }

  /** PUT /api/products/:id: the stock is overwritten, whatever its sign. */
  ghost function UpdateProductStock(db: Db, id: int, stock: int): (r: Outcome)
    ensures r.status == NotFound <==> ProductNameOf(db.products, id).None?
    ensures r.status == Ok(id) || r.status == NotFound
    ensures !r.status.Ok? ==> r.db == db
    ensures r.db.capital == db.capital && r.db.expenses == db.expenses
    ensures r.db.transactions == db.transactions
    ensures r.db.products.Keys == db.products.Keys
    ensures r.db.nextProductId == db.nextProductId && r.db.nextTransactionId == db.nextTransactionId
      && r.db.nextExpenseId == db.nextExpenseId
    ensures r.status.Ok? ==>
      var n := ProductNameOf(db.products, id).value;
      r.db.products == db.products[n := db.products[n].(stock := stock)]
    ensures WellFormed(db) ==> WellFormed(r.db)
  {
    match ProductNameOf(db.products, id)
    case None => Outcome(NotFound, db)
    case Some(name) =>
      var p := db.products[name];
      Outcome(Ok(id), db.(products := db.products[name := p.(stock := stock)]))
  }

  /** DELETE /api/products/:id: refused while any transaction carries the product's name. */
  ghost function DeleteProduct(db: Db, id: int): (r: Outcome)
    ensures r.status == NotFound <==> ProductNameOf(db.products, id).None?
    ensures r.status == Conflict <==>
      ProductNameOf(db.products, id).Some? && Referenced(db, ProductNameOf(db.products, id).value)
    ensures r.status == Ok(id) || r.status == NotFound || r.status == Conflict
    ensures !r.status.Ok? ==> r.db == db
    ensures r.status.Ok? ==> r.db.products == db.products - {ProductNameOf(db.products, id).value}
    ensures r.db.capital == db.capital && r.db.expenses == db.expenses
    ensures r.db.transactions == db.transactions
    ensures WellFormed(db) ==> WellFormed(r.db)
  {
    match ProductNameOf(db.products, id)
    case None => Outcome(NotFound, db)
    case Some(name) =>
      if Referenced(db, name) then Outcome(Conflict, db)
      else Outcome(Ok(id), db.(products := db.products - {name}))
  }

  // ---------------------------------------------------------------- expenses and capital

  /** POST /api/expenses: the expense and its 'subtract' capital entry, both dated today. */
  function CreateExpense(db: Db, description: string, amount: int, today: Date): (r: Outcome)
    ensures r.status == Ok(db.nextExpenseId)
    ensures r.db.capital == db.capital + [CapitalEntry(NextCapitalId(db), amount, today, SubtractKind)]
    ensures r.db.expenses == db.expenses[db.nextExpenseId := Expense(db.nextExpenseId, description, amount, today)]
    ensures r.db.nextExpenseId == db.nextExpenseId + 1
    ensures r.db.products == db.products && r.db.transactions == db.transactions
    ensures WellFormed(db) ==> WellFormed(r.db)
  {
    var id := db.nextExpenseId;
    Outcome(Ok(id), db.(
      expenses := db.expenses[id := Expense(id, description, amount, today)],
      capital := db.capital + [CapitalEntry(NextCapitalId(db), amount, today, SubtractKind)],
      nextExpenseId := id + 1))
  }

  /**
   * PUT /api/expenses/:id: gives the old amount back and takes the new one,
   * both entries dated with the expense's original date, which is kept.
   */
  function UpdateExpense(db: Db, id: int, description: string, amount: int): (r: Outcome)
    ensures r.status == NotFound <==> id !in db.expenses
    ensures r.status == Ok(id) || r.status == NotFound
    ensures !r.status.Ok? ==> r.db == db
    ensures r.status.Ok? ==> r.db.capital == db.capital + [
      CapitalEntry(NextCapitalId(db), db.expenses[id].amount, db.expenses[id].date, AddKind),
      CapitalEntry(NextCapitalId(db) + 1, amount, db.expenses[id].date, SubtractKind)]
    ensures r.status.Ok? ==> r.db.expenses == db.expenses[id := db.expenses[id].(description := description, amount := amount)]
    ensures r.db.products == db.products && r.db.transactions == db.transactions
    ensures WellFormed(db) ==> WellFormed(r.db)
  {
    if id !in db.expenses then Outcome(NotFound, db)
    else
      var original := db.expenses[id];
      var n := NextCapitalId(db);
      Outcome(Ok(id), db.(
        capital := db.capital + [CapitalEntry(n, original.amount, original.date, AddKind),
                                 CapitalEntry(n + 1, amount, original.date, SubtractKind)],
        expenses := db.expenses[id := original.(description := description, amount := amount)]))
  }

  /** DELETE /api/expenses/:id: the amount goes back to capital, dated with the expense's date. */
  function DeleteExpense(db: Db, id: int): (r: Outcome)
    ensures r.status == NotFound <==> id !in db.expenses
    ensures r.status == Ok(id) || r.status == NotFound
    ensures !r.status.Ok? ==> r.db == db
    ensures r.status.Ok? ==>
      r.db.capital == db.capital + [CapitalEntry(NextCapitalId(db), db.expenses[id].amount, db.expenses[id].date, AddKind)]
    ensures r.status.Ok? ==> r.db.expenses == db.expenses - {id}
    ensures r.db.products == db.products && r.db.transactions == db.transactions
    ensures WellFormed(db) ==> WellFormed(r.db)
  {
    if id !in db.expenses then Outcome(NotFound, db)
    else
      var e := db.expenses[id];
      Outcome(Ok(id), db.(
        capital := db.capital + [CapitalEntry(NextCapitalId(db), e.amount, e.date, AddKind)],
        expenses := db.expenses - {id}))
  }

  /** POST /api/capital: any amount and any `type` string are stored as given. */
  function AddCapital(db: Db, amount: int, kind: string, today: Date): (r: Outcome)
    ensures r.status == Ok(|db.capital| + 1)
    ensures r.db == db.(capital := db.capital + [CapitalEntry(|db.capital| + 1, amount, today, kind)])
    ensures WellFormed(db) ==> WellFormed(r.db)
  {
    var n := NextCapitalId(db);
    Outcome(Ok(n), db.(capital := db.capital + [CapitalEntry(n, amount, today, kind)]))
  }

  // ---------------------------------------------------------------- capital total

  /** `CASE WHEN type = 'add' THEN amount ELSE -amount END`. */
  function SignedAmount(e: CapitalEntry): int {
    if e.kind == AddKind then e.amount else -e.amount
  }

  /** GET /api/capital/total: the signed sum, which is 0 for an empty history (`|| 0`). */
  function TotalCapital(capital: seq<CapitalEntry>): (r: int)
    ensures capital == [] ==> r == 0
  {
    Sums.SumBy(capital, SignedAmount)
  }

  function AddedAmount(e: CapitalEntry): int {
    if e.kind == AddKind then e.amount else 0
  }

  function WithdrawnAmount(e: CapitalEntry): int {
    if e.kind == AddKind then 0 else e.amount
  }

  function ExpenseAmount(e: Expense): int {
    e.amount
  }

  /** Units of product `name` that a transaction row has taken out of stock. */
  function SoldUnits(name: string): Transaction -> int {
    (t: Transaction) => if t.productName == name then t.quantity else 0
  }

  /** Units of `name` taken out of stock by all transactions now on record. */
  ghost function Sold(db: Db, name: string): int {
    Sums.MapSum(db.transactions, SoldUnits(name))
  }

  // ---------------------------------------------------------------- listings

  /** `BETWEEN startDate AND endDate`, applied only when both bounds are given. */
  predicate InDateRange(date: Date, startDate: Date, endDate: Date) {
    startDate != "" && endDate != "" ==> Text.LessEq(startDate, date) && Text.LessEq(date, endDate)
  }

  /** `ORDER BY date DESC, id DESC`: `a` is listed before `b`. */
  predicate NewerFirst(a: Transaction, b: Transaction) {
    Text.Less(b.date, a.date) || (a.date == b.date && a.id > b.id)
  }

  predicate NewerExpenseFirst(a: Expense, b: Expense) {
    Text.Less(b.date, a.date) || (a.date == b.date && a.id > b.id)
  }

  /** `ORDER BY name ASC`. */
  predicate NameBefore(a: Product, b: Product) {
    Text.Less(a.name, b.name)
  }

  /** `name LIKE '%search%'` (SQLite folds ASCII case), applied only when a search is given. */
  predicate MatchesSearch(name: string, search: string) {
    search != "" ==> Text.Contains(Text.ToLower(name), Text.ToLower(search))
  }

  /** `rows` is the answer of GET /api/transactions?startDate&endDate. */
  ghost predicate TransactionListing(db: Db, startDate: Date, endDate: Date, rows: seq<Transaction>) {
    && Sorting.SortedBy(rows, NewerFirst)
    && forall t :: t in rows <==>
         t.id in db.transactions && db.transactions[t.id] == t && InDateRange(t.date, startDate, endDate)
  }

  /** `rows` is the answer of GET /api/expenses?startDate&endDate. */
  ghost predicate ExpenseListing(db: Db, startDate: Date, endDate: Date, rows: seq<Expense>) {
    && Sorting.SortedBy(rows, NewerExpenseFirst)
    && forall e :: e in rows <==>
         e.id in db.expenses && db.expenses[e.id] == e && InDateRange(e.date, startDate, endDate)
  }

  /** `rows` is the answer of GET /api/products?search. */
  ghost predicate ProductListing(db: Db, search: string, rows: seq<Product>) {
    && Sorting.SortedBy(rows, NameBefore)
    && forall p :: p in rows <==>
         p.name in db.products && db.products[p.name] == p && MatchesSearch(p.name, search)
  }

  // ---------------------------------------------------------------- the routes together

  /** One mutating request, as the Express routes receive it. */
  datatype Request =
    | PostTransaction(productName: string, quantity: int, costPrice: int, sellingPrice: int)
    | PutTransaction(id: int, quantity: int, costPrice: int, sellingPrice: int)
    | RemoveTransaction(id: int)
    | PostProduct(name: string, stock: int, price: int, costPrice: int)
    | PutProductStock(id: int, stock: int)
    | RemoveProduct(id: int)
    | PostExpense(description: string, amount: int)
    | PutExpense(id: int, description: string, amount: int)
    | RemoveExpense(id: int)
    | PostCapital(amount: int, kind: string)

  /** The endpoint that serves `req`, on a day that is `today` on the server. */
  ghost function Apply(db: Db, req: Request, today: Date): Outcome {
    match req
    case PostTransaction(name, q, c, s) => CreateTransaction(db, name, q, c, s, today)
    case PutTransaction(id, q, c, s) => UpdateTransaction(db, id, q, c, s)
    case RemoveTransaction(id) => DeleteTransaction(db, id)
    case PostProduct(name, stock, price, cost) => CreateProduct(db, name, stock, price, cost)
    case PutProductStock(id, stock) => UpdateProductStock(db, id, stock)
    case RemoveProduct(id) => DeleteProduct(db, id)
    case PostExpense(d, a) => CreateExpense(db, d, a, today)
    case PutExpense(id, d, a) => UpdateExpense(db, id, d, a)
    case RemoveExpense(id) => DeleteExpense(db, id)
    case PostCapital(a, kind) => AddCapital(db, a, kind, today)
  }

  /** The database after serving the requests one after the other. */
  ghost function Run(db: Db, requests: seq<(Request, Date)>): Db
    decreases |requests|
  {
    if |requests| == 0 then db
    else Run(Apply(db, requests[0].0, requests[0].1).db, requests[1..])
  }
}
