# Point-of-sale ledger (RD CELL) in Dafny

This project models a small shop's point-of-sale system and proves properties of the model. The system has two parts:

- **The backend.** An Express server over SQLite keeps four tables: products, transactions (sales), expenses, and an append-only capital history.
  - A sale takes units out of a product's stock. Deleting or editing the sale puts them back or moves them.
  - Each expense writes its mirror entry into the capital history.
  - The total capital is the signed sum of that history.
- **The React frontend.** It adds up these rows in several places:
  - the sale form (Rupiah input, total, change, validation);
  - the history table (search, date filter, pages of five);
  - the sales chart (one bar per day);
  - the report page and the dashboard's "today" cards;
  - the CSV export.

How the model is built:

- **Modules.**
  - `Ledger` holds the tables as a value `Db`, one all-or-nothing step function per endpoint, and the listing predicates.
  - `LedgerServer.Server` is the server as an object whose table fields each handler updates in place. Each handler is proved equal to its `Ledger` step. Each GET handler is proved to return what its listing predicate describes.
  - `LedgerLemmas` proves what holds across calls.
  - The frontend has one module per component. Their helpers are `Rows`, `Sums`, `Sorting`, `Text` and `Wrappers`.
- **Numbers and dates.** Money and quantities are unbounded integers. A date is its `YYYY-MM-DD` text and is compared as text. The server's `getLocalDate()` and the browser's `toISOString()` date are `today` parameters.
- **JavaScript coercions.** `Number`, `parseFloat`, `isNaN` and number-to-string are function parameters: `toNumber`, `parseFloat`, `isNumeric` and `show`.
- **Missing query parameters.** A query parameter that is missing or empty is the empty string, as both are falsy in JavaScript.

## Model

| member | source | states |
|---|---|---|
| Ledger.CreateTransaction | backend/server.js:62-108 | NotFound iff no product has the name; InsufficientStock iff stock < quantity; on either error the database is unchanged; expenses and capital untouched; well-formedness kept |
| Ledger.DeleteTransaction | backend/server.js:131-172 | NotFound iff the id is absent, database unchanged then; otherwise Ok; product names unchanged; expenses and capital untouched |
| Ledger.UpdateTransaction | backend/server.js:174-231 | NotFound iff the id is absent or its product is gone; InsufficientStock iff stock < new − old quantity; errors change nothing; the set of rows and products is kept |
| Ledger.CreateProduct | backend/server.js:234-244 | Conflict iff the name exists (UNIQUE), and then nothing changes; on Ok the answer is the next product id and exactly that product is inserted under its name; transactions, expenses and capital untouched |
| Ledger.ProductNameOf | backend/server.js:284-285 | the lookup by id finds a product with that id, or reports that none has it |
| Ledger.UpdateProductStock | backend/server.js:264-279 | NotFound iff no product has the id, nothing changed then; on Ok the given stock, of any sign, replaces that product's stock and nothing else in the table; of the four tables only products change, and the id counters are unchanged |
| Ledger.DeleteProduct | backend/server.js:281-316 | NotFound iff no product has the id; Conflict iff a transaction carries its name; on Ok exactly that product is removed |
| Ledger.CreateExpense | backend/server.js:319-345 | always Ok with the new expense id; exactly that expense, dated today, is added under the id and the counter moves on; one 'subtract' entry of the amount dated today is appended to capital |
| Ledger.TotalCapital | backend/server.js:471-477 | the signed sum of the history, which is 0 for an empty history (the `|| 0`) |
| Ledger.UpdateExpense | backend/server.js:368-412 | NotFound iff absent; on Ok appends 'add' of the old amount then 'subtract' of the new, both at the original date, and stores the new description and amount |
| Ledger.DeleteExpense | backend/server.js:414-454 | NotFound iff absent; on Ok appends 'add' of the amount at the expense's date and removes the expense |
| Ledger.AddCapital | backend/server.js:457-468 | appends the entry with any amount and any type; the answer is the new entry's id |
| LedgerLemmas.CreateTransactionEffect | backend/server.js:80-91 | a sale lowers its product's stock by the quantity, keeps every other product, and records profitPerUnit = selling − cost, total = quantity × selling, date = today |
| LedgerLemmas.DeleteTransactionEffect | backend/server.js:141-160 | a delete removes only that row and adds its quantity back to the product of that name, doing nothing to products when it is gone |
| LedgerLemmas.UpdateTransactionEffect | backend/server.js:189-214 | an edit lowers stock by new − old quantity and leaves other products alone; the row gets the new quantity, cost and selling price and the recomputed total and profitPerUnit, keeping id, name and date; no other row changes |
| LedgerLemmas.CreateTransactionConservesStock | backend/server.js:76-91 | stock + units sold by recorded transactions is unchanged for every product name |
| LedgerLemmas.UpdateTransactionConservesStock | backend/server.js:200-214 | the same conservation across an edit |
| LedgerLemmas.DeleteTransactionConservesStock | backend/server.js:145-160 | the same conservation across a delete |
| LedgerLemmas.CreateTransactionKeepsStockNonNegative | backend/server.js:76-82 | if no stock is negative before a sale, none is after |
| LedgerLemmas.UpdateTransactionKeepsStockNonNegative | backend/server.js:200-206 | if no stock is negative before an edit, none is after |
| LedgerLemmas.DeleteTransactionKeepsStockNonNegative | backend/server.js:145-146 | a delete keeps stock non-negative while no recorded quantity is negative |
| LedgerLemmas.NegativeQuantityDrivesStockNegative | backend/server.js:62-82 | quantities are not checked: a sale of −5, a sale of 5 and the first sale's deletion leave stock at −5 |
| LedgerLemmas.CreateThenDeleteTransaction | backend/server.js:80-82 | recording a sale and deleting it restores the products and transactions tables |
| LedgerLemmas.UpdateThenRevertTransaction | backend/server.js:189-214 | editing a priced row (total = quantity × selling, profitPerUnit = selling − cost) and editing it back restores both tables when the stock was non-negative |
| LedgerLemmas.DeleteProductEffect | backend/server.js:289-312 | after an Ok delete no transaction names the product, which alone is removed, and no product keeps its id |
| LedgerLemmas.TotalCapitalAppend | backend/server.js:471 | the signed total of a concatenated history is the sum of the parts |
| LedgerLemmas.TotalCapitalSnoc | backend/server.js:471 | one more entry moves the total by its signed amount |
| LedgerLemmas.TotalCapitalIsAddedMinusWithdrawn | backend/server.js:471-477 | the total is the 'add' amounts minus all other amounts, and 0 for an empty history |
| LedgerLemmas.CreateExpenseMirrorsCapital | backend/server.js:321-331 | the total drops by the amount, the expense row is stored, capital + expenses is unchanged |
| LedgerLemmas.UpdateExpenseMirrorsCapital | backend/server.js:383-396 | the total changes by old − new amount, the date is kept, capital + expenses is unchanged |
| LedgerLemmas.DeleteExpenseMirrorsCapital | backend/server.js:428-435 | the total rises by the amount, capital + expenses is unchanged |
| LedgerLemmas.CreateThenDeleteExpense | backend/server.js:319-345 | recording and deleting an expense restores the total and the expenses table, with two entries appended |
| LedgerLemmas.AddCapitalMovesTotal | backend/server.js:457-471 | posting capital moves the total up by the amount for 'add' and down for any other type |
| LedgerLemmas.ApplyKeepsInvariants | backend/server.js:62-468 | every request: errors change nothing, capital only grows by appending, well-formedness and referential integrity are kept |
| LedgerLemmas.RunKeepsInvariants | backend/server.js:62-468 | any sequence of requests keeps well-formedness and referential integrity |
| LedgerLemmas.ReachableDbHasNoOrphanTransactions | backend/server.js:145-146 | from a fresh database every transaction names a product, so the update's product-missing 404 and the delete's silent skip are never taken |
| LedgerLemmas.ApplyMovesBalance | backend/server.js:319-468 | capital + expenses moves only by posted capital |
| LedgerLemmas.RunBalancesCapital | backend/server.js:319-471 | after any requests the total capital is the start balance plus posted capital minus the expenses on record |
| LedgerLemmas.NewerFirstIsStrictTotalOrder | backend/server.js:120 | `date DESC, id DESC` is transitive, asymmetric and total on distinct ids |
| LedgerLemmas.NewerExpenseFirstIsStrictTotalOrder | backend/server.js:357 | the same for expenses |
| LedgerLemmas.NameBeforeIsStrictTotalOrder | backend/server.js:254 | `name ASC` is a strict order, total on distinct names |
| LedgerLemmas.SortedSetIsUnique | backend/server.js:120 | two sorted answers with the same rows are the same sequence, so each listing is determined |
| LedgerLemmas.WidgetScenario | backend/server.js:62-172 | stock 10, sale of 3 at 100 (cost 60): stock 7, total 300, profit 40; deleting it gives stock 10 |
| LedgerLemmas.CapitalScenario | backend/server.js:319-480 | add 1000, subtract 200 gives 800; a 500 expense gives 300; deleting it gives 800 |
| LedgerServer.Server.constructor | backend/server.js:28-56 | the server starts with empty tables and counters at 1 |
| LedgerServer.Server.CreateTransaction | backend/server.js:62-108 | status and new tables are those of the `Ledger` step; well-formedness kept |
| LedgerServer.Server.DeleteTransaction | backend/server.js:131-172 | status and new tables are those of the `Ledger` step |
| LedgerServer.Server.UpdateTransaction | backend/server.js:174-231 | status and new tables are those of the `Ledger` step |
| LedgerServer.Server.ListTransactions | backend/server.js:110-129 | the answer holds exactly the rows within the range when both bounds are given (all rows otherwise), ordered date DESC, id DESC |
| LedgerServer.Server.CreateProduct | backend/server.js:234-244 | status and new tables are those of the `Ledger` step |
| LedgerServer.Server.FindProduct | backend/server.js:284-285 | the lookup by id answers what `Ledger.ProductNameOf` does, ids being unique |
| LedgerServer.Server.HasTransactionFor | backend/server.js:295-296 | true iff some transaction carries the name |
| LedgerServer.Server.UpdateProductStock | backend/server.js:264-279 | status and new tables are those of the `Ledger` step |
| LedgerServer.Server.DeleteProduct | backend/server.js:281-316 | status and new tables are those of the `Ledger` step |
| LedgerServer.Server.ListProducts | backend/server.js:246-262 | the answer holds exactly the products whose name contains the search text ignoring ASCII case (all without a search), ordered by name |
| LedgerServer.Server.CreateExpense | backend/server.js:319-345 | status and new tables are those of the `Ledger` step |
| LedgerServer.Server.UpdateExpense | backend/server.js:368-412 | status and new tables are those of the `Ledger` step |
| LedgerServer.Server.DeleteExpense | backend/server.js:414-454 | status and new tables are those of the `Ledger` step |
| LedgerServer.Server.ListExpenses | backend/server.js:347-366 | the answer holds exactly the expenses within the range when both bounds are given, ordered date DESC, id DESC |
| LedgerServer.Server.AddCapital | backend/server.js:457-468 | status and new tables are those of the `Ledger` step |
| LedgerServer.Server.GetTotalCapital | backend/server.js:470-480 | the loop's sum is the signed total of the history, 0 when empty |
| TransactionForm.ParseRupiah | template-web-app/src/TransactionForm.js:12-14 | the result holds no '.' and is no longer than the input |
| TransactionForm.ParseRupiahAppend | template-web-app/src/TransactionForm.js:12-14 | stripping a concatenation strips each part, so the kept characters stay in order |
| TransactionForm.ParseRupiahKeepsOthers | template-web-app/src/TransactionForm.js:12-14 | every character other than '.' is kept as often as it occurs; the length drops by the number of dots |
| TransactionForm.ParseRupiahFixesDotFree | template-web-app/src/TransactionForm.js:12-14 | a string without dots is returned unchanged |
| TransactionForm.ParseRupiahIdempotent | template-web-app/src/TransactionForm.js:12-14 | stripping twice equals stripping once |
| TransactionForm.Total | template-web-app/src/TransactionForm.js:40 | the total is selling price × quantity, and 0 when either field is empty |
| TransactionForm.Change | template-web-app/src/TransactionForm.js:42-49 | the change is cash − total when the cash parses and covers the total, else 0; never negative |
| TransactionForm.FormState.constructor | template-web-app/src/TransactionForm.js:23-36 | all fields start empty, satisfying the stored-field invariant |
| TransactionForm.FormState.HandleCurrencyChange | template-web-app/src/TransactionForm.js:80-86 | the dot-stripped value is stored in the named field iff it is numeric and at most 15 characters, else nothing changes; money fields stay dot-free and at most 15 long |
| TransactionForm.FormState.HandleUangCashChange | template-web-app/src/TransactionForm.js:88-94 | the same rule for the cash field, leaving the form data alone |
| TransactionForm.FormState.Validate | template-web-app/src/TransactionForm.js:131-140 | each of the four fields is flagged iff empty; cash iff empty or parsed below the total; success iff nothing is flagged, and then, when the cash parses, the change is cash − total |
| TransactionForm.BlankCashPassesValidation | template-web-app/src/TransactionForm.js:88-94 | a lone space passes the cash input's guard and the cash check |
| TransactionForm.IntendedCashCoversTotal | template-web-app/src/TransactionForm.js:137 | under the intended check, passing cash parses, covers the total and leaves cash − total as change |
| Text.ContainsMeansOccurs | template-web-app/src/TransactionHistory.js:83-87 | `includes` (and `LIKE '%term%'`) holds iff the term occurs in the text at some index |
| TransactionHistory.Filtered | template-web-app/src/TransactionHistory.js:83-87 | a row is kept iff its lower-cased name contains the lower-cased term and, when a day is chosen, it is dated that day |
| TransactionHistory.FilteredAppend | template-web-app/src/TransactionHistory.js:83-87 | filtering preserves the relative order of rows |
| TransactionHistory.FilterNothing | template-web-app/src/TransactionHistory.js:83-87 | an empty term with no day keeps every row in order |
| TransactionHistory.TotalPages | template-web-app/src/TransactionHistory.js:96 | ceil(n / 5): enough pages of five for n rows and no empty last page; 0 iff n is 0 |
| TransactionHistory.PageIsStretch | template-web-app/src/TransactionHistory.js:89-94 | page p ≥ 1 is rows (p−1)·5 up to p·5, cut at the end of the list |
| TransactionHistory.SliceIndex | template-web-app/src/TransactionHistory.js:89-94 | the position JavaScript's `slice` uses: in range it is kept, a negative one counts from the end, and anything outside is clamped to 0 or the length |
| TransactionHistory.Slice | template-web-app/src/TransactionHistory.js:89-94 | `slice` gives the contiguous stretch of the list from the start position; with in-range bounds exactly `s[start..end]`; empty when the end is not after the start |
| TransactionHistory.Page | template-web-app/src/TransactionHistory.js:89-94 | whatever the page number, including ones `slice` counts from the end, a page is a stretch of the list of at most five rows |
| TransactionHistory.PageBeyondLastIsEmpty | template-web-app/src/TransactionHistory.js:89-96 | a page number beyond totalPages shows nothing |
| TransactionHistory.FirstPagesArePrefix | template-web-app/src/TransactionHistory.js:89-94 | pages 1..k together are the first min(5k, n) rows |
| TransactionHistory.AllPagesGiveTheList | template-web-app/src/TransactionHistory.js:89-96 | pages 1..totalPages together are exactly the filtered list |
| SalesChart.AggregateSalesByDay | template-web-app/src/SalesChart.js:26-43 | days strictly ascending (so each once); a day appears iff some row has it; its value is that day's sum of totals; the values add up to the sum of all totals |
| SalesChart.SalesByDate | template-web-app/src/SalesChart.js:27-38 | the map has an entry per date seen, holding that date's sum of totals |
| SalesChart.AddSale | template-web-app/src/SalesChart.js:33-37 | one step of the loop keeps the map's meaning for one more row |
| SalesChart.SortedDates | template-web-app/src/SalesChart.js:41 | the keys, each once, in ascending order |
| SalesChart.ToPoints | template-web-app/src/SalesChart.js:42 | one point per sorted date carrying that date's sum |
| SalesChart.DaySumsCover | template-web-app/src/SalesChart.js:29-42 | summing day by day over distinct days covering every row gives the sum of all totals |
| ReportContent.CalculateSummary | template-web-app/src/ReportContent.js:53-60 | the three folds are the sums of total, profitPerUnit × quantity and amount; net = gross − expenses |
| ReportContent.EmptyReportIsZero | template-web-app/src/ReportContent.js:54-57 | no rows give four zeros |
| ReportContent.GrossProfitIsSalesMinusCost | template-web-app/src/ReportContent.js:54-55 | on rows priced as the server prices them, gross profit is sales minus Σ quantity × cost |
| ReportContent.ServerReportGrossProfit | template-web-app/src/ReportContent.js:54-55 | the same for any listing the server returns from a database built by its own requests |
| SummaryCards.CalculateSummary | template-web-app/src/SummaryCards.js:42-59 | the loop's three totals are `Expected`: the sums of total, profitPerUnit × quantity and quantity over today's rows only |
| SummaryCards.OtherDayChangesNothing | template-web-app/src/SummaryCards.js:48-53 | inserting a row dated another day anywhere changes none of the three totals |
| SummaryCards.NothingTodayGivesZeros | template-web-app/src/SummaryCards.js:44-54 | with no row dated today all three totals are 0 |
| CsvExport.Csv | template-web-app/src/App.js:100 | the file is the header line alone when there are no rows, else the header line, a newline and the row lines joined by newlines |
| CsvExport.ExportReport | template-web-app/src/App.js:77-100 | no CSV iff there are no rows; otherwise the header line and one line per row, in order, joined by newlines |
| CsvExport.RowLines | template-web-app/src/App.js:86-98 | one line per transaction, the k-th built from the k-th row |
| CsvExport.CsvLines | template-web-app/src/App.js:82-100 | when no value holds a newline the file splits back into the header and the row lines, n + 1 lines |
| CsvExport.RowReadsBack | template-web-app/src/App.js:87-97 | when no value holds a comma a row splits back into its 8 values, the second being the name in double quotes |
| CsvExport.HeaderReadsBack | template-web-app/src/App.js:82-84 | the header line splits back into the 8 fixed names |

## Left out

- HTTP and SQLite wiring is not modelled: CORS, JSON parsing, the connection callback, the table creation and `app.listen`. The schema is the `Ledger` datatypes.
- Ledger.CreateTransaction, Ledger.UpdateTransaction, Ledger.CreateProduct, Ledger.UpdateProductStock, Ledger.CreateExpense, Ledger.UpdateExpense and Ledger.AddCapital: request bodies are taken as complete. A missing or null field breaks a NOT NULL column (backend/server.js:30-33, 40-43, 47-48, 53-55). The 400 or 500 answers this gives are not modelled (backend/server.js:83-85, 92-95, 207-209, 215-218, 238-240, 269-271, 326-328, 391-393, 397-400, 462-464). The 500s come first when a missing `quantity` makes the new stock NaN, and when a missing `amount` fails the 'subtract' capital insert of the expense update. The two transaction handlers, the expense create and the expense update roll back on that error. So "always Ok", "any type" and "Conflict iff the name exists" hold only for complete bodies.
- Driver, storage and commit errors (the 500 answers) are not modelled, nor what they leave behind. A failed COMMIT issues no ROLLBACK (backend/server.js:98-100, 162-164, 220-222, 337-339, 402-404, 445-447), so the open transaction's writes can still be saved by a later COMMIT on the shared connection. With storage faults and concurrency out of scope, each endpoint is one atomic step here.
- Concurrent requests, interleaving and the missing row locks are not modelled.
- The `this.changes === 0` answers after a successful lookup of the same row are left out: the 404s of the deletes of a transaction, of a product and of an expense. Only a concurrent request could remove the row between the lookup and the delete. For the product delete the two are separate statements with no transaction around them (backend/server.js:284, 304). With concurrency out of scope these answers are unreachable.
- The clock is not modelled. The server's `getLocalDate` gives a local date and SummaryCards uses the UTC date from `toISOString`. The two can disagree near midnight. Both are parameters, and the mismatch is left unresolved.
- REAL columns and JavaScript numbers are integers here. Floating-point rounding, `NaN` arithmetic and numeric strings sent to the server are out of scope.
- `Number`, `parseFloat`, `isNaN` and number-to-string are parameters because their string grammar belongs to the runtime. That includes how `Number` reads a non-empty field in `totalTransaksi`.
- LedgerServer.Server.ListProducts: `LIKE` is modelled as substring containment with ASCII case folding. `%` or `_` typed in the search act as wildcards in SQLite, and the model does not capture that.
- TransactionHistory.Filtered: `toLowerCase` is ASCII-only here. Non-ASCII case mappings are not modelled.
- The text order is the code-point order. For ASCII dates and names it agrees with SQLite's BINARY collation and JavaScript's default `sort`. It does not cover UTF-16 surrogates.
- `formatRupiah` and `toLocaleString` use `Intl.NumberFormat` and only shape what is displayed, so they are not modelled.
- The React shell is not modelled: rendering, hooks, `fetch`, printing, timers, toasts, the receipt, the sidebar and the product search box (`handleSearchChange`, `handleProductSelect`, `handleChange`).
- TransactionForm.FormState.Validate: a number picked from a product (`costPrice: product.costPrice`) is falsy when it is 0. Fields here are always text, so that case is not modelled.
- EditTransactionModal sends `costprice` where the server reads `costPrice` (template-web-app/src/EditTransactionModal.js:66-70, backend/server.js:176). The new cost price is therefore NULL, and the UPDATE at backend/server.js:213-214 fails the NOT NULL constraint. Every edit sent from that modal gets a 400 and the stock change is rolled back. The modal is not part of this model, and Ledger.UpdateTransaction answers Ok for such an edit because it takes the body as complete.
- The other form components are thin wrappers around `fetch` and are not part of this model: EditExpenseModal, ProductContent, AddProductForm, AddExpenseForm and CapitalContent.

## Findings

| source | as written | input that shows it | evidently intended | confidence | as-written member | corrected member |
|---|---|---|---|---|---|---|
| template-web-app/src/TransactionForm.js:137 | cash is flagged only when empty or when `parseFloat(uangCash) < total`; a value that does not parse gives `NaN < total`, which is false | typing a single space in the cash field: `isNaN(" ")` is false so the input guard at lines 91-93 stores it, and `parseFloat(" ")` is `NaN`, so `validate` passes a sale of any total with no cash | cash that does not parse is flagged like empty cash | medium, not executed | TransactionForm.BlankCashPassesValidation | TransactionForm.IntendedCashCoversTotal |
