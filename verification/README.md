# Paint-shop inventory: the document model in Dafny

The inventory tracker in `app.js` keeps one document in browser storage. The document holds
three sequences: products, sales and procurements (restocks). DOM handlers read form fields,
validate them, change the document and save it. This project lifts that logic out of the
handlers into pure functions over an immutable `Document`, then proves the invariants the
handlers maintain.

Modules, in dependency order:

- `Wrappers`: `Option` and `Result`.
- `Seqs`: an order-preserving `Filter` (JavaScript's `Array.prototype.filter`) and
  key-uniqueness, with the facts the model needs about them.
- `Text`: `trim`, `toLowerCase` restricted to ASCII letters, and `includes`.
- `Inventory`: the records, the seed document (`initializeDB`) and the four mutating handlers:
  `addNewProduct`, `recordSale`, `addStock` and the body of `deleteProduct`'s confirm callback.
  Also the document invariant `Valid`: stock is non-negative, ids are unique, and every sale and
  procurement refers to an existing product. Each handler is shown to preserve it.
- `Queries`: the dashboard aggregates and the low-stock list, the two product searches, and the
  report's date filter and product join.
- `Ledger`: per-product net movement (units procured minus units sold) and the opening balance
  (stock minus net movement). Every accepted handler leaves the opening balance unchanged.
- `Trace`: user actions as data, and runs of actions. The actions are the four handlers, a page
  reload and "Clear All Data". It also holds the page load, both as app.js performs it and
  corrected. Every run from the seed stays valid. Over a run that neither deletes a product nor
  clears the data, that product's stock changes by exactly its procurements minus its sales.

Each handler takes the values it reads from the page as parameters: the selected product id
(`Option<string>`), the quantity as parsed by `parseInt` (`Option<int>`, where `None` is NaN),
the raw text fields, a fresh id and the current time in milliseconds. It returns
`Result<Document, Error>`. For the validation errors (`NoProductSelected`, `InvalidQuantity`,
`InsufficientStock`, `MissingFields`), an `Err` corresponds to the handler showing a toast and
returning before it saves anything. `ProductNotFound` is different: there app.js loads the
document and then throws a `TypeError` on the missing product, with no toast and no save
(app.js:137-140, 222-224, 313-315). Either way a rejected action leaves the stored document as
it was, and `Trace.After` makes that explicit.

Points where app.js behaves in a way worth stating plainly:

- The sale and procurement pickers match the barcode case-sensitively (app.js:179, 276). They
  lower-case the search term and the product name, but not the barcode. A query therefore never
  matches a stretch of the barcode that contains an upper-case letter.
- The inventory list searches name and company, not name and barcode. An empty inventory term
  lists every product, whereas an empty picker term suggests nothing (`Queries.SearchesDiffer`).
- `recordSale` compares the quantity with the stock captured when the product was selected
  (app.js:210). The model compares it with the document's own stock.
- The report's start bound is midnight UTC of the chosen start day, but its end bound is
  23:59:59.999 local time (app.js:376-378). See "## Findings".

## Model

| member | source | states |
|---|---|---|
| `Seqs.Filter` | app.js:141-143 | The result is an order-preserving subsequence of the input. It keeps exactly the elements that satisfy the predicate: every element kept satisfies it, and every element that satisfies it is kept. |
| `Seqs.FilterConcat` | app.js:141-143 | Filtering distributes over concatenation. Together with the one-element case this fixes the result completely, including order and multiplicity. |
| `Seqs.FilterNarrowed` | app.js:142-143 | Filtering by a weaker predicate and then by a stricter one equals filtering by the stricter one. This is why the cascade leaves other products' logs intact. |
| `Seqs.FilterAll` | app.js:107 | Filtering with a predicate every element meets returns the input unchanged. |
| `Seqs.FilterKeepsDistinct` | app.js:141-143 | Any filter of a collection with unique ids has unique ids. |
| `Text.LeadingSpaces` | app.js:332 | Gives the length of the whitespace run at the start of a string: everything before it is whitespace, and the next character is not. |
| `Text.TrailingSpaces` | app.js:332 | Gives the length of the whitespace run at the end of a string: everything in it is whitespace, and the character before it is not. |
| `Text.Trim` | app.js:332-334 | The trimmed text is empty exactly when the input is all whitespace. Otherwise it is the infix of the input that starts and ends with a non-space character, and everything cut off on either side is whitespace. |
| `Text.Lower` | app.js:105 | Lower-casing keeps the length. Each ASCII upper-case letter becomes its lower-case partner, 32 code points up, and every other character is unchanged, so no upper-case ASCII letter is left. |
| `Text.Contains` | app.js:179 | `includes` answers yes exactly when the needle occurs at some position of the haystack. The empty needle occurs in every string, which is why the pickers must return early on an empty term. |
| `Inventory.Seed` | app.js:16-28 | The seed document is valid. It has three products (p1 with 20 units, p2 with 3, p3 with 8), one sale and one procurement. |
| `Inventory.FindIndex` | app.js:223 | `find` returns the first product with the id, or reports that no product carries it. |
| `Inventory.FindIndexUnique` | app.js:223 | When ids are unique, `find` returns the one product that carries the id. |
| `Inventory.AddNewProduct` | app.js:331-350 | Rejects with "fill all fields" exactly when the barcode, name or company is blank, or the stock is NaN or below 1. Otherwise it appends exactly one product with the trimmed fields and the given stock, and leaves earlier products, sales and procurements untouched. |
| `Inventory.RecordSale` | app.js:203-234 | Rejects in this order: no selection, then an invalid quantity, then an unknown product, then a quantity above the stock. Otherwise only the found product's stock changes: it drops by exactly the quantity and stays at or above 0. Exactly one sale {id, product, qty, date} is appended, and procurements are untouched. |
| `Inventory.AddStock` | app.js:300-325 | Rejects when nothing is selected, when the quantity is invalid, or when the product is unknown. Otherwise only that product's stock rises, by exactly the quantity, with no upper bound. Exactly one procurement is appended, and sales are untouched. |
| `Inventory.DeleteProduct` | app.js:136-143 | Fails exactly when no product has the id. Otherwise no product, sale or procurement refers to the id any more. Each collection is an order-preserving subsequence of the old one, and every record not tied to the id is kept. |
| `Inventory.AddNewProductKeepsValid` | app.js:344-350 | A new product keeps the document valid. |
| `Inventory.RecordSaleKeepsValid` | app.js:217-232 | A sale keeps the document valid. In particular no stock goes negative, and the new sale refers to an existing product. |
| `Inventory.AddStockKeepsValid` | app.js:308-323 | A procurement keeps the document valid. |
| `Inventory.DeleteProductKeepsValid` | app.js:141-143 | The cascade leaves no dangling sale or procurement. Ids stay unique and stock stays non-negative. |
| `Inventory.SurvivorResolves` | app.js:141 | After a delete, every other product id still resolves to a product. |
| `Inventory.SeedScenario` | app.js:19 | From the seed: a sale of 2 of p1 leaves 18, a procurement of 10 brings p1 to 28, and adding "Green Paint" with 15 units gives four products. |
| `Queries.LowStock` | app.js:65 | The low-stock list is exactly the products with stock below 5, in storage order. A product with exactly 5 units is not listed. |
| `Queries.TotalStock` | app.js:64 | The stock total of non-negative stocks is non-negative. |
| `Queries.TotalStockUpdate` | app.js:64 | Changing one product's stock moves the total by the same amount. |
| `Queries.Summary` | app.js:63-69 | The product count is the number of products, the stock total is the sum of all stocks, and the low-stock count is the length of the low-stock list. The low-stock count lies between 0 and the product count, and is 0 exactly when every product has at least 5 units. On a valid document the stock total is non-negative. |
| `Queries.SummaryAfterSale` | app.js:63-64 | An accepted sale keeps the product count and lowers the stock total by its quantity. |
| `Queries.SummaryAfterStock` | app.js:63-64 | An accepted procurement keeps the product count and raises the stock total by its quantity. |
| `Queries.SummaryAfterNewProduct` | app.js:63-64 | An accepted new product adds one to the product count and its opening stock to the stock total. |
| `Queries.Suggestions` | app.js:170-179 | An empty query suggests nothing. Otherwise the suggestions are exactly the products whose lower-cased name, or whose barcode as typed, contains the lower-cased query, in storage order. |
| `Queries.InventorySearch` | app.js:103-112 | An empty query lists every product. Otherwise the list holds exactly the products whose lower-cased name or lower-cased company contains the lower-cased query, in storage order. |
| `Queries.SearchesDiffer` | app.js:105-112 | For an empty query the pickers suggest nothing while the inventory lists everything. A product that matches only through its company is listed in the inventory but never suggested. |
| `Queries.SuggestRedFindsRedPaint` | app.js:179 | Searching the seed for "red" suggests "Red Paint 2L". |
| `Queries.EntriesInRange` | app.js:380-388 | The date filter keeps exactly the entries with start ≤ date ≤ end, inclusive at both ends, in storage order. |
| `Queries.EndOfDay` | app.js:376-378 | The corrected end bound: the last millisecond of the day that starts at the given instant, so that the report window for one day is exactly one day long. |
| `Queries.EndOfLocalDay` | app.js:376-378 | The end bound as app.js computes it: 23:59:59.999 on the local clock of the local day containing the parsed date, at or after it and less than a day later. |
| `Queries.LocalEndInUtc` | app.js:376-378 | Where local time is UTC, the bound app.js computes for a day equals the corrected bound. |
| `Queries.LocalEndDropsLateSale` | app.js:376-383 | Five hours behind UTC, a one-day report for 2025-10-30 ends at 04:59:59.999 UTC. A sale at 23:59 UTC that day is dropped by the bound as written and kept by the corrected one. |
| `Queries.OneDayReportBoundary` | app.js:376-383 | A one-day report keeps an entry dated 23:59:59 that day and drops one dated midnight of the next day. |
| `Queries.ReportJoinResolves` | app.js:396 | Under referential integrity, `find` succeeds for every sale and procurement the date filter keeps. |
| `Queries.ReportLines` | app.js:394-405 | One report line per entry, in order. Each line has the entry's date and quantity and the name of the first product whose id is the entry's product id. |
| `Queries.FilterReports` | app.js:374-425 | The report has one line per kept sale and per kept procurement, in storage order. Each line has the entry's date and quantity and the name of the first product carrying the entry's product id, the one `find` returns. |
| `Ledger.SumQtyConcat` | app.js:224 | Quantities add up over concatenated logs. |
| `Ledger.RecordSaleKeepsOpening` | app.js:224-232 | After a sale, every existing product's stock minus its net movement is unchanged. The sold product's stock and net movement both drop by the quantity, and every other product's stay put. |
| `Ledger.AddStockKeepsOpening` | app.js:315-323 | After a procurement, every existing product's stock minus its net movement is unchanged. The stocked product's stock and net movement both rise by the quantity, and every other product's stay put. |
| `Ledger.AddNewProductKeepsOpening` | app.js:344-350 | A new product changes neither the stock nor the net movement of any existing product, so its opening balance stays as it was. |
| `Ledger.DeleteKeepsOtherHistory` | app.js:142-143 | Deleting one product leaves every other product's sales and procurements exactly as they were, in order. |
| `Ledger.DeleteProductKeepsOpening` | app.js:141-143 | On a valid document, a delete changes neither the stock nor the net movement of any other product, so its opening balance stays as it was. |
| `Trace.PageLoad` | app.js:7-10 | The corrected page load seeds only on the first visit. It keeps a stored document as it is, and with nothing stored it starts from the valid seed. |
| `Trace.PageLoadAsWritten` | app.js:492-495 | The page load as app.js runs it: whatever is stored, the result is the seed, which does not depend on the stored document. It is valid, with three products, one sale and one procurement. The loss this causes is shown by `Trace.ReloadDropsSale`. |
| `Trace.ReloadDropsSale` | app.js:492-495 | After a sale recorded from the seed, a reload as written loses it (one sale instead of two). The corrected load keeps the document. |
| `Trace.StepKeepsValid` | app.js:203-234 | Every action keeps a valid document valid, whether it is accepted or rejected. This includes a reload and "Clear All Data". |
| `Trace.RunKeepsValid` | app.js:224 | Every run of actions from a valid document ends in a valid document. |
| `Trace.SeedRunsStayValid` | app.js:16-28 | Whatever the user does from the seed, stock is never negative, ids stay unique, and no sale or procurement refers to a missing product. |
| `Trace.StepKeepsOpening` | app.js:315 | One action other than "Clear All Data" leaves the opening balance of every product it does not delete unchanged. |
| `Trace.StockMovesByNet` | app.js:224 | Over any run that never deletes a product and never clears the data, the product survives. Its stock changes by exactly the units procured minus the units sold during the run. |

## Left out

- Persistence (`getDB`, `saveDB`, localStorage, JSON) is I/O, so the document is an in-memory value. What is stored is the parameter of `Trace.PageLoad`. `clearAllData` removes the stored key and re-seeds (app.js:89-97), which in a run is `Trace.ClearAllOp`, whose result is `Inventory.Seed`.
- `Trace.StepKeepsOpening`, `Trace.StockMovesByNet`: they do not cover a run that clears the data. A clear replaces every product and log with the seed, so a product's stock is not tied to its earlier value.
- `Trace.ReloadOp` uses the corrected `Trace.PageLoad`, which keeps the stored document. As app.js is written, every page load re-seeds (app.js:492-495; see "## Findings"). The run lemmas therefore describe app.js's behaviour only within one page session, since with app.js as written each reload acts like a clear.
- DOM access, HTML templates, navigation (`switchSection`, `switchProcurementTab`), the toast and its timer, the confirm modal's callback plumbing, `formatDate` and `window.print` are presentation. Only the state changes and the data the views are built from are modelled.
- Id generation from `Date.now()` is clock-based and can collide. The fresh id is a parameter, and each handler requires that it be unused in its collection.
- Date parsing and locale formatting are not modelled. Timestamps and report bounds are integers (milliseconds), and the report's chosen days arrive as midnight UTC. An empty or malformed date input, which makes every comparison false in app.js, is not modelled.
- `Queries.FilterReports` assumes local time is UTC, so that the end bound is the last millisecond of the chosen day (`Queries.EndOfDay`). In any other zone app.js's window shifts by the zone's offset (`Queries.EndOfLocalDay`). Daylight-saving changes, which make the offset vary, are not modelled.
- `Inventory.RecordSale`, `Inventory.AddStock`, `Inventory.DeleteProduct`: where app.js crashes with a `TypeError` on a product id that is no longer in the document (app.js:222-224, 313-315, 137-140), the model returns `ProductNotFound`. `Inventory.RecordSale` looks the product up before it compares the quantity with the stock. So for a product deleted elsewhere and a quantity above the captured stock, it returns `ProductNotFound`, whereas app.js checks the captured stock first (app.js:217) and shows "Insufficient stock".
- `Number.parseInt` is not modelled. Its result is the `Option<int>` quantity. Numbers above 2^53, where JavaScript's floating-point arithmetic on stock loses precision, are not modelled.
- `toLowerCase` is modelled on ASCII letters only. Unicode case mappings, including the ones that change a string's length, are left out.
- The stale stock captured in the sale form (app.js:197, 210) is not modelled. The guard uses the document's stock.
- Selecting a product from a suggestion (`selectSaleProduct`, `selectProcProduct`) only fills in form fields. Its effect is the `selected` parameter.
- `Queries.TotalStock` states only non-negativity in its own contract. How the total moves is stated by `Queries.TotalStockUpdate` and the `Queries.SummaryAfter…` lemmas.

## Findings

| source | as written | input that shows it | evidently intended | confidence | as-written member | corrected member |
|---|---|---|---|---|---|---|
| app.js:376-378 | The start date is parsed as midnight UTC, but the end date's time is set to 23:59:59.999 in local time. | Zone UTC−5, report from 2025-10-30 to 2025-10-30, sale at 2025-10-30T23:59:00Z: the window ends at 2025-10-30T04:59:59.999Z and drops the sale. | The end bound is the last millisecond of the chosen end day, in the same frame as the start bound. | medium, not executed | `Queries.EndOfLocalDay`, `Queries.LocalEndDropsLateSale` | `Queries.EndOfDay`, `Queries.OneDayReportBoundary` |
| app.js:492-495 | On every page load, `initializeDB()` overwrites the stored document with the seed. | Record a sale, then reload the page: the sale is gone and the stock is back to the seed's. | Seed only when nothing is stored yet, as `getDB` does (app.js:7-10). | high, not executed | `Trace.PageLoadAsWritten`, `Trace.ReloadDropsSale` | `Trace.PageLoad` |
