/** The read-only views of app.js: the dashboard aggregates, the two product searches (which
    follow different rules) and the report's date-range filter with its product join. */
module Queries {
  import opened Wrappers
  import opened Seqs
  import opened Text
  import opened Inventory

  /** Products with fewer units than this are listed as low stock. */
  const LowStockThreshold: int := 5

  predicate IsLowStock(p: Product)
  {
    p.stock < LowStockThreshold
  }

  /** The dashboard's low-stock list: exactly the products under the threshold, in storage order. */
  function LowStock(ps: seq<Product>): (r: seq<Product>)
    ensures forall i | 0 <= i < |r| :: r[i] in ps && r[i].stock < 5
    ensures forall i | 0 <= i < |ps| :: ps[i].stock < 5 ==> ps[i] in r
    ensures IsSubsequence(r, ps)
  {
    Filter(ps, IsLowStock)
  }

  /** The dashboard's stock total: the units on hand summed over all products. */
  function TotalStock(ps: seq<Product>): (r: int)
    ensures (forall i | 0 <= i < |ps| :: ps[i].stock >= 0) ==> r >= 0
    decreases |ps|
  {
    if ps == [] then 0 else TotalStock(ps[..|ps| - 1]) + ps[|ps| - 1].stock
  }

  /** Changing one product's stock moves the total by the same amount. */
  lemma {:induction false} TotalStockUpdate(ps: seq<Product>, k: int, p: Product)
    requires 0 <= k < |ps|
    ensures TotalStock(ps[k := p]) == TotalStock(ps) - ps[k].stock + p.stock
    decreases |ps|
  {
    var n := |ps| - 1;
    var qs := ps[k := p];
    assert qs[..n] == if k == n then ps[..n] else ps[..n][k := p];
    if k < n {
      TotalStockUpdate(ps[..n], k, p);
    }
  }

  /** The three numbers at the top of the dashboard. */
  datatype Dashboard = Dashboard(totalProducts: int, totalStock: int, lowStockCount: int)

  /** `renderDashboard`'s aggregates: the number of products, the stock total and the length of
      the low-stock list. */
  function Summary(doc: Document): (r: Dashboard)
    ensures r.totalProducts == |doc.products|
    ensures r.totalStock == TotalStock(doc.products)
    ensures r.lowStockCount == |LowStock(doc.products)|
    ensures 0 <= r.lowStockCount <= r.totalProducts
    ensures Valid(doc) ==> r.totalStock >= 0
    ensures r.lowStockCount == 0 <==> forall i | 0 <= i < |doc.products| :: doc.products[i].stock >= 5
  {
    var low := LowStock(doc.products);
    assert low != [] ==> low[0] in doc.products;
    Dashboard(|doc.products|, TotalStock(doc.products), |low|)
  }

  /** An accepted sale keeps the product count and lowers the stock total by its quantity. */
  lemma SummaryAfterSale(doc: Document, selected: Option<string>, qty: Option<int>,
                         saleId: string, now: int)
    requires FreshKey(doc.sales, EntryKey, saleId)
    requires RecordSale(doc, selected, qty, saleId, now).Ok?
    ensures var after := Summary(RecordSale(doc, selected, qty, saleId, now).value);
      && after.totalProducts == Summary(doc).totalProducts
      && after.totalStock == Summary(doc).totalStock - qty.value
  {
    var d := RecordSale(doc, selected, qty, saleId, now).value;
    var k := FindIndex(doc.products, selected.value).value;
    assert d.products == doc.products[k := d.products[k]];
    TotalStockUpdate(doc.products, k, d.products[k]);
  }

  /** An accepted procurement keeps the product count and raises the stock total by its quantity. */
  lemma SummaryAfterStock(doc: Document, selected: Option<string>, qty: Option<int>,
                          procId: string, now: int)
    requires FreshKey(doc.procurements, EntryKey, procId)
    requires AddStock(doc, selected, qty, procId, now).Ok?
    ensures var after := Summary(AddStock(doc, selected, qty, procId, now).value);
      && after.totalProducts == Summary(doc).totalProducts
      && after.totalStock == Summary(doc).totalStock + qty.value
  {
    var d := AddStock(doc, selected, qty, procId, now).value;
    var k := FindIndex(doc.products, selected.value).value;
    assert d.products == doc.products[k := d.products[k]];
    TotalStockUpdate(doc.products, k, d.products[k]);
  }

  /** An accepted new product adds one product and its opening stock to the dashboard. */
  lemma SummaryAfterNewProduct(doc: Document, barcode: string, name: string, company: string,
                               stock: Option<int>, id: string)
    requires FreshKey(doc.products, ProductKey, id)
    requires AddNewProduct(doc, barcode, name, company, stock, id).Ok?
    ensures var after := Summary(AddNewProduct(doc, barcode, name, company, stock, id).value);
      && after.totalProducts == Summary(doc).totalProducts + 1
      && after.totalStock == Summary(doc).totalStock + stock.value
  {
  }

  /** The suggestion rule of the sale and procurement pickers: the lower-cased name contains the
      term, or the barcode, as typed, contains it. */
  function SuggestionMatch(term: string): Product -> bool
  {
    (p: Product) => Contains(Lower(p.name), term) || Contains(p.barcode, term)
  }

  /** The sale and procurement product pickers: the query is lower-cased; an empty term
      suggests nothing, and otherwise the suggestions are the matching products in storage
      order. The barcode is compared without lower-casing. */
  function Suggestions(ps: seq<Product>, query: string): (r: seq<Product>)
    ensures query == [] ==> r == []
    ensures forall i | 0 <= i < |r| ::
      r[i] in ps && (Contains(Lower(r[i].name), Lower(query)) || Contains(r[i].barcode, Lower(query)))
    ensures query != [] ==> forall i | 0 <= i < |ps| ::
      (Contains(Lower(ps[i].name), Lower(query)) || Contains(ps[i].barcode, Lower(query))) ==> ps[i] in r
    ensures IsSubsequence(r, ps)
  {
    var term := Lower(query);
    if |term| < 1 then [] else Filter(ps, SuggestionMatch(term))
  }

  /** The inventory list's rule: the lower-cased name or the lower-cased company contains the term. */
  function InventoryMatch(term: string): Product -> bool
  {
    (p: Product) => Contains(Lower(p.name), term) || Contains(Lower(p.company), term)
  }

  /** `renderInventory`'s filter: an empty term lists every product; otherwise the products
      whose name or company contains the lower-cased term, in storage order. */
  function InventorySearch(ps: seq<Product>, query: string): (r: seq<Product>)
    ensures query == [] ==> r == ps
    ensures forall i | 0 <= i < |r| ::
      r[i] in ps && (query == [] || Contains(Lower(r[i].name), Lower(query)) || Contains(Lower(r[i].company), Lower(query)))
    ensures forall i | 0 <= i < |ps| ::
      (Contains(Lower(ps[i].name), Lower(query)) || Contains(Lower(ps[i].company), Lower(query))) ==> ps[i] in r
    ensures IsSubsequence(r, ps)
  {
    var term := Lower(query);
    if term == [] then
      assert IsSubsequence(ps, ps) by { FilterAll(ps, (p: Product) => true); }
      ps
    else Filter(ps, InventoryMatch(term))
  }

  /** The two searches disagree: on the empty query the pickers suggest nothing while the
      inventory lists everything, and a product found only through its company shows up in the
      inventory but is never suggested. */
  lemma SearchesDiffer(ps: seq<Product>, query: string, i: int)
    requires 0 <= i < |ps|
    ensures Suggestions(ps, []) == [] && InventorySearch(ps, []) == ps
    ensures (&& Contains(Lower(ps[i].company), Lower(query))
             && !Contains(Lower(ps[i].name), Lower(query))
             && !Contains(ps[i].barcode, Lower(query))) ==>
      ps[i] in InventorySearch(ps, query) && ps[i] !in Suggestions(ps, query)
  {
  }

  /** Searching the seed for "red" suggests "Red Paint 2L": the match ignores case. */
  lemma SuggestRedFindsRedPaint()
    ensures Seed().products[1] in Suggestions(Seed().products, "red")
  {
    var ps := Seed().products;
    assert Lower(ps[1].name)[..3] == "red";
    assert Contains(Lower(ps[1].name), "red");
    assert Lower("red") == "red";
  }

  /** Keeps the entries recorded between `start` and `end`, both included. */
  function InRange(start: int, end: int): Entry -> bool
  {
    (e: Entry) => start <= e.date <= end
  }

  /** The report filter over sales or procurements: exactly the entries whose date lies in
      `[start, end]`, in storage order. */
  function EntriesInRange(es: seq<Entry>, start: int, end: int): (r: seq<Entry>)
    ensures forall i | 0 <= i < |r| :: r[i] in es && start <= r[i].date <= end
    ensures forall i | 0 <= i < |es| :: start <= es[i].date <= end ==> es[i] in r
    ensures IsSubsequence(r, es)
  {
    Filter(es, InRange(start, end))
  }

  /** Milliseconds in a day. */
  const MsPerDay: int := 86400000

  /** The end bound the report should use: the last millisecond of the day that starts at
      `dayStart`, in the same frame as the start bound. The window from a day's start to this
      bound is exactly one day long. */
  function EndOfDay(dayStart: int): (r: int)
    ensures dayStart < r < dayStart + MsPerDay
    ensures r + 1 == dayStart + MsPerDay
  {
    dayStart + MsPerDay - 1
  }

  /** The end bound as app.js computes it. The chosen end day is parsed as UTC midnight, and then
      its time of day is set to 23:59:59.999 in the browser's local time. `offset` is local time
      minus UTC in milliseconds, taken as fixed. The result is the last millisecond of the local
      day that contains `instant`: it is 23:59:59.999 on the local clock, at or after `instant`
      and less than a day later. */
  function EndOfLocalDay(instant: int, offset: int): (r: int)
    ensures (r + offset) % MsPerDay == MsPerDay - 1
    ensures instant <= r < instant + MsPerDay
  {
    var local := instant + offset;
    var q := local / MsPerDay;
    assert local == q * MsPerDay + local % MsPerDay;
    q * MsPerDay + MsPerDay - 1 - offset
  }

  /** Where local time is UTC, the bound app.js computes for a day is the day's last millisecond. */
  lemma LocalEndInUtc(dayStart: int)
    requires dayStart % MsPerDay == 0
    ensures EndOfLocalDay(dayStart, 0) == EndOfDay(dayStart)
  {
  }

  /** Midnight UTC that starts 2025-10-30, in milliseconds since the epoch. */
  const Oct30: int := 1761782400000

  /** In a zone five hours behind UTC, a report for 2025-10-30 alone ends at 04:59:59.999 UTC of
      that day, which is 23:59:59.999 on 2025-10-29 on the user's clock. A sale at 23:59:00 UTC
      on 2025-10-30 falls inside the chosen day but the report as written drops it. The
      corrected bound keeps it. */
  lemma LocalEndDropsLateSale()
    ensures EndOfLocalDay(Oct30, -18000000) == Oct30 + 17999999
    ensures var late := Entry("s2", "p1", 1, Oct30 + 86340000);
      && late !in EntriesInRange([late], Oct30, EndOfLocalDay(Oct30, -18000000))
      && late in EntriesInRange([late], Oct30, EndOfDay(Oct30))
  {
  }

  /** A one-day report keeps an entry dated at 23:59:59 of that day and drops one dated at
      midnight of the next. */
  lemma OneDayReportBoundary(day: int, id: string, pid: string, qty: int)
    ensures var late := Entry(id, pid, qty, day + 86399000);
      late in EntriesInRange([late], day, EndOfDay(day))
    ensures var next := Entry(id, pid, qty, day + MsPerDay);
      next !in EntriesInRange([next], day, EndOfDay(day))
  {
  }

  /** One line of a report: when, which product (by name), how many. */
  datatype ReportLine = ReportLine(date: int, productName: string, qty: int)

  /** The report lines for `es`, one per entry in order, each carrying the entry's date and
      quantity and the name of the first product that has the entry's product id. */
  function ReportLines(ps: seq<Product>, es: seq<Entry>): (r: seq<ReportLine>)
    requires forall i | 0 <= i < |es| :: FindIndex(ps, es[i].productId).Some?
    ensures |r| == |es|
    ensures forall i | 0 <= i < |es| ::
      && r[i].date == es[i].date
      && r[i].qty == es[i].qty
      && exists j :: IsFirst(ps, es[i].productId, j) && r[i].productName == ps[j].name
  {
    seq(|es|, i requires 0 <= i < |es| =>
      ReportLine(es[i].date, ps[FindIndex(ps, es[i].productId).value].name, es[i].qty))
  }

  /** Under referential integrity every sale and procurement the date filter keeps names a
      product the join finds, so the report never dereferences a missing product. */
  lemma ReportJoinResolves(doc: Document, start: int, end: int)
    requires RefIntegrity(doc)
    ensures var kept := EntriesInRange(doc.sales, start, end);
      forall i | 0 <= i < |kept| :: FindIndex(doc.products, kept[i].productId).Some?
    ensures var kept := EntriesInRange(doc.procurements, start, end);
      forall i | 0 <= i < |kept| :: FindIndex(doc.products, kept[i].productId).Some?
  {
  }

  /** `filterReports`: the sales and procurements dated from `start` through the end of the
      day starting at `endDay`, each shown with its product's name, quantity and date. */
  datatype Report = Report(sales: seq<ReportLine>, procurements: seq<ReportLine>)

  function FilterReports(doc: Document, start: int, endDay: int): (r: Report)
    requires RefIntegrity(doc)
    ensures |r.sales| == |EntriesInRange(doc.sales, start, EndOfDay(endDay))|
    ensures |r.procurements| == |EntriesInRange(doc.procurements, start, EndOfDay(endDay))|
    ensures forall i | 0 <= i < |r.sales| :: start <= r.sales[i].date <= EndOfDay(endDay)
    ensures forall i | 0 <= i < |r.procurements| :: start <= r.procurements[i].date <= EndOfDay(endDay)
    ensures var kept := EntriesInRange(doc.sales, start, EndOfDay(endDay));
      forall i | 0 <= i < |r.sales| ::
        && r.sales[i].date == kept[i].date
        && r.sales[i].qty == kept[i].qty
        && exists j :: IsFirst(doc.products, kept[i].productId, j)
                       && r.sales[i].productName == doc.products[j].name
    ensures var kept := EntriesInRange(doc.procurements, start, EndOfDay(endDay));
      forall i | 0 <= i < |r.procurements| ::
        && r.procurements[i].date == kept[i].date
        && r.procurements[i].qty == kept[i].qty
        && exists j :: IsFirst(doc.products, kept[i].productId, j)
                       && r.procurements[i].productName == doc.products[j].name
  {
    var end := EndOfDay(endDay);
    ReportJoinResolves(doc, start, end);
    var ks := EntriesInRange(doc.sales, start, end);
    var kp := EntriesInRange(doc.procurements, start, end);
    Report(ReportLines(doc.products, ks), ReportLines(doc.products, kp))
  }
}
