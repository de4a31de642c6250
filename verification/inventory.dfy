/** The inventory document of app.js and the four handlers that change it, each lifted out of
    its DOM handler as a pure function from the document and the values the handler reads
    (selected product id, parsed quantity, raw field text, a fresh id, the current time) to
    either the new document or the reason the handler gave up without saving. */
module Inventory {
  import opened Wrappers
  import opened Seqs
  import opened Text

  /** A product line; `stock` counts units on hand. */
  datatype Product = Product(id: string, barcode: string, name: string, company: string, stock: int)

  /** A sale or a procurement: both are a quantity of one product at one instant
      (`date` is milliseconds since the epoch). */
  datatype Entry = Entry(id: string, productId: string, qty: int, date: int)

  type Sale = Entry
  type Procurement = Entry

  /** The persisted document: three sequences, in storage order. */
  datatype Document = Document(products: seq<Product>, sales: seq<Sale>, procurements: seq<Procurement>)

  /** The reasons a handler stops with a toast instead of saving. `ProductNotFound` stands for the
      places where the handlers dereference the result of a failed `find`. */
  datatype Error =
    | NoProductSelected   // "Please select a product"
    | InvalidQuantity     // "Please enter a valid quantity"
    | InsufficientStock   // "Insufficient stock"
    | MissingFields       // "Please fill all fields"
    | ProductNotFound

  function ProductKey(p: Product): string { p.id }
  function EntryKey(e: Entry): string { e.id }

  /** Some product of `ps` has id `id`. */
  predicate HasProduct(ps: seq<Product>, id: string)
  {
    exists i :: 0 <= i < |ps| && ps[i].id == id
  }

  /** Every sale and every procurement names a product of the document. This is what the
      report join relies on when it reads the name of the product it found. */
  predicate RefIntegrity(doc: Document)
  {
    && (forall i | 0 <= i < |doc.sales| :: HasProduct(doc.products, doc.sales[i].productId))
    && (forall i | 0 <= i < |doc.procurements| :: HasProduct(doc.products, doc.procurements[i].productId))
  }

  /** The document invariant: stock is never negative, ids are unique within each collection,
      and no sale or procurement dangles. */
  predicate Valid(doc: Document)
  {
    && (forall i | 0 <= i < |doc.products| :: doc.products[i].stock >= 0)
    && DistinctKeys(doc.products, ProductKey)
    && DistinctKeys(doc.sales, EntryKey)
    && DistinctKeys(doc.procurements, EntryKey)
    && RefIntegrity(doc)
  }

  /** Milliseconds since the epoch of 2025-10-30T12:30:00Z and 2025-10-29T09:45:00Z. */
  const SeedSaleDate: int := 1761827400000
  const SeedProcurementDate: int := 1761731100000

  /** `initializeDB`: three paint products, one sale of two units of p1 and one procurement of
      ten units of p1. */
  function Seed(): (d: Document)
    ensures Valid(d)
    ensures |d.products| == 3 && |d.sales| == 1 && |d.procurements| == 1
    ensures d.products[0].id == "p1" && d.products[0].stock == 20
    ensures d.products[1].id == "p2" && d.products[1].stock == 3
    ensures d.products[2].id == "p3" && d.products[2].stock == 8
  {
    var d := Document(
      [ Product("p1", "123456", "White Paint 1L", "ABC Paints", 20),
        Product("p2", "123457", "Red Paint 2L", "XYZ Paints", 3),
        Product("p3", "123458", "Blue Paint 1L", "ABC Paints", 8) ],
      [ Entry("s1", "p1", 2, SeedSaleDate) ],
      [ Entry("pr1", "p1", 10, SeedProcurementDate) ]);
    assert d.products[0].id == "p1";
    d
  }

  /** Position `i` holds the first product with id `id`. */
  predicate IsFirst(ps: seq<Product>, id: string, i: int)
  {
    0 <= i < |ps| && ps[i].id == id && forall j | 0 <= j < i :: ps[j].id != id
  }

  /** The lookup the handlers do by product id: the position of the first product carrying `id`,
      or nothing when no product does. */
  function FindIndex(ps: seq<Product>, id: string): (r: Option<nat>)
    ensures r.Some? ==> IsFirst(ps, id, r.value)
    ensures r.None? ==> forall i | 0 <= i < |ps| :: ps[i].id != id
    decreases |ps|
  {
    if ps == [] then None
    else if ps[0].id == id then Some(0)
    else match FindIndex(ps[1..], id)
      case None => None
      case Some(k) => Some(k + 1)
  }

  /** Under unique ids, the product `find` returns is the only one carrying that id. */
  lemma FindIndexUnique(ps: seq<Product>, id: string, i: int)
    requires DistinctKeys(ps, ProductKey)
    requires 0 <= i < |ps| && ps[i].id == id
    ensures FindIndex(ps, id) == Some(i)
  {
  }

  /** `before` and `after` agree except that the product at `k` has its stock moved by `delta`. */
  predicate StockMoved(before: seq<Product>, after: seq<Product>, k: int, delta: int)
  {
    && |after| == |before|
    && 0 <= k < |before|
    && after[k] == before[k].(stock := before[k].stock + delta)
    && forall i | 0 <= i < |before| && i != k :: after[i] == before[i]
  }

  /** A product counts as selected when there is a selection and its id is not the empty string
      (the handlers treat both a missing and an empty id as no selection). */
  predicate IsSelected(selected: Option<string>)
  {
    selected.Some? && selected.value != ""
  }

  /** The quantity guard passes: the field parsed to a number (not NaN) that is at least 1. */
  predicate ValidQuantity(qty: Option<int>)
  {
    qty.Some? && qty.value >= 1
  }

  /** `addNewProduct`: the three text fields are trimmed, and the product is appended only when
      none of them is blank and the stock parsed to at least 1; the new product carries the
      trimmed text. Sales and procurements are untouched either way. */
  function AddNewProduct(doc: Document, barcode: string, name: string, company: string,
                         stock: Option<int>, id: string): (r: Result<Document, Error>)
    requires FreshKey(doc.products, ProductKey, id)
    ensures r.Err? <==> AllSpace(barcode) || AllSpace(name) || AllSpace(company) || !ValidQuantity(stock)
    ensures r.Err? ==> r.error == MissingFields
    ensures r.Ok? ==>
      && |r.value.products| == |doc.products| + 1
      && r.value.products[..|doc.products|] == doc.products
      && r.value.products[|doc.products|] == Product(id, Trim(barcode), Trim(name), Trim(company), stock.value)
      && r.value.sales == doc.sales
      && r.value.procurements == doc.procurements
  {
    var b := Trim(barcode);
    var n := Trim(name);
    var c := Trim(company);
    if b == [] || n == [] || c == [] || !ValidQuantity(stock) then Err(MissingFields)
    else
      var ps := doc.products + [Product(id, b, n, c, stock.value)];
      assert ps[..|doc.products|] == doc.products;
      Ok(doc.(products := ps))
  }

  /** `recordSale`. It gives up, in this order, when no product is selected, when the quantity
      is not a number of at least 1, when the selected product is not in the document, and when
      the quantity exceeds the product's stock. Otherwise exactly that product's stock drops by
      the quantity (and stays non-negative), one sale is appended, and nothing else changes. */
  function RecordSale(doc: Document, selected: Option<string>, qty: Option<int>,
                      saleId: string, now: int): (r: Result<Document, Error>)
    requires FreshKey(doc.sales, EntryKey, saleId)
    ensures !IsSelected(selected) ==> r == Err(NoProductSelected)
    ensures IsSelected(selected) && !ValidQuantity(qty) ==> r == Err(InvalidQuantity)
    ensures IsSelected(selected) && ValidQuantity(qty) && !HasProduct(doc.products, selected.value) ==>
      r == Err(ProductNotFound)
    ensures IsSelected(selected) && ValidQuantity(qty) && HasProduct(doc.products, selected.value) ==>
      var k := FindIndex(doc.products, selected.value).value;
      (r.Err? <==> qty.value > doc.products[k].stock)
      && (r.Err? ==> r.error == InsufficientStock)
    ensures r.Ok? ==>
      && IsSelected(selected) && ValidQuantity(qty)
      && var k := FindIndex(doc.products, selected.value).value;
      && StockMoved(doc.products, r.value.products, k, -qty.value)
      && r.value.products[k].stock >= 0
      && r.value.sales == doc.sales + [Entry(saleId, selected.value, qty.value, now)]
      && r.value.procurements == doc.procurements
  {
    if !IsSelected(selected) then Err(NoProductSelected)
    else if !ValidQuantity(qty) then Err(InvalidQuantity)
    else match FindIndex(doc.products, selected.value)
      case None => Err(ProductNotFound)
      case Some(k) =>
        var p := doc.products[k];
        if qty.value > p.stock then Err(InsufficientStock)
        else
          Ok(doc.(products := doc.products[k := p.(stock := p.stock - qty.value)],
                  sales := doc.sales + [Entry(saleId, selected.value, qty.value, now)]))
  }

  /** `addStock`. It gives up when no product is selected, when the quantity is not a number of
      at least 1, and when the selected product is not in the document. Otherwise exactly that
      product's stock rises by the quantity, with no upper bound, one procurement is appended,
      and nothing else changes. */
  function AddStock(doc: Document, selected: Option<string>, qty: Option<int>,
                    procId: string, now: int): (r: Result<Document, Error>)
    requires FreshKey(doc.procurements, EntryKey, procId)
    ensures !IsSelected(selected) ==> r == Err(NoProductSelected)
    ensures IsSelected(selected) && !ValidQuantity(qty) ==> r == Err(InvalidQuantity)
    ensures IsSelected(selected) && ValidQuantity(qty) ==>
      (r.Err? <==> !HasProduct(doc.products, selected.value))
      && (r.Err? ==> r.error == ProductNotFound)
    ensures r.Ok? ==>
      && IsSelected(selected) && ValidQuantity(qty)
      && var k := FindIndex(doc.products, selected.value).value;
      && StockMoved(doc.products, r.value.products, k, qty.value)
      && r.value.procurements == doc.procurements + [Entry(procId, selected.value, qty.value, now)]
      && r.value.sales == doc.sales
  {
    if !IsSelected(selected) then Err(NoProductSelected)
    else if !ValidQuantity(qty) then Err(InvalidQuantity)
    else match FindIndex(doc.products, selected.value)
      case None => Err(ProductNotFound)
      case Some(k) =>
        var p := doc.products[k];
        Ok(doc.(products := doc.products[k := p.(stock := p.stock + qty.value)],
                procurements := doc.procurements + [Entry(procId, selected.value, qty.value, now)]))
  }

  /** Keeps the products whose id is not `id`. */
  function OtherProduct(id: string): Product -> bool
  {
    (p: Product) => p.id != id
  }

  /** Keeps the entries that do not refer to product `id`. */
  function NotFor(id: string): Entry -> bool
  {
    (e: Entry) => e.productId != id
  }

  /** Keeps the entries that refer to product `id`. */
  function For(id: string): Entry -> bool
  {
    (e: Entry) => e.productId == id
  }

  /** The sales or procurements of one product, in storage order. */
  function EntriesFor(es: seq<Entry>, id: string): seq<Entry>
  {
    Filter(es, For(id))
  }

  /** The body of `deleteProduct`'s confirm callback. The product must exist (the source reads
      its name for the confirmation prompt). It removes every product with that id and every
      sale and procurement that refers to it; everything else stays, in its original order. */
  function DeleteProduct(doc: Document, id: string): (r: Result<Document, Error>)
    ensures r.Err? <==> !HasProduct(doc.products, id)
    ensures r.Err? ==> r.error == ProductNotFound
    ensures r.Ok? ==>
      && (forall i | 0 <= i < |r.value.products| :: r.value.products[i].id != id)
      && (forall i | 0 <= i < |r.value.sales| :: r.value.sales[i].productId != id)
      && (forall i | 0 <= i < |r.value.procurements| :: r.value.procurements[i].productId != id)
      && IsSubsequence(r.value.products, doc.products)
      && IsSubsequence(r.value.sales, doc.sales)
      && IsSubsequence(r.value.procurements, doc.procurements)
      && (forall i | 0 <= i < |doc.products| && doc.products[i].id != id :: doc.products[i] in r.value.products)
      && (forall i | 0 <= i < |doc.sales| && doc.sales[i].productId != id :: doc.sales[i] in r.value.sales)
      && (forall i | 0 <= i < |doc.procurements| && doc.procurements[i].productId != id ::
            doc.procurements[i] in r.value.procurements)
  {
    if !HasProduct(doc.products, id) then Err(ProductNotFound)
    else
      Ok(Document(Filter(doc.products, OtherProduct(id)),
                  Filter(doc.sales, NotFor(id)),
                  Filter(doc.procurements, NotFor(id))))
  }

  /** Changing a stock count keeps every reference resolvable. */
  lemma HasProductMoved(before: seq<Product>, after: seq<Product>, k: int, delta: int, id: string)
    requires StockMoved(before, after, k, delta)
    requires HasProduct(before, id)
    ensures HasProduct(after, id)
  {
  }

  /** A successful `addNewProduct` on a valid document gives a valid document. */
  lemma AddNewProductKeepsValid(doc: Document, barcode: string, name: string, company: string,
                                stock: Option<int>, id: string)
    requires Valid(doc)
    requires FreshKey(doc.products, ProductKey, id)
    requires AddNewProduct(doc, barcode, name, company, stock, id).Ok?
    ensures Valid(AddNewProduct(doc, barcode, name, company, stock, id).value)
  {
  }

  /** A successful `recordSale` on a valid document gives a valid document: in particular no
      stock goes negative and the new sale names an existing product. */
  lemma RecordSaleKeepsValid(doc: Document, selected: Option<string>, qty: Option<int>,
                             saleId: string, now: int)
    requires Valid(doc)
    requires FreshKey(doc.sales, EntryKey, saleId)
    requires RecordSale(doc, selected, qty, saleId, now).Ok?
    ensures Valid(RecordSale(doc, selected, qty, saleId, now).value)
  {
  }

  /** A successful `addStock` on a valid document gives a valid document. */
  lemma AddStockKeepsValid(doc: Document, selected: Option<string>, qty: Option<int>,
                           procId: string, now: int)
    requires Valid(doc)
    requires FreshKey(doc.procurements, EntryKey, procId)
    requires AddStock(doc, selected, qty, procId, now).Ok?
    ensures Valid(AddStock(doc, selected, qty, procId, now).value)
  {
  }

  /** After a successful delete no sale or procurement dangles, so the cascade keeps the
      document valid. */
  lemma DeleteProductKeepsValid(doc: Document, id: string)
    requires Valid(doc)
    requires HasProduct(doc.products, id)
    ensures Valid(DeleteProduct(doc, id).value)
  {
    var d := DeleteProduct(doc, id).value;
    FilterKeepsDistinct(doc.products, OtherProduct(id), ProductKey);
    FilterKeepsDistinct(doc.sales, NotFor(id), EntryKey);
    FilterKeepsDistinct(doc.procurements, NotFor(id), EntryKey);
    forall i | 0 <= i < |d.products| ensures d.products[i].stock >= 0 {
      var m :| 0 <= m < |doc.products| && doc.products[m] == d.products[i];
    }
    forall i | 0 <= i < |d.sales| ensures HasProduct(d.products, d.sales[i].productId) {
      var m :| 0 <= m < |doc.sales| && doc.sales[m] == d.sales[i];
      SurvivorResolves(doc.products, id, d.sales[i].productId);
    }
    forall i | 0 <= i < |d.procurements| ensures HasProduct(d.products, d.procurements[i].productId) {
      var m :| 0 <= m < |doc.procurements| && doc.procurements[m] == d.procurements[i];
      SurvivorResolves(doc.products, id, d.procurements[i].productId);
    }
  }

  /** A product id other than the deleted one still resolves after the delete. */
  lemma SurvivorResolves(ps: seq<Product>, deleted: string, id: string)
    requires HasProduct(ps, id)
    requires id != deleted
    ensures HasProduct(Filter(ps, OtherProduct(deleted)), id)
  {
  }

  /** The walk-through from the seed: selling 2 of p1 leaves 18, procuring 10 brings it to 28,
      and adding "Green Paint" with 15 units makes four products. */
  lemma SeedScenario(t1: int, t2: int)
    ensures var r1 := RecordSale(Seed(), Some("p1"), Some(2), "s2", t1);
      && r1.Ok? && r1.value.products[0].stock == 18 && |r1.value.sales| == 2
      && var r2 := AddStock(r1.value, Some("p1"), Some(10), "pr2", t2);
      && r2.Ok? && r2.value.products[0].stock == 28 && |r2.value.procurements| == 2
      && var r3 := AddNewProduct(r2.value, "999", "Green Paint", "ABC", Some(15), "p4");
      && r3.Ok? && |r3.value.products| == 4 && r3.value.products[3].stock == 15
  {
    var d0 := Seed();
    assert FindIndex(d0.products, "p1") == Some(0);
    var d1 := RecordSale(d0, Some("p1"), Some(2), "s2", t1).value;
    assert FindIndex(d1.products, "p1") == Some(0);
    var d2 := AddStock(d1, Some("p1"), Some(10), "pr2", t2).value;
    assert !IsSpace("999"[0]) && !IsSpace("Green Paint"[0]) && !IsSpace("ABC"[0]);
  }
}
