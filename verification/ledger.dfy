/** Stock accounting. A product's net movement is what its procurements brought in minus what
    its sales took out; its opening balance is its stock minus that net movement. Every accepted
    handler leaves the opening balance of every surviving product unchanged: stock moves exactly
    by procurements minus sales. */
module Ledger {
  import opened Wrappers
  import opened Seqs
  import opened Inventory

  /** The total quantity of a list of sales or procurements. */
  function SumQty(es: seq<Entry>): int
    decreases |es|
  {
    if es == [] then 0 else SumQty(es[..|es| - 1]) + es[|es| - 1].qty
  }

  /** Quantities add up over concatenation. */
  lemma {:induction false} SumQtyConcat(a: seq<Entry>, b: seq<Entry>)
    ensures SumQty(a + b) == SumQty(a) + SumQty(b)
    decreases |b|
  {
    if b != [] {
      var n := |b| - 1;
      assert (a + b)[..|a + b| - 1] == a + b[..n];
      SumQtyConcat(a, b[..n]);
    } else {
      assert a + b == a;
    }
  }

  /** Units procured minus units sold for product `id`, over the document's own logs. */
  function Net(doc: Document, id: string): int
  {
    SumQty(EntriesFor(doc.procurements, id)) - SumQty(EntriesFor(doc.sales, id))
  }

  /** The current stock of product `id`, read through `find`. */
  function StockOf(ps: seq<Product>, id: string): int
    requires HasProduct(ps, id)
  {
    ps[FindIndex(ps, id).value].stock
  }

  /** The stock product `id` would have had before any logged movement. */
  function Opening(doc: Document, id: string): int
    requires HasProduct(doc.products, id)
  {
    StockOf(doc.products, id) - Net(doc, id)
  }

  /** Appending one entry adds its quantity to the total of its own product only. */
  lemma SumForAppend(es: seq<Entry>, e: Entry, id: string)
    ensures SumQty(EntriesFor(es + [e], id)) ==
      SumQty(EntriesFor(es, id)) + (if e.productId == id then e.qty else 0)
  {
    FilterConcat(es, [e], For(id));
    SumQtyConcat(EntriesFor(es, id), EntriesFor([e], id));
    assert EntriesFor([e], id) == if e.productId == id then [e] else [];
  }

  /** A stock change at one position leaves every product's `find` position where it was. */
  lemma FindIndexMoved(before: seq<Product>, after: seq<Product>, k: int, delta: int, id: string)
    requires StockMoved(before, after, k, delta)
    ensures FindIndex(after, id) == FindIndex(before, id)
  {
  }

  /** An accepted sale moves stock and net movement of every existing product together: the
      selected one both drop by the quantity, the others stay put. */
  lemma RecordSaleKeepsOpening(doc: Document, selected: Option<string>, qty: Option<int>,
                               saleId: string, now: int, id: string)
    requires FreshKey(doc.sales, EntryKey, saleId)
    requires RecordSale(doc, selected, qty, saleId, now).Ok?
    requires HasProduct(doc.products, id)
    ensures var d := RecordSale(doc, selected, qty, saleId, now).value;
      HasProduct(d.products, id) && Opening(d, id) == Opening(doc, id)
    ensures var d := RecordSale(doc, selected, qty, saleId, now).value;
      id == selected.value ==>
        && StockOf(d.products, id) == StockOf(doc.products, id) - qty.value
        && Net(d, id) == Net(doc, id) - qty.value
    ensures var d := RecordSale(doc, selected, qty, saleId, now).value;
      id != selected.value ==>
        && StockOf(d.products, id) == StockOf(doc.products, id)
        && Net(d, id) == Net(doc, id)
  {
    var d := RecordSale(doc, selected, qty, saleId, now).value;
    var k := FindIndex(doc.products, selected.value).value;
    HasProductMoved(doc.products, d.products, k, -qty.value, id);
    FindIndexMoved(doc.products, d.products, k, -qty.value, id);
    SumForAppend(doc.sales, Entry(saleId, selected.value, qty.value, now), id);
  }

  /** An accepted procurement moves stock and net movement of every existing product together:
      the selected one both rise by the quantity, the others stay put. */
  lemma AddStockKeepsOpening(doc: Document, selected: Option<string>, qty: Option<int>,
                             procId: string, now: int, id: string)
    requires FreshKey(doc.procurements, EntryKey, procId)
    requires AddStock(doc, selected, qty, procId, now).Ok?
    requires HasProduct(doc.products, id)
    ensures var d := AddStock(doc, selected, qty, procId, now).value;
      HasProduct(d.products, id) && Opening(d, id) == Opening(doc, id)
    ensures var d := AddStock(doc, selected, qty, procId, now).value;
      id == selected.value ==>
        && StockOf(d.products, id) == StockOf(doc.products, id) + qty.value
        && Net(d, id) == Net(doc, id) + qty.value
    ensures var d := AddStock(doc, selected, qty, procId, now).value;
      id != selected.value ==>
        && StockOf(d.products, id) == StockOf(doc.products, id)
        && Net(d, id) == Net(doc, id)
  {
    var d := AddStock(doc, selected, qty, procId, now).value;
    var k := FindIndex(doc.products, selected.value).value;
    HasProductMoved(doc.products, d.products, k, qty.value, id);
    FindIndexMoved(doc.products, d.products, k, qty.value, id);
    SumForAppend(doc.procurements, Entry(procId, selected.value, qty.value, now), id);
  }

  /** A new product changes neither the stock nor the logs of the existing products. */
  lemma AddNewProductKeepsOpening(doc: Document, barcode: string, name: string, company: string,
                                  stock: Option<int>, newId: string, id: string)
    requires FreshKey(doc.products, ProductKey, newId)
    requires AddNewProduct(doc, barcode, name, company, stock, newId).Ok?
    requires HasProduct(doc.products, id)
    ensures var d := AddNewProduct(doc, barcode, name, company, stock, newId).value;
      HasProduct(d.products, id) && Opening(d, id) == Opening(doc, id)
    ensures var d := AddNewProduct(doc, barcode, name, company, stock, newId).value;
      HasProduct(d.products, id)
      && StockOf(d.products, id) == StockOf(doc.products, id)
      && Net(d, id) == Net(doc, id)
  {
  }

  /** Deleting one product leaves every other product's sales and procurements exactly as they
      were, in order. */
  lemma DeleteKeepsOtherHistory(doc: Document, deleted: string, id: string)
    requires HasProduct(doc.products, deleted)
    requires id != deleted
    ensures var d := DeleteProduct(doc, deleted).value;
      && EntriesFor(d.sales, id) == EntriesFor(doc.sales, id)
      && EntriesFor(d.procurements, id) == EntriesFor(doc.procurements, id)
  {
    FilterNarrowed(doc.sales, NotFor(deleted), For(id));
    FilterNarrowed(doc.procurements, NotFor(deleted), For(id));
  }

  /** On a valid document, deleting one product changes neither the stock nor the net movement
      of any other product. */
  lemma DeleteProductKeepsOpening(doc: Document, deleted: string, id: string)
    requires Valid(doc)
    requires HasProduct(doc.products, deleted)
    requires HasProduct(doc.products, id)
    requires id != deleted
    ensures var d := DeleteProduct(doc, deleted).value;
      HasProduct(d.products, id) && Opening(d, id) == Opening(doc, id)
    ensures var d := DeleteProduct(doc, deleted).value;
      HasProduct(d.products, id)
      && StockOf(d.products, id) == StockOf(doc.products, id)
      && Net(d, id) == Net(doc, id)
  {
    var d := DeleteProduct(doc, deleted).value;
    DeleteKeepsOtherHistory(doc, deleted, id);
    SurvivorResolves(doc.products, deleted, id);
    FilterKeepsDistinct(doc.products, OtherProduct(deleted), ProductKey);
    var k := FindIndex(doc.products, id).value;
    FindIndexUnique(doc.products, id, k);
    var m :| 0 <= m < |d.products| && d.products[m] == doc.products[k];
    FindIndexUnique(d.products, id, m);
  }
}
