/** Sequences of user actions. Each action is one handler with the values it read from the
    page, a page reload, or "Clear All Data". A rejected action leaves the stored document as it
    was: the handler either returns before it saves or, for a product that is no longer there,
    throws before it saves. Starting from the seed, every run keeps the document valid. Between
    two clears, a product's stock differs from its earlier value by exactly its logged
    procurements minus its logged sales. */
module Trace {
  import opened Wrappers
  import opened Seqs
  import opened Inventory
  import opened Ledger

  /** One user action, carrying the fresh id and the time the handler would have taken. */
  datatype Op =
    | AddNewProductOp(barcode: string, name: string, company: string, stock: Option<int>, id: string)
    | RecordSaleOp(selected: Option<string>, qty: Option<int>, id: string, date: int)
    | AddStockOp(selected: Option<string>, qty: Option<int>, id: string, date: int)
    | DeleteProductOp(productId: string)
    | ReloadOp
    | ClearAllOp

  /** The document a page load works with, seeding only on the first visit: the stored document
      when there is one, and otherwise the seed, which is valid. */
  function PageLoad(stored: Option<Document>): (d: Document)
    ensures stored.Some? ==> d == stored.value
    ensures stored.None? ==> d == Seed() && Valid(d)
  {
    match stored
    case None => Seed()
    case Some(doc) => doc
  }

  /** The document a page load works with as app.js computes it: the load handler re-seeds
      whatever is stored, so every page load starts over from the three seed products and the
      two seed entries. */
  function PageLoadAsWritten(stored: Option<Document>): (d: Document)
    ensures d == Seed()
    ensures Valid(d)
    ensures |d.products| == 3 && |d.sales| == 1 && |d.procurements| == 1
  {
    Seed()
  }

  /** Recording a sale and then reloading the page: the stored document has two sales and is
      kept by a load that seeds only on the first visit, but the load as written is back to the
      seed's one sale. */
  lemma ReloadDropsSale(now: int)
    ensures var r := RecordSale(Seed(), Some("p1"), Some(2), "s2", now);
      && r.Ok? && |r.value.sales| == 2
      && PageLoad(Some(r.value)) == r.value
      && PageLoadAsWritten(Some(r.value)) != r.value
  {
  }

  /** The id an action would create is not in use in the collection it goes into. */
  predicate FreshFor(doc: Document, op: Op)
  {
    match op
    case AddNewProductOp(_, _, _, _, id) => FreshKey(doc.products, ProductKey, id)
    case RecordSaleOp(_, _, id, _) => FreshKey(doc.sales, EntryKey, id)
    case AddStockOp(_, _, id, _) => FreshKey(doc.procurements, EntryKey, id)
    case DeleteProductOp(_) => true
    case ReloadOp => true
    case ClearAllOp => true
  }

  /** The handler an action triggers. */
  function Step(doc: Document, op: Op): Result<Document, Error>
    requires FreshFor(doc, op)
  {
    match op
    case AddNewProductOp(b, n, c, s, id) => AddNewProduct(doc, b, n, c, s, id)
    case RecordSaleOp(sel, q, id, t) => RecordSale(doc, sel, q, id, t)
    case AddStockOp(sel, q, id, t) => AddStock(doc, sel, q, id, t)
    case DeleteProductOp(pid) => DeleteProduct(doc, pid)
    case ReloadOp => Ok(PageLoad(Some(doc)))
    case ClearAllOp => Ok(Seed())
  }

  /** The document after an action: the saved document, or the old one when the handler gave up. */
  function After(doc: Document, op: Op): Document
    requires FreshFor(doc, op)
  {
    match Step(doc, op)
    case Ok(d) => d
    case Err(_) => doc
  }

  /** Every action of `ops` creates ids fresh for the document it meets. */
  predicate FreshTrace(doc: Document, ops: seq<Op>)
    decreases |ops|
  {
    ops == [] || (FreshFor(doc, ops[0]) && FreshTrace(After(doc, ops[0]), ops[1..]))
  }

  /** The document after performing `ops` in order. */
  function Run(doc: Document, ops: seq<Op>): Document
    requires FreshTrace(doc, ops)
    decreases |ops|
  {
    if ops == [] then doc else Run(After(doc, ops[0]), ops[1..])
  }

  /** Every action keeps a valid document valid, whether the handler accepts it or not. */
  lemma StepKeepsValid(doc: Document, op: Op)
    requires Valid(doc)
    requires FreshFor(doc, op)
    ensures Valid(After(doc, op))
  {
    if Step(doc, op).Ok? {
      match op
      case AddNewProductOp(b, n, c, s, id) => AddNewProductKeepsValid(doc, b, n, c, s, id);
      case RecordSaleOp(sel, q, id, t) => RecordSaleKeepsValid(doc, sel, q, id, t);
      case AddStockOp(sel, q, id, t) => AddStockKeepsValid(doc, sel, q, id, t);
      case DeleteProductOp(pid) => DeleteProductKeepsValid(doc, pid);
      case ReloadOp =>
      case ClearAllOp =>
    }
  }

  /** Any run from a valid document ends in a valid document. */
  lemma {:induction false} RunKeepsValid(doc: Document, ops: seq<Op>)
    requires Valid(doc)
    requires FreshTrace(doc, ops)
    ensures Valid(Run(doc, ops))
    decreases |ops|
  {
    if ops != [] {
      StepKeepsValid(doc, ops[0]);
      RunKeepsValid(After(doc, ops[0]), ops[1..]);
    }
  }

  /** Whatever the user does from the seed, stock is never negative, ids stay unique and no
      sale or procurement refers to a missing product. */
  lemma SeedRunsStayValid(ops: seq<Op>)
    requires FreshTrace(Seed(), ops)
    ensures Valid(Run(Seed(), ops))
  {
    RunKeepsValid(Seed(), ops);
  }

  /** One action other than a clear leaves the opening balance of every product it does not
      delete unchanged. */
  lemma StepKeepsOpening(doc: Document, op: Op, id: string)
    requires Valid(doc)
    requires FreshFor(doc, op)
    requires HasProduct(doc.products, id)
    requires op != DeleteProductOp(id)
    requires op != ClearAllOp
    ensures HasProduct(After(doc, op).products, id)
    ensures Opening(After(doc, op), id) == Opening(doc, id)
  {
    if Step(doc, op).Ok? {
      match op
      case AddNewProductOp(b, n, c, s, nid) => AddNewProductKeepsOpening(doc, b, n, c, s, nid, id);
      case RecordSaleOp(sel, q, sid, t) => RecordSaleKeepsOpening(doc, sel, q, sid, t, id);
      case AddStockOp(sel, q, pid, t) => AddStockKeepsOpening(doc, sel, q, pid, t, id);
      case DeleteProductOp(pid) => DeleteProductKeepsOpening(doc, pid, id);
      case ReloadOp =>
      case ClearAllOp =>
    }
  }

  /** Over any run from a valid document that never deletes product `id` and never clears the
      data, the product survives and its stock changes by exactly the change in its net
      movement: units procured minus units sold during the run. */
  lemma {:induction false} StockMovesByNet(doc: Document, ops: seq<Op>, id: string)
    requires Valid(doc)
    requires FreshTrace(doc, ops)
    requires HasProduct(doc.products, id)
    requires DeleteProductOp(id) !in ops
    requires ClearAllOp !in ops
    ensures HasProduct(Run(doc, ops).products, id)
    ensures StockOf(Run(doc, ops).products, id) - StockOf(doc.products, id)
         == Net(Run(doc, ops), id) - Net(doc, id)
    decreases |ops|
  {
    if ops != [] {
      StepKeepsValid(doc, ops[0]);
      StepKeepsOpening(doc, ops[0], id);
      assert DeleteProductOp(id) !in ops[1..] && ClearAllOp !in ops[1..];
      StockMovesByNet(After(doc, ops[0]), ops[1..], id);
    }
  }
}
