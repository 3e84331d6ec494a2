/** The sales route (`/sales/api`): a sale is recorded and the first stock
    record of the same wood type loses the sold quantity, floored at zero. */
module SalesApi {
  import opened Common
  import opened Tables
  import opened Sorting
  import opened StockApi

  datatype Vente = Vente(
    woodType: string, quantity: int, unitPrice: int, total: int, unite: Option<string>, date: int)

  datatype SaleRequest = SaleRequest(
    woodType: Option<string>, quantity: Option<int>, unitPrice: Option<int>, unite: Option<string>)

  /** The two stores a sale touches. */
  datatype Shop = Shop(sales: Table<Vente>, stock: Table<Stock>)

  predicate SaleValid(req: SaleRequest) {
    Given(req.woodType) && GivenNum(req.quantity) && GivenNum(req.unitPrice)
  }

  /** The stock record after a sale: the quantity less the amount sold,
      floored at 0, with the total re-derived from the record's own unit
      price. */
  function Decrement(s: Stock, sold: int): (r: Stock)
    ensures r.quantity >= 0
    ensures s.quantity - sold >= 0 ==> r.quantity == s.quantity - sold
    ensures s.quantity - sold < 0 ==> r.quantity == 0
    ensures r.total == r.quantity * s.unitPrice
    ensures r.woodType == s.woodType && r.unitPrice == s.unitPrice && r.date == s.date
  {
    var q := s.quantity - sold;
    var kept := if q < 0 then 0 else q;
    s.(quantity := kept, total := kept * s.unitPrice)
  }

  /** POST: records the sale, then decrements the matching stock record. */
  function Post(shop: Shop, req: SaleRequest, now: int): (r: Outcome<Shop, Row<Vente>>)
    ensures !SaleValid(req) ==> r == Outcome(shop, Fail(400, Text(MISSING_FIELDS)))
    ensures SaleValid(req) ==>
      && r.reply.Ok? && r.reply.status == 200
      && r.store.sales.rows == shop.sales.rows + [r.reply.value]
      && r.store.sales.nextId == shop.sales.nextId + 1
      && r.reply.value.id == shop.sales.nextId
      && r.reply.value.data == Vente(req.woodType.value, req.quantity.value, req.unitPrice.value,
                                     req.quantity.value * req.unitPrice.value,
                                     if Given(req.unite) then req.unite else None, now)
    ensures SaleValid(req) && FindType(shop.stock, req.woodType.value).None? ==>
      r.store.stock == shop.stock
    ensures SaleValid(req) && FindType(shop.stock, req.woodType.value).Some? ==>
      var i := FindType(shop.stock, req.woodType.value).value;
      && |r.store.stock.rows| == |shop.stock.rows| && r.store.stock.nextId == shop.stock.nextId
      && r.store.stock.rows[i].id == shop.stock.rows[i].id
      && r.store.stock.rows[i].createdAt == shop.stock.rows[i].createdAt
      && r.store.stock.rows[i].data == Decrement(shop.stock.rows[i].data, req.quantity.value)
      && (forall j :: 0 <= j < |shop.stock.rows| && j != i ==> r.store.stock.rows[j] == shop.stock.rows[j])
  {
    if !SaleValid(req) then Outcome(shop, Fail(400, Text(MISSING_FIELDS)))
    else
      var q := req.quantity.value;
      var p := req.unitPrice.value;
      var unite := if Given(req.unite) then req.unite else None;
      var sales := Insert(shop.sales, now, Vente(req.woodType.value, q, p, q * p, unite, now));
      var stock :=
        match FindType(shop.stock, req.woodType.value)
        case None => shop.stock
        case Some(i) => SetData(shop.stock, i, Decrement(shop.stock.rows[i].data, q));
      Outcome(Shop(sales, stock), Ok(200, Last(sales)))
  }

  /** GET: all sales, newest `createdAt` first. */
  function Get(t: Table<Vente>): (r: seq<Row<Vente>>)
    ensures SortedDescBy(r, CreatedAt)
    ensures multiset(r) == multiset(t.rows)
  {
    SortDescBy(t.rows, CreatedAt)
  }

  ghost predicate QuantitiesNonNegative(t: Table<Stock>) {
    forall i :: 0 <= i < |t.rows| ==> t.rows[i].data.quantity >= 0
  }

  /** A sale never drives a stock quantity negative, keeps every stock total
      equal to quantity × unit price, and leaves types and prices alone. */
  lemma SaleKeepsStockInvariants(shop: Shop, req: SaleRequest, now: int)
    requires QuantitiesNonNegative(shop.stock)
    requires TotalsConsistent(shop.stock)
    ensures QuantitiesNonNegative(Post(shop, req, now).store.stock)
    ensures TotalsConsistent(Post(shop, req, now).store.stock)
    ensures TypesUnique(shop.stock) ==> TypesUnique(Post(shop, req, now).store.stock)
    ensures forall i :: 0 <= i < |shop.stock.rows| ==>
      && Post(shop, req, now).store.stock.rows[i].data.woodType == shop.stock.rows[i].data.woodType
      && Post(shop, req, now).store.stock.rows[i].data.unitPrice == shop.stock.rows[i].data.unitPrice
  {
  }
}
