/** The stock route (`/stock/api`): one record per wood type with a quantity,
    a unit price and the derived total. */
module StockApi {
  import opened Common
  import opened Tables
  import opened Sorting

  datatype Stock = Stock(woodType: string, quantity: int, unitPrice: int, total: int, date: int)

  /** The JSON body of POST and PUT (`type` is written `woodType` here). */
  datatype StockRequest = StockRequest(
    id: Option<int>, woodType: Option<string>, quantity: Option<int>, unitPrice: Option<int>)

  const MISSING_FIELDS := "Champs manquants"
  const MISSING_ID := "ID manquant"
  const SERVER_ERROR := "Erreur serveur"

  /** The stock record as written from validated inputs, dated `now`. */
  function Record(woodType: string, quantity: int, unitPrice: int, now: int): (s: Stock)
    ensures s.total == s.quantity * s.unitPrice
  {
    Stock(woodType, quantity, unitPrice, quantity * unitPrice, now)
  }

  function OfType(ty: string): Row<Stock> -> bool {
    (row: Row<Stock>) => row.data.woodType == ty
  }

  /** The first stock record of wood type `type`, if any. */
  function FindType(t: Table<Stock>, ty: string): (r: Option<nat>)
    ensures r.Some? ==> r.value < |t.rows| && t.rows[r.value].data.woodType == ty
    ensures r.Some? ==> forall j :: 0 <= j < r.value ==> t.rows[j].data.woodType != ty
    ensures r.None? <==> forall j :: 0 <= j < |t.rows| ==> t.rows[j].data.woodType != ty
  {
    var r := FirstIndex(t.rows, OfType(ty));
    assert r.Some? ==> OfType(ty)(t.rows[r.value]);
    assert r.Some? ==> forall j :: 0 <= j < r.value ==> !OfType(ty)(t.rows[j]);
    assert r.None? ==> forall j :: 0 <= j < |t.rows| ==> !OfType(ty)(t.rows[j]);
    r
  }

  predicate PostValid(req: StockRequest) {
    Given(req.woodType) && GivenNum(req.quantity) && GivenNum(req.unitPrice)
  }

  predicate PutValid(req: StockRequest) {
    GivenNum(req.id) && PostValid(req)
  }

  /** POST: an upsert keyed by wood type that replaces quantity and price. */
  function Post(t: Table<Stock>, req: StockRequest, now: int): (r: Outcome<Table<Stock>, Row<Stock>>)
    ensures !PostValid(req) ==> r == Outcome(t, Fail(400, Text(MISSING_FIELDS)))
    ensures PostValid(req) ==> r.reply.Ok? && r.reply.status == 200
    ensures PostValid(req) ==>
      r.reply.value.data == Stock(req.woodType.value, req.quantity.value, req.unitPrice.value,
                                  req.quantity.value * req.unitPrice.value, now)
    ensures PostValid(req) && FindType(t, req.woodType.value).Some? ==>
      var i := FindType(t, req.woodType.value).value;
      && r.store.nextId == t.nextId
      && |r.store.rows| == |t.rows|
      && r.store.rows[i] == r.reply.value
      && r.reply.value.id == t.rows[i].id
      && r.reply.value.createdAt == t.rows[i].createdAt
      && (forall j :: 0 <= j < |t.rows| && j != i ==> r.store.rows[j] == t.rows[j])
    ensures PostValid(req) && FindType(t, req.woodType.value).None? ==>
      && r.store.rows == t.rows + [r.reply.value]
      && r.reply.value.id == t.nextId
      && r.store.nextId == t.nextId + 1
  {
    if !PostValid(req) then Outcome(t, Fail(400, Text(MISSING_FIELDS)))
    else
      var rec := Record(req.woodType.value, req.quantity.value, req.unitPrice.value, now);
      match FindType(t, rec.woodType)
      case Some(i) =>
        var t' := SetData(t, i, rec);
        Outcome(t', Ok(200, t'.rows[i]))
      case None =>
        var t' := Insert(t, now, rec);
        Outcome(t', Ok(200, Last(t')))
  }

  /** PUT: rewrites the record with the given id, type included. */
  function Put(t: Table<Stock>, req: StockRequest, now: int): (r: Outcome<Table<Stock>, Row<Stock>>)
    ensures !PutValid(req) ==> r == Outcome(t, Fail(400, Text(MISSING_FIELDS)))
    ensures PutValid(req) && IndexOfId(t, req.id.value).None? ==>
      r == Outcome(t, Fail(500, Text(SERVER_ERROR)))
    ensures PutValid(req) && IndexOfId(t, req.id.value).Some? ==>
      var i := IndexOfId(t, req.id.value).value;
      && |r.store.rows| == |t.rows| && r.store.nextId == t.nextId
      && r.reply == Ok(200, r.store.rows[i])
      && r.store.rows[i].id == req.id.value
      && r.store.rows[i].createdAt == t.rows[i].createdAt
      && r.store.rows[i].data
        == Stock(req.woodType.value, req.quantity.value, req.unitPrice.value,
                 req.quantity.value * req.unitPrice.value, now)
      && (forall j :: 0 <= j < |t.rows| && j != i ==> r.store.rows[j] == t.rows[j])
  {
    if !PutValid(req) then Outcome(t, Fail(400, Text(MISSING_FIELDS)))
    else match IndexOfId(t, req.id.value)
      case None => Outcome(t, Fail(500, Text(SERVER_ERROR)))
      case Some(i) =>
        var t' := SetData(t, i, Record(req.woodType.value, req.quantity.value, req.unitPrice.value, now));
        Outcome(t', Ok(200, t'.rows[i]))
  }

  /** DELETE `?id=`: `None` stands for a missing or empty parameter. */
  function Delete(t: Table<Stock>, id: Option<int>): (r: Outcome<Table<Stock>, Row<Stock>>)
    ensures id.None? ==> r == Outcome(t, Fail(400, Text(MISSING_ID)))
    ensures id.Some? && IndexOfId(t, id.value).None? ==> r == Outcome(t, Fail(500, Text(SERVER_ERROR)))
    ensures id.Some? && IndexOfId(t, id.value).Some? ==>
      && r.reply == Ok(200, t.rows[IndexOfId(t, id.value).value])
      && Some(r.store) == DeleteById(t, id.value)
  {
    match id
    case None => Outcome(t, Fail(400, Text(MISSING_ID)))
    case Some(n) =>
      match IndexOfId(t, n)
      case None => Outcome(t, Fail(500, Text(SERVER_ERROR)))
      case Some(i) => Outcome(DeleteById(t, n).value, Ok(200, t.rows[i]))
  }

  /** GET: the whole store, newest `createdAt` first. */
  function Get(t: Table<Stock>): (r: seq<Row<Stock>>)
    ensures SortedDescBy(r, CreatedAt)
    ensures multiset(r) == multiset(t.rows)
  {
    SortDescBy(t.rows, CreatedAt)
  }

  // ---------------------------------------------------------------------
  // Invariants of the store

  /** No two records share a wood type. */
  ghost predicate TypesUnique(t: Table<Stock>) {
    forall i, j :: 0 <= i < j < |t.rows| ==> t.rows[i].data.woodType != t.rows[j].data.woodType
  }

  /** Every record's total is its quantity times its unit price. */
  ghost predicate TotalsConsistent(t: Table<Stock>) {
    forall i :: 0 <= i < |t.rows| ==> t.rows[i].data.total == t.rows[i].data.quantity * t.rows[i].data.unitPrice
  }

  lemma PostKeepsTypesUnique(t: Table<Stock>, req: StockRequest, now: int)
    requires TypesUnique(t)
    ensures TypesUnique(Post(t, req, now).store)
  {
    if PostValid(req) {
      var t' := Post(t, req, now).store;
      var ty := req.woodType.value;
      match FindType(t, ty)
      case Some(i) =>
        assert t'.rows[i].data.woodType == t.rows[i].data.woodType;
        assert forall j :: 0 <= j < |t'.rows| ==> t'.rows[j].data.woodType == t.rows[j].data.woodType;
      case None =>
        assert forall j :: 0 <= j < |t.rows| ==> t'.rows[j] == t.rows[j];
    }
  }

  /** A run of POST requests, in order. */
  function PostAll(t: Table<Stock>, reqs: seq<StockRequest>, now: int): Table<Stock>
    decreases |reqs|
  {
    if |reqs| == 0 then t else PostAll(Post(t, reqs[0], now).store, reqs[1..], now)
  }

  /** Through POST alone the store never holds two records of one type. */
  lemma {:induction false} PostsKeepTypesUnique(t: Table<Stock>, reqs: seq<StockRequest>, now: int)
    requires TypesUnique(t)
    ensures TypesUnique(PostAll(t, reqs, now))
    decreases |reqs|
  {
    if |reqs| > 0 {
      PostKeepsTypesUnique(t, reqs[0], now);
      PostsKeepTypesUnique(Post(t, reqs[0], now).store, reqs[1..], now);
    }
  }

  /** PUT renames a record without looking at the other records' types, so
      it can create a second record of an existing type. */
  lemma PutCanDuplicateType()
    ensures
      var t := Table([Row(1, 0, Record("Chêne", 10, 5, 0)), Row(2, 0, Record("Iroko", 4, 7, 0))], 3);
      var req := StockRequest(Some(2), Some("Chêne"), Some(3), Some(5));
      TypesUnique(t) && !TypesUnique(Put(t, req, 1).store)
  {
    var t := Table([Row(1, 0, Record("Chêne", 10, 5, 0)), Row(2, 0, Record("Iroko", 4, 7, 0))], 3);
    var req := StockRequest(Some(2), Some("Chêne"), Some(3), Some(5));
    assert IndexOfId(t, 2) == Some(1);
    var t' := Put(t, req, 1).store;
    assert t'.rows[0].data.woodType == t'.rows[1].data.woodType;
  }

  lemma DeleteKeepsTotals(t: Table<Stock>, id: Option<int>)
    requires TotalsConsistent(t)
    ensures TotalsConsistent(Delete(t, id).store)
  {
    var d := Delete(t, id).store;
    assert forall row :: row in d.rows ==> row in t.rows;
    assert forall j :: 0 <= j < |d.rows| ==> d.rows[j] in t.rows;
  }

  /** POST, PUT and DELETE only ever store `total = quantity × unitPrice`. */
  lemma WritesKeepTotals(t: Table<Stock>, req: StockRequest, id: Option<int>, now: int)
    requires TotalsConsistent(t)
    ensures TotalsConsistent(Post(t, req, now).store)
    ensures TotalsConsistent(Put(t, req, now).store)
    ensures TotalsConsistent(Delete(t, id).store)
  {
    DeleteKeepsTotals(t, id);
  }
}
