/** The productions route (`/productions/api`): sawn output per wood type,
    with `total = quantity × unitPrice` kept on every write. */
module ProductionsApi {
  import opened Common
  import opened Tables
  import opened Sorting

  datatype Production = Production(typeBois: string, quantity: int, unitPrice: int, total: int, date: int)

  datatype ProductionRequest = ProductionRequest(
    id: Option<int>, typeBois: Option<string>, quantity: Option<int>, unitPrice: Option<int>)

  const POST_MISSING := "Champs manquants : typeBois, quantity ou unitPrice"
  const PUT_MISSING := "Champs manquants : id, typeBois, quantity ou unitPrice"
  const DELETE_MISSING := "ID manquant pour la suppression"
  const DELETED := "Production supprimée avec succès"

  predicate PostValid(req: ProductionRequest) {
    Given(req.typeBois) && GivenNum(req.quantity) && GivenNum(req.unitPrice)
  }

  predicate PutValid(req: ProductionRequest) {
    GivenNum(req.id) && PostValid(req)
  }

  /** POST: appends one production dated `now`, answered with 201. */
  function Post(t: Table<Production>, req: ProductionRequest, now: int): (r: Outcome<Table<Production>, Row<Production>>)
    ensures !PostValid(req) ==> r == Outcome(t, Fail(400, Text(POST_MISSING)))
    ensures PostValid(req) ==>
      && r.reply.Ok? && r.reply.status == 201
      && r.store.rows == t.rows + [r.reply.value]
      && r.store.nextId == t.nextId + 1
      && r.reply.value.id == t.nextId
      && r.reply.value.data == Production(req.typeBois.value, req.quantity.value, req.unitPrice.value,
                                          req.quantity.value * req.unitPrice.value, now)
  {
    if !PostValid(req) then Outcome(t, Fail(400, Text(POST_MISSING)))
    else
      var q := req.quantity.value;
      var p := req.unitPrice.value;
      var t' := Insert(t, now, Production(req.typeBois.value, q, p, q * p, now));
      Outcome(t', Ok(201, Last(t')))
  }

  /** PUT: rewrites type, quantity, price and total of one production; its
      date is not part of the update. */
  function Put(t: Table<Production>, req: ProductionRequest): (r: Outcome<Table<Production>, Row<Production>>)
    ensures !PutValid(req) ==> r == Outcome(t, Fail(400, Text(PUT_MISSING)))
    ensures PutValid(req) && IndexOfId(t, req.id.value).None? ==> r == Outcome(t, Fail(500, ExceptionMessage))
    ensures PutValid(req) && IndexOfId(t, req.id.value).Some? ==>
      var i := IndexOfId(t, req.id.value).value;
      && |r.store.rows| == |t.rows| && r.store.nextId == t.nextId
      && r.reply == Ok(200, r.store.rows[i])
      && r.store.rows[i].id == req.id.value
      && r.store.rows[i].createdAt == t.rows[i].createdAt
      && r.store.rows[i].data == Production(req.typeBois.value, req.quantity.value, req.unitPrice.value,
                                            req.quantity.value * req.unitPrice.value, t.rows[i].data.date)
      && (forall j :: 0 <= j < |t.rows| && j != i ==> r.store.rows[j] == t.rows[j])
  {
    if !PutValid(req) then Outcome(t, Fail(400, Text(PUT_MISSING)))
    else match IndexOfId(t, req.id.value)
      case None => Outcome(t, Fail(500, ExceptionMessage))
      case Some(i) =>
        var q := req.quantity.value;
        var p := req.unitPrice.value;
        var before := t.rows[i].data;
        var t' := SetData(t, i, before.(typeBois := req.typeBois.value, quantity := q, unitPrice := p, total := q * p));
        Outcome(t', Ok(200, t'.rows[i]))
  }

  /** DELETE `?id=`: `None` stands for a missing or empty parameter. */
  function Delete(t: Table<Production>, id: Option<int>): (r: Outcome<Table<Production>, string>)
    ensures id.None? ==> r == Outcome(t, Fail(400, Text(DELETE_MISSING)))
    ensures id.Some? && DeleteById(t, id.value).None? ==> r == Outcome(t, Fail(500, ExceptionMessage))
    ensures id.Some? && DeleteById(t, id.value).Some? ==>
      r == Outcome(DeleteById(t, id.value).value, Ok(200, DELETED))
  {
    match id
    case None => Outcome(t, Fail(400, Text(DELETE_MISSING)))
    case Some(n) =>
      match DeleteById(t, n)
      case None => Outcome(t, Fail(500, ExceptionMessage))
      case Some(t') => Outcome(t', Ok(200, DELETED))
  }

  function Date(row: Row<Production>): int {
    row.data.date
  }

  /** GET: all productions, latest date first. */
  function Get(t: Table<Production>): (r: seq<Row<Production>>)
    ensures SortedDescBy(r, Date)
    ensures multiset(r) == multiset(t.rows)
  {
    SortDescBy(t.rows, Date)
  }

  ghost predicate TotalsConsistent(t: Table<Production>) {
    forall i :: 0 <= i < |t.rows| ==> t.rows[i].data.total == t.rows[i].data.quantity * t.rows[i].data.unitPrice
  }

  /** POST, PUT and DELETE keep `total = quantity × unitPrice` on every row,
      and PUT leaves every date where it was. */
  lemma WritesKeepTotals(t: Table<Production>, req: ProductionRequest, id: Option<int>, now: int)
    requires TotalsConsistent(t)
    ensures TotalsConsistent(Post(t, req, now).store)
    ensures TotalsConsistent(Put(t, req).store)
    ensures TotalsConsistent(Delete(t, id).store)
    ensures |Put(t, req).store.rows| == |t.rows|
    ensures forall i :: 0 <= i < |t.rows| ==> Put(t, req).store.rows[i].data.date == t.rows[i].data.date
  {
    var d := Delete(t, id).store;
    assert forall j :: 0 <= j < |d.rows| ==> d.rows[j] in t.rows;
  }
}
