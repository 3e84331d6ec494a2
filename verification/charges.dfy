/** The charges route (`/charges/api`): supplier deliveries of logs, each
    with a price that counts against profit. */
module ChargesApi {
  import opened Common
  import opened Tables
  import opened Sorting

  datatype Charge = Charge(date: int, fournisseur: string, quantite: int, poids: int, prix: int)

  /** POST body; a `None` date stands for a missing or empty date string. */
  datatype ChargeRequest = ChargeRequest(
    date: Option<int>, fournisseur: Option<string>, quantite: Option<int>, poids: Option<int>, prix: Option<int>)

  /** PUT body. Every field may be absent. A `None` date also stands for a
      string that is not a date. */
  datatype ChargeUpdate = ChargeUpdate(
    id: Option<int>, date: Option<int>, fournisseur: Option<string>,
    quantite: Option<int>, poids: Option<int>, prix: Option<int>)

  const POST_MISSING := "Champs manquants pour créer une charge"
  const MISSING_ID := "ID manquant"
  const UPDATE_FAILED := "Impossible de modifier la charge"
  const DELETE_FAILED := "Impossible de supprimer la charge"

  predicate PostValid(req: ChargeRequest) {
    && req.date.Some? && Given(req.fournisseur)
    && GivenNum(req.quantite) && GivenNum(req.poids) && GivenNum(req.prix)
  }

  /** POST: appends one charge with the five given columns, answered with 201. */
  function Post(t: Table<Charge>, req: ChargeRequest, now: int): (r: Outcome<Table<Charge>, Row<Charge>>)
    ensures !PostValid(req) ==> r == Outcome(t, Fail(400, Text(POST_MISSING)))
    ensures PostValid(req) ==>
      && r.reply.Ok? && r.reply.status == 201
      && r.store.rows == t.rows + [r.reply.value]
      && r.store.nextId == t.nextId + 1
      && r.reply.value.id == t.nextId
      && r.reply.value.data == Charge(req.date.value, req.fournisseur.value, req.quantite.value,
                                      req.poids.value, req.prix.value)
  {
    if !PostValid(req) then Outcome(t, Fail(400, Text(POST_MISSING)))
    else
      var t' := Insert(t, now, Charge(req.date.value, req.fournisseur.value, req.quantite.value,
                                      req.poids.value, req.prix.value));
      Outcome(t', Ok(201, Last(t')))
  }

  /** Whether the database accepts the PUT's columns: an absent or invalid
      date is an Invalid Date and an absent number is `NaN`, both refused.
      An absent supplier is `undefined`, which leaves that column alone. */
  predicate PutWritable(req: ChargeUpdate) {
    req.date.Some? && req.quantite.Some? && req.poids.Some? && req.prix.Some?
  }

  /** The charge after the PUT's columns are written over `prior`. */
  function Updated(prior: Charge, req: ChargeUpdate): (c: Charge)
    requires PutWritable(req)
    ensures c.date == req.date.value && c.quantite == req.quantite.value
    ensures c.poids == req.poids.value && c.prix == req.prix.value
    ensures req.fournisseur.Some? ==> c.fournisseur == req.fournisseur.value
    ensures req.fournisseur.None? ==> c.fournisseur == prior.fournisseur
  {
    Charge(req.date.value, req.fournisseur.GetOr(prior.fournisseur), req.quantite.value,
           req.poids.value, req.prix.value)
  }

  /** PUT: only the id is checked (zero and empty values are written as
      they are); a failed write, for an unknown id or a column the database
      refuses, is the 500 of the `catch`. */
  function Put(t: Table<Charge>, req: ChargeUpdate): (r: Outcome<Table<Charge>, Row<Charge>>)
    ensures !GivenNum(req.id) ==> r == Outcome(t, Fail(400, Text(MISSING_ID)))
    ensures GivenNum(req.id) && (IndexOfId(t, req.id.value).None? || !PutWritable(req)) ==>
      r == Outcome(t, Fail(500, Text(UPDATE_FAILED)))
    ensures GivenNum(req.id) && IndexOfId(t, req.id.value).Some? && PutWritable(req) ==>
      var i := IndexOfId(t, req.id.value).value;
      && |r.store.rows| == |t.rows| && r.store.nextId == t.nextId
      && r.reply == Ok(200, r.store.rows[i])
      && r.store.rows[i].id == req.id.value
      && r.store.rows[i].createdAt == t.rows[i].createdAt
      && r.store.rows[i].data == Updated(t.rows[i].data, req)
      && (forall j :: 0 <= j < |t.rows| && j != i ==> r.store.rows[j] == t.rows[j])
  {
    if !GivenNum(req.id) then Outcome(t, Fail(400, Text(MISSING_ID)))
    else match IndexOfId(t, req.id.value)
      case None => Outcome(t, Fail(500, Text(UPDATE_FAILED)))
      case Some(i) =>
        if !PutWritable(req) then Outcome(t, Fail(500, Text(UPDATE_FAILED)))
        else
          var t' := SetData(t, i, Updated(t.rows[i].data, req));
          Outcome(t', Ok(200, t'.rows[i]))
  }

  /** DELETE `?id=`: answers `{ success: true }`. */
  function Delete(t: Table<Charge>, id: Option<int>): (r: Outcome<Table<Charge>, bool>)
    ensures id.None? ==> r == Outcome(t, Fail(400, Text(MISSING_ID)))
    ensures id.Some? && DeleteById(t, id.value).None? ==> r == Outcome(t, Fail(500, Text(DELETE_FAILED)))
    ensures id.Some? && DeleteById(t, id.value).Some? ==>
      r == Outcome(DeleteById(t, id.value).value, Ok(200, true))
  {
    match id
    case None => Outcome(t, Fail(400, Text(MISSING_ID)))
    case Some(n) =>
      match DeleteById(t, n)
      case None => Outcome(t, Fail(500, Text(DELETE_FAILED)))
      case Some(t') => Outcome(t', Ok(200, true))
  }

  function Date(row: Row<Charge>): int {
    row.data.date
  }

  /** GET: all charges, latest date first. */
  function Get(t: Table<Charge>): (r: seq<Row<Charge>>)
    ensures SortedDescBy(r, Date)
    ensures multiset(r) == multiset(t.rows)
  {
    SortDescBy(t.rows, Date)
  }

  /** PUT accepts a record that POST would refuse: the zero price. */
  lemma PutSkipsFieldChecks(t: Table<Charge>, id: int, date: int)
    requires id != 0 && IndexOfId(t, id).Some?
    ensures !PostValid(ChargeRequest(Some(date), Some(""), Some(0), Some(0), Some(0)))
    ensures Put(t, ChargeUpdate(Some(id), Some(date), Some(""), Some(0), Some(0), Some(0))).reply.Ok?
    ensures Put(t, ChargeUpdate(Some(id), Some(date), Some(""), Some(0), Some(0), Some(0))).store.rows[IndexOfId(t, id).value].data
      == Charge(date, "", 0, 0, 0)
  {
  }

  /** One write request to the route. */
  datatype ChargeCall =
    | PostCall(req: ChargeRequest, now: int)
    | PutCall(upd: ChargeUpdate)
    | DeleteCall(id: Option<int>)

  function Apply(t: Table<Charge>, call: ChargeCall): Table<Charge> {
    match call
    case PostCall(req, now) => Post(t, req, now).store
    case PutCall(upd) => Put(t, upd).store
    case DeleteCall(id) => Delete(t, id).store
  }

  function ApplyAll(t: Table<Charge>, calls: seq<ChargeCall>): Table<Charge>
    decreases |calls|
  {
    if |calls| == 0 then t else ApplyAll(Apply(t, calls[0]), calls[1..])
  }

  /** Whatever writes arrive, the charges keep distinct positive ids below
      the id sequence, and the sequence never goes back. */
  lemma {:induction false} WritesKeepIdsUnique(t: Table<Charge>, calls: seq<ChargeCall>)
    requires Valid(t)
    ensures Valid(ApplyAll(t, calls))
    ensures ApplyAll(t, calls).nextId >= t.nextId
    decreases |calls|
  {
    if |calls| > 0 {
      var t1 := Apply(t, calls[0]);
      assert Valid(t1) && t1.nextId >= t.nextId;
      WritesKeepIdsUnique(t1, calls[1..]);
    }
  }

  /** A charge that POST stores is in the next GET listing. */
  lemma PostThenGetLists(t: Table<Charge>, req: ChargeRequest, now: int)
    requires PostValid(req)
    ensures Post(t, req, now).reply.value in Get(Post(t, req, now).store)
  {
    var o := Post(t, req, now);
    assert o.reply.value in multiset(o.store.rows);
  }
}
