/** The expenses route (`/expenses/api`): an append-only journal of
    operating expenses. */
module ExpensesApi {
  import opened Common
  import opened Tables
  import opened Sorting

  datatype Depense = Depense(date: int, categorie: string, montant: int)

  datatype ExpenseRequest = ExpenseRequest(date: Option<int>, categorie: Option<string>, montant: Option<int>)

  const POST_MISSING := "Champs manquants : date, catégorie ou montant."

  predicate PostValid(req: ExpenseRequest) {
    req.date.Some? && Given(req.categorie) && GivenNum(req.montant)
  }

  /** POST: appends one expense, answered with 201. */
  function Post(t: Table<Depense>, req: ExpenseRequest, now: int): (r: Outcome<Table<Depense>, Row<Depense>>)
    ensures !PostValid(req) ==> r == Outcome(t, Fail(400, Text(POST_MISSING)))
    ensures PostValid(req) ==>
      && r.reply.Ok? && r.reply.status == 201
      && r.store.rows == t.rows + [r.reply.value]
      && r.store.nextId == t.nextId + 1
      && r.reply.value.id == t.nextId
      && r.reply.value.data == Depense(req.date.value, req.categorie.value, req.montant.value)
  {
    if !PostValid(req) then Outcome(t, Fail(400, Text(POST_MISSING)))
    else
      var t' := Insert(t, now, Depense(req.date.value, req.categorie.value, req.montant.value));
      Outcome(t', Ok(201, Last(t')))
  }

  function Date(row: Row<Depense>): int {
    row.data.date
  }

  /** GET: all expenses, latest date first. */
  function Get(t: Table<Depense>): (r: seq<Row<Depense>>)
    ensures SortedDescBy(r, Date)
    ensures multiset(r) == multiset(t.rows)
  {
    SortDescBy(t.rows, Date)
  }

  /** One request to the route: the file exports only GET and POST. */
  datatype ExpenseCall = ExpenseCall(verb: Method, req: ExpenseRequest, now: int)

  datatype ExpenseReply = Listing(rows: seq<Row<Depense>>) | Created(row: Row<Depense>)

  function Handle(t: Table<Depense>, call: ExpenseCall): (r: Outcome<Table<Depense>, ExpenseReply>)
    ensures call.verb == GET ==> r.store == t && r.reply == Ok(200, Listing(Get(t)))
    ensures call.verb == POST ==> r.store == Post(t, call.req, call.now).store
    ensures call.verb == POST && !PostValid(call.req) ==> r.reply == Fail(400, Text(POST_MISSING))
    ensures call.verb == POST && PostValid(call.req) ==>
      r.reply == Ok(201, Created(Row(t.nextId, call.now,
        Depense(call.req.date.value, call.req.categorie.value, call.req.montant.value))))
    ensures call.verb == PUT || call.verb == DELETE ==>
      r == Outcome(t, Fail(METHOD_NOT_ALLOWED, Text("")))
  {
    match call.verb
    case GET => Outcome(t, Ok(200, Listing(Get(t))))
    case POST =>
      var o := Post(t, call.req, call.now);
      Outcome(o.store, match o.reply
        case Ok(s, row) => Ok(s, Created(row))
        case Fail(s, e) => Fail(s, e))
    case _ => Outcome(t, Fail(METHOD_NOT_ALLOWED, Text("")))
  }

  function HandleAll(t: Table<Depense>, calls: seq<ExpenseCall>): Table<Depense>
    decreases |calls|
  {
    if |calls| == 0 then t else HandleAll(Handle(t, calls[0]).store, calls[1..])
  }

  /** Whatever requests arrive, the journal only grows: earlier expenses
      stay, unchanged and in place. */
  lemma {:induction false} JournalOnlyGrows(t: Table<Depense>, calls: seq<ExpenseCall>)
    ensures t.rows <= HandleAll(t, calls).rows
    ensures HandleAll(t, calls).nextId >= t.nextId
    decreases |calls|
  {
    if |calls| > 0 {
      var t1 := Handle(t, calls[0]).store;
      assert t.rows <= t1.rows && t1.nextId >= t.nextId;
      JournalOnlyGrows(t1, calls[1..]);
    }
  }
}
