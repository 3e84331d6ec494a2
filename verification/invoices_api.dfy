/** The invoices route (`/invoices/api`): GET and POST only. POST takes one
    product line at the top level of the body, numbers the invoice from the
    clock and fills in the payment mode. */
module InvoicesApi {
  import opened Common
  import opened Tables
  import opened Sorting

  datatype Facture = Facture(
    numeroFacture: string, clientNom: string, clientTelephone: string, typeDeProduit: string,
    quantity: int, price: int, total: int, modePaiement: string, date: int)

  datatype InvoiceRequest = InvoiceRequest(
    clientNom: Option<string>, clientTelephone: Option<string>, typeDeProduit: Option<string>,
    quantity: Option<int>, price: Option<int>, modePaiement: Option<string>)

  const ALL_REQUIRED := "Tous les champs sont requis"
  const DEFAULT_PAYMENT := "Espèces"
  const NUMBER_PREFIX := "FAC-"

  // ---------------------------------------------------------------------
  // The invoice number: the last six digits of the millisecond clock

  function Digit(n: int): (c: char)
    requires 0 <= n < 10
    ensures '0' <= c <= '9'
  {
    (('0' as int) + n) as char
  }

  /** The decimal digits of a non-negative integer, without leading zeros. */
  function Decimal(n: nat): (s: string)
    ensures |s| >= 1
  {
    if n < 10 then [Digit(n)] else Decimal(n / 10) + [Digit(n % 10)]
  }

  /** The last `k` characters of `s`, or all of a shorter string. */
  function SliceLast(s: string, k: nat): (r: string)
    ensures |r| == if |s| < k then |s| else k
    ensures r == s[|s| - |r|..]
  {
    if |s| <= k then s else s[|s| - k..]
  }

  function Pow10(k: nat): (r: nat)
    ensures r >= 1
  {
    if k == 0 then 1 else 10 * Pow10(k - 1)
  }

  /** The `k` lowest decimal digits of `n`, most significant first, with
      leading zeros. */
  function LowDigits(n: nat, k: nat): (s: string)
    ensures |s| == k
    ensures forall i :: 0 <= i < k ==> '0' <= s[i] <= '9'
  {
    if k == 0 then "" else LowDigits(n / 10, k - 1) + [Digit(n % 10)]
  }

  function InvoiceNumber(millis: nat): string {
    NUMBER_PREFIX + SliceLast(Decimal(millis), 6)
  }

  /** The last `k` characters of the decimal form of a number with at least
      `k` digits are its `k` lowest digits. */
  lemma {:induction false} DecimalEndsWithLowDigits(n: nat, k: nat)
    requires k >= 1 && n >= Pow10(k - 1)
    ensures |Decimal(n)| >= k
    ensures Decimal(n)[|Decimal(n)| - k..] == LowDigits(n, k)
  {
    if k == 1 {
      if n >= 10 {
        assert Decimal(n) == Decimal(n / 10) + [Digit(n % 10)];
      }
      assert LowDigits(n, 1) == LowDigits(n / 10, 0) + [Digit(n % 10)];
    } else {
      assert n >= 10;
      assert n / 10 >= Pow10(k - 2);
      DecimalEndsWithLowDigits(n / 10, k - 1);
      var s := Decimal(n / 10);
      assert Decimal(n) == s + [Digit(n % 10)];
      assert (s + [Digit(n % 10)])[|s| + 1 - k..] == s[|s| - (k - 1)..] + [Digit(n % 10)];
    }
  }

  /** For any clock reading with six digits or more the invoice number is
      "FAC-" and the six lowest digits of the millisecond timestamp. */
  lemma InvoiceNumberShape(millis: nat)
    requires millis >= 100000
    ensures InvoiceNumber(millis) == NUMBER_PREFIX + LowDigits(millis, 6)
    ensures |InvoiceNumber(millis)| == 10
  {
    assert Pow10(5) == 100000;
    DecimalEndsWithLowDigits(millis, 6);
  }

  // ---------------------------------------------------------------------
  // Handlers

  predicate PostValid(req: InvoiceRequest) {
    && Given(req.clientNom) && Given(req.clientTelephone) && Given(req.typeDeProduit)
    && GivenNum(req.quantity) && GivenNum(req.price)
  }

  /** POST: creates one invoice; `millis` is `Date.now()` and `today` the
      day the database stamps on it. */
  function Post(t: Table<Facture>, req: InvoiceRequest, millis: nat, today: int): (r: Outcome<Table<Facture>, Row<Facture>>)
    ensures !PostValid(req) ==> r == Outcome(t, Fail(400, Text(ALL_REQUIRED)))
    ensures PostValid(req) ==>
      && r.reply.Ok? && r.reply.status == 200
      && r.store.rows == t.rows + [r.reply.value]
      && r.store.nextId == t.nextId + 1
      && r.reply.value.id == t.nextId
    ensures PostValid(req) ==>
      var f := r.reply.value.data;
      && f.numeroFacture == InvoiceNumber(millis)
      && f.clientNom == req.clientNom.value && f.clientTelephone == req.clientTelephone.value
      && f.typeDeProduit == req.typeDeProduit.value
      && f.quantity == req.quantity.value && f.price == req.price.value
      && f.total == req.quantity.value * req.price.value
      && (Given(req.modePaiement) ==> f.modePaiement == req.modePaiement.value)
      && (!Given(req.modePaiement) ==> f.modePaiement == DEFAULT_PAYMENT)
  {
    if !PostValid(req) then Outcome(t, Fail(400, Text(ALL_REQUIRED)))
    else
      var q := req.quantity.value;
      var p := req.price.value;
      var f := Facture(InvoiceNumber(millis), req.clientNom.value, req.clientTelephone.value,
                       req.typeDeProduit.value, q, p, q * p, OrElse(req.modePaiement, DEFAULT_PAYMENT), today);
      var t' := Insert(t, today, f);
      Outcome(t', Ok(200, Last(t')))
  }

  function InvoiceDate(row: Row<Facture>): int {
    row.data.date
  }

  datatype InvoiceReply = Listing(rows: seq<Row<Facture>>) | Created(row: Row<Facture>)

  /** The route as a whole: GET lists newest first, POST creates, and the
      methods the file does not export are refused. */
  function Handle(t: Table<Facture>, verb: Method, req: InvoiceRequest, millis: nat, today: int): (r: Outcome<Table<Facture>, InvoiceReply>)
    ensures verb == GET ==> r.store == t && r.reply.Ok? && r.reply.value.Listing?
    ensures verb == GET ==> SortedDescBy(r.reply.value.rows, CreatedAt) && multiset(r.reply.value.rows) == multiset(t.rows)
    ensures verb == POST ==> r.store == Post(t, req, millis, today).store
    ensures verb == POST && !PostValid(req) ==> r.reply == Fail(400, Text(ALL_REQUIRED))
    ensures verb == POST && PostValid(req) ==>
      r.reply == Ok(200, Created(Row(t.nextId, today, Facture(
        InvoiceNumber(millis), req.clientNom.value, req.clientTelephone.value, req.typeDeProduit.value,
        req.quantity.value, req.price.value, req.quantity.value * req.price.value,
        OrElse(req.modePaiement, DEFAULT_PAYMENT), today))))
    ensures verb == PUT || verb == DELETE ==> r == Outcome(t, Fail(METHOD_NOT_ALLOWED, Text("")))
  {
    match verb
    case GET => Outcome(t, Ok(200, Listing(SortDescBy(t.rows, CreatedAt))))
    case POST =>
      var o := Post(t, req, millis, today);
      Outcome(o.store, match o.reply
        case Ok(s, row) => Ok(s, Created(row))
        case Fail(s, e) => Fail(s, e))
    case _ => Outcome(t, Fail(METHOD_NOT_ALLOWED, Text("")))
  }
}
