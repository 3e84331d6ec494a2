/** The invoice form of app/invoices/page.tsx: a client form, a product form
    and the list of product lines being assembled, and what the page sends
    to `/invoices/api` on submit. */
module InvoicesPage {
  import opened Common
  import opened Tables
  import opened Sums
  import opened InvoicesApi

  datatype Product = Product(typeDeProduit: string, quantity: int, price: int, total: int)

  /** The product inputs are text boxes: `None` is an empty box, and any
      typed number, 0 included, is a non-empty string. */
  datatype ProductForm = ProductForm(typeDeProduit: string, quantity: Option<int>, price: Option<int>)

  datatype ClientForm = ClientForm(
    clientNom: string, clientTelephone: string, clientAdresse: string, modePaiement: string, editId: int)

  datatype Page = Page(form: ClientForm, productForm: ProductForm, products: seq<Product>)

  const EMPTY_PRODUCT := ProductForm("", None, None)
  const EMPTY_FORM := ClientForm("", "", "", DEFAULT_PAYMENT, 0)

  predicate ProductComplete(pf: ProductForm) {
    pf.typeDeProduit != "" && pf.quantity.Some? && pf.price.Some?
  }

  /** `addProduct`: an incomplete product form only raises an alert. */
  function AddProduct(pg: Page): (r: Page)
    ensures !ProductComplete(pg.productForm) ==> r == pg
    ensures ProductComplete(pg.productForm) ==>
      var pf := pg.productForm;
      && r.products == pg.products + [Product(pf.typeDeProduit, pf.quantity.value, pf.price.value,
                                              pf.quantity.value * pf.price.value)]
      && r.productForm == EMPTY_PRODUCT
      && r.form == pg.form
  {
    var pf := pg.productForm;
    if !ProductComplete(pf) then pg
    else
      var line := Product(pf.typeDeProduit, pf.quantity.value, pf.price.value, pf.quantity.value * pf.price.value);
      pg.(products := pg.products + [line], productForm := EMPTY_PRODUCT)
  }

  /** Removes the one element at `index` from a copy of the list: a
      negative index counts from the end (clamped to the start), and an
      index past the end removes nothing. */
  function SpliceOne<T>(s: seq<T>, index: int): (r: seq<T>)
    ensures 0 <= index < |s| ==> r == s[..index] + s[index + 1..]
    ensures index >= |s| ==> r == s
    ensures -|s| <= index < 0 ==> r == s[..|s| + index] + s[|s| + index + 1..]
    ensures index < -|s| && |s| > 0 ==> r == s[1..]
  {
    var start := if index < 0 then (if |s| + index < 0 then 0 else |s| + index) else index;
    if start >= |s| then s else s[..start] + s[start + 1..]
  }

  /** `removeProduct(index)`: only the line list changes. */
  function RemoveProduct(pg: Page, index: int): (r: Page)
    ensures r.form == pg.form && r.productForm == pg.productForm
    ensures 0 <= index < |pg.products| ==>
      && |r.products| == |pg.products| - 1
      && (forall k :: 0 <= k < index ==> r.products[k] == pg.products[k])
      && (forall k :: index <= k < |r.products| ==> r.products[k] == pg.products[k + 1])
    ensures index >= |pg.products| ==> r == pg
  {
    pg.(products := SpliceOne(pg.products, index))
  }

  /** Removing the line just added gives back the list as it was. */
  lemma AddThenRemoveLast(pg: Page)
    ensures RemoveProduct(AddProduct(pg), |pg.products|).products == pg.products
  {
    var added := AddProduct(pg).products;
    if ProductComplete(pg.productForm) {
      assert added[..|pg.products|] == pg.products;
    }
  }

  function LineTotal(p: Product): int {
    p.total
  }

  function LineAmount(p: Product): int {
    p.quantity * p.price
  }

  ghost predicate LinesConsistent(lines: seq<Product>) {
    forall i :: 0 <= i < |lines| ==> lines[i].total == lines[i].quantity * lines[i].price
  }

  /** Lines built by `addProduct` carry `total = quantity × price`, and
      removing a line keeps that. */
  lemma EditsKeepLinesConsistent(pg: Page, index: int)
    requires LinesConsistent(pg.products)
    ensures LinesConsistent(AddProduct(pg).products)
    ensures LinesConsistent(RemoveProduct(pg, index).products)
  {
    var r := RemoveProduct(pg, index).products;
    assert forall k :: 0 <= k < |r| ==> r[k] in pg.products by {
      var s := pg.products;
      var start := if index < 0 then (if |s| + index < 0 then 0 else |s| + index) else index;
      if start < |s| {
        forall k | 0 <= k < |r| ensures r[k] in s {
          assert r[k] == s[if k < start then k else k + 1];
        }
      }
    }
  }

  /** When every line's total is its quantity × price, the stored totals
      add up to the sum of the products. */
  lemma {:induction false} ConsistentTotals(lines: seq<Product>)
    ensures LinesConsistent(lines) ==> SumBy(lines, LineTotal) == SumBy(lines, LineAmount)
  {
    if |lines| > 0 {
      ConsistentTotals(lines[1..]);
    }
  }

  // ---------------------------------------------------------------------
  // handleSubmit

  /** The JSON the page sends: the client form spread, the lines, the total,
      and on an edit the invoice id. */
  datatype InvoiceBody = InvoiceBody(
    clientNom: string, clientTelephone: string, clientAdresse: string, modePaiement: string, editId: int,
    products: seq<Product>, total: int, id: Option<int>)

  datatype Submission = Submission(verb: Method, body: InvoiceBody)

  datatype SubmitResult = SubmitResult(page: Page, sent: Option<Submission>)

  predicate SubmitBlocked(pg: Page) {
    pg.form.clientNom == "" || pg.form.clientTelephone == "" || |pg.products| == 0
  }

  /** `handleSubmit`; `delivered` says whether `fetch` resolved (the form is
      reset then) or threw (an alert, and the form is kept). */
  function HandleSubmit(pg: Page, delivered: bool): (r: SubmitResult)
    ensures SubmitBlocked(pg) ==> r == SubmitResult(pg, None)
    ensures !SubmitBlocked(pg) ==>
      && r.sent.Some?
      && r.sent.value.body.products == pg.products
      && r.sent.value.body.total == SumBy(pg.products, LineTotal)
      && r.sent.value.body.clientNom == pg.form.clientNom
      && r.sent.value.body.clientTelephone == pg.form.clientTelephone
      && (pg.form.editId != 0 ==> r.sent.value.verb == PUT && r.sent.value.body.id == Some(pg.form.editId))
      && (pg.form.editId == 0 ==> r.sent.value.verb == POST && r.sent.value.body.id == None)
    ensures !SubmitBlocked(pg) && LinesConsistent(pg.products) ==>
      r.sent.value.body.total == SumBy(pg.products, LineAmount)
    ensures !SubmitBlocked(pg) && delivered ==> r.page == Page(EMPTY_FORM, pg.productForm, [])
    ensures !SubmitBlocked(pg) && !delivered ==> r.page == pg
  {
    if SubmitBlocked(pg) then SubmitResult(pg, None)
    else
      var f := pg.form;
      var total := SumBy(pg.products, LineTotal);
      ConsistentTotals(pg.products);
      var id := if f.editId != 0 then Some(f.editId) else None;
      var body := InvoiceBody(f.clientNom, f.clientTelephone, f.clientAdresse, f.modePaiement, f.editId,
                              pg.products, total, id);
      var verb := if f.editId != 0 then PUT else POST;
      var after := if delivered then Page(EMPTY_FORM, pg.productForm, []) else pg;
      SubmitResult(after, Some(Submission(verb, body)))
  }

  /** How the route reads the page's JSON: the client fields are there, but
      there is no top-level `typeDeProduit`, `quantity` or `price`. */
  function AsApiRequest(b: InvoiceBody): (req: InvoiceRequest)
    ensures req.typeDeProduit.None? && req.quantity.None? && req.price.None?
    ensures req.clientNom == Some(b.clientNom) && req.clientTelephone == Some(b.clientTelephone)
  {
    InvoiceRequest(Some(b.clientNom), Some(b.clientTelephone), None, None, None, Some(b.modePaiement))
  }

  /** Nothing the page submits is stored: a new invoice fails the route's
      validation with 400, and an edit meets a route without PUT. */
  lemma PageSubmissionsAreRefused(pg: Page, delivered: bool, t: Table<Facture>, millis: nat, today: int)
    requires HandleSubmit(pg, delivered).sent.Some?
    ensures
      var s := HandleSubmit(pg, delivered).sent.value;
      var o := Handle(t, s.verb, AsApiRequest(s.body), millis, today);
      && o.store == t
      && (s.verb == POST ==> o.reply == Fail(400, Text(ALL_REQUIRED)))
      && (s.verb == PUT ==> o.reply == Fail(METHOD_NOT_ALLOWED, Text("")))
  {
  }
}
