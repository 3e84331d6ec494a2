# Sawmill ledger — a Dafny model

This project models the business core of the sawmill management app. The app
keeps six ledgers: timber stock, sales, sawn production, supplier charges,
operating expenses and invoices. It also has user accounts and a single net
profit summary row. The model covers:

- the HTTP route handlers that read and write these ledgers;
- the report and dashboard aggregations built on them;
- the profit page's per-day profit curve (and its copy on the manager
  dashboard);
- the invoice form's client-side line list and submission.

Every database table is a `Tables.Table<T>`: a sequence of rows, each with
an autoincrement `id`, a `createdAt` stamp and the record itself, plus the
next id to hand out. Each handler is a pure function from the tables and a
request to the new tables and a reply (`Common.Outcome`). The reply is
either a success with its status and body, or an error with its status and
message (`Common.Reply`).

Request bodies are modelled as `Option` fields, and JavaScript truthiness
is written out:

- a string is "given" when present and non-empty;
- a number is "given" when present and non-zero.

Dates are day numbers counted from 1970-01-01, with a concrete Gregorian
calendar for year and month and Monday-first weeks (`Calendar`). Money and
quantities are integers. Library calls become function parameters: the
password hash, the hash check, token signing and the clock.

Quirks of the code are modelled as written and stated as lemmas:

- the weekly report always answers a 100 % change;
- the monthly report adds up only the first 28 rows of the month;
- a stock PUT can give two records the same wood type;
- nothing the invoice page submits is accepted by the invoices route.

## Model

| member | source | states |
|---|---|---|
| StockApi.Post | app/stock/api/route.ts:20-70 | missing type, quantity or price gives 400 with nothing stored; otherwise an upsert keyed by wood type: an existing record of that type keeps its id and creation stamp and gets the new quantity, price and total = quantity × price; a new type is appended under the next id; no other record changes |
| StockApi.Put | app/stock/api/route.ts:73-104 | 400 without id, type, quantity or price; 500 "Erreur serveur" with the store unchanged when the id does not exist; otherwise exactly that record is rewritten (type included) and returned, every other record is untouched |
| StockApi.Delete | app/stock/api/route.ts:107-127 | 400 "ID manquant" without an id; 500 for an unknown id; otherwise the store loses exactly that record and the reply carries it |
| StockApi.Get | app/stock/api/route.ts:5-17 | the listing is a permutation of the store, newest `createdAt` first |
| StockApi.PostKeepsTypesUnique | app/stock/api/route.ts:34-60 | POST never creates a second record of a wood type already in stock |
| StockApi.PostsKeepTypesUnique | app/stock/api/route.ts:34-60 | any run of POST requests keeps the wood types unique |
| StockApi.PutCanDuplicateType | app/stock/api/route.ts:86-95 | PUT does not look at the other records' types: renaming "Iroko" to "Chêne" leaves two "Chêne" records |
| StockApi.WritesKeepTotals | app/stock/api/route.ts:31-57 | POST, PUT and DELETE keep total = quantity × unit price on every record |
| SalesApi.Decrement | app/sales/api/route.ts:52-59 | the new stock quantity is the old one minus the sale, floored at 0; the total is re-derived from the record's own unit price; type, price and date are kept |
| SalesApi.Post | app/sales/api/route.ts:23-74 | 400 "Champs manquants" with nothing stored when type, quantity or price is missing; otherwise the sale is appended with total = quantity × price and `unite` only when given, and the first stock record of that type is decremented (the stock is untouched when there is none) |
| SalesApi.Get | app/sales/api/route.ts:7-17 | a permutation of the sales, newest `createdAt` first |
| SalesApi.SaleKeepsStockInvariants | app/sales/api/route.ts:47-61 | a sale never makes a stock quantity negative, keeps stock totals consistent and unique types unique, and never changes a record's type or price |
| ProductionsApi.Post | app/productions/api/route.ts:22-44 | 400 with the route's message when type, quantity or price is missing; otherwise 201 and one row appended with total = quantity × price |
| ProductionsApi.Put | app/productions/api/route.ts:49-71 | 400 without id and fields; 500 for an unknown id; otherwise exactly that production gets the new type, quantity, price and total, and keeps its date |
| ProductionsApi.Delete | app/productions/api/route.ts:76-94 | 400 without an id; 500 for an unknown id; otherwise the row is removed and the reply is "Production supprimée avec succès" |
| ProductionsApi.Get | app/productions/api/route.ts:7-17 | a permutation of the productions, latest date first |
| ProductionsApi.WritesKeepTotals | app/productions/api/route.ts:29-62 | every write keeps total = quantity × unit price; PUT never moves a date |
| ChargesApi.Post | app/charges/api/route.ts:26-55 | 400 unless date, supplier, count, weight and price are all given; otherwise 201 and the charge appended |
| ChargesApi.Put | app/charges/api/route.ts:60-87 | only the id is checked (400 "ID manquant"); 500 "Impossible de modifier la charge" with nothing changed for an unknown id, an absent or invalid date, or an absent count, weight or price; otherwise that charge gets the given date and numbers, the given supplier (kept when absent) and keeps its id and stamp, and no other charge changes |
| ChargesApi.Delete | app/charges/api/route.ts:92-113 | 400 without an id; 500 "Impossible de supprimer la charge" for an unknown id; otherwise the row is removed and the reply is success |
| ChargesApi.Get | app/charges/api/route.ts:7-21 | a permutation of the charges, latest date first |
| ChargesApi.PutSkipsFieldChecks | app/charges/api/route.ts:29-35 | PUT stores a zero-price charge with an empty supplier that POST refuses |
| ChargesApi.WritesKeepIdsUnique | app/charges/api/route.ts:26-113 | any sequence of POST, PUT and DELETE requests keeps the charges' ids distinct, positive and below the id sequence, which never goes back |
| ChargesApi.PostThenGetLists | app/charges/api/route.ts:7-55 | a charge stored by POST appears in the next GET listing |
| ExpensesApi.Post | app/expenses/api/route.ts:8-33 | 400 unless date, category and amount are given; otherwise 201 and the expense appended |
| ExpensesApi.Get | app/expenses/api/route.ts:36-46 | a permutation of the expenses, latest date first |
| ExpensesApi.Handle | app/expenses/api/route.ts:8-46 | GET lists without writing; POST answers 400 when a field is missing, otherwise 201 with the new expense under the next id; PUT and DELETE are refused with 405 and nothing changes |
| ExpensesApi.JournalOnlyGrows | app/expenses/api/route.ts:8-46 | over any sequence of requests the old expenses stay a prefix of the journal and the id counter never goes back |
| Benefice.Totals | lib/updateBenefice.js:5-20 | the three aggregates are the column sums (0 for an empty table) and the net is production − charges − expenses |
| Benefice.UpdateBenefice | lib/updateBenefice.js:3-47 | returns the net profit of the whole history; an empty summary table gets one row with the totals, otherwise the first row is overwritten in place, keeping its id, and the other rows stay |
| Benefice.UpdateIsIdempotent | lib/updateBenefice.js:23-44 | recomputing over unchanged tables gives back the same summary and net |
| ProfitGraph.GraphDates | app/benefice/page.tsx:80-88 | strictly increasing, and a day is in it exactly when some production, charge or expense falls on it |
| ProfitGraph.ProfitByDate | app/benefice/page.tsx:66-108 | one row per distinct day in ascending order; each row's figures are that day's production value, charges and expenses, and the profit is their difference |
| ProfitGraph.ManagerGraph | app/dashboard/manager/page.tsx:180-192 | the manager's curve: per distinct day, the day's production minus charges minus expenses |
| ProfitGraph.ManagerMatchesProfitPage | app/dashboard/manager/page.tsx:180-192 | the manager dashboard draws point for point the profit page's curve |
| ProfitGraph.ProfitRowsAddUp | app/benefice/page.tsx:89-108 | the per-day profits add up to the net profit of the three listings |
| ProfitGraph.PageAgreesWithSummary | lib/updateBenefice.js:17-20 | the curve drawn from the three GET listings sums to the `beneficeNet` that `updateBenefice` stores |
| Reports.GetAmount | app/reports/api/route.ts:93-94 | the first present column among total, montant, prix and unitPrice; 0 when none is present; a zero value is kept |
| Reports.Source | app/reports/api/route.ts:63-84 | a table is chosen exactly for the six type names, each mapped to its own table's columns |
| Reports.ParsePeriod | app/reports/api/route.ts:21 | "daily", "weekly", "monthly" and "yearly" each select their own layout; a missing or empty period means weekly; any other name gives no layout |
| Reports.Where | app/reports/api/route.ts:29-88 | a row is fetched exactly when its date is in the period's range around the date |
| Reports.WhereKeepsCounts | app/reports/api/route.ts:29-88 | the fetch keeps duplicates: each row of the period occurs as often as it is stored, and a row outside the period never |
| Reports.DailyOf | app/reports/api/route.ts:99-103 | one item per row with its date and amount, and the total of all amounts |
| Reports.PercentChange | app/reports/api/route.ts:138-139 | 100 when the previous total is 0, otherwise the relative change × 100 |
| Reports.WeeklyOf | app/reports/api/route.ts:106-145 | seven buckets Monday to Sunday of the date's week, each with the current and the previous rows' sums for that very day; the totals are the bucket sums |
| Reports.MonthlyOf | app/reports/api/route.ts:148-157 | "Semaine 1" to "Semaine 4" hold the sums of the rows at positions 0-6, 7-13, 14-20 and 21-27 of the month, clamped to the rows there are |
| Reports.YearlyOf | app/reports/api/route.ts:160-171 | twelve buckets January to December, each the sum of the rows of that calendar month |
| Reports.PeriodRows | app/reports/api/route.ts:87-90 | the fetched rows are the period's rows in ascending date order |
| Reports.Layout | app/reports/api/route.ts:97-171 | each period's body is built from the period's rows in date order: daily items, weekday buckets (with the previous week's rows), four "weeks" or twelve months; an unknown period gives an empty body |
| Reports.Get | app/reports/api/route.ts:17-178 | 400 "Type invalide" exactly when the type is not one of the six table names; otherwise 200 with the layout of the requested period (weekly when none) around the requested date (today when none) |
| Reports.WeeklyPrevIsAlwaysZero | app/reports/api/route.ts:113-139 | the previous week's rows never share a day with this week, so every `prev` is 0, `totalPrev` is 0 and the change is always 100 |
| Reports.WeeklyCurrentAddsUp | app/reports/api/route.ts:106-128 | the weekday buckets hold every fetched row: `totalCurrent` is the sum of the week's rows |
| Reports.WeeklyLayout | app/reports/api/route.ts:106-145 | the weekly layout has `totalPrev` 0 and a change of 100, and its current total is the sum of the week's rows |
| Reports.WeeklyReportOfGet | app/reports/api/route.ts:17-145 | for any of the six tables, `period=weekly` answers 200 with `totalPrev` 0, a change of 100 and the week's sum as its current total |
| Reports.MonthlyCountsFirst28Rows | app/reports/api/route.ts:148-157 | the monthly total is the sum of the first 28 rows; rows past the 28th are left out of it |
| Reports.YearlyAddsUp | app/reports/api/route.ts:160-171 | the twelve month buckets partition the rows: the yearly total is the sum of all fetched rows |
| Dashboard.Get | app/api/dashboard/route.ts:6-33 | each list holds the five newest rows of its table, and the four totals are sums over those lists (no production total) |
| Dashboard.SmallTablesAddUp | app/api/dashboard/route.ts:16-19 | while a table has at most five rows, its dashboard total is the total of the whole table |
| Sorting.Latest | app/api/dashboard/route.ts:8-14 | at most n rows, newest first, taken from the table, with no left-out row newer than a kept one |
| InvoicesApi.Post | app/invoices/api/route.ts:21-51 | 400 "Tous les champs sont requis" unless client name, phone, product, quantity and price are given; otherwise one invoice appended with total = quantity × price, payment defaulting to "Espèces" and the clock-based number |
| InvoicesApi.InvoiceNumberShape | app/invoices/api/route.ts:30 | for a clock of six digits or more the number is "FAC-" followed by the six lowest digits of the millisecond time |
| InvoicesApi.Handle | app/invoices/api/route.ts:7-51 | GET lists newest first without writing; POST answers 400 when a field is missing, otherwise 200 with the new invoice (next id, clock-based number, total = quantity × price, payment defaulting to "Espèces"); PUT and DELETE are refused with 405 |
| InvoicesPage.AddProduct | app/invoices/page.tsx:68-76 | an incomplete product form changes nothing; otherwise the line with total = quantity × price is appended and the product form cleared |
| InvoicesPage.SpliceOne | app/invoices/page.tsx:79-83 | `splice(index, 1)`: removes the element at the index, counting from the end when negative, and nothing past the end |
| InvoicesPage.RemoveProduct | app/invoices/page.tsx:79-83 | only the line list changes: the indexed line goes and the others keep their order |
| InvoicesPage.AddThenRemoveLast | app/invoices/page.tsx:68-83 | removing the line just added gives back the previous list |
| InvoicesPage.EditsKeepLinesConsistent | app/invoices/page.tsx:68-83 | adding and removing lines keeps total = quantity × price on every line |
| InvoicesPage.HandleSubmit | app/invoices/page.tsx:86-119 | blocked without client name, phone or a line; otherwise sends the lines and their total (the sum of quantity × price while every line is consistent), as PUT with the id when editing and POST otherwise; the form is reset only when the request went through |
| InvoicesPage.PageSubmissionsAreRefused | app/invoices/page.tsx:95-108 | what the page sends is never stored: a new invoice fails the route's check with 400 and an edit meets a route without PUT |
| Auth.NormalizeRole | app/api/auth/register/route.ts:37 | the upper-cased role when one is given, "EMPLOYEE" otherwise |
| Auth.Register | app/api/auth/register/route.ts:7-51 | 400 when name, email or password is missing; 400 when the email is taken; otherwise 201 and one user appended with the hashed password and the normalised role, answered without the password |
| Auth.RegisterKeepsEmailsUnique | app/api/auth/register/route.ts:19-26 | registration never lets two accounts share an email |
| Auth.Login | app/api/auth/login/route.ts:10-44 | 404 for an unknown email, 401 for a wrong password, 500 when email or password is absent; otherwise 200 with the user and a strict, http-only cookie "token" valid seven days holding the signed id and role |
| Auth.RegisterThenLogin | app/api/auth/login/route.ts:14-34 | a freshly registered account logs in at once, as itself and with its role |

## Left out

- Database access, `$disconnect`, connection failures and every `catch` branch whose exception cannot arise in the model. The exceptions that are kept, each as the route's 500 reply: a write to a missing id; a charge PUT whose date or numbers the database refuses; a login without an email (the lookup throws) or without a password (the hash check throws).
- The bodies of bcrypt, jsonwebtoken and `Date.now()`: hashing, verification, signing and the clock are parameters. Salt rounds and token expiry enforcement are not modelled.
- `date-fns`, time zones and the locale date keys: dates are whole days, the "day" of a row is its day number, and the report's day and month names are the English names `format` gives.
- ProfitGraph.GraphDates: the profit page orders its days by parsing back the locale date strings. In a day/month/year locale such as French, those strings do not parse, or parse with day and month swapped, so the app's order is not reliably by date. The ascending day order the model proves is the evidently intended one, not what such a browser shows.
- Floating point: `parseFloat`, `Number` and the JSON numbers are integers here. NaN from unparsable input (apart from the charge PUT above) and the string "0" (truthy in JavaScript) are not modelled.
- Non-numeric `id` parameters: a parameter is either absent or a number; `parseInt` of garbage is left out.
- The report's fetch for an unknown period selects rows that are never used; the model selects none.
- Concurrency: a sale's two writes are not atomic in the app. The model applies them together.
- PDF generation, the remaining pages and components, and app/benefice/api/route.js. The invoice page's `handleEdit` and `handleDelete` are also left out: they only refill the form or call the route.
- ChargesApi.Put: an absent count, weight or price is `NaN`; the model takes the database to refuse it with the 500 reply. The schema that would settle this is not part of this model.
- Auth.UpperChar: upper-cases ASCII letters only, not the full Unicode mapping of `toUpperCase`.
- Sorting: rows that tie on the sort key keep their input order. The database gives no such promise, and the contracts do not rely on it.
- The `createdAt` and `date` column defaults are the `now` parameter of each write.
- The cookie's `secure` flag is the `production` field of the environment parameter.
