/** The dashboard summary (`/api/dashboard`): the five latest rows of five
    tables and the sum of the amounts of four of them. */
module Dashboard {
  import opened Tables
  import opened Sorting
  import opened Sums
  import opened StockApi
  import opened SalesApi
  import opened ProductionsApi
  import opened ChargesApi
  import opened ExpensesApi
  import opened Benefice

  /** `take: 5` with `orderBy: { createdAt: "desc" }`. */
  const RECENT := 5

  /** The totals are over the five rows shown, not over the table. There
      is no production total. */
  datatype Resume = Resume(totalStock: int, totalVentes: int, totalDepenses: int, totalCharges: int)

  datatype Summary = Summary(
    stocks: seq<Row<Stock>>, ventes: seq<Row<Vente>>, productions: seq<Row<Production>>,
    depenses: seq<Row<Depense>>, charges: seq<Row<Charge>>, resume: Resume)

  function StockTotal(r: Row<Stock>): int { r.data.total }
  function VenteTotal(r: Row<Vente>): int { r.data.total }

  /** GET: each list holds the newest rows of its table, and each total is
      the sum over that list. */
  function Get(stocks: Table<Stock>, ventes: Table<Vente>, productions: Table<Production>,
               depenses: Table<Depense>, charges: Table<Charge>): (r: Summary)
    ensures r.stocks == Latest(stocks.rows, RECENT)
    ensures r.ventes == Latest(ventes.rows, RECENT)
    ensures r.productions == Latest(productions.rows, RECENT)
    ensures r.depenses == Latest(depenses.rows, RECENT)
    ensures r.charges == Latest(charges.rows, RECENT)
    ensures r.resume == Resume(SumBy(r.stocks, StockTotal), SumBy(r.ventes, VenteTotal),
                               SumBy(r.depenses, DepenseMontant), SumBy(r.charges, ChargePrix))
  {
    var s := Latest(stocks.rows, RECENT);
    var v := Latest(ventes.rows, RECENT);
    var p := Latest(productions.rows, RECENT);
    var d := Latest(depenses.rows, RECENT);
    var c := Latest(charges.rows, RECENT);
    Summary(s, v, p, d, c, Resume(SumBy(s, StockTotal), SumBy(v, VenteTotal), SumBy(d, DepenseMontant), SumBy(c, ChargePrix)))
  }

  /** While a table has at most five rows its dashboard total is the total
      of the whole table; past that only the five newest count. */
  lemma SmallTablesAddUp(stocks: Table<Stock>, ventes: Table<Vente>, productions: Table<Production>,
                         depenses: Table<Depense>, charges: Table<Charge>)
    ensures
      var r := Get(stocks, ventes, productions, depenses, charges).resume;
      && (|stocks.rows| <= RECENT ==> r.totalStock == SumBy(stocks.rows, StockTotal))
      && (|ventes.rows| <= RECENT ==> r.totalVentes == SumBy(ventes.rows, VenteTotal))
      && (|depenses.rows| <= RECENT ==> r.totalDepenses == SumBy(depenses.rows, DepenseMontant))
      && (|charges.rows| <= RECENT ==> r.totalCharges == SumBy(charges.rows, ChargePrix))
  {
    if |stocks.rows| <= RECENT {
      SumByPermutation(Latest(stocks.rows, RECENT), stocks.rows, StockTotal);
    }
    if |ventes.rows| <= RECENT {
      SumByPermutation(Latest(ventes.rows, RECENT), ventes.rows, VenteTotal);
    }
    if |depenses.rows| <= RECENT {
      SumByPermutation(Latest(depenses.rows, RECENT), depenses.rows, DepenseMontant);
    }
    if |charges.rows| <= RECENT {
      SumByPermutation(Latest(charges.rows, RECENT), charges.rows, ChargePrix);
    }
  }
}
