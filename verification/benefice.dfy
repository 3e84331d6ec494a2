/** `updateBenefice` (lib/updateBenefice.js): net profit over the whole
    history, written into the single summary row of the `benefice` table. */
module Benefice {
  import opened Tables
  import opened Sums
  import opened ProductionsApi
  import opened ChargesApi
  import opened ExpensesApi

  datatype Benefice = Benefice(totalProduction: int, totalCharges: int, totalDepenses: int, beneficeNet: int)

  function ProductionTotal(row: Row<Production>): int {
    row.data.total
  }

  function ChargePrix(row: Row<Charge>): int {
    row.data.prix
  }

  function DepenseMontant(row: Row<Depense>): int {
    row.data.montant
  }

  /** Net profit: production value minus supplier charges minus expenses. */
  function Net(productions: seq<Row<Production>>, charges: seq<Row<Charge>>, depenses: seq<Row<Depense>>): int {
    SumBy(productions, ProductionTotal) - SumBy(charges, ChargePrix) - SumBy(depenses, DepenseMontant)
  }

  /** The three column sums (an empty table sums to 0) and the net. */
  function Totals(p: Table<Production>, c: Table<Charge>, x: Table<Depense>): (b: Benefice)
    ensures b.totalProduction == SumBy(p.rows, ProductionTotal)
    ensures b.totalCharges == SumBy(c.rows, ChargePrix)
    ensures b.totalDepenses == SumBy(x.rows, DepenseMontant)
    ensures b.beneficeNet == b.totalProduction - b.totalCharges - b.totalDepenses
    ensures b.beneficeNet == Net(p.rows, c.rows, x.rows)
    ensures |p.rows| == 0 ==> b.totalProduction == 0
    ensures |c.rows| == 0 ==> b.totalCharges == 0
    ensures |x.rows| == 0 ==> b.totalDepenses == 0
  {
    Benefice(SumBy(p.rows, ProductionTotal), SumBy(c.rows, ChargePrix), SumBy(x.rows, DepenseMontant),
             Net(p.rows, c.rows, x.rows))
  }

  /** The summary table after the call, and the returned net profit. The
      production, charge and expense tables are inputs only. */
  datatype Recalc = Recalc(summary: Table<Benefice>, beneficeNet: int)

  function UpdateBenefice(p: Table<Production>, c: Table<Charge>, x: Table<Depense>,
                          summary: Table<Benefice>, now: int): (r: Recalc)
    ensures r.beneficeNet == Net(p.rows, c.rows, x.rows)
    ensures |r.summary.rows| > 0 && r.summary.rows[0].data == Totals(p, c, x)
    ensures r.summary.rows[0].data.beneficeNet == r.beneficeNet
    ensures |summary.rows| == 0 ==>
      r.summary == Table([Row(summary.nextId, now, Totals(p, c, x))], summary.nextId + 1)
    ensures |summary.rows| > 0 ==>
      && |r.summary.rows| == |summary.rows| && r.summary.nextId == summary.nextId
      && r.summary.rows[0].id == summary.rows[0].id
      && r.summary.rows[0].createdAt == summary.rows[0].createdAt
      && (forall j :: 0 < j < |summary.rows| ==> r.summary.rows[j] == summary.rows[j])
  {
    var totals := Totals(p, c, x);
    if |summary.rows| == 0 then Recalc(Insert(summary, now, totals), totals.beneficeNet)
    else Recalc(SetData(summary, 0, totals), totals.beneficeNet)
  }

  /** A second recomputation over unchanged tables changes nothing. */
  lemma UpdateIsIdempotent(p: Table<Production>, c: Table<Charge>, x: Table<Depense>,
                           summary: Table<Benefice>, now: int, later: int)
    ensures
      var first := UpdateBenefice(p, c, x, summary, now);
      UpdateBenefice(p, c, x, first.summary, later) == first
  {
    var first := UpdateBenefice(p, c, x, summary, now);
    var rows := first.summary.rows;
    assert rows[0 := Row(rows[0].id, rows[0].createdAt, Totals(p, c, x))] == rows;
  }
}
