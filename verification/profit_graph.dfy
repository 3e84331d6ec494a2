/** The per-date profit curves: `fetchGraphData` of the profit page
    (app/benefice/page.tsx) and its copy `BeneficeGraph` on the manager
    dashboard. Both take the three listings the GET routes return, collect
    the distinct days, and subtract per day. */
module ProfitGraph {
  import opened Tables
  import opened Sorting
  import opened Sums
  import opened ProductionsApi
  import opened ChargesApi
  import opened ExpensesApi
  import opened Benefice

  datatype DayProfit = DayProfit(date: int, production: int, charges: int, depenses: int, benefice: int)

  /** A point of the manager's curve. */
  datatype DayPoint = DayPoint(date: int, benefice: int)

  ghost predicate HasDate(p: seq<Row<Production>>, c: seq<Row<Charge>>, x: seq<Row<Depense>>, d: int) {
    || (exists i :: 0 <= i < |p| && p[i].data.date == d)
    || (exists i :: 0 <= i < |c| && c[i].data.date == d)
    || (exists i :: 0 <= i < |x| && x[i].data.date == d)
  }

  /** The dates of the three listings, one after another. */
  function AllDates(p: seq<Row<Production>>, c: seq<Row<Charge>>, x: seq<Row<Depense>>): (r: seq<int>)
    ensures forall d :: d in r <==> HasDate(p, c, x, d)
  {
    var all := Keys(p, ProductionsApi.Date) + Keys(c, ChargesApi.Date) + Keys(x, ExpensesApi.Date);
    forall d | d in all ensures HasDate(p, c, x, d) {
      var k :| 0 <= k < |all| && all[k] == d;
      if k < |p| {
        assert p[k].data.date == d;
      } else if k < |p| + |c| {
        assert c[k - |p|].data.date == d;
      } else {
        assert x[k - |p| - |c|].data.date == d;
      }
    }
    forall d | HasDate(p, c, x, d) ensures d in all {
      if i :| 0 <= i < |p| && p[i].data.date == d {
        assert all[i] == d;
      } else if i :| 0 <= i < |c| && c[i].data.date == d {
        assert all[|p| + i] == d;
      } else {
        var i :| 0 <= i < |x| && x[i].data.date == d;
        assert all[|p| + |c| + i] == d;
      }
    }
    all
  }

  /** The distinct days of all three listings, ascending. */
  function GraphDates(p: seq<Row<Production>>, c: seq<Row<Charge>>, x: seq<Row<Depense>>): (r: seq<int>)
    ensures Increasing(r)
    ensures forall d :: d in r <==> HasDate(p, c, x, d)
  {
    DistinctSorted(AllDates(p, c, x))
  }

  function DayOf(d: int, p: seq<Row<Production>>, c: seq<Row<Charge>>, x: seq<Row<Depense>>): DayProfit {
    var prod := SumOn(p, ProductionsApi.Date, ProductionTotal, d);
    var chg := SumOn(c, ChargesApi.Date, ChargePrix, d);
    var dep := SumOn(x, ExpensesApi.Date, DepenseMontant, d);
    DayProfit(d, prod, chg, dep, prod - chg - dep)
  }

  function DaysFrom(ds: seq<int>, p: seq<Row<Production>>, c: seq<Row<Charge>>, x: seq<Row<Depense>>): (r: seq<DayProfit>)
    ensures |r| == |ds|
    ensures forall i :: 0 <= i < |ds| ==> r[i] == DayOf(ds[i], p, c, x)
  {
    if |ds| == 0 then [] else [DayOf(ds[0], p, c, x)] + DaysFrom(ds[1..], p, c, x)
  }

  /** The profit page's rows: one per distinct day, ascending, each with the
      day's production value, charges, expenses and their difference. */
  function ProfitByDate(p: seq<Row<Production>>, c: seq<Row<Charge>>, x: seq<Row<Depense>>): (r: seq<DayProfit>)
    ensures forall i, j :: 0 <= i < j < |r| ==> r[i].date < r[j].date
    ensures forall d :: (exists i :: 0 <= i < |r| && r[i].date == d) <==> HasDate(p, c, x, d)
    ensures forall i :: 0 <= i < |r| ==>
      && r[i].production == SumOn(p, ProductionsApi.Date, ProductionTotal, r[i].date)
      && r[i].charges == SumOn(c, ChargesApi.Date, ChargePrix, r[i].date)
      && r[i].depenses == SumOn(x, ExpensesApi.Date, DepenseMontant, r[i].date)
      && r[i].benefice == r[i].production - r[i].charges - r[i].depenses
  {
    var ds := GraphDates(p, c, x);
    var r := DaysFrom(ds, p, c, x);
    assert forall d :: (exists i :: 0 <= i < |r| && r[i].date == d) <==> d in ds by {
      forall d ensures (exists i :: 0 <= i < |r| && r[i].date == d) <==> d in ds {
        if d in ds {
          var i :| 0 <= i < |ds| && ds[i] == d;
          assert r[i].date == d;
        }
      }
    }
    r
  }

  /** The manager dashboard's copy of the computation: only the date and
      the difference are kept. */
  function ManagerGraph(p: seq<Row<Production>>, c: seq<Row<Charge>>, x: seq<Row<Depense>>): (r: seq<DayPoint>)
    ensures |r| == |GraphDates(p, c, x)|
    ensures forall i :: 0 <= i < |r| ==>
      && r[i].date == GraphDates(p, c, x)[i]
      && r[i].benefice == SumOn(p, ProductionsApi.Date, ProductionTotal, r[i].date)
                          - SumOn(c, ChargesApi.Date, ChargePrix, r[i].date)
                          - SumOn(x, ExpensesApi.Date, DepenseMontant, r[i].date)
  {
    var ds := GraphDates(p, c, x);
    seq(|ds|, i requires 0 <= i < |ds| =>
      DayPoint(ds[i], SumOn(p, ProductionsApi.Date, ProductionTotal, ds[i])
                      - SumOn(c, ChargesApi.Date, ChargePrix, ds[i])
                      - SumOn(x, ExpensesApi.Date, DepenseMontant, ds[i])))
  }

  /** The two pages draw the same curve. */
  lemma ManagerMatchesProfitPage(p: seq<Row<Production>>, c: seq<Row<Charge>>, x: seq<Row<Depense>>)
    ensures |ManagerGraph(p, c, x)| == |ProfitByDate(p, c, x)|
    ensures forall i :: 0 <= i < |ManagerGraph(p, c, x)| ==>
      ManagerGraph(p, c, x)[i] == DayPoint(ProfitByDate(p, c, x)[i].date, ProfitByDate(p, c, x)[i].benefice)
  {
  }

  function DayBenefice(row: DayProfit): int {
    row.benefice
  }

  lemma {:induction false} DaysAddUp(ds: seq<int>, p: seq<Row<Production>>, c: seq<Row<Charge>>, x: seq<Row<Depense>>)
    ensures SumBy(DaysFrom(ds, p, c, x), DayBenefice)
      == SumOver(ds, p, ProductionsApi.Date, ProductionTotal)
         - SumOver(ds, c, ChargesApi.Date, ChargePrix)
         - SumOver(ds, x, ExpensesApi.Date, DepenseMontant)
  {
    if |ds| > 0 {
      DaysAddUp(ds[1..], p, c, x);
      assert DaysFrom(ds, p, c, x)[1..] == DaysFrom(ds[1..], p, c, x);
    }
  }

  /** Summed over all days, the page's profit is the net profit that
      `updateBenefice` computes from the same listings. */
  lemma {:induction false} ProfitRowsAddUp(p: seq<Row<Production>>, c: seq<Row<Charge>>, x: seq<Row<Depense>>)
    ensures SumBy(ProfitByDate(p, c, x), DayBenefice) == Net(p, c, x)
  {
    var ds := GraphDates(p, c, x);
    DaysAddUp(ds, p, c, x);
    assert forall i :: 0 <= i < |p| ==> p[i].data.date in ds by {
      forall i | 0 <= i < |p| ensures p[i].data.date in ds {
        assert HasDate(p, c, x, p[i].data.date);
      }
    }
    assert forall i :: 0 <= i < |c| ==> c[i].data.date in ds by {
      forall i | 0 <= i < |c| ensures c[i].data.date in ds {
        assert HasDate(p, c, x, c[i].data.date);
      }
    }
    assert forall i :: 0 <= i < |x| ==> x[i].data.date in ds by {
      forall i | 0 <= i < |x| ensures x[i].data.date in ds {
        assert HasDate(p, c, x, x[i].data.date);
      }
    }
    SumOverKeys(ds, p, ProductionsApi.Date, ProductionTotal);
    SumOverKeys(ds, c, ChargesApi.Date, ChargePrix);
    SumOverKeys(ds, x, ExpensesApi.Date, DepenseMontant);
  }

  /** The page reads the three GET listings; whatever their order, its
      curve sums to the `beneficeNet` stored by `updateBenefice`. */
  lemma PageAgreesWithSummary(p: Table<Production>, c: Table<Charge>, x: Table<Depense>,
                              summary: Table<Benefice>, now: int)
    ensures SumBy(ProfitByDate(ProductionsApi.Get(p), ChargesApi.Get(c), ExpensesApi.Get(x)), DayBenefice)
      == UpdateBenefice(p, c, x, summary, now).beneficeNet
  {
    ProfitRowsAddUp(ProductionsApi.Get(p), ChargesApi.Get(c), ExpensesApi.Get(x));
    SumByPermutation(ProductionsApi.Get(p), p.rows, ProductionTotal);
    SumByPermutation(ChargesApi.Get(c), c.rows, ChargePrix);
    SumByPermutation(ExpensesApi.Get(x), x.rows, DepenseMontant);
  }
}
