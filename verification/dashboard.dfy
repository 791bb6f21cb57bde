/** One render of the dashboard for a chosen customer name: the error when
    the table has no name column or the name matches no row, otherwise
    every figure the page shows and the export it offers. */
module Dashboard {
  import opened Wrappers
  import opened Stats
  import opened Records
  import opened Selection
  import opened Advice
  import opened Gauge
  import opened Chart
  import opened Comparison
  import opened Export

  datatype Error = MissingNameColumn | NoMatchingRow

  datatype View = View(
    customer: string,
    kpis: seq<int>,
    advice: Recommendation,
    dial: Dial,
    chart: seq<Bar>,
    comparison: seq<Diff>,
    download: seq<ExportRow>,
    fileName: string)

  /** The disposable-funds column of the derived table. */
  function DisposableColumn(ms: seq<Metrics>): (col: seq<real>)
    ensures |col| == |ms|
    ensures forall i :: 0 <= i < |ms| ==> col[i] == ms[i].disposable
  {
    seq(|ms|, i requires 0 <= i < |ms| => ms[i].disposable)
  }

  /** The page for row `i`, the row the chosen name resolved to: its KPI
      tiles and recommendation come from the row's derived figures, the
      gauge places the row within the whole population, the chart is the
      row's spending largest first, the comparison is against every row of
      another name, and the download reads back to the row's figures and
      to that comparison under the 22 fixed labels. */
  function ViewOf(t: Table, chosen: string, i: nat): (v: View)
    requires i < |t.rows|
    ensures v.kpis == Kpis(Derive(t)[i])
    ensures v.advice == Recommend(Derive(t)[i].disposable)
    ensures v.advice.GrowSavings? <==> v.dial.value >= 0.0
    ensures v.dial == BuildDial(DisposableColumn(Derive(t)), Derive(t)[i].disposable)
    ensures NonIncreasing(v.chart) && multiset(v.chart) == multiset(Bars(t.rows[i]))
    ensures v.comparison == Differences(t.rows[i], Others(t.rows, chosen))
    ensures |v.download| == 22
    ensures Labels(v.download) == SummaryLabels + SpendingCols
    ensures ReadSummary(v.download) == Some(Derive(t)[i])
    ensures ReadComparison(v.download) ==
      seq(NumCategories, k requires 0 <= k < NumCategories => (v.comparison[k].category, v.comparison[k].value))
    ensures v.fileName == chosen + "_분석.csv"
  {
    var ms := Derive(t);
    var m := ms[i];
    var col := DisposableColumn(ms);
    assert col[i] == m.disposable;
    View(
      customer := chosen,
      kpis := Kpis(m),
      advice := Recommend(m.disposable),
      dial := BuildDial(col, m.disposable),
      chart := SpendingChart(t.rows[i]),
      comparison := Differences(t.rows[i], Others(t.rows, chosen)),
      download := Download(m, t.rows[i], Others(t.rows, chosen)),
      fileName := chosen + "_분석.csv")
  }

  /** The gauge on a page marks the row's disposable funds against the
      population mean, on an axis holding every row's disposable funds,
      with steps that meet at the mean. */
  lemma PageGauge(t: Table, chosen: string, i: nat)
    requires i < |t.rows|
    ensures var d := ViewOf(t, chosen, i).dial;
      && d.value == Derive(t)[i].disposable
      && Mean(DisposableColumn(Derive(t))) == Num(d.reference)
      && d.delta == d.value - d.reference
      && InBand(d.axis, d.value)
      && (forall j :: 0 <= j < |t.rows| ==> InBand(d.axis, Derive(t)[j].disposable))
      && d.steps == [Band(d.axis.lo, d.reference), Band(d.reference, d.axis.hi)]
  {
  }

  function Render(t: Table, chosen: string): (r: Result<View, Error>)
    ensures !t.hasName ==> r == Failure(MissingNameColumn)
    ensures t.hasName ==> (r.Failure? <==> chosen !in Names(t.rows))
    ensures t.hasName ==> (r == Failure(NoMatchingRow) <==> chosen !in Names(t.rows))
    ensures r.Success? ==> exists i :: IsFirstMatch(t.rows, chosen, i) && r.value == ViewOf(t, chosen, i)
  {
    if !t.hasName then Failure(MissingNameColumn)
    else
      match Select(t.rows, chosen)
      case None => Failure(NoMatchingRow)
      case Some(i) => Success(ViewOf(t, chosen, i))
  }

  /** Every name the page offers renders a page. */
  lemma OfferedNamesRender(t: Table, chosen: string)
    requires t.hasName
    requires chosen in Choices(t.rows)
    ensures Render(t, chosen).Success?
  {
  }

  /** The customer with no spending at all: every category is zero. */
  const NoSpending: Spending := seq(NumCategories, _ => 0.0)

  /** Two customers, "A" and "B", with annual pensions of 1200 and 2400, no
      spending, and no income column. */
  const Alice: Customer := Customer("A", 1200.0, 0.0, 0.0, 0.0, 0.0, NoSpending)
  const Bob: Customer := Customer("B", 2400.0, 0.0, 0.0, 0.0, 0.0, NoSpending)
  const TwoCustomers: Table := Table(true, false, [Alice, Bob])

  /** In the two-customer table, A's monthly pension and disposable funds are
      100 and B's disposable funds are 200. */
  lemma TwoCustomerFigures()
    ensures Derive(TwoCustomers)[0].monthlyPension == 100.0
    ensures Derive(TwoCustomers)[0].disposable == 100.0
    ensures Derive(TwoCustomers)[1].disposable == 200.0
  {
    SumOfZeros(NoSpending);
  }

  /** A's comparison against B alone: both spend nothing, so every
      difference is 0 and uncoloured. */
  lemma TwoCustomerDifferences()
    ensures forall k :: 0 <= k < NumCategories ==>
      Differences(Alice, [Bob])[k].value == Num(0.0) && !Differences(Alice, [Bob])[k].positive
  {
    forall k | 0 <= k < NumCategories
      ensures Differences(Alice, [Bob])[k].value == Num(0.0)
    {
      assert Column([Bob], k) == [0.0];
      MeanWithinRange([0.0]);
    }
  }

  /** Choosing "A" in the two-customer table renders the savings
      recommendation for a surplus of 100, and each of A's comparison
      differences is 0 and uncoloured. */
  lemma TwoCustomerPage()
    ensures Render(TwoCustomers, "A").Success?
    ensures Render(TwoCustomers, "A").value.advice == GrowSavings(100)
    ensures forall k :: 0 <= k < NumCategories ==>
      && Render(TwoCustomers, "A").value.comparison[k].value == Num(0.0)
      && !Render(TwoCustomers, "A").value.comparison[k].positive
  {
    TwoCustomerFigures();
    TwoCustomerDifferences();
    assert Select(TwoCustomers.rows, "A") == Some(0);
    assert Others([Bob], "A") == [Bob];
    assert Others(TwoCustomers.rows, "A") == [Bob];
    var v := ViewOf(TwoCustomers, "A", 0);
    assert Render(TwoCustomers, "A") == Success(v);
  }
}
