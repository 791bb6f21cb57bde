/** The downloadable analysis table: five named headline figures followed by
    one row per spending category holding its comparison difference, all
    under a uniform (label, value) layout. */
module Export {
  import opened Wrappers
  import opened Stats
  import opened Records
  import opened Advice
  import opened Comparison

  datatype ExportRow = ExportRow(indicator: string, value: Value)

  /** Labels of the summary section, in the order the figures appear. */
  const SummaryLabels: seq<string> := ["묶여있는 돈", "월수령연금", "월지출", "여유자금", "펀드 평가손익"]

  function Labels(rows: seq<ExportRow>): (ls: seq<string>)
    ensures |ls| == |rows|
    ensures forall i :: 0 <= i < |rows| ==> ls[i] == rows[i].indicator
  {
    seq(|rows|, i requires 0 <= i < |rows| => rows[i].indicator)
  }

  /** The summary section followed by the comparison section. */
  function BuildExport(m: Metrics, diffs: seq<Diff>): (rows: seq<ExportRow>)
    ensures |rows| == |SummaryLabels| + |diffs|
    ensures Labels(rows)[..|SummaryLabels|] == SummaryLabels
    ensures forall k :: 0 <= k < |diffs| ==>
      rows[|SummaryLabels| + k] == ExportRow(diffs[k].category, diffs[k].value)
  {
    var h := Headline(m);
    var summary := seq(5, k requires 0 <= k < 5 => ExportRow(SummaryLabels[k], Num(h[k])));
    var comparison := seq(|diffs|, k requires 0 <= k < |diffs| => ExportRow(diffs[k].category, diffs[k].value));
    var rows := summary + comparison;
    assert Labels(rows)[..5] == SummaryLabels;
    rows
  }

  /** Reads the summary section of an export back into the figures it
      reports; none when the rows are not laid out as a summary. */
  function ReadSummary(rows: seq<ExportRow>): (m: Option<Metrics>)
  {
    if |rows| < 5 || Labels(rows[..5]) != SummaryLabels then None
    else if !(rows[0].value.Num? && rows[1].value.Num? && rows[2].value.Num?
              && rows[3].value.Num? && rows[4].value.Num?) then None
    else
      Some(Metrics(
        monthlyPension := rows[1].value.x,
        spendingTotal := rows[2].value.x,
        locked := rows[0].value.x,
        fundProfitLoss := rows[4].value.x,
        disposable := rows[3].value.x))
  }

  /** Reads the comparison section of an export back as (category,
      difference) pairs. */
  function ReadComparison(rows: seq<ExportRow>): (pairs: seq<(string, Value)>)
  {
    if |rows| < 5 then []
    else seq(|rows| - 5, k requires 0 <= k < |rows| - 5 => (rows[5 + k].indicator, rows[5 + k].value))
  }

  /** Reading an export back recovers the figures and the differences it
      was built from. */
  lemma ExportRoundTrip(m: Metrics, diffs: seq<Diff>)
    ensures ReadSummary(BuildExport(m, diffs)) == Some(m)
    ensures ReadComparison(BuildExport(m, diffs)) ==
      seq(|diffs|, k requires 0 <= k < |diffs| => (diffs[k].category, diffs[k].value))
  {
  }

  /** The export for a customer has exactly 22 rows: the five summary labels
      in fixed order, then the seventeen categories in SpendingCols order. */
  lemma ExportLayout(m: Metrics, cust: Customer, others: seq<Customer>)
    ensures |BuildExport(m, Differences(cust, others))| == 22
    ensures Labels(BuildExport(m, Differences(cust, others))) == SummaryLabels + SpendingCols
  {
  }

  /** The download offered for a customer: 22 rows under the fixed labels,
      reading back to the customer's figures and, row for row, to the
      comparison against the others. */
  function Download(m: Metrics, cust: Customer, others: seq<Customer>): (rows: seq<ExportRow>)
    ensures |rows| == 22
    ensures Labels(rows) == SummaryLabels + SpendingCols
    ensures ReadSummary(rows) == Some(m)
    ensures ReadComparison(rows) ==
      seq(NumCategories, k requires 0 <= k < NumCategories =>
        (Differences(cust, others)[k].category, Differences(cust, others)[k].value))
  {
    var ds := Differences(cust, others);
    ExportLayout(m, cust, others);
    ExportRoundTrip(m, ds);
    BuildExport(m, ds)
  }
}
