/** The spending comparison: for each category, the selected customer's
    amount minus the average of every other customer, with a flag that
    colours the bar when the difference is greater than zero. */
module Comparison {
  import opened Stats
  import opened Records

  /** One spending category of every row, in row order. */
  function Column(rows: seq<Customer>, k: nat): (col: seq<real>)
    requires k < NumCategories
    ensures |col| == |rows|
    ensures forall i :: 0 <= i < |rows| ==> col[i] == rows[i].spending[k]
  {
    seq(|rows|, i requires 0 <= i < |rows| => rows[i].spending[k])
  }

  datatype Diff = Diff(category: string, value: Value, positive: bool)

  /** "Greater than zero", under which NaN is never positive. */
  predicate IsPositive(v: Value)
  {
    v.Num? && v.x > 0.0
  }

  /** An amount minus the average of a column: NaN for an empty column. */
  function Gap(amount: real, col: seq<real>): (g: Value)
    ensures g == NaN <==> |col| == 0
    ensures g.Num? ==> Mean(col) == Num(amount - g.x)
    ensures IsPositive(g) <==> Mean(col).Num? && amount > Mean(col).x
  {
    var avg := Mean(col);
    if avg.Num? then Num(amount - avg.x) else NaN
  }

  /** The comparison bar of category `k`: the customer's amount minus the
      others' average, coloured when the customer spends more than it. */
  function DiffAt(cust: Customer, others: seq<Customer>, k: nat): (d: Diff)
    requires k < NumCategories
    ensures d.category == SpendingCols[k]
    ensures d.value == NaN <==> |others| == 0
    ensures d.value.Num? ==> Mean(Column(others, k)) == Num(cust.spending[k] - d.value.x)
    ensures d.positive <==> |others| > 0 && cust.spending[k] > Mean(Column(others, k)).x
  {
    var g := Gap(cust.spending[k], Column(others, k));
    Diff(SpendingCols[k], g, IsPositive(g))
  }

  /** The seventeen comparison bars, in SpendingCols order. */
  function Differences(cust: Customer, others: seq<Customer>): (ds: seq<Diff>)
    ensures |ds| == NumCategories
    ensures forall k :: 0 <= k < NumCategories ==> ds[k] == DiffAt(cust, others, k)
  {
    seq(NumCategories, k requires 0 <= k < NumCategories => DiffAt(cust, others, k))
  }

  /** A customer who spends nothing in a category where the others spend a
      positive total gets a negative, uncoloured bar. */
  lemma NoSpendingBelowAverage(cust: Customer, others: seq<Customer>, k: nat)
    requires k < NumCategories
    requires cust.spending[k] == 0.0
    requires Sum(Column(others, k)) > 0.0
    ensures Differences(cust, others)[k].value.Num?
    ensures Differences(cust, others)[k].value.x < 0.0
    ensures !Differences(cust, others)[k].positive
  {
  }

  /** Alone in the table, the customer has no others: every difference is
      NaN and no bar is coloured. */
  lemma NoOthersGivesNaN(cust: Customer)
    ensures forall k :: 0 <= k < NumCategories ==>
      Differences(cust, [])[k].value == NaN && !Differences(cust, [])[k].positive
  {
  }
}
