/** The per-category spending chart of the selected customer: the
    seventeen labelled amounts ordered from largest to smallest. */
module Chart {
  import opened Records

  datatype Bar = Bar(category: string, amount: real)

  /** The customer's spending, each amount labelled with its category. */
  function Bars(c: Customer): (bs: seq<Bar>)
    ensures |bs| == NumCategories
    ensures forall k :: 0 <= k < |bs| ==> bs[k] == Bar(SpendingCols[k], c.spending[k])
  {
    seq(NumCategories, k requires 0 <= k < NumCategories => Bar(SpendingCols[k], c.spending[k]))
  }

  predicate NonIncreasing(bs: seq<Bar>)
  {
    forall i, j :: 0 <= i < j < |bs| ==> bs[i].amount >= bs[j].amount
  }

  /** Places `b` into a non-increasing sequence, keeping it non-increasing. */
  function Insert(b: Bar, bs: seq<Bar>): (r: seq<Bar>)
    requires NonIncreasing(bs)
    ensures NonIncreasing(r)
    ensures multiset(r) == multiset(bs) + multiset{b}
  {
    if |bs| == 0 then [b]
    else if b.amount >= bs[0].amount then [b] + bs
    else
      var rest := Insert(b, bs[1..]);
      assert bs == [bs[0]] + bs[1..];
      InsertBelowHead(b, bs, rest);
      [bs[0]] + rest
  }

  /** Every bar of `rest`, a rearrangement of `bs[1..]` plus a `b` smaller
      than `bs[0]`, is at most the head of a non-increasing `bs`. */
  lemma InsertBelowHead(b: Bar, bs: seq<Bar>, rest: seq<Bar>)
    requires |bs| > 0 && NonIncreasing(bs)
    requires b.amount < bs[0].amount
    requires multiset(rest) == multiset(bs[1..]) + multiset{b}
    ensures forall j :: 0 <= j < |rest| ==> rest[j].amount <= bs[0].amount
  {
    forall j | 0 <= j < |rest|
      ensures rest[j].amount <= bs[0].amount
    {
      assert rest[j] in multiset(rest);
      if rest[j] != b {
        assert rest[j] in multiset(bs[1..]);
        var i :| 0 <= i < |bs[1..]| && bs[1..][i] == rest[j];
        assert bs[i + 1] == rest[j];
      }
    }
  }

  /** Sorts bars from the largest amount to the smallest. */
  function SortDescending(bs: seq<Bar>): (r: seq<Bar>)
    ensures NonIncreasing(r)
    ensures multiset(r) == multiset(bs)
  {
    if |bs| == 0 then []
    else
      assert bs == [bs[0]] + bs[1..];
      Insert(bs[0], SortDescending(bs[1..]))
  }

  /** The chart: the customer's labelled amounts, largest first. */
  function SpendingChart(c: Customer): (r: seq<Bar>)
    ensures NonIncreasing(r)
    ensures multiset(r) == multiset(Bars(c))
    ensures |r| == NumCategories
  {
    var r := SortDescending(Bars(c));
    assert |r| == |multiset(r)| == |multiset(Bars(c))| == NumCategories;
    r
  }

  /** The first bar of the chart is the customer's largest category. */
  lemma ChartStartsWithLargest(c: Customer)
    ensures forall k :: 0 <= k < NumCategories ==> c.spending[k] <= SpendingChart(c)[0].amount
  {
    var r := SpendingChart(c);
    forall k | 0 <= k < NumCategories
      ensures c.spending[k] <= r[0].amount
    {
      var b := Bars(c)[k];
      assert b in multiset(Bars(c));
      assert b in r;
      var j :| 0 <= j < |r| && r[j] == b;
    }
  }
}
