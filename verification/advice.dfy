/** What the dashboard tells the selected customer: the five headline
    figures as whole currency units, and the product recommendation chosen
    by the sign of disposable funds. */
module Advice {
  import opened Records

  /** Conversion of an amount to a whole number of won, truncating toward
      zero as the host language's integer conversion does. */
  function Trunc(x: real): (n: int)
    ensures 0.0 <= x ==> 0 <= n && n as real <= x < n as real + 1.0
    ensures x < 0.0 ==> n <= 0 && n as real - 1.0 < x <= n as real
  {
    if x >= 0.0 then x.Floor else -((-x).Floor)
  }

  function Abs(n: int): (magnitude: nat)
  {
    if n < 0 then -n else n
  }

  /** The five headline figures in display order: locked funds, monthly
      pension, monthly spending, disposable funds, fund profit/loss. */
  function Headline(m: Metrics): (figures: seq<real>)
  {
    [m.locked, m.monthlyPension, m.spendingTotal, m.disposable, m.fundProfitLoss]
  }

  /** The five KPI tiles, each its figure truncated to whole won. */
  function Kpis(m: Metrics): (ks: seq<int>)
    ensures |ks| == 5
    ensures forall k :: 0 <= k < 5 ==>
      Abs(ks[k]) as real <= (if Headline(m)[k] < 0.0 then -Headline(m)[k] else Headline(m)[k]) < Abs(ks[k]) as real + 1.0
    ensures forall k :: 0 <= k < 5 ==> (ks[k] < 0 ==> Headline(m)[k] < 0.0) && (ks[k] > 0 ==> Headline(m)[k] > 0.0)
  {
    var h := Headline(m);
    [Trunc(h[0]), Trunc(h[1]), Trunc(h[2]), Trunc(h[3]), Trunc(h[4])]
  }

  /** The two recommendations: grow a surplus with savings and deposit
      products, or cover a shortfall with a living-expense loan and a
      budgeting consultation. Each carries the whole-won amount shown. */
  datatype Recommendation = GrowSavings(surplus: nat) | CoverShortfall(shortfall: nat)

  function Recommend(disposable: real): (r: Recommendation)
    ensures r.GrowSavings? <==> disposable >= 0.0
    ensures r.GrowSavings? ==> r.surplus as real <= disposable < r.surplus as real + 1.0
    ensures r.CoverShortfall? ==> r.shortfall as real <= -disposable < r.shortfall as real + 1.0
  {
    if disposable >= 0.0 then GrowSavings(Trunc(disposable))
    else CoverShortfall(Abs(Trunc(disposable)))
  }

  /** A disposable amount of exactly zero is treated as a surplus. */
  lemma ZeroIsSurplus()
    ensures Recommend(0.0) == GrowSavings(0)
  {
  }

  /** A deficit of less than one won is reported as a shortfall of zero won:
      the warning branch is taken, but truncation hides the amount. */
  lemma SubUnitDeficitShowsZero(disposable: real)
    requires -1.0 < disposable < 0.0
    ensures Recommend(disposable) == CoverShortfall(0)
  {
  }
}
