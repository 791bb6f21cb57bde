/** Column arithmetic over the customer table: sums, means and extrema of
    sequences of exact reals, standing in for the table library's
    floating-point reductions. */
module Stats {

  /** A numeric cell as the table library reports it: a number, or the NaN
      that the mean of an empty selection yields. */
  datatype Value = Num(x: real) | NaN

  /** Sum of a column, by head-first recursion (the reference definition). */
  function Sum(xs: seq<real>): (s: real)
  {
    if |xs| == 0 then 0.0 else xs[0] + Sum(xs[1..])
  }

  /** Appending one cell adds exactly that cell to the sum. */
  lemma {:induction false} SumSnoc(xs: seq<real>, y: real)
    ensures Sum(xs + [y]) == Sum(xs) + y
  {
    if |xs| == 0 {
      assert xs + [y] == [y];
    } else {
      assert (xs + [y])[1..] == xs[1..] + [y];
      SumSnoc(xs[1..], y);
    }
  }

  /** A row total accumulated left to right, the order in which the table
      library adds the cells of a row, equals the reference sum. */
  method SumLeftToRight(xs: seq<real>) returns (total: real)
    ensures total == Sum(xs)
  {
    total := 0.0;
    var i := 0;
    while i < |xs|
      invariant 0 <= i <= |xs|
      invariant total == Sum(xs[..i])
    {
      assert xs[..i + 1] == xs[..i] + [xs[i]];
      SumSnoc(xs[..i], xs[i]);
      total := total + xs[i];
      i := i + 1;
    }
    assert xs[..i] == xs;
  }

  /** A column whose cells are all zero sums to zero. */
  lemma {:induction false} SumOfZeros(xs: seq<real>)
    requires forall i :: 0 <= i < |xs| ==> xs[i] == 0.0
    ensures Sum(xs) == 0.0
  {
    if |xs| > 0 {
      SumOfZeros(xs[1..]);
    }
  }

  /** Smallest cell of a non-empty column. */
  function Min(xs: seq<real>): (m: real)
    requires |xs| > 0
    ensures m in xs
    ensures forall i :: 0 <= i < |xs| ==> m <= xs[i]
  {
    if |xs| == 1 then xs[0]
    else
      var rest := Min(xs[1..]);
      assert forall i :: 1 <= i < |xs| ==> xs[i] == xs[1..][i - 1];
      if xs[0] <= rest then xs[0] else rest
  }

  /** Largest cell of a non-empty column. */
  function Max(xs: seq<real>): (m: real)
    requires |xs| > 0
    ensures m in xs
    ensures forall i :: 0 <= i < |xs| ==> xs[i] <= m
  {
    if |xs| == 1 then xs[0]
    else
      var rest := Max(xs[1..]);
      assert forall i :: 1 <= i < |xs| ==> xs[i] == xs[1..][i - 1];
      if rest <= xs[0] then xs[0] else rest
  }

  /** A lower bound on every cell bounds the sum by count times that bound. */
  lemma {:induction false} SumAtLeast(xs: seq<real>, lo: real)
    requires forall i :: 0 <= i < |xs| ==> lo <= xs[i]
    ensures |xs| as real * lo <= Sum(xs)
  {
    if |xs| > 0 {
      assert forall i :: 0 <= i < |xs| - 1 ==> xs[1..][i] == xs[i + 1];
      SumAtLeast(xs[1..], lo);
    }
  }

  /** An upper bound on every cell bounds the sum by count times that bound. */
  lemma {:induction false} SumAtMost(xs: seq<real>, hi: real)
    requires forall i :: 0 <= i < |xs| ==> xs[i] <= hi
    ensures Sum(xs) <= |xs| as real * hi
  {
    if |xs| > 0 {
      assert forall i :: 0 <= i < |xs| - 1 ==> xs[1..][i] == xs[i + 1];
      SumAtMost(xs[1..], hi);
    }
  }

  /** A lower bound on every cell of a non-empty column bounds its average. */
  lemma {:induction false} AverageAtLeast(xs: seq<real>, lo: real)
    requires |xs| > 0
    requires forall i :: 0 <= i < |xs| ==> lo <= xs[i]
    ensures lo <= Sum(xs) / |xs| as real
  {
    SumAtLeast(xs, lo);
    QuotientAtLeast(Sum(xs), |xs| as real, lo);
  }

  /** An upper bound on every cell of a non-empty column bounds its average. */
  lemma {:induction false} AverageAtMost(xs: seq<real>, hi: real)
    requires |xs| > 0
    requires forall i :: 0 <= i < |xs| ==> xs[i] <= hi
    ensures Sum(xs) / |xs| as real <= hi
  {
    SumAtMost(xs, hi);
    QuotientAtMost(Sum(xs), |xs| as real, hi);
  }

  /** A total of at least `n * lo` has a quotient by `n` of at least `lo`. */
  lemma QuotientAtLeast(s: real, n: real, lo: real)
    requires n > 0.0
    requires n * lo <= s
    ensures lo <= s / n
  {
  }

  /** A total of at most `n * hi` has a quotient by `n` of at most `hi`. */
  lemma QuotientAtMost(s: real, n: real, hi: real)
    requires n > 0.0
    requires s <= n * hi
    ensures s / n <= hi
  {
  }

  /** Mean of a column; NaN when the column is empty. */
  function Mean(xs: seq<real>): (r: Value)
    ensures r == NaN <==> |xs| == 0
    ensures r.Num? ==> r.x * |xs| as real == Sum(xs)
  {
    if |xs| == 0 then NaN else Num(Sum(xs) / |xs| as real)
  }

  /** The mean of a non-empty column lies between its smallest and its
      largest cell. */
  lemma {:induction false} MeanWithinRange(xs: seq<real>)
    requires |xs| > 0
    ensures Mean(xs).Num?
    ensures Min(xs) <= Mean(xs).x <= Max(xs)
  {
    AverageAtLeast(xs, Min(xs));
    AverageAtMost(xs, Max(xs));
  }
}
