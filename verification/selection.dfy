/** Choosing a customer: the distinct names offered for selection, the row
    a chosen name resolves to, and the "others" population the chosen
    customer is compared against. */
module Selection {
  import opened Wrappers
  import opened Records

  /** The name column, in row order. */
  function Names(rows: seq<Customer>): (ns: seq<string>)
    ensures |ns| == |rows|
    ensures forall i :: 0 <= i < |rows| ==> ns[i] == rows[i].name
  {
    seq(|rows|, i requires 0 <= i < |rows| => rows[i].name)
  }

  /** Position of the first occurrence of `x` in `xs`. */
  function FirstIndex(xs: seq<string>, x: string): (k: nat)
    requires x in xs
    ensures k < |xs| && xs[k] == x
    ensures forall j :: 0 <= j < k ==> xs[j] != x
  {
    if xs[0] == x then 0 else 1 + FirstIndex(xs[1..], x)
  }

  /** Extending a column at its end leaves the first occurrence of a value
      already present where it was. */
  lemma FirstIndexOfPrefix(xs: seq<string>, y: string, x: string)
    requires x in xs
    ensures FirstIndex(xs + [y], x) == FirstIndex(xs, x)
  {
    var k, k' := FirstIndex(xs, x), FirstIndex(xs + [y], x);
    assert (xs + [y])[k] == x;
  }

  /** The distinct values of a column in order of first appearance. */
  function Distinct(xs: seq<string>): (r: seq<string>)
    ensures forall x :: x in r <==> x in xs
    ensures forall i, j :: 0 <= i < j < |r| ==> r[i] != r[j]
    ensures forall i, j :: 0 <= i < j < |r| ==> FirstIndex(xs, r[i]) < FirstIndex(xs, r[j])
    ensures |xs| > 0 ==> |r| > 0 && r[0] == xs[0]
  {
    if |xs| == 0 then []
    else
      var prefix := xs[..|xs| - 1];
      var last := xs[|xs| - 1];
      assert xs == prefix + [last];
      assert forall x :: x in xs <==> x in prefix || x == last;
      var p := Distinct(prefix);
      var r := if last in p then p else p + [last];
      DistinctOrderStep(prefix, last, p, r);
      r
  }

  /** The ordering half of Distinct's inductive step: a last value already
      seen adds nothing, a new one goes after every earlier value. */
  lemma DistinctOrderStep(prefix: seq<string>, last: string, p: seq<string>, r: seq<string>)
    requires forall x :: x in p <==> x in prefix
    requires forall i, j :: 0 <= i < j < |p| ==> FirstIndex(prefix, p[i]) < FirstIndex(prefix, p[j])
    requires r == if last in p then p else p + [last]
    ensures forall x :: x in r ==> x in prefix + [last]
    ensures forall i, j :: 0 <= i < j < |r| ==>
      FirstIndex(prefix + [last], r[i]) < FirstIndex(prefix + [last], r[j])
  {
    var xs := prefix + [last];
    forall i, j | 0 <= i < j < |r|
      ensures FirstIndex(xs, r[i]) < FirstIndex(xs, r[j])
    {
      assert r[i] == p[i];
      FirstIndexOfPrefix(prefix, last, p[i]);
      if j < |p| {
        assert r[j] == p[j];
        FirstIndexOfPrefix(prefix, last, p[j]);
      } else {
        assert FirstIndex(xs, last) == |xs| - 1;
      }
    }
  }

  /** The names offered for selection: each name once, in the order of the
      row that first carries it. */
  function Choices(rows: seq<Customer>): (r: seq<string>)
    ensures forall n :: n in r <==> n in Names(rows)
    ensures forall i :: 0 <= i < |rows| ==> rows[i].name in r
    ensures forall n :: n in r ==> exists i :: 0 <= i < |rows| && rows[i].name == n
    ensures forall i, j :: 0 <= i < j < |r| ==> r[i] != r[j]
    ensures forall i, j :: 0 <= i < j < |r| ==>
      FirstIndex(Names(rows), r[i]) < FirstIndex(Names(rows), r[j])
    ensures |rows| > 0 ==> |r| > 0 && r[0] == rows[0].name
  {
    var ns := Names(rows);
    var r := Distinct(ns);
    assert forall n :: n in ns ==> exists i :: 0 <= i < |rows| && rows[i].name == n;
    r
  }

  /** `i` is the first row carrying `name`. */
  predicate IsFirstMatch(rows: seq<Customer>, name: string, i: nat)
  {
    && i < |rows|
    && rows[i].name == name
    && forall j :: 0 <= j < i ==> rows[j].name != name
  }

  /** Index of the first row at or after `k` whose name is `name`. */
  function FirstMatchFrom(rows: seq<Customer>, name: string, k: nat): (r: Option<nat>)
    requires k <= |rows|
    ensures r.Some? ==> k <= r.value < |rows| && rows[r.value].name == name
    ensures r.Some? ==> forall j :: k <= j < r.value ==> rows[j].name != name
    ensures r.None? <==> forall j :: k <= j < |rows| ==> rows[j].name != name
    decreases |rows| - k
  {
    if k == |rows| then None
    else if rows[k].name == name then Some(k)
    else FirstMatchFrom(rows, name, k + 1)
  }

  /** The row the chosen name resolves to: the first with that name, or
      none when no row carries it. */
  function Select(rows: seq<Customer>, name: string): (r: Option<nat>)
    ensures r.Some? ==> IsFirstMatch(rows, name, r.value)
    ensures r.None? <==> name !in Names(rows)
  {
    FirstMatchFrom(rows, name, 0)
  }

  /** Every name offered for selection resolves to a row. */
  lemma ChoicesResolve(rows: seq<Customer>, name: string)
    requires name in Choices(rows)
    ensures Select(rows, name).Some?
  {
  }

  /** The first match is unique: no other index qualifies. */
  lemma FirstMatchUnique(rows: seq<Customer>, name: string, i: nat, j: nat)
    requires IsFirstMatch(rows, name, i) && IsFirstMatch(rows, name, j)
    ensures i == j
  {
  }

  /** The rows whose name differs from `name`, in row order: every such
      row kept as many times as it occurs, every namesake dropped. */
  function Others(rows: seq<Customer>, name: string): (r: seq<Customer>)
    ensures forall c :: c in r <==> c in rows && c.name != name
    ensures forall c :: multiset(r)[c] == (if c.name != name then multiset(rows)[c] else 0)
    ensures |r| <= |rows|
    ensures name in Names(rows) ==> |r| < |rows|
  {
    if |rows| == 0 then []
    else
      var rest := Others(rows[1..], name);
      var head := if rows[0].name != name then [rows[0]] else [];
      OthersStep(rows, name, rest, head);
      head + rest
  }

  /** The inductive step of Others: the head row is kept exactly when its
      name differs. */
  lemma OthersStep(rows: seq<Customer>, name: string, rest: seq<Customer>, head: seq<Customer>)
    requires |rows| > 0
    requires head == if rows[0].name != name then [rows[0]] else []
    requires forall c :: c in rest <==> c in rows[1..] && c.name != name
    requires forall c :: multiset(rest)[c] == (if c.name != name then multiset(rows[1..])[c] else 0)
    requires |rest| <= |rows| - 1
    requires name in Names(rows[1..]) ==> |rest| < |rows| - 1
    ensures forall c :: c in head + rest <==> c in rows && c.name != name
    ensures forall c :: multiset(head + rest)[c] == (if c.name != name then multiset(rows)[c] else 0)
    ensures |head + rest| <= |rows|
    ensures name in Names(rows) ==> |head + rest| < |rows|
  {
    assert rows == [rows[0]] + rows[1..];
    assert multiset(rows) == multiset{rows[0]} + multiset(rows[1..]);
    assert multiset(head + rest) == multiset(head) + multiset(rest);
    if name in Names(rows) && rows[0].name != name {
      var i :| 0 <= i < |rows| && Names(rows)[i] == name;
      assert Names(rows[1..])[i - 1] == name;
    }
  }

  /** Every row carrying the chosen name, the selected one and any
      duplicates, is left out of the comparison population. */
  lemma OthersExcludeAllNamesakes(rows: seq<Customer>, name: string, i: nat)
    requires i < |rows| && rows[i].name == name
    ensures rows[i] !in Others(rows, name)
    ensures forall c :: c in Others(rows, name) ==> c.name != name
  {
  }
}
