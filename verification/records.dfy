/** The customer table and the five per-row figures derived from it when the
    dashboard loads: monthly pension, total monthly spending, locked funds,
    fund profit/loss and disposable funds. */
module Records {
  import opened Stats

  /** The seventeen spending categories, in the order every per-category
      output of the dashboard follows. */
  const SpendingCols: seq<string> := [
    "간편결제/충전", "외식", "온라인쇼핑", "교육", "술/유흥", "배달",
    "카페/디저트", "교통/자동차", "취미/여가", "편의점/마트", "생활비",
    "쇼핑", "건강/뷰티", "주거/세금", "의료", "출금/이체", "기타"
  ]

  const NumCategories: nat := 17

  /** One amount per spending category, position k holding SpendingCols[k]. */
  type Spending = s: seq<real> | |s| == NumCategories witness seq(17, _ => 0.0)

  /** One row of the input table. `income` is only read when the table
      carries the income column. */
  datatype Customer = Customer(
    name: string,
    pension: real,
    deposit: real,
    savings: real,
    fund: real,
    income: real,
    spending: Spending)

  /** The loaded table: whether it has the name and the income columns, and
      its rows in file order. */
  datatype Table = Table(hasName: bool, hasIncome: bool, rows: seq<Customer>)

  /** The derived columns of one row. */
  datatype Metrics = Metrics(
    monthlyPension: real,
    spendingTotal: real,
    locked: real,
    fundProfitLoss: real,
    disposable: real)

  function MonthlyPension(c: Customer): (monthly: real)
  {
    c.pension / 12.0
  }

  function LockedFunds(c: Customer): (locked: real)
  {
    c.deposit + c.savings
  }

  /** Disposable funds, with the two textually distinct formulas chosen by
      the presence of the income column. */
  function Disposable(hasIncome: bool, c: Customer): (spare: real)
  {
    if hasIncome then c.income + MonthlyPension(c) - Sum(c.spending)
    else MonthlyPension(c) - Sum(c.spending)
  }

  function DeriveRow(hasIncome: bool, c: Customer): (m: Metrics)
  {
    Metrics(
      monthlyPension := MonthlyPension(c),
      spendingTotal := Sum(c.spending),
      locked := LockedFunds(c),
      fundProfitLoss := c.fund,
      disposable := Disposable(hasIncome, c))
  }

  /** Income as a missing column reads when filled with zero. */
  function IncomeOrZero(t: Table, c: Customer): (income: real)
  {
    if t.hasIncome then c.income else 0.0
  }

  /** The derived columns for every row of the table, row for row. */
  function Derive(t: Table): (ms: seq<Metrics>)
    ensures |ms| == |t.rows|
    ensures forall i :: 0 <= i < |ms| ==> ms[i].monthlyPension * 12.0 == t.rows[i].pension
    ensures forall i :: 0 <= i < |ms| ==> ms[i].spendingTotal == Sum(t.rows[i].spending)
    ensures forall i :: 0 <= i < |ms| ==> ms[i].locked - t.rows[i].savings == t.rows[i].deposit
    ensures forall i :: 0 <= i < |ms| ==> ms[i].fundProfitLoss == t.rows[i].fund
    ensures forall i :: 0 <= i < |ms| ==>
      ms[i].disposable == IncomeOrZero(t, t.rows[i]) + ms[i].monthlyPension - ms[i].spendingTotal
    ensures forall i :: 0 <= i < |ms| ==>
      (ms[i].disposable >= 0.0 <==> IncomeOrZero(t, t.rows[i]) + t.rows[i].pension / 12.0 >= ms[i].spendingTotal)
  {
    seq(|t.rows|, i requires 0 <= i < |t.rows| => DeriveRow(t.hasIncome, t.rows[i]))
  }

  /** Each row's spending total is its seventeen categories added in
      SpendingCols order, left to right. */
  method SpendingTotal(c: Customer) returns (total: real)
    ensures total == DeriveRow(false, c).spendingTotal
  {
    total := SumLeftToRight(c.spending);
  }

  /** A customer who spends nothing in any category has a zero total. */
  lemma NoSpendingTotalsZero(hasIncome: bool, c: Customer)
    requires forall k :: 0 <= k < NumCategories ==> c.spending[k] == 0.0
    ensures DeriveRow(hasIncome, c).spendingTotal == 0.0
    ensures DeriveRow(hasIncome, c).disposable ==
      (if hasIncome then c.income else 0.0) + c.pension / 12.0
  {
    SumOfZeros(c.spending);
  }

  /** With a zero income cell, the income-column formula and the
      no-income-column formula for disposable funds coincide. */
  lemma DisposableFormulasAgree(c: Customer)
    requires c.income == 0.0
    ensures DeriveRow(true, c) == DeriveRow(false, c)
  {
  }
}
