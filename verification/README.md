# Senior customer financial dashboard — a Dafny model

The dashboard loads a table of customers and derives five figures for every
row: monthly pension, total monthly spending over seventeen fixed categories,
locked funds (deposits plus installment savings), fund profit/loss, and
disposable funds. A user then picks a customer by name. The page shows the
five figures as whole-won KPI tiles and a product recommendation chosen by the
sign of disposable funds. It also draws a gauge placing the customer within
the population's range of disposable funds, a chart of the customer's spending
sorted largest first, and a per-category comparison against the average of
every other customer. Finally it offers a 22-row analysis table for download.

This project models all of that logic as pure Dafny functions over immutable
datatypes. A table is a `seq` of `Customer` rows. Amounts are exact `real`s.
Dafny proves the following about the model:

- the spending total is the left-to-right sum of the categories;
- disposable funds follow the zero-filled income formula whether or not the
  income column exists;
- the recommendation affirms exactly when disposable funds are at least 0;
- the selected row is the first one with the chosen name;
- the comparison population excludes every row with that name;
- the gauge satisfies min ≤ mean ≤ max, and its two steps meet at the mean;
- the chart is a non-increasing permutation of the customer's spending;
- the export has the fixed 22-row layout and reads back to the figures it
  was built from.

Modules, following the program's flow:

- `Wrappers` (`wrappers.dfy`): `Option` and `Result`.
- `Stats` (`stats.dfy`): column sum, mean, min and max. The mean of an empty
  column is `NaN`, as in the table library.
- `Records` (`records.dfy`): the 17 spending categories, the customer row, the
  table and the derived columns.
- `Selection` (`selection.dfy`): the names offered, the row a name resolves
  to, and the "others" population.
- `Advice` (`advice.dfy`): truncation to whole won, KPI tiles and the
  recommendation.
- `Gauge` (`gauge.dfy`): axis, steps, marker and delta of the
  disposable-funds gauge.
- `Chart` (`chart.dfy`): the customer's spending sorted largest first.
- `Comparison` (`comparison.dfy`): per-category difference from the others'
  average, and its colour flag.
- `Export` (`export.dfy`): the downloadable table and its read-back.
- `Dashboard` (`dashboard.dfy`): one render for a chosen name.

Modelling decisions:

- The table records whether it has the name column and the income column.
  A row's `income` is read only when the income column exists.
- A missing name column yields `Failure(MissingNameColumn)`, the page's one
  explicit error path. A name that matches no row yields
  `Failure(NoMatchingRow)`; in the program that is the index error of taking
  the first row of an empty selection.
- `NaN` arises in the model only where exact inputs produce it: the
  per-category mean over an empty "others" population. That happens when
  every row carries the chosen name. A `NaN` difference is never coloured,
  because `NaN > 0` is false.
- The whole-won values on the page use the host language's `int()`, which
  truncates toward zero (`Advice.Trunc`). So a deficit of less than one won
  takes the warning branch but reports a shortfall of 0 won
  (`Advice.SubUnitDeficitShowsZero`).

## Model

| member | source | states |
|---|---|---|
| Stats.SumLeftToRight | app.py:36 | a row total accumulated cell by cell from left to right equals the reference sum of the row |
| Stats.SumOfZeros | app.py:31-36 | a row whose categories are all zero totals zero |
| Stats.Min | app.py:84 | the axis minimum is a value of the column and no value is below it |
| Stats.Max | app.py:84 | the axis maximum is a value of the column and no value is above it |
| Stats.Mean | app.py:82-87 | the mean is NaN exactly for an empty column, and otherwise the mean times the count is the sum |
| Stats.SumAtLeast | app.py:86 | a lower bound on every value, times the count, bounds the sum from below |
| Stats.SumAtMost | app.py:87 | an upper bound on every value, times the count, bounds the sum from above |
| Stats.AverageAtLeast | app.py:86 | a lower bound on every value bounds the average from below |
| Stats.AverageAtMost | app.py:87 | an upper bound on every value bounds the average from above |
| Stats.MeanWithinRange | app.py:82-87 | the mean of a non-empty column is a number lying between its min and its max |
| Records.Derive | app.py:27-48 | one metrics row per input row; monthly pension times 12 is the pension; spending total is the sum of the 17 categories; locked funds minus savings is the deposit; fund profit/loss is the fund value; disposable funds are income-or-zero plus monthly pension minus spending; disposable ≥ 0 exactly when income-or-zero plus pension/12 covers spending |
| Records.SpendingTotal | app.py:31-36 | the spending total of a row is its 17 categories added left to right in category order, with or without the income column |
| Records.NoSpendingTotalsZero | app.py:31-48 | with no spending in any category the total is 0 and disposable funds are income-or-zero plus pension/12 |
| Records.DisposableFormulasAgree | app.py:44-48 | with a zero income cell, the income-column and no-income-column formulas derive the same row |
| Selection.Distinct | app.py:53 | the distinct values hold every value of the column and nothing else, without repeats, ordered by where each value first occurs in the column |
| Selection.Choices | app.py:53 | the offered names are exactly the table's names, each once, ordered by the first row carrying each, the first row's name first |
| Selection.Select | app.py:54 | the chosen name resolves to the first row carrying it, and to nothing exactly when no row carries it |
| Selection.ChoicesResolve | app.py:53-54 | every offered name resolves to a row |
| Selection.FirstMatchUnique | app.py:54 | there is only one first row carrying a name |
| Selection.Others | app.py:104 | the others keep every row whose name differs from the chosen one exactly as many times as it occurs and drop every row carrying the chosen name; there are strictly fewer of them when the chosen name occurs |
| Selection.OthersExcludeAllNamesakes | app.py:104 | the selected row and every duplicate of its name are excluded from the others |
| Advice.Trunc | app.py:58-62 | whole won truncates toward zero: same sign, magnitude not above the amount and within one of it |
| Advice.Kpis | app.py:57-62 | five tiles, each its headline figure truncated toward zero |
| Advice.Recommend | app.py:66-75 | the savings recommendation is chosen exactly when disposable funds are ≥ 0, showing the surplus truncated; otherwise the shortfall shown is the non-negative truncated magnitude |
| Advice.ZeroIsSurplus | app.py:66 | exactly zero disposable funds take the savings branch with a surplus of 0 |
| Advice.SubUnitDeficitShowsZero | app.py:71-75 | a deficit under one won takes the warning branch but shows a shortfall of 0 |
| Gauge.BuildDial | app.py:79-92 | the marker is the customer's value; the reference is the population mean; the delta is value minus mean; the axis is [min, max] of the population with both ends attained; min ≤ mean ≤ max; every population value and the marker lie on the axis; the two steps are [min, mean] and [mean, max] |
| Gauge.StepsCoverAxis | app.py:84-88 | every point of the axis lies in one of the two steps |
| Chart.SortDescending | app.py:97 | the result is non-increasing by amount and a permutation of the input |
| Chart.SpendingChart | app.py:97 | the chart holds the customer's 17 labelled amounts, each once, largest first |
| Chart.ChartStartsWithLargest | app.py:97 | the first bar is at least every category amount of the customer |
| Comparison.Gap | app.py:104-106 | the gap is NaN exactly for an empty population; otherwise amount minus gap is the population mean; the gap is positive exactly when the amount exceeds the mean |
| Comparison.DiffAt | app.py:104-108 | bar k carries category k; it is NaN exactly when there are no others; the amount minus the difference is the others' mean; it is coloured exactly when the customer spends more than that mean |
| Comparison.Differences | app.py:105-106 | one bar per category, in category order |
| Comparison.NoSpendingBelowAverage | app.py:104-108 | zero spending against others with a positive total gives a negative, uncoloured difference |
| Comparison.NoOthersGivesNaN | app.py:104-108 | with no others every difference is NaN and no bar is coloured |
| Export.BuildExport | app.py:112-118 | summary rows first, under the five fixed labels, then one row per difference carrying its category and value |
| Export.ExportRoundTrip | app.py:112-118 | reading the export back recovers the five derived figures and the category differences |
| Export.Download | app.py:105-118 | the download for a customer has 22 rows under the fixed labels, reads back to the customer's figures, and its comparison rows are the customer's 17 differences in category order |
| Export.ExportLayout | app.py:112-118 | a customer's export has exactly 22 rows labelled with the five summary labels followed by the 17 categories |
| Dashboard.ViewOf | app.py:54-120 | for the selected row: the KPI tiles are its figures truncated; the recommendation is chosen from its disposable funds and agrees with the gauge marker's sign; the gauge is built from the whole disposable-funds column with the row's value as marker; the chart is the row's spending, sorted; the comparison is against all rows of another name; the download has 22 fixed labels and reads back to the row's figures and, row for row, to the comparison; the file is named after the customer |
| Dashboard.PageGauge | app.py:79-88 | the page's gauge marks the row's disposable funds, takes the population mean as reference with delta value minus mean, has every row's disposable funds on its axis, and has steps [min, mean] and [mean, max] |
| Dashboard.Render | app.py:52-123 | without the name column the page fails with the missing-column error; with it, the page fails exactly when no row carries the name (then with the no-matching-row error), and otherwise shows the page of the first row with that name |
| Dashboard.OfferedNamesRender | app.py:53-54 | every offered name renders a page |
| Dashboard.TwoCustomerFigures | app.py:27-48 | customers A and B with pensions 1200 and 2400, no spending and no income column: A gets 100 monthly and 100 disposable, and B gets 200 disposable |
| Dashboard.TwoCustomerDifferences | app.py:104-108 | A compared with B, both spending nothing: every difference is 0 and uncoloured |
| Dashboard.TwoCustomerPage | app.py:52-108 | in that table, choosing A renders the savings recommendation for 100, and every one of A's differences is 0 and uncoloured |

## Left out

- Page setup, titles, selectbox, KPI widgets, expander, raw-table view, download button and all Plotly/Matplotlib figure construction and font selection (app.py:1-22, 51, 57-63, 77-100, 119-127): rendering through foreign libraries. Only the values these widgets receive are modelled.
- Reading the CSV from its fixed path and writing the export as UTF-8 with a byte-order mark (app.py:25, 119): I/O.
- Missing spending-category columns (a fatal load error): the `Spending` type always holds exactly 17 amounts.
- NaN cells in the input and the table library's skipping of NaN in sums, means, min and max: amounts are exact reals. NaN is modelled only for the mean of an empty population.
- IEEE floating-point rounding, for example of `/ 12`: amounts are exact reals.
- Thousands-separator formatting and the text of the KPI tiles and recommendation messages: only the whole-won numbers they show are modelled.
- Chart.SpendingChart: the program's descending sort is not stable, so the order of equal amounts is unspecified there. The model breaks ties in one fixed way, and its contract says only what the program guarantees: non-increasing order and a permutation.
