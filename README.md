# Sales analytics views, modelled in Dafny

This project models the logic of the `analytics` app of a small Django sales
dashboard (`chart_project/analytics/views.py`). The app stores point-of-sale
records (`Sale`: category, amount, date, description) and serves three views:

- **Dashboard** (`DashboardView.get_context_data`): the number of sales and the
  total revenue. The revenue is the SQL `SUM` of the amounts, and it becomes 0
  when that sum is NULL on an empty store.
- **Sales by category** (`SalesDataView.get`): turns the per-category rows
  `(category, total_amount)` of the store's GROUP BY into two parallel chart
  lists: category codes and totals.
- **Sales trend** (`SalesTrendView`): keeps the sales dated on or after thirty
  days before today. In JSON mode it folds them into a dictionary from date to
  running total. It then emits the sorted dates and, in parallel, each date's
  total. Otherwise it hands the same sales to the page template.

Conventions of the model:

- Amounts are exact integer cents, matching the two-decimal `DecimalField`. The
  `float(...)` conversions in the responses are abstracted away.
- Dates are integer day numbers, and "today" is a parameter. The trend labels
  are `YYYY-MM-DD` strings (the `full-date` form of section 5.6 of RFC 3339).
  For four-digit years their lexicographic order is their chronological order,
  so sorting day numbers stands for `sorted(trend_data.keys())`.
- The trend fold is a method with a loop over a `map`, plus a sequence that
  records the dictionary's keys in insertion order. Python's `sorted` is
  `Seqs.Sort`, an insertion sort specified as "ascending permutation".
- The per-category rows are an input. `SalesDataView.IsCategoryGrouping` states
  what the database's GROUP BY delivers for a given store, and the lemmas about
  the category chart assume it.

Modules: `Sales` (the record), `Seqs` (sums, distinctness, ordering, the sort),
`Grouping` (group-by-and-sum over any key), `DashboardView`, `SalesDataView`,
`SalesTrendView` (one per view class), `Charts`, `Options`, and `Scenarios` (a
three-sale store worked through every view).

The code differs from a reading of the window as `[today - 30, today]`. The
filter is only `date >= today - 30`, with no upper bound, so sales dated after
today are kept. The model follows the code (`SalesTrendView.InWindow`).

## Model

| member | source | states |
|---|---|---|
| `Sales.Code` | chart_project/analytics/models.py:5-16 | each category's stored code is a four-character string (the column's `max_length`) |
| `DashboardView.OrZero` | chart_project/analytics/views.py:27 | `total or 0` is 0 for a missing aggregate and the aggregate itself otherwise (a zero aggregate collapses to the same value 0) |
| `DashboardView.GetContextData` | chart_project/analytics/views.py:18-30 | `total_sales` is the number of sales; `total_revenue` is the total amount of all sales, and 0 when there are none |
| `SalesDataView.CategorySeries` | chart_project/analytics/views.py:50-51 | labels and data are as long as the rows and keep the row pairing: `labels[i]` is row i's category code and `data[i]` its total |
| `SalesDataView.CategoryTotalsMatchRevenue` | chart_project/analytics/views.py:44-51 | for rows that are the store's per-category grouping, the chart's numbers add up to the dashboard's total revenue |
| `SalesDataView.CategoryLabels` | chart_project/analytics/views.py:44-51 | for a grouping, the labels are pairwise distinct (distinct categories have distinct codes) and there are at most four of them; it also restates, in terms of the chart, the grouping's premises that every sale's category has a label and that `data[i]` is the total of row i's category |
| `SalesDataView.EmptyCategorySeries` | chart_project/analytics/views.py:50-51 | an empty store yields empty labels and data |
| `SalesTrendView.GetQueryset` | chart_project/analytics/views.py:78-83 | the queryset holds every sale dated on or after `today - 30` exactly as often as the store does, and no other sale; there is no upper bound |
| `SalesTrendView.TrendRollup` | chart_project/analytics/views.py:91-97 | the rollup's labels are strictly ascending, are exactly the dates of the queryset's sales, and run parallel to data, where `data[i]` is the sum of the amounts of the sales dated `labels[i]` |
| `SalesTrendView.RenderToResponse` | chart_project/analytics/views.py:85-110 | with `format=json` the response is the daily trend of the window; otherwise it is the window's sales for the template |
| `SalesTrendView.TrendConservesTotal` | chart_project/analytics/views.py:91-97 | the daily totals add up to the total amount of the in-window sales |
| `SalesTrendView.TrendOrderIndependent` | chart_project/analytics/views.py:91-96 | two querysets holding the same sales in any order give the same labels and data |
| `SalesTrendView.EmptyTrend` | chart_project/analytics/views.py:91-97 | an empty queryset gives empty labels and data |
| `SalesTrendView.TrendLabelsAreWindowDates` | chart_project/analytics/views.py:80-96 | a date is a label exactly when some store sale in the window is dated that day: no empty days are synthesised, future-dated sales are kept, and every label is at least `today - 30` |
| `Seqs.Sort` | chart_project/analytics/views.py:96 | `sorted` returns an ascending permutation of its input, strictly ascending when the input (the dictionary's keys) has no duplicates |
| `Seqs.StrictlyAscendingUnique` | chart_project/analytics/views.py:96 | a strictly ascending list is determined by its set of elements, so the sorted key list is unique |
| `Grouping.SumOfGroupTotals` | chart_project/analytics/views.py:91-97 | group totals over a duplicate-free key list that covers every sale add up to the total amount |
| `Grouping.AmountWherePermutation` | chart_project/analytics/views.py:92-94 | per-key sums do not depend on the order in which the sales are accumulated |
| `Scenarios.ThreeSalesTrend` | chart_project/analytics/views.py:78-107 | for sales of 100.00 today, 50.00 yesterday and 10.00 forty days ago, the trend is yesterday and today with 50.00 and 100.00 |
| `Scenarios.ThreeSalesCategories` | chart_project/analytics/views.py:44-51 | for the same store, the rows ELEC 150.00 and FOOD 10.00 are its grouping, chart as `["ELEC", "FOOD"]` with `[150.00, 10.00]`, and the dashboard reports 3 sales and 160.00 |

## Left out

- The ORM itself (`filter`, `order_by`, `values().annotate(Sum, Count)`, `aggregate`, `count`). The window filter and the SQL `SUM` are modelled as functions over a sequence of sales. The category rows are an input, and `IsCategoryGrouping` states what the grouping delivers.
- `SalesTrendView.GetQueryset`: does not model `order_by('date')`. For the JSON trend the order does not matter (`TrendOrderIndependent`). The ascending order of the rows in the page template is not modelled.
- The `Count('id')` column of the category rows: the response never uses it, so `CategoryRow` has no count.
- `datetime.now()`: "today" is a parameter. Time zones are not modelled.
- `strftime('%Y-%m-%d')`: labels are day numbers, for the order argument above.
- `float(...)` on amounts: the model uses exact cents, so float rounding is not captured.
- `JsonResponse`, template rendering, the `csrf_exempt` dispatch wrapper, the dataset titles and the fixed colour palette and line style: these are framework I/O and presentation.
- `Sales.ValidSale`: the schema's limits on description length and amount digits are documentation only. No member relies on them. The ORM's `save` and `bulk_create` do not run model validation, so these limits are assumed, not enforced on writes. Only a database backend that enforces column types checks `max_length` and `max_digits`.
- The category choices are likewise not enforced on writes. The closed `Category` datatype assumes that every stored sale carries one of the four codes. A stored code outside the choices would show up as an extra chart label in the app.
- `SalesDataView.CategoryLabels`: its bound of at most four labels, each one of the four codes, rests on the closed-category assumption above. The app itself promises no such bound.
- chart_project/analytics/urls.py: a routing table with no logic.
- chart_project/analytics/management/commands/load_test_data.py: random demo data, bulk insert and delete, and console output. It is nondeterministic and does I/O.
- `Sale.__str__`: presentation only.
- `SalesDataView.IsCategoryGrouping`: the one-row-per-category grouping assumes Django 3.1 or later. The model's default ordering (`Meta.ordering = ['-date']`, chart_project/analytics/models.py:26) no longer enters the GROUP BY of `values('category').annotate(...)` there. Before 3.1 that ordering added `date` to the GROUP BY, so the rows were one per (category, date). Labels then repeat, each number is one day's partial total, and the distinctness and at-most-four bound of `SalesDataView.CategoryLabels` would not hold. Only the sum of `SalesDataView.CategoryTotalsMatchRevenue` would still hold. The repository does not pin a Django version, and the model takes the newer behaviour. On 3.1 and later the default ordering only orders the rows of unordered querysets, and no view here depends on that order.
