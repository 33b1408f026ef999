/**
 The category endpoint: per-category rows `(category, total amount)` from
 the store's GROUP BY become two parallel chart lists, the category codes
 and the totals.
 */
module SalesDataView {
  import opened Sales
  import opened Seqs
  import opened Grouping
  import opened Charts
  import DashboardView

  /** One row of the per-category aggregation. */
  datatype CategoryRow = CategoryRow(category: Category, totalAmount: int)

  /** The category endpoint's response body: codes and totals, row by row. */
  function CategorySeries(rows: seq<CategoryRow>): (r: ChartSeries<string>)
    ensures |r.labels| == |r.data| == |rows|
    ensures forall i :: 0 <= i < |rows| ==>
              r.labels[i] == Code(rows[i].category) && r.data[i] == rows[i].totalAmount
  {
    ChartSeries(seq(|rows|, i requires 0 <= i < |rows| => Code(rows[i].category)),
                seq(|rows|, i requires 0 <= i < |rows| => rows[i].totalAmount))
  }

  function RowCategories(rows: seq<CategoryRow>): (cs: seq<Category>)
    ensures |cs| == |rows| && forall i :: 0 <= i < |rows| ==> cs[i] == rows[i].category
  {
    seq(|rows|, i requires 0 <= i < |rows| => rows[i].category)
  }

  /**
   What the store's grouping delivers: one row per category that occurs in
   the sales, each carrying that category's total amount. This is the
   grouping of Django 3.1 and later, where the model's default ordering by
   date no longer joins the GROUP BY columns.
   */
  ghost predicate IsCategoryGrouping(rows: seq<CategoryRow>, sales: seq<Sale>)
  {
    && Distinct(RowCategories(rows))
    && Elems(RowCategories(rows)) == KeysOf(sales, SaleCategory)
    && forall i :: 0 <= i < |rows| ==> rows[i].totalAmount == GroupTotal(sales, SaleCategory, rows[i].category)
  }

  /**
   The category chart and the dashboard agree: the category totals add up to
   the dashboard's total revenue.
   */
  lemma CategoryTotalsMatchRevenue(rows: seq<CategoryRow>, sales: seq<Sale>)
    requires IsCategoryGrouping(rows, sales)
    ensures Sum(CategorySeries(rows).data) == DashboardView.GetContextData(sales).totalRevenue
  {
    var cs := RowCategories(rows);
    SumOfGroupTotals(cs, CategorySeries(rows).data, sales, SaleCategory);
  }

  /**
   The category labels are distinct codes of the four categories (so there
   are at most four), every category present in the sales has its label, and
   each number is the total of the sales of the category it is paired with.
   */
  lemma CategoryLabels(rows: seq<CategoryRow>, sales: seq<Sale>)
    requires IsCategoryGrouping(rows, sales)
    ensures Distinct(CategorySeries(rows).labels)
    ensures |CategorySeries(rows).labels| <= 4
    ensures forall s :: s in sales ==> Code(s.category) in CategorySeries(rows).labels
    ensures forall l :: l in CategorySeries(rows).labels ==> exists c :: c in AllCategories && l == Code(c)
    ensures forall i :: 0 <= i < |rows| ==>
              CategorySeries(rows).data[i] == GroupTotal(sales, SaleCategory, rows[i].category)
  {
    var r := CategorySeries(rows);
    var cs := RowCategories(rows);
    forall i, j | 0 <= i < j < |r.labels| ensures r.labels[i] != r.labels[j] {
      CodeInjective(cs[i], cs[j]);
    }
    AtMostFourCategories(cs);
    forall s | s in sales ensures Code(s.category) in r.labels {
      assert SaleCategory(s) in KeysOf(sales, SaleCategory);
      var i :| 0 <= i < |cs| && cs[i] == s.category;
      assert r.labels[i] == Code(s.category);
    }
  }

  /** A list of distinct categories has at most four entries. */
  lemma AtMostFourCategories(cs: seq<Category>)
    requires Distinct(cs)
    ensures |cs| <= 4
  {
    DistinctCardinality(cs);
    forall c | c in Elems(cs) ensures c in AllCategories {
      assert c.ELEC? || c.FOOD? || c.BOOK? || c.CLOT?;
    }
    assert |AllCategories| == 4;
    assert AllCategories == Elems(cs) + (AllCategories - Elems(cs));
  }

  /** An empty store gives an empty category chart. */
  lemma EmptyCategorySeries(rows: seq<CategoryRow>)
    requires IsCategoryGrouping(rows, [])
    ensures CategorySeries(rows).labels == [] && CategorySeries(rows).data == []
  {
    ElemsEmpty(RowCategories(rows));
  }
}
