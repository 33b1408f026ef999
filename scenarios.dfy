/**
 A three-sale store worked through every view: two electronics sales today
 and yesterday, and a food sale forty days ago, outside the trend window.
 */
module Scenarios {
  import opened Sales
  import opened Seqs
  import opened Grouping
  import opened Charts
  import opened SalesTrendView
  import opened SalesDataView
  import DashboardView

  function ThreeSales(today: int): seq<Sale>
  {
    [Sale(ELEC, 10000, today, ""), Sale(ELEC, 5000, today - 1, ""), Sale(FOOD, 1000, today - 40, "")]
  }

  /** Only the two recent sales are in the window. */
  lemma ThreeSalesWindow(today: int)
    ensures GetQueryset(ThreeSales(today), today) == ThreeSales(today)[..2]
  {
  }

  /** Totals of a two-sale sequence, one key at a time. */
  lemma PairTotal<K>(a: Sale, b: Sale, key: Sale -> K, k: K)
    ensures GroupTotal([a, b], key, k)
            == (if key(a) == k then a.amount else 0) + (if key(b) == k then b.amount else 0)
    ensures KeysOf([a, b], key) == {key(a), key(b)}
  {
    AmountWhereSnoc([], a, key, {k});
    AmountWhereSnoc([a], b, key, {k});
    KeysOfSnoc([], a, key);
    KeysOfSnoc([a], b, key);
    assert [] + [a] == [a] && [a] + [b] == [a, b];
  }

  /**
   The trend has yesterday and today, with 50.00 and 100.00; the
   forty-day-old sale is excluded.
   */
  lemma ThreeSalesTrend(today: int, labels: seq<int>, data: seq<int>)
    requires IsTrend(GetQueryset(ThreeSales(today), today), labels, data)
    ensures labels == [today - 1, today] && data == [5000, 10000]
  {
    var store := ThreeSales(today);
    var qs := [store[0], store[1]];
    ThreeSalesWindow(today);
    assert store[..2] == qs;
    PairTotal(store[0], store[1], SaleDate, today - 1);
    PairTotal(store[0], store[1], SaleDate, today);
    assert Elems([today - 1, today]) == {today - 1, today};
    assert IsTrend(qs, [today - 1, today], [5000, 10000]);
    TrendOrderIndependent(qs, labels, data, qs, [today - 1, today], [5000, 10000]);
  }

  /**
   The category rows electronics 150.00 and food 10.00 are the store's
   grouping; they chart as ELEC/FOOD with 150.00/10.00, which add up to the
   dashboard's revenue of 160.00.
   */
  lemma ThreeSalesCategories(today: int)
    ensures IsCategoryGrouping([CategoryRow(ELEC, 15000), CategoryRow(FOOD, 1000)], ThreeSales(today))
    ensures CategorySeries([CategoryRow(ELEC, 15000), CategoryRow(FOOD, 1000)])
            == ChartSeries(["ELEC", "FOOD"], [15000, 1000])
    ensures DashboardView.GetContextData(ThreeSales(today)) == DashboardView.DashboardContext(3, 16000)
  {
    var store := ThreeSales(today);
    var rows := [CategoryRow(ELEC, 15000), CategoryRow(FOOD, 1000)];
    var pair := [store[0], store[1]];
    assert store == pair + [store[2]];
    PairTotal(store[0], store[1], SaleCategory, ELEC);
    PairTotal(store[0], store[1], SaleCategory, FOOD);
    AmountWhereSnoc(pair, store[2], SaleCategory, {ELEC});
    AmountWhereSnoc(pair, store[2], SaleCategory, {FOOD});
    KeysOfSnoc(pair, store[2], SaleCategory);
    assert KeysOf(store, SaleCategory) == {ELEC, FOOD};
    var cs := RowCategories(rows);
    assert cs == [ELEC, FOOD];
    assert Elems(cs) == {ELEC, FOOD};
    assert GroupTotal(store, SaleCategory, ELEC) == 15000;
    assert GroupTotal(store, SaleCategory, FOOD) == 1000;
    assert CategorySeries(rows).labels == ["ELEC", "FOOD"];
    CategoryTotalsMatchRevenue(rows, store);
  }
}
