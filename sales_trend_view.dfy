/**
 The trend page. In JSON mode it sums the amounts of the sales of the last
 thirty days per date and returns the dates in ascending order with the
 parallel daily totals; otherwise it lists the sales of the window.

 Dates are day numbers. The JSON labels are `YYYY-MM-DD` strings, whose
 lexicographic order is the chronological order for four-digit years, so
 ordering day numbers stands for ordering the labels.
 */
module SalesTrendView {
  import opened Options
  import opened Sales
  import opened Seqs
  import opened Grouping
  import opened Charts

  const WindowDays: int := 30

  /** On or after thirty days before today; there is no upper bound. */
  predicate InWindow(s: Sale, today: int)
  {
    s.date >= today - WindowDays
  }

  /**
   The page's queryset: every sale in the window, each as often as the store
   holds it, and nothing else.
   */
  function GetQueryset(sales: seq<Sale>, today: int): (r: seq<Sale>)
    ensures forall s :: multiset(r)[s] == if InWindow(s, today) then multiset(sales)[s] else 0
  {
    if sales == [] then []
    else
      assert sales == [sales[0]] + sales[1..];
      (if InWindow(sales[0], today) then [sales[0]] else []) + GetQueryset(sales[1..], today)
  }

  /** The dates on which at least one sale of `qs` happened. */
  function DatesOf(qs: seq<Sale>): set<int>
  {
    KeysOf(qs, SaleDate)
  }

  /** The total amount of the sales of `qs` dated `d`. */
  function DayTotal(qs: seq<Sale>, d: int): int
  {
    GroupTotal(qs, SaleDate, d)
  }

  /**
   `labels`/`data` is the daily trend of `qs`: ascending dates without
   repetition, exactly the dates that have sales, each paired with the total
   of that day.
   */
  ghost predicate IsTrend(qs: seq<Sale>, labels: seq<int>, data: seq<int>)
  {
    && |labels| == |data|
    && StrictlyAscending(labels)
    && Elems(labels) == DatesOf(qs)
    && forall i :: 0 <= i < |data| ==> data[i] == DayTotal(qs, labels[i])
  }

  /**
   The dictionary `trendData`, with its keys in insertion order `keys`, holds
   the daily totals of the sales folded so far.
   */
  ghost predicate Folded(trendData: map<int, int>, keys: seq<int>, done: seq<Sale>)
  {
    && Distinct(keys)
    && Elems(keys) == trendData.Keys == DatesOf(done)
    && forall d :: d in trendData ==> trendData[d] == DayTotal(done, d)
  }

  /** Folding one more sale into the dictionary keeps it the daily totals. */
  lemma FoldStep(trendData: map<int, int>, keys: seq<int>, done: seq<Sale>, sale: Sale)
    requires Folded(trendData, keys, done)
    ensures Folded(trendData[sale.date := (if sale.date in trendData then trendData[sale.date] else 0) + sale.amount],
                   if sale.date in trendData then keys else keys + [sale.date],
                   done + [sale])
  {
    var date := sale.date;
    KeysOfSnoc(done, sale, SaleDate);
    forall d ensures DayTotal(done + [sale], d) == DayTotal(done, d) + (if date == d then sale.amount else 0) {
      AmountWhereSnoc(done, sale, SaleDate, {d});
    }
    if date !in trendData {
      GroupTotalAbsent(done, SaleDate, date);
    }
  }

  /** Sorting the dictionary's keys gives ascending dates, exactly those with sales. */
  lemma SortedKeys(trendData: map<int, int>, keys: seq<int>, done: seq<Sale>)
    requires Folded(trendData, keys, done)
    ensures StrictlyAscending(Sort(keys))
    ensures Elems(Sort(keys)) == DatesOf(done)
    ensures forall j :: 0 <= j < |Sort(keys)| ==> Sort(keys)[j] in trendData
  {
    var labels := Sort(keys);
    PermutationElems(labels, keys);
    forall j | 0 <= j < |labels| ensures labels[j] in trendData {
      assert labels[j] in Elems(labels);
    }
  }

  /**
   The JSON rollup: fold the queryset into a dictionary from date to running
   total, then emit the sorted keys and, in parallel, their totals.
   */
  method TrendRollup(queryset: seq<Sale>) returns (labels: seq<int>, data: seq<int>)
    ensures |labels| == |data|
    ensures StrictlyAscending(labels)
    ensures Elems(labels) == DatesOf(queryset)
    ensures forall i :: 0 <= i < |data| ==> data[i] == DayTotal(queryset, labels[i])
  {
    var trendData: map<int, int> := map[];
    // the dictionary's keys, in insertion order
    var keys: seq<int> := [];
    for i := 0 to |queryset|
      invariant Folded(trendData, keys, queryset[..i])
    {
      var sale := queryset[i];
      var date := sale.date;
      assert queryset[..i + 1] == queryset[..i] + [sale];
      FoldStep(trendData, keys, queryset[..i], sale);
      if date !in trendData {
        keys := keys + [date];
      }
      trendData := trendData[date := (if date in trendData then trendData[date] else 0) + sale.amount];
    }
    assert queryset[..|queryset|] == queryset;
    labels := Sort(keys);
    SortedKeys(trendData, keys, queryset);
    data := seq(|labels|, j requires 0 <= j < |labels| => trendData[labels[j]]);
  }

  datatype TrendResponse =
    | TrendJson(series: ChartSeries<int>)
    | SaleList(sales: seq<Sale>)

  /**
   With `format=json` the daily trend of the window; otherwise the window's
   sales for the page template.
   */
  method RenderToResponse(sales: seq<Sale>, today: int, format: Option<string>) returns (resp: TrendResponse)
    ensures format == Some("json") ==>
              resp.TrendJson? && IsTrend(GetQueryset(sales, today), resp.series.labels, resp.series.data)
    ensures format != Some("json") ==> resp == SaleList(GetQueryset(sales, today))
  {
    var queryset := GetQueryset(sales, today);
    if format == Some("json") {
      var labels, data := TrendRollup(queryset);
      resp := TrendJson(ChartSeries(labels, data));
    } else {
      resp := SaleList(queryset);
    }
  }

  /** The daily totals add up to the total amount of the queryset. */
  lemma TrendConservesTotal(qs: seq<Sale>, labels: seq<int>, data: seq<int>)
    requires IsTrend(qs, labels, data)
    ensures Sum(data) == TotalAmount(qs)
  {
    StrictlyAscendingDistinct(labels);
    SumOfGroupTotals(labels, data, qs, SaleDate);
  }

  /**
   The trend depends only on which sales the queryset holds, not on the order
   it yields them in.
   */
  lemma TrendOrderIndependent(q1: seq<Sale>, l1: seq<int>, d1: seq<int>,
                              q2: seq<Sale>, l2: seq<int>, d2: seq<int>)
    requires multiset(q1) == multiset(q2)
    requires IsTrend(q1, l1, d1) && IsTrend(q2, l2, d2)
    ensures l1 == l2 && d1 == d2
  {
    KeysOfPermutation(q1, q2, SaleDate);
    StrictlyAscendingUnique(l1, l2);
    forall i | 0 <= i < |d1| ensures d1[i] == d2[i] {
      AmountWherePermutation(q1, q2, SaleDate, {l1[i]});
    }
  }

  /** No sales, no trend. */
  lemma EmptyTrend(labels: seq<int>, data: seq<int>)
    requires IsTrend([], labels, data)
    ensures labels == [] && data == []
  {
    ElemsEmpty(labels);
  }

  /**
   Against the whole store: a date is a label exactly when some sale of the
   window is dated that day. Days without sales are never produced, and sales
   dated after today are kept.
   */
  lemma TrendLabelsAreWindowDates(sales: seq<Sale>, today: int, labels: seq<int>, data: seq<int>)
    requires IsTrend(GetQueryset(sales, today), labels, data)
    ensures forall d :: d in labels <==> exists s :: s in sales && InWindow(s, today) && s.date == d
    ensures forall d :: d in labels ==> d >= today - WindowDays
  {
    var qs := GetQueryset(sales, today);
    forall d ensures d in labels <==> exists s :: s in sales && InWindow(s, today) && s.date == d {
      assert d in labels <==> d in Elems(labels);
      if d in labels {
        var s :| s in qs && SaleDate(s) == d;
        assert multiset(qs)[s] > 0;
        assert s in sales && InWindow(s, today);
      }
      if exists s :: s in sales && InWindow(s, today) && s.date == d {
        var s :| s in sales && InWindow(s, today) && s.date == d;
        assert multiset(sales)[s] > 0;
        assert s in qs;
        assert SaleDate(s) in DatesOf(qs);
      }
    }
  }
}
