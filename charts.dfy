/** The chart payload both JSON endpoints return: labels and parallel numbers. */
module Charts {
  datatype ChartSeries<L> = ChartSeries(labels: seq<L>, data: seq<int>)
}
