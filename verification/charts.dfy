/** The chart shapes the pages hand to the charting library. */
module Charts {

  /** One line of a line chart: its legend label and its points. */
  datatype Dataset = Dataset(legend: string, data: seq<real>)

  datatype LineChart = LineChart(labels: seq<string>, datasets: seq<Dataset>)

  /** A bar or pie chart: category labels and one count per label. */
  datatype CountChart = CountChart(labels: seq<string>, data: seq<int>)
}
