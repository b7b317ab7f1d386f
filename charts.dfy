/** The chart data the dashboard hands to its line charts: pure projections of the
    loaded history and predictions. A JavaScript array of numbers and nulls is a
    sequence of `Option<real>`. */
module Charts {
  import opened Types

  /** One series; `title` is the Chart.js `label` (a reserved word in Dafny). */
  datatype Dataset = Dataset(title: string, data: seq<Option<real>>)

  /** The `data` object of one `<Line>`: the x-axis labels and the plotted series. */
  datatype Chart = Chart(labels: seq<Date>, datasets: seq<Dataset>)

  /** The three charts shown once history is loaded. */
  datatype Panel = Panel(closing: Chart, change: Chart, pe: Chart)

  /** JavaScript's `Array.prototype.map`: one result per element, in order. */
  function Map<T, U>(s: seq<T>, f: T -> U): (r: seq<U>)
    ensures |r| == |s|
    ensures forall i :: 0 <= i < |s| ==> r[i] == f(s[i])
  {
    if s == [] then [] else [f(s[0])] + Map(s[1..], f)
  }

  // The arrow functions handed to `map` by the charts.

  function RowDate(row: Row): Date { row.indexDate }
  function RowClose(row: Row): Option<real> { Some(row.closingIndexValue) }
  function RowChange(row: Row): Option<real> { Some(row.changePercent) }
  function RowPe(row: Row): Option<real> { row.peRatio }
  function ForecastDate(p: Prediction): Date { p.indexDate }
  function ForecastClose(p: Prediction): Option<real> { Some(p.predictedClose) }

  /** `n` nulls. */
  function Nulls(n: nat): (r: seq<Option<real>>)
    ensures |r| == n
    ensures forall i :: 0 <= i < n ==> r[i] == None
  {
    if n == 0 then [] else [None] + Nulls(n - 1)
  }

  /** `new Array(n).fill(null)`: a negative length throws a RangeError. */
  function NullArray(n: int): (r: Result<seq<Option<real>>, string>)
    ensures r.Ok? <==> n >= 0
    ensures r.Ok? ==> |r.value| == n && forall i :: 0 <= i < n ==> r.value[i] == None
  {
    if n < 0 then Err("RangeError: Invalid array length") else Ok(Nulls(n))
  }

  /** The "Predicted Close" series: `N - 1` nulls, the last closing value as the
      anchor that joins the two lines, then every predicted close in order. With
      no history the array allocation throws, before the `length > 0` test in the
      anchor expression is ever reached. */
  function PredictedCloseData(h: seq<Row>, p: seq<Prediction>): (r: Result<seq<Option<real>>, string>)
    ensures r.Ok? <==> |h| > 0
    ensures r.Ok? ==> |r.value| == |h| + |p|
    ensures r.Ok? ==> forall i :: 0 <= i < |h| - 1 ==> r.value[i] == None
    ensures r.Ok? ==> r.value[|h| - 1] == Some(h[|h| - 1].closingIndexValue)
    ensures r.Ok? ==> forall j :: 0 <= j < |p| ==> r.value[|h| + j] == Some(p[j].predictedClose)
  {
    match NullArray(|h| - 1)
    case Err(e) => Err(e)
    case Ok(nulls) =>
      var anchor := if |h| > 0 then Some(h[|h| - 1].closingIndexValue) else None;
      Ok(nulls + [anchor] + Map(p, ForecastClose))
  }

  /** The closing-value chart: labels are the history dates then the prediction
      dates; "Closing Value" covers the history part only. */
  function ClosingChart(h: seq<Row>, p: seq<Prediction>): (r: Result<Chart, string>)
    ensures r.Ok? <==> |h| > 0
    ensures r.Ok? ==> |r.value.labels| == |h| + |p|
    ensures r.Ok? ==> forall i :: 0 <= i < |h| ==> r.value.labels[i] == h[i].indexDate
    ensures r.Ok? ==> forall j :: 0 <= j < |p| ==> r.value.labels[|h| + j] == p[j].indexDate
    ensures r.Ok? ==> |r.value.datasets| == 2
    ensures r.Ok? ==> r.value.datasets[0].title == "Closing Value" && |r.value.datasets[0].data| == |h|
    ensures r.Ok? ==> forall i :: 0 <= i < |h| ==> r.value.datasets[0].data[i] == Some(h[i].closingIndexValue)
    ensures r.Ok? ==> r.value.datasets[1].title == "Predicted Close" && PredictedCloseData(h, p) == Ok(r.value.datasets[1].data)
  {
    var labels := Map(h, RowDate) + Map(p, ForecastDate);
    match PredictedCloseData(h, p)
    case Err(e) => Err(e)
    case Ok(predicted) => Ok(Chart(labels, [Dataset("Closing Value", Map(h, RowClose)), Dataset("Predicted Close", predicted)]))
  }

  /** The "% Change" chart: one label and one value per history row. */
  function ChangeChart(h: seq<Row>): (c: Chart)
    ensures |c.labels| == |h| && |c.datasets| == 1 && |c.datasets[0].data| == |h|
    ensures c.datasets[0].title == "% Change"
    ensures forall i :: 0 <= i < |h| ==> c.labels[i] == h[i].indexDate && c.datasets[0].data[i] == Some(h[i].changePercent)
  {
    Chart(Map(h, RowDate), [Dataset("% Change", Map(h, RowChange))])
  }

  /** The "PE Ratio" chart: one label and one value (or gap) per history row. */
  function PeChart(h: seq<Row>): (c: Chart)
    ensures |c.labels| == |h| && |c.datasets| == 1 && |c.datasets[0].data| == |h|
    ensures c.datasets[0].title == "PE Ratio"
    ensures forall i :: 0 <= i < |h| ==> c.labels[i] == h[i].indexDate && c.datasets[0].data[i] == h[i].peRatio
  {
    Chart(Map(h, RowDate), [Dataset("PE Ratio", Map(h, RowPe))])
  }

  /** The three charts, built only behind the dashboard's `historyData.length > 0` gate. */
  function PanelFor(h: seq<Row>, p: seq<Prediction>): (panel: Panel)
    requires |h| > 0
    ensures ClosingChart(h, p) == Ok(panel.closing)
    ensures panel.change == ChangeChart(h) && panel.pe == PeChart(h)
  {
    Panel(ClosingChart(h, p).value, ChangeChart(h), PeChart(h))
  }

  /** With a single history row there are no leading nulls: the series is the
      anchor followed by the predictions. */
  lemma {:induction false} SingleRowSeries(row: Row, p: seq<Prediction>)
    ensures PredictedCloseData([row], p) == Ok([Some(row.closingIndexValue)] + Map(p, ForecastClose))
  {
    var tail := [Some(row.closingIndexValue)] + Map(p, ForecastClose);
    assert NullArray(0) == Ok([]);
    assert [] + [Some(row.closingIndexValue)] + Map(p, ForecastClose) == tail;
  }

  /** A worked case: two history days and one forecast day. */
  lemma TwoDaysAndOneForecast()
    ensures
      var h := [Row("NIFTY50", 20240101, 100.0, 0.5, Some(22.1)), Row("NIFTY50", 20240102, 102.0, 2.0, Some(22.4))];
      var p := [Prediction(20240103, 103.0)];
      ClosingChart(h, p) == Ok(Chart(
        [20240101, 20240102, 20240103],
        [Dataset("Closing Value", [Some(100.0), Some(102.0)]),
         Dataset("Predicted Close", [None, Some(102.0), Some(103.0)])]))
  {
    var h := [Row("NIFTY50", 20240101, 100.0, 0.5, Some(22.1)), Row("NIFTY50", 20240102, 102.0, 2.0, Some(22.4))];
    var p := [Prediction(20240103, 103.0)];
    assert Map(h, RowDate) == [20240101, 20240102];
    assert Map(h, RowClose) == [Some(100.0), Some(102.0)];
    assert Map(p, ForecastClose) == [Some(103.0)];
    assert Map(p, ForecastDate) == [20240103];
    assert Nulls(1) == [None];
    assert NullArray(|h| - 1) == Ok([None]);
    assert [None] + [Some(102.0)] + [Some(103.0)] == [None, Some(102.0), Some(103.0)];
    assert PredictedCloseData(h, p) == Ok([None, Some(102.0), Some(103.0)]);
    assert Map(h, RowDate) + Map(p, ForecastDate) == [20240101, 20240102, 20240103];
  }
}
