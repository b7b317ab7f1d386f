/** The dashboard's state and its load action. The React state hooks are the
    fields of a `Dashboard` object; `fetchHistory` is the pair `Begin` (before the
    requests go out) and `Settle` (the then/catch/finally of the joint promise),
    and `FetchHistory` runs both around the two client calls. */
module Dashboard {
  import opened Types
  import Api
  import Charts

  /** The horizon the dashboard asks forecasts for. */
  const PredictionDays := 7

  /** How `Promise.all([getHistory(...), getPredictions(...)])` settles. The
      predictions are optional because the `then` handler guards them with `|| []`. */
  datatype Settlement = Resolved(history: seq<Row>, predictions: Option<seq<Prediction>>) | AnyRejected

  /** `Promise.all`: fulfilled when both are, rejected as soon as one rejects. */
  function All(h: Outcome<seq<Row>>, p: Outcome<seq<Prediction>>): (s: Settlement)
    ensures s.Resolved? <==> h.Fulfilled? && p.Fulfilled?
    ensures s.Resolved? ==> s.history == h.value && s.predictions == Some(p.value)
  {
    if h.Fulfilled? && p.Fulfilled? then Resolved(h.value, Some(p.value)) else AnyRejected
  }

  /** What the page shows below the controls. */
  datatype View = View(loadingMessage: bool, noDataMessage: bool, charts: Option<Charts.Panel>)

  class Dashboard {
    var indices: Option<seq<string>>
    var selectedIndex: string
    var historyData: seq<Row>
    var predictionData: seq<Prediction>
    var startDate: string
    var endDate: string
    var loading: bool
    var noData: bool

    /** The initial hook values. */
    constructor ()
      ensures indices == Some([]) && selectedIndex == ""
      ensures historyData == [] && predictionData == []
      ensures startDate == "" && endDate == ""
      ensures !loading && !noData
    {
      indices := Some([]);
      selectedIndex := "";
      historyData := [];
      predictionData := [];
      startDate := "";
      endDate := "";
      loading := false;
      noData := false;
    }

    /** The mount effect `getIndices().then(setIndices)`: a rejection is not handled,
        so the list stays as it was. */
    method Mount(send: Request -> HttpResult)
      modifies this`indices
      ensures Api.GetIndices(send).Fulfilled? ==> indices == Api.GetIndices(send).value
      ensures Api.GetIndices(send).Rejected? ==> indices == old(indices)
    {
      var r := Api.GetIndices(send);
      if r.Fulfilled? {
        indices := r.value;
      }
    }

    /** The selector's change handler. */
    method SelectIndex(name: string)
      modifies this`selectedIndex
      ensures selectedIndex == name
    {
      selectedIndex := name;
    }

    /** The start-date input's change handler. */
    method SetStartDate(date: string)
      modifies this`startDate
      ensures startDate == date
    {
      startDate := date;
    }

    /** The end-date input's change handler. */
    method SetEndDate(date: string)
      modifies this`endDate
      ensures endDate == date
    {
      endDate := date;
    }

    /** The synchronous start of `fetchHistory`: nothing at all happens without a
        selected index; otherwise the page enters the loading state with the
        empty-result flag cleared, and the requests may be issued. */
    method Begin() returns (issued: bool)
      modifies this`loading, this`noData
      ensures issued <==> selectedIndex != ""
      ensures issued ==> loading && !noData
      ensures !issued ==> loading == old(loading) && noData == old(noData)
    {
      if selectedIndex == "" {
        return false;
      }
      loading := true;
      noData := false;
      return true;
    }

    /** The handlers of the joint promise. On success the history and predictions
        replace the old ones (missing predictions become `[]`) and an empty history
        raises the empty-result flag; on rejection only the flag is raised and the
        old data stays; either way loading ends. */
    method Settle(s: Settlement)
      modifies this`historyData, this`predictionData, this`noData, this`loading
      ensures !loading
      ensures s.Resolved? ==> historyData == s.history && predictionData == s.predictions.GetOr([])
      ensures s.Resolved? ==> noData == (old(noData) || s.history == [])
      ensures s.AnyRejected? ==> noData && historyData == old(historyData) && predictionData == old(predictionData)
    {
      match s {
        case Resolved(history, predictions) =>
          historyData := history;
          predictionData := predictions.GetOr([]);
          if |history| == 0 {
            noData := true;
          }
        case AnyRejected =>
          noData := true;
      }
      loading := false;
    }

    /** `fetchHistory`, one settled call: without a selected index nothing changes.
        Otherwise loading ends false; when the history request succeeds its rows and
        the forecast are stored and the flag says exactly whether there are no rows
        (a forecast failure never raises it); when the history request fails the
        flag is raised and the previous rows and forecast stay. */
    method FetchHistory(send: Request -> HttpResult)
      modifies this`loading, this`noData, this`historyData, this`predictionData
      ensures selectedIndex == "" ==> unchanged(this)
      ensures selectedIndex != "" ==> !loading
      ensures selectedIndex != "" && Api.GetHistory(selectedIndex, startDate, endDate, send).Fulfilled? ==>
        && historyData == Api.GetHistory(selectedIndex, startDate, endDate, send).value
        && predictionData == Api.GetPredictions(selectedIndex, send, PredictionDays).value
        && (noData <==> historyData == [])
      ensures selectedIndex != "" && Api.GetHistory(selectedIndex, startDate, endDate, send).Rejected? ==>
        noData && historyData == old(historyData) && predictionData == old(predictionData)
    {
      var issued := Begin();
      if !issued {
        return;
      }
      assert loading && !noData;
      var history := Api.GetHistory(selectedIndex, startDate, endDate, send);
      var predictions := Api.GetPredictions(selectedIndex, send, PredictionDays);
      Settle(All(history, predictions));
    }

    /** The loading message, the no-data message and the chart block. The charts
        are built only when there is history and loading is over, so the last
        history row always exists for the forecast anchor; neither message nor the
        charts are ever shown together with the loading message. */
    function Render(): (v: View)
      reads this
      ensures v.loadingMessage == loading
      ensures v.noDataMessage <==> noData && !loading
      ensures v.charts.Some? <==> |historyData| > 0 && !loading
      ensures v.charts.Some? ==> Charts.ClosingChart(historyData, predictionData) == Ok(v.charts.value.closing)
      ensures v.charts.Some? ==> v.charts.value.change == Charts.ChangeChart(historyData)
      ensures v.charts.Some? ==> v.charts.value.pe == Charts.PeChart(historyData)
      ensures v.loadingMessage ==> !v.noDataMessage && v.charts.None?
    {
      View(
        loading,
        noData && !loading,
        if |historyData| > 0 && !loading then Some(Charts.PanelFor(historyData, predictionData)) else None)
    }
  }

  /** A fresh page on which an index and a date range are chosen and loaded: when
      the history request succeeds the page holds its rows and the forecast, and
      shows the charts exactly when there are rows and the no-data message exactly
      when there are none; when it fails the page keeps its empty start state and
      shows the no-data message. */
  method Load(index: string, startDate: string, endDate: string, send: Request -> HttpResult)
    returns (shown: seq<Row>, forecast: seq<Prediction>, v: View)
    requires index != ""
    ensures Api.GetHistory(index, startDate, endDate, send).Fulfilled? ==>
      && shown == Api.GetHistory(index, startDate, endDate, send).value
      && forecast == Api.GetPredictions(index, send, PredictionDays).value
      && (v.noDataMessage <==> shown == [])
      && (v.charts.Some? <==> shown != [])
    ensures Api.GetHistory(index, startDate, endDate, send).Rejected? ==>
      shown == [] && forecast == [] && v.noDataMessage && v.charts.None?
    ensures !v.loadingMessage
  {
    var d := new Dashboard();
    d.SelectIndex(index);
    d.SetStartDate(startDate);
    d.SetEndDate(endDate);
    d.FetchHistory(send);
    shown, forecast := d.historyData, d.predictionData;
    v := d.Render();
  }
}
