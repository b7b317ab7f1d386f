/** The dashboard talking to this repository's own backend: the transport is the
    backend's request handler over a fixed table. */
module EndToEnd {
  import opened Types
  import Backend
  import Api
  import Dashboard

  /** The backend as the client's transport. */
  function Server(df: seq<Row>, toDatetime: string -> Result<Date, string>): Request -> HttpResult {
    req => Backend.Handle(df, toDatetime, req)
  }

  /** The bound the server applies for a date typed into the form: a date left
      empty is not sent, so the server applies no bound for it. */
  function BoundFor(date: string, toDatetime: string -> Result<Date, string>): Result<Option<Date>, string> {
    Backend.ParseBound(if date != "" then Some(date) else None, toDatetime)
  }

  /** What the server reads from the client's history query: the index name, and
      each date exactly when the form's date is non-empty. */
  lemma HistoryQueryAsReceived(indexName: string, startDate: string, endDate: string)
    ensures Backend.StrParam(Api.HistoryParams(indexName, startDate, endDate), "index_name") == Some(indexName)
    ensures Backend.StrParam(Api.HistoryParams(indexName, startDate, endDate), "start_date") ==
      (if startDate != "" then Some(startDate) else None)
    ensures Backend.StrParam(Api.HistoryParams(indexName, startDate, endDate), "end_date") ==
      (if endDate != "" then Some(endDate) else None)
  {
  }

  /** A date the server cannot parse: its answer is the `{"error"}` envelope, which
      has no `data`, so the client's history call yields no rows (it does not
      reject). */
  lemma ErrorEnvelopeGivesNoRows(
    df: seq<Row>, toDatetime: string -> Result<Date, string>,
    indexName: string, startDate: string, endDate: string)
    requires BoundFor(startDate, toDatetime).Err? || BoundFor(endDate, toDatetime).Err?
    ensures Server(df, toDatetime)(Api.HistoryRequest(indexName, startDate, endDate)).body.data.None?
    ensures Api.GetHistory(indexName, startDate, endDate, Server(df, toDatetime)) == Fulfilled([])
  {
    HistoryQueryAsReceived(indexName, startDate, endDate);
  }

  /** With dates the server can parse, the client receives exactly the table's
      matching rows, ascending by date. */
  lemma HistoryRowsEndToEnd(
    df: seq<Row>, toDatetime: string -> Result<Date, string>,
    indexName: string, startDate: string, endDate: string)
    requires BoundFor(startDate, toDatetime).Ok? && BoundFor(endDate, toDatetime).Ok?
    ensures Api.GetHistory(indexName, startDate, endDate, Server(df, toDatetime)).Fulfilled?
    ensures
      var rows := Api.GetHistory(indexName, startDate, endDate, Server(df, toDatetime)).value;
      && Backend.SortedByDate(rows)
      && multiset(rows) == multiset(Backend.SelectRows(df, indexName,
           BoundFor(startDate, toDatetime).value, BoundFor(endDate, toDatetime).value))
  {
    HistoryQueryAsReceived(indexName, startDate, endDate);
  }

  /** The backend has no `/predict` route, so the forecast is always empty. */
  lemma NoForecastFromBackend(df: seq<Row>, toDatetime: string -> Result<Date, string>, indexName: string, days: int)
    ensures Server(df, toDatetime)(Api.PredictionsRequest(indexName, days)).Failed?
    ensures Api.GetPredictions(indexName, Server(df, toDatetime), days) == Fulfilled([])
  {
  }

  /** The selector's list is the table's names, ascending and each once. */
  lemma IndicesEndToEnd(df: seq<Row>, toDatetime: string -> Result<Date, string>)
    ensures Api.GetIndices(Server(df, toDatetime)).Fulfilled?
    ensures Api.GetIndices(Server(df, toDatetime)).value.Some?
    ensures Backend.StrictlySorted(Api.GetIndices(Server(df, toDatetime)).value.value)
    ensures forall y :: y in Api.GetIndices(Server(df, toDatetime)).value.value <==>
      exists row :: row in df && row.indexName == y
  {
  }

  /** One load against the backend. An unparseable date ends in the no-data
      message with no rows; otherwise the page holds the matching rows in date
      order, no forecast, and shows the charts exactly when there are rows and the
      no-data message exactly when there are none. */
  method LoadFromBackend(
    df: seq<Row>, toDatetime: string -> Result<Date, string>,
    index: string, startDate: string, endDate: string)
    returns (shown: seq<Row>, forecast: seq<Prediction>, v: Dashboard.View)
    requires index != ""
    ensures BoundFor(startDate, toDatetime).Err? || BoundFor(endDate, toDatetime).Err? ==>
      shown == [] && v.noDataMessage && v.charts.None?
    ensures BoundFor(startDate, toDatetime).Ok? && BoundFor(endDate, toDatetime).Ok? ==>
      && Backend.SortedByDate(shown)
      && multiset(shown) == multiset(Backend.SelectRows(df, index,
           BoundFor(startDate, toDatetime).value, BoundFor(endDate, toDatetime).value))
      && (v.noDataMessage <==> shown == [])
      && (v.charts.Some? <==> shown != [])
    ensures forecast == [] && !v.loadingMessage
  {
    var send := Server(df, toDatetime);
    NoForecastFromBackend(df, toDatetime, index, Dashboard.PredictionDays);
    if BoundFor(startDate, toDatetime).Err? || BoundFor(endDate, toDatetime).Err? {
      ErrorEnvelopeGivesNoRows(df, toDatetime, index, startDate, endDate);
    } else {
      HistoryRowsEndToEnd(df, toDatetime, index, startDate, endDate);
    }
    shown, forecast, v := Dashboard.Load(index, startDate, endDate, send);
  }
}
