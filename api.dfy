/** The browser's API client: three GET requests and the unwrapping of their
    envelopes. The transport (axios and the fixed base address) is the parameter
    `send`, which maps the request issued to how the exchange ended. */
module Api {
  import opened Types

  const IndicesPath := "/indices"
  const HistoryPath := "/history"
  const PredictPath := "/predict"

  /** The forecast horizon used when a caller gives none. */
  const DefaultDays := 7

  /** `getIndices`: the `indices` field of the body (absent stays absent:
      JavaScript's `undefined`); a failed exchange rejects the promise. */
  function GetIndices(send: Request -> HttpResult): (r: Outcome<Option<seq<string>>>)
    ensures r.Rejected? <==> send(Request(IndicesPath, map[])).Failed?
    ensures r.Fulfilled? ==> r.value == send(Request(IndicesPath, map[])).body.indices
  {
    match send(Request(IndicesPath, map[]))
    case Failed(reason) => Rejected(reason)
    case Response(body) => Fulfilled(body.indices)
  }

  /** The query of `getHistory`: `index_name` always, each date only when it is a
      non-empty string, and nothing else. */
  function HistoryParams(indexName: string, startDate: string, endDate: string): (p: Params)
    ensures "index_name" in p && p["index_name"] == Text(indexName)
    ensures "start_date" in p <==> JsTruthy(startDate)
    ensures "start_date" in p ==> p["start_date"] == Text(startDate)
    ensures "end_date" in p <==> JsTruthy(endDate)
    ensures "end_date" in p ==> p["end_date"] == Text(endDate)
    ensures forall k :: k in p ==> k in {"index_name", "start_date", "end_date"}
  {
    var base := map["index_name" := Text(indexName)];
    var withStart := if JsTruthy(startDate) then base["start_date" := Text(startDate)] else base;
    if JsTruthy(endDate) then withStart["end_date" := Text(endDate)] else withStart
  }

  /** The same query, built the way the client builds it: one object, then a field
      assigned for each truthy date. */
  method BuildHistoryParams(indexName: string, startDate: string, endDate: string) returns (params: Params)
    ensures params == HistoryParams(indexName, startDate, endDate)
  {
    params := map["index_name" := Text(indexName)];
    if startDate != "" {
      params := params["start_date" := Text(startDate)];
    }
    if endDate != "" {
      params := params["end_date" := Text(endDate)];
    }
  }

  function HistoryRequest(indexName: string, startDate: string, endDate: string): Request {
    Request(HistoryPath, HistoryParams(indexName, startDate, endDate))
  }

  /** `res.data.data || []`: the rows, or none when the field is absent. */
  function RowsOf(body: Envelope): (rows: seq<Row>)
    ensures body.data.None? ==> rows == []
    ensures body.data.Some? ==> rows == body.data.value
  {
    body.data.GetOr([])
  }

  /** `getHistory`: the body's rows, `[]` when the body has no `data` field; a failed
      exchange rejects the promise. */
  function GetHistory(indexName: string, startDate: string, endDate: string, send: Request -> HttpResult): (r: Outcome<seq<Row>>)
    ensures r.Rejected? <==> send(HistoryRequest(indexName, startDate, endDate)).Failed?
    ensures r.Fulfilled? ==> r.value == RowsOf(send(HistoryRequest(indexName, startDate, endDate)).body)
  {
    match send(HistoryRequest(indexName, startDate, endDate))
    case Failed(reason) => Rejected(reason)
    case Response(body) => Fulfilled(RowsOf(body))
  }

  /** The query of `getPredictions`: exactly the index name and the day count. */
  function PredictionsRequest(indexName: string, days: int := DefaultDays): (q: Request)
    ensures q.path == PredictPath
    ensures q.params.Keys == {"index_name", "days"}
    ensures q.params["index_name"] == Text(indexName) && q.params["days"] == Number(days)
  {
    Request(PredictPath, map["index_name" := Text(indexName), "days" := Number(days)])
  }

  /** `getPredictions`: never rejects. A failed exchange gives `[]`, as does a body
      without `predictions`. */
  function GetPredictions(indexName: string, send: Request -> HttpResult, days: int := DefaultDays): (r: Outcome<seq<Prediction>>)
    ensures r.Fulfilled?
    ensures send(PredictionsRequest(indexName, days)).Failed? ==> r.value == []
    ensures send(PredictionsRequest(indexName, days)).Response? ==>
      r.value == send(PredictionsRequest(indexName, days)).body.predictions.GetOr([])
  {
    match send(PredictionsRequest(indexName, days))
    case Failed(_) => Fulfilled([])
    case Response(body) => Fulfilled(body.predictions.GetOr([]))
  }

  /** A caller that gives no horizon asks for seven days. */
  lemma DefaultHorizon(indexName: string, send: Request -> HttpResult)
    ensures PredictionsRequest(indexName).params["days"] == Number(7)
    ensures GetPredictions(indexName, send) == GetPredictions(indexName, send, 7)
  {
  }
}
