/** Values that cross the wire between the dashboard and its backend:
    the table rows, the forecast rows, the JSON envelopes and the HTTP exchange. */
module Types {

  datatype Option<+T> = None | Some(value: T) {
    /** JavaScript's `x || d` for a value that is either absent or an array (arrays are always truthy). */
    function GetOr(default: T): T {
      match this
      case Some(v) => v
      case None => default
    }
  }

  datatype Result<+T, +E> = Ok(value: T) | Err(error: E)

  /** A calendar date, already parsed; only its order matters. */
  type Date = int

  /** One row of the index table (`index_name`, `index_date`, `closing_index_value`,
      `change_percent`, `pe_ratio`); a missing PE ratio is `None`. */
  datatype Row = Row(
    indexName: string,
    indexDate: Date,
    closingIndexValue: real,
    changePercent: real,
    peRatio: Option<real>)

  /** One forecast row (`index_date`, `predicted_close`). */
  datatype Prediction = Prediction(indexDate: Date, predictedClose: real)

  /** A JSON response body: each field the client may read is present or absent. */
  datatype Envelope = Envelope(
    indices: Option<seq<string>>,
    data: Option<seq<Row>>,
    predictions: Option<seq<Prediction>>,
    message: Option<string>,
    error: Option<string>)

  /** The body `{}`; the others are built from it with field updates. */
  const EmptyEnvelope := Envelope(None, None, None, None, None)

  /** A query-string value as the client hands it to the transport. */
  datatype Param = Text(text: string) | Number(number: int)

  type Params = map<string, Param>

  datatype Request = Request(path: string, params: Params)

  /** What the transport gives back: a 2xx response with its body, or a failure
      (no response, or a non-success status). */
  datatype HttpResult = Response(body: Envelope) | Failed(reason: string)

  /** How a JavaScript promise settles. */
  datatype Outcome<+T> = Fulfilled(value: T) | Rejected(reason: string)

  /** Python truthiness of an `Optional[str]`: neither `None` nor the empty string. */
  predicate PyTruthy(s: Option<string>) {
    s.Some? && s.value != ""
  }

  /** JavaScript truthiness of a string: not the empty string. */
  predicate JsTruthy(s: string) {
    s != ""
  }
}
