# Stock market dashboard: a verified model of its data logic

The dashboard lets a user pick a market index and an optional date range, loads
the index's history from a small FastAPI backend together with a short forecast,
and draws three line charts (closing value with the forecast overlaid, percent
change, PE ratio). This project models the three pieces of that system that
carry logic and proves what they promise:

- **Backend** (`backend.dfy`): `get_history` keeps the rows whose name matches
  the query after strip and lower-casing on both sides, applies each inclusive
  date bound only when it is given, sorts by date, answers `{"data": [], "message"}`
  when nothing is left and `{"error"}` when a date does not parse; `get_indices`
  lists the names sorted and without repeats; `Handle` routes a request to them.
- **API client** (`api.js`, module `Api`): the request each call sends (the
  history query holds a date only when it is non-empty), the unwrapping of the
  envelope into `[]` when its field is absent, and a forecast call that never
  fails.
- **Dashboard** (`App.jsx`, modules `Charts` and `Dashboard`): the `fetchHistory`
  transitions over `loading`, `noData`, `historyData` and `predictionData` as the
  methods of a `Dashboard` class; the chart data as pure functions, in particular
  the "Predicted Close" series of `N - 1` nulls, the last close as anchor, then the
  forecast; and the display gates.
- **End to end** (`end_to_end.dfy`): the client with this backend as its
  transport. A bad date yields the `{"error"}` envelope, that envelope has no
  `data`, so the client yields `[]` and the page shows its no-data message. Good
  dates yield exactly the matching rows in date order. The backend has no
  `/predict` route, so the forecast overlay is always empty.

HTTP is modelled as a total function `send: Request -> HttpResult` passed in as
a parameter: a response with its JSON envelope (one optional field per key), or a
failure (no response, or a non-success status). pandas' `to_datetime` for the
query's date strings is also a parameter, returning a date or the exception's
text. The table the backend serves is a parameter too: a sequence of rows with
dates already parsed (as `int`, ordered). Figures are `real`; a PE ratio that
arrives as `null` is `None`, which the chart draws as a gap.

The backend has no `/predict` endpoint, so against it the forecast is always
`[]`. A failed load only raises `noData`, so the previously loaded history and
forecast stay on the page. A `{"error"}` answer from the backend is a successful
HTTP exchange, so the client does not reject. It yields no rows: the page then
clears its history and raises `noData` through the success handler, not the
rejection handler.

## Model

| member | source | states |
|---|---|---|
| `Backend.Lower` | backend/main.py:45 | `lower()` keeps the length and lowers each character in place (ASCII A-Z) |
| `Backend.Strip` | backend/main.py:45 | `strip()` returns the part of the string between its whitespace ends: a slice whose cut-off ends are all whitespace and whose own ends are not |
| `Backend.NormalizeIdempotent` | backend/main.py:44-45 | stripping and lowering a second time changes nothing |
| `Backend.NameMatchIgnoresQueryForm` | backend/main.py:44-45 | a query and its stripped, lower-cased form select the same rows |
| `Backend.Filter` | backend/main.py:45 | a mask keeps each row that passes exactly as often as the table holds it and drops every other row |
| `Backend.ApplyStart` | backend/main.py:47-48 | with a start date only rows on or after it remain; without one nothing is dropped |
| `Backend.ApplyEnd` | backend/main.py:49-50 | with an end date only rows on or before it remain; without one nothing is dropped |
| `Backend.SelectRows` | backend/main.py:45-50 | after the three masks the result holds exactly the rows meeting the name and both bound conditions, with their multiplicity |
| `Backend.InsertByDate` | backend/main.py:55 | inserting into a date-sorted table keeps it sorted and adds exactly that row |
| `Backend.SortByDate` | backend/main.py:55 | the sorted table is ascending by date and a permutation of its input |
| `Backend.GetHistory` | backend/main.py:37-59 | a start date that does not parse gives the envelope with only `error`; so does an end date that does not parse; otherwise the body holds `data` with exactly the selected rows, sorted, plus the message exactly when they are none |
| `Backend.GetHistorySound` | backend/main.py:45-50 | every row returned is a table row whose name matches and which meets each given bound |
| `Backend.GetHistoryComplete` | backend/main.py:45-56 | every table row that meets the conditions is returned |
| `Backend.StrLessIrreflexive` | backend/main.py:34 | no name sorts before itself |
| `Backend.StrLessTransitive` | backend/main.py:34 | the string order used by `sorted` is transitive |
| `Backend.StrLessTotal` | backend/main.py:34 | of two different names one sorts before the other |
| `Backend.InsertName` | backend/main.py:34 | adding a name to a strictly ascending list keeps it strictly ascending, holding the old names and the new one only |
| `Backend.SortedUnique` | backend/main.py:34 | `sorted(unique(names))` is strictly ascending (so without repeats) and holds exactly the given names |
| `Backend.StrictlySortedUnique` | backend/main.py:34 | two strictly ascending lists of the same names are equal, so the listing does not depend on how it is computed |
| `Backend.Names` | backend/main.py:34 | the name column has one entry per row, in row order |
| `Backend.GetIndices` | backend/main.py:31-35 | the body holds only `indices`: strictly ascending, and a name is in it iff some row carries it |
| `Backend.Handle` | backend/main.py:31-42 | `/indices` and `/history` answer with their envelopes, a missing `index_name` fails validation, and every other path (so `/predict`) fails |
| `Api.GetIndices` | frontend/src/api.js:6-9 | rejects exactly when the exchange fails; otherwise yields the `indices` field unchanged, absent included |
| `Api.HistoryParams` | frontend/src/api.js:13-15 | the query always holds `index_name`; it holds `start_date` iff the start date is non-empty, with that date as its value; the same for `end_date`; it holds no other key |
| `Api.BuildHistoryParams` | frontend/src/api.js:13-15 | the object built by conditional field assignment is that query |
| `Api.RowsOf` | frontend/src/api.js:18 | the rows are the `data` field, or `[]` when it is absent |
| `Api.GetHistory` | frontend/src/api.js:12-19 | rejects exactly when the exchange fails; otherwise yields the body's rows, `[]` without a `data` field |
| `Api.PredictionsRequest` | frontend/src/api.js:24-26 | the forecast query holds exactly `index_name` and `days` |
| `Api.GetPredictions` | frontend/src/api.js:22-32 | never rejects; a failed exchange gives `[]`; otherwise the `predictions` field, or `[]` without one |
| `Api.DefaultHorizon` | frontend/src/api.js:22 | a call without `days` asks for 7 days and is the call with `days` 7 |
| `Charts.Map` | frontend/src/App.jsx:159-160 | `map` gives one result per element, the element's projection, in order (used for every label and value series of the charts) |
| `Charts.Nulls` | frontend/src/App.jsx:173 | `n` nulls |
| `Charts.NullArray` | frontend/src/App.jsx:173 | allocating `n` nulls succeeds iff `n` is not negative |
| `Charts.PredictedCloseData` | frontend/src/App.jsx:172-178 | defined iff there is history; then `N + M` points: nulls before position `N - 1`, the last close at `N - 1`, the predicted closes in order after it |
| `Charts.ClosingChart` | frontend/src/App.jsx:157-185 | defined iff there is history; then `N + M` labels (history dates, then forecast dates), "Closing Value" with the `N` closes and "Predicted Close" with the anchored series |
| `Charts.ChangeChart` | frontend/src/App.jsx:194-205 | `N` labels and `N` percent changes, pointwise from the history rows |
| `Charts.PeChart` | frontend/src/App.jsx:214-225 | `N` labels and `N` PE ratios, pointwise from the history rows |
| `Charts.PanelFor` | frontend/src/App.jsx:151-229 | with history present the three charts are the closing, change and PE charts, the closing one well-defined |
| `Charts.SingleRowSeries` | frontend/src/App.jsx:173-177 | with one history row the forecast series begins with the anchor, without nulls |
| `Charts.TwoDaysAndOneForecast` | frontend/src/App.jsx:157-178 | two days closing 100 and 102 and one forecast of 103 give labels of three dates, closes [100, 102] and forecast series [null, 102, 103] |
| `Dashboard.All` | frontend/src/App.jsx:76-79 | the pair settles as fulfilled iff both calls do, carrying both values |
| `Dashboard.Dashboard.constructor` | frontend/src/App.jsx:58-65 | the initial state: no indices, nothing selected, no data, empty dates, not loading, no empty-result flag |
| `Dashboard.Dashboard.Mount` | frontend/src/App.jsx:67-69 | the index list becomes what the listing yields, and stays as it was when the listing rejects |
| `Dashboard.Dashboard.SelectIndex` | frontend/src/App.jsx:107 | the selection becomes the chosen name |
| `Dashboard.Dashboard.SetStartDate` | frontend/src/App.jsx:123 | the start date becomes the typed date |
| `Dashboard.Dashboard.SetEndDate` | frontend/src/App.jsx:133 | the end date becomes the typed date |
| `Dashboard.Dashboard.Begin` | frontend/src/App.jsx:72-74 | without a selection nothing changes and no request is issued; otherwise loading is on and the flag is off before the requests go out |
| `Dashboard.Dashboard.Settle` | frontend/src/App.jsx:80-92 | loading ends; on success the data become the returned history and forecast (`[]` for a missing forecast) and the flag is raised if the history is empty; on rejection the flag is raised and the old data stay |
| `Dashboard.Dashboard.FetchHistory` | frontend/src/App.jsx:71-93 | without a selection nothing changes; otherwise loading ends, a successful history call stores the rows and the forecast with the flag set iff the rows are empty, and a failed one raises the flag and keeps the old data |
| `Dashboard.Dashboard.Render` | frontend/src/App.jsx:147-151 | the loading message follows `loading`; the no-data message shows iff `noData` and not loading; the charts show iff there is history and not loading; the loading message never shows with either |
| `Dashboard.Load` | frontend/src/App.jsx:71-93 | on a fresh page, one load ends not loading; after a successful history call the charts show iff there are rows and the message iff there are none; after a failed one there are no rows and the message shows |
| `EndToEnd.HistoryQueryAsReceived` | frontend/src/api.js:13-15 | the server reads the index name, and a date exactly when the form's date is non-empty |
| `EndToEnd.ErrorEnvelopeGivesNoRows` | frontend/src/api.js:18 | a date the server cannot parse gives an answer without `data`, which the client turns into `[]` |
| `EndToEnd.HistoryRowsEndToEnd` | backend/main.py:45-56 | with dates the server can parse the client receives the selected rows, sorted by date |
| `EndToEnd.NoForecastFromBackend` | frontend/src/api.js:27-31 | the forecast request is not served by this backend, so the client's forecast is `[]` |
| `EndToEnd.IndicesEndToEnd` | frontend/src/api.js:6-9 | the client's index list is the table's names, strictly ascending |
| `EndToEnd.LoadFromBackend` | frontend/src/App.jsx:83-85 | against the backend, a bad date ends with no rows and the no-data message; good dates end with the selected rows in date order, no forecast, charts iff rows and the message iff none |

## Left out

- Rendering: the JSX layout, `chartOptions` styling and animation, Chart.js registration, the footer. `Render` models only which of the three blocks show, and the data objects the charts receive.
- Tooltip and tick formatting with `date-fns`: library date formatting.
- axios and the base address: every exchange is the `send` parameter. Query values reach the server as strings; the model passes the client's values through unchanged, and the server reads text parameters only, which is all it ever receives.
- `console.error` in the forecast call: a side effect with no bearing on the result.
- Concurrency: the two requests are issued together, but the model settles one call as a single transition. Overlapping loads and their races are not modelled.
- `Backend.ParseBound`: pandas' `to_datetime` is modelled as giving a date or raising. Strings such as "NaT" or "nan" parse to a missing date, against which every comparison is false, so the source answers with no rows; the date inputs never send such strings.
- `EndToEnd.HistoryRowsEndToEnd`: assumes every selected row reaches the client. pandas holds a missing figure as NaN, and FastAPI's JSON encoding refuses NaN after the handler returns (outside its `try`), so a selected row with a missing figure would likely end in a server error and a rejected `getHistory`; this JSON-encoding step is not modelled.
- Loading the CSV, and the `to_datetime(..., format="mixed", dayfirst=True)` parsing and `dropna` of the table's dates: the table is given with dates already parsed. The query's date parsing is a parameter.
- The CORS middleware and `/health`: `Handle` treats every path other than `/indices` and `/history` as not found.
- `Backend.SortByDate`: pandas' default sort is not stable, so rows with equal dates may come back in any order. The model sorts stably and proves only what holds for every order: ascending dates and the same rows.
- `Backend.Strip` and `Backend.Lower`: only ASCII whitespace and ASCII capitals are treated; Python's Unicode whitespace and case mapping are not modelled.
- Missing (`NaN`) index names in the table, which `str.strip` and `unique` treat specially: names are always strings here.
- Rendering the index list after a listing without `indices`: the state then holds an absent list, as the source does; the dropdown that would fail on it is rendering.
