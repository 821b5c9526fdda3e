# Water-supply telemetry: insert pipeline and dashboard transformation

A Dafny model of the two pieces of logic in the IoT water-supply dashboard:

- **insert_data.php**, the endpoint that stores one sensor reading. It runs a
  fixed sequence of stages, and the first stage that fails decides the HTTP
  status. The stages are: OPTIONS preflight, database connection, method,
  empty body, JSON decoding, required fields (`flowRate`, `pressure`, `pH`),
  and range validation, which collects every failure. Then the script
  derives `consumption = flowRate * 10` and runs one INSERT.
  `InsertData.Pipeline` states the response as a function of the request.
  `InsertData.HandleInsert` is the script itself, with its early exits and its
  loop over the required fields, and is proved to answer exactly as `Pipeline`
  does. The lemmas state each stage's promise.
- **script.js**, the dashboard client. `fetchData` builds the request URL from
  the selected period. `updateCharts` reverses the received array in place and
  gives four charts the labels `Reading 1 … Reading n` and one series per
  column, with unparseable values shown as 0. `updateChart` replaces a chart's
  labels and first dataset. `updateStatus` shows `data[0]` in the "Latest
  Readings" panel. The URL, labels and series are functions. The in-place
  reverse is a method on an array. The charts and the page's state are the
  classes `Chart` and `Page`.

Numbers are Dafny `real`s, so the range checks and `* 10` are exact. JSON
decoding and `parseFloat` are given as `Option` results (`None` for
JavaScript's `NaN`). `filter_var(…, FILTER_VALIDATE_FLOAT)` is given only for
string values, as an `Option` (`None` for PHP's `false`); `FilterFloat`
computes it for numbers, booleans, `null` and arrays. The mysqli outcomes (connect, prepare, execute, insert id) and the insert
timestamp are inputs of the request.

Behaviour of the code worth knowing:
- An empty result leaves the charts unchanged and shows "No data available".
  It does not clear the charts.
- The "Latest Readings" panel shows the oldest row, not the most recent one
  (see Findings).
- `fetch_data.php` ignores the `period` parameter.

## Model

| member | source | states |
|---|---|---|
| `InsertData.Pipeline` | insert_data.php:11-179 | Answers OPTIONS with a bare preflight, and only OPTIONS. Every row it writes has consumption equal to ten times the flow, flow and pressure at least 0, and pH in [0, 14]. |
| `InsertData.HandleInsert` | insert_data.php:11-179 | The stage-by-stage script, with its early exits, the `foreach` over the required fields and the appended validation errors, returns exactly `Pipeline(req)`. |
| `InsertData.MissingAmong` | insert_data.php:80-84 | A field is in the missing list iff it is required and is unset, null or `''`. The list is no longer than the field list. |
| `InsertData.OptionsShortCircuits` | insert_data.php:11-14 | OPTIONS gets status 200 and writes nothing, whatever the connection, body or data. All OPTIONS requests get the same answer. |
| `InsertData.ConnectionCheckedFirst` | insert_data.php:26-48 | A failed connection gives 500 for every method except OPTIONS, GET included. The method check never runs and nothing is written. |
| `InsertData.OnlyPostAccepted` | insert_data.php:40-48 | With a live connection, any method other than POST or OPTIONS gets 405, which echoes the received method. Nothing is written. |
| `InsertData.BadBodyRejected` | insert_data.php:54-74 | An empty body, `"0"` included, gives 400 "empty body". A non-empty body that fails to decode gives 400 "invalid JSON". Neither writes anything. |
| `InsertData.MissingFieldsInOrder` | insert_data.php:77-84 | The missing list is exactly the absent fields among flowRate, pressure and pH, in that order. |
| `InsertData.MissingFieldsRejected` | insert_data.php:86-95 | If any required field is missing, the answer is 400 with that list and the received keys. Range validation does not run and nothing is written. |
| `InsertData.ValidationCollectsAll` | insert_data.php:103-125 | Each range message is present iff its own check fails, so every failure is reported. Zero is accepted for flow and pressure. pH is accepted exactly on [0, 14]. A value that does not parse fails. The list is empty iff all three values are acceptable. |
| `InsertData.ValidationRejected` | insert_data.php:117-125 | With all three fields present, any range failure gives 400 carrying exactly the list of failed checks' messages. Prepare and execute are not reached and nothing is written. |
| `InsertData.InsertExactlyWhenValid` | insert_data.php:97-151 | A row is written iff the request is an acceptable POST and both prepare and execute succeed. The row written is the parsed flow, pressure and pH, with consumption = flow * 10 and the insert timestamp. |
| `InsertData.SuccessExactlyWhenExecuted` | insert_data.php:134-179 | For an acceptable request, success (200, with the insert id) happens iff prepare and execute both succeed. A failed prepare or a failed execute gives 500. |
| `InsertData.StatusClassifies` | insert_data.php:11-179 | Status 200 means a preflight or a successful insert. Every status is 200, 400, 405 or 500. |
| `Dashboard.PeriodRoundTrip` | script.js:131 | For every period, the query value read back verbatim from the URL is the period sent. The bare endpoint is requested iff the period is empty. |
| `Dashboard.Decimal` | script.js:160 | The numeral printed for an index is non-empty, made only of digits, and has no leading zero unless the number is 0. |
| `Dashboard.DecimalRoundTrip` | script.js:160 | The numeral printed for n reads back as n. |
| `Dashboard.LabelsNumbered` | script.js:160 | There are n labels, and label i is `"Reading "` followed by the standard numeral of i + 1: digits without a leading zero, denoting i + 1. |
| `Dashboard.LabelsDistinct` | script.js:160 | No two labels are equal. |
| `Dashboard.ReversedAt` | script.js:157 | Reversal keeps the length, and element k of the result is element n-1-k of the input. |
| `Dashboard.SeriesOfReversed` | script.js:157-164 | Each series over the reversed rows has n points. Point i is row n-1-i's parsed field, or 0 when it does not parse. |
| `Dashboard.ReverseInPlace` | script.js:157 | `data.reverse()` leaves the array holding the reversal of its old contents. |
| `Dashboard.Chart.constructor` | script.js:16-43 | A new chart has its kind, no labels and one empty dataset with its legend and colour. |
| `Dashboard.Chart.Update` | script.js:173-177 | Replaces the labels and the first dataset's points and requests one redraw. The other datasets, and the first dataset's legend and colour, are unchanged. |
| `Dashboard.Page.constructor` | script.js:16-127 | Creates four distinct charts: three line charts (flow, pressure, pH) and one bar chart (consumption). Each has no labels, no redraws, and one empty dataset with its legend and colour. No reading or error is shown yet. |
| `Dashboard.Page.UpdateCharts` | script.js:150-171 | With null or empty data, it shows "No data available" and leaves all four charts unchanged. Otherwise it reverses the caller's array in place, and each chart gets the n labels and its field's series over the reversed rows. Every other piece of chart state is kept. |
| `Dashboard.Page.UpdateStatus` | script.js:179-182 | Does nothing for null or empty data. Otherwise it shows the array's current first element. |
| `Dashboard.Page.Receive` | script.js:140-143 | The callback as written: for non-empty data the panel shows the LAST row of the response, the array is left reversed, the shown error is kept, and each chart gets the n labels and its field's reversed series, with the rest of the chart kept. For empty data the panel and all four charts are unchanged and "No data available" is shown. |
| `Dashboard.Page.ReceiveNewest` | script.js:140-143 | The corrected callback: the panel shows the FIRST (newest) row of the response. The charts, the shown error and the array end up exactly as with `Receive`, in both the empty and the non-empty case. |
| `Dashboard.OldestShownAsLatest` | script.js:182 | Two different rows sent newest first: after the callback as written, the panel shows the older row. |
| `Dashboard.NewestShownWhenCorrected` | script.js:182 | The same two rows: after the corrected callback, the panel shows the newer row. |

## Findings

| source | as written | input that shows it | evidently intended | confidence | as-written member | corrected member |
|---|---|---|---|---|---|---|
| script.js:141-142 | `updateCharts(data)` reverses `data` in place (script.js:157). `updateStatus(data)` then reads `data[0]`, which is the LAST row of the response. `fetch_data.php:19` orders rows newest first, so "Latest Readings" shows the oldest of the rows returned. | any response with two different rows, e.g. `[newer, older]` | show the newest row, the response's first | high; not executed | `Dashboard.OldestShownAsLatest` (with `Dashboard.Page.Receive`) | `Dashboard.Page.ReceiveNewest` (with `Dashboard.NewestShownWhenCorrected`) |

## Left out

- fetch_data.php is not modelled. Its fixed query (newest first, at most 5 rows, `period` ignored) is not modelled. The client takes any array of readings.
- mysqli connection, prepare, execute and the auto-increment id are given as outcomes in `InsertData.Database`. SQL semantics and the table are not modelled. `set_charset` and the `close` calls are left out because they decide nothing.
- JSON decoding and number parsing are given, not modelled. A decoded body is a map from keys to values. A string value carries its `FILTER_VALIDATE_FLOAT` result. A `parseFloat` result is an `Option<real>`.
- A body that decodes to a JSON scalar or `null` (not an object or array) is outside the decode abstraction. In the source that input reaches `array_keys` on a non-array (insert_data.php:92).
- The received keys of a missing-field answer are a set. PHP lists them in insertion order.
- The text of error messages built from driver or decoder output (`connect_error`, `json_last_error_msg`, `$stmt->error`, `sqlstate`) is not modelled. Only the kind of failure is. The fixed validation messages are modelled verbatim.
- `round(…, 2)` in the success payload, `server_time`, `processing_time_ms` and IEEE floating point are left out. Numbers are exact reals, so `parseFloat(x) || 0` has no `-0` case.
- HTTP headers and CORS, `error_log`, and `date()` are left out. The insert timestamp is an input.
- Chart.js options and rendering (axes, titles, tension, background colours) are left out; a redraw request is only counted. The DOM, the status HTML with `toFixed(2)`, and `showError`'s markup and 5-second auto-hide are left out. The shown error is a message field.
- The 30-second `setInterval` polling, the `fetch` promise chain, and its `response.ok` / parse-failure path to "Failed to fetch sensor data" are left out (asynchronous I/O). So is a response that is a JSON object rather than an array.
- The period is put into the URL without percent-encoding, as in the source. `RequestedPeriod` reads the query value verbatim. PHP's query parsing (splitting on `&`, decoding `+` and `%XX`) and the URL fragment after `#` are not modelled, so what PHP's `$_GET['period']` would hold agrees with `RequestedPeriod` only for periods without `&`, `+`, `%` and `#`.
