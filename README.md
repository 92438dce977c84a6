# SurrealDB query editor: connection and query state machine

This project models the query editor of the SurrealDB Docker Desktop extension
(`ui/src/components/QueryEditor.tsx`). The editor keeps seven state variables:
the query text, the last result, a loading flag, the error shown to the user,
the last execution time, and the `connected` and `connecting` flags. Its
handlers drive these variables:

- the connection probe (`connectToDatabase`): a re-entrancy guard, then an
  authenticated `INFO FOR DB;` request to `POST /sql`, then a message chosen
  by substring matching on what failed;
- the 10-second interval callback, which probes while disconnected;
- query execution (`executeQuery`): blank-query validation, the reconnect
  branch, the request with the namespace/database prefix, timing and failure
  handling;
- `clearEditor` and `loadExample`.

## Layout

- `wrappers.dfy` (`Wrappers`): `Option` and `Result`.
- `text.dfy` (`Text`): the JavaScript string operations the editor uses.
  These are `trim`, `includes` and the decimal rendering of a status code;
  and, for reading the credentials back as a server does, the first
  occurrence of a character. Each comes with its partner: trimming versus
  "all whitespace", decimal rendering versus parsing, and an occurrence
  versus its index.
- `connection.dfy` (`Connection`): pure parts of the editor.
  - the default config object;
  - stored settings, which may be absent, well formed or malformed;
  - the HTTP Basic user-pass string of section 2 of RFC 7617;
  - the request bodies and the network outcome (`Response`);
  - the probe's and the query's error classification, and the status chip label.
- `editor_model.dfy` (`EditorModel`): the state record `State` and one step
  function per operation. Each step function states the operation's effect
  on every field. The lemmas cover scenarios and the finding below.
- `query_editor.dfy` (`QueryEditorComponent`): the class `QueryEditor`. Its
  fields are the state variables, and its methods update them in the order
  the handlers call their setters. Each method is proved to reach the state
  its step function gives.

The network, the settings store and the clock are inputs. A `Settings` value
stands for the stored settings and `JSON.parse`'s verdict on them. A
`Response` is the outcome of one request:
- `Unreachable`: `fetch` rejects with "Failed to fetch";
- `Thrown(message)`: `fetch` rejects with another message;
- `NotOk(status, bodyText, statusText)`: the server answers with a non-2xx status;
- `Ok(body)`: the server answers OK; the body either parses as JSON or throws.

Two naturals stand for the clock readings before and after a query. The model
adds one field, `sent`, to the editor's state: the list of requests put on
the wire. This makes "sends no request" a checkable property.

The probe is split at its `await fetch`, so that the in-flight state can be
observed. `BeginProbe` runs the guard, raises `connecting` and sends the
request. `CompleteProbe` handles the response. While a probe is in flight,
`connecting` is true, so a tick or another probe call does nothing.

The code behaves as follows where a reader might expect otherwise:
- Malformed stored settings are not replaced by the defaults. `JSON.parse`
  runs inside the `try` (lines 44 and 115), so the probe reports
  "Connection failed: " followed by the parse message, and a query reports
  the parse message itself.
- A 403 answer to a query is not reported as an authentication failure. The
  error is the status line `403: <body or status text>` (lines 137-153).
- The probe recognises a 403 by looking for the substring "403" anywhere in
  the message. It does not test the status code (line 78).
- A disconnected `execute` never sends the query, even when its probe
  reconnects (line 105; see Findings).
- The unreachable and authentication messages always name port 8001 and
  root/root, whatever the stored settings say (lines 77 and 79).

## Model

| member | source | states |
|---|---|---|
| `Text.TrimStart` | ui/src/components/QueryEditor.tsx:97 | the result is the suffix of the input after a whitespace-only prefix, and it does not start with whitespace |
| `Text.TrimEnd` | ui/src/components/QueryEditor.tsx:97 | the result is the prefix of the input before a whitespace-only suffix, and it does not end with whitespace |
| `Text.Trim` | ui/src/components/QueryEditor.tsx:97 | `query.trim()` is empty exactly when every character of the query is ECMAScript whitespace or a line terminator |
| `Text.DecimalString` | ui/src/components/QueryEditor.tsx:71 | the status in the error template is a non-empty string of decimal digits with no leading zero |
| `Text.ParseDecimalString` | ui/src/components/QueryEditor.tsx:71 | reading the rendered status back gives the status, so distinct statuses give distinct messages |
| `Text.ContainsAfterPrefix` | ui/src/components/QueryEditor.tsx:76-78 | a prefix containing no first character of the searched text neither creates nor hides a match of `includes` |
| `Text.IsBlank` | ui/src/components/QueryEditor.tsx:97 | `!query.trim()` holds exactly when every character of the query is ECMAScript whitespace or a line terminator |
| `Text.Contains` | ui/src/components/QueryEditor.tsx:76-78 | `includes`: a match needs a text at least as long as the searched one, the empty string is found everywhere, and between equal lengths a match means equality |
| `Text.Decimal403` | ui/src/components/QueryEditor.tsx:71 | status 403 renders as "403" |
| `Connection.ResolveConfig` | ui/src/components/QueryEditor.tsx:43-51 | nothing stored gives the default object; stored settings are used as they are; malformed settings give an error and are never replaced by the defaults |
| `Connection.Credentials` | ui/src/components/QueryEditor.tsx:53 | the user-pass string is the user name, one colon, then the password, nothing else |
| `Connection.CredentialsRoundTrip` | ui/src/components/QueryEditor.tsx:53 | the user-pass string `<username>:<password>` splits back into both parts when the user name has no colon (section 2 of RFC 7617) |
| `Connection.CredentialsAmbiguousWithColon` | ui/src/components/QueryEditor.tsx:53 | the editor accepts a colon in the user name, so two different configs send the same credentials |
| `Connection.Endpoint` | ui/src/components/QueryEditor.tsx:55 | the URL is `http://`, the host, a colon, the port and `/sql`, nothing else |
| `Connection.ProbeBody` | ui/src/components/QueryEditor.tsx:62 | the probe body is the context prefix followed by `INFO FOR DB;` |
| `Connection.QueryBody` | ui/src/components/QueryEditor.tsx:125 | the query body is the context prefix followed by the query text |
| `Connection.QueryBodyVerbatim` | ui/src/components/QueryEditor.tsx:125 | the query body is the context prefix followed by the query text unchanged, so distinct queries give distinct bodies |
| `Connection.ProbeIsInfoQuery` | ui/src/components/QueryEditor.tsx:62 | the probe body `USE NS <ns>; USE DB <db>; INFO FOR DB;` is the query body for `INFO FOR DB;` |
| `Connection.Prepare` | ui/src/components/QueryEditor.tsx:43-63 | the shared part of both handlers: a request exists exactly when the settings parse and the credentials are Latin-1; it goes to the endpoint with the user-pass string and the context prefix before the statements; otherwise the thrown message is the parse error or btoa's error |
| `Connection.PrepareProbe` | ui/src/components/QueryEditor.tsx:43-63 | a probe request is sent exactly when the settings parse and the credentials are Latin-1; it goes to `http://<host>:<port>/sql` with the user-pass string and the probe body; otherwise the thrown message is the parse error or btoa's error |
| `Connection.PrepareQuery` | ui/src/components/QueryEditor.tsx:114-135 | the query request succeeds or fails exactly as the probe's would; it differs only in its body, which is the context prefix plus the query |
| `Connection.DefaultCredentials` | ui/src/components/QueryEditor.tsx:44-53 | the default credentials are `root:root` |
| `Connection.DefaultEndpoint` | ui/src/components/QueryEditor.tsx:44-55 | the default endpoint is `http://localhost:8001/sql` |
| `Connection.DefaultContext` | ui/src/components/QueryEditor.tsx:44-62 | the default context prefix is `USE NS test; USE DB test; ` |
| `Connection.DefaultPrepare` | ui/src/components/QueryEditor.tsx:43-63 | with nothing stored, every request goes to `http://localhost:8001/sql` as `root:root` in namespace and database test |
| `Connection.DefaultProbeRequest` | ui/src/components/QueryEditor.tsx:43-62 | with nothing stored, the probe goes to `http://localhost:8001/sql` as `root:root` with body `USE NS test; USE DB test; INFO FOR DB;` |
| `Connection.DefaultQueryRequest` | ui/src/components/QueryEditor.tsx:114-135 | with nothing stored, a query goes to the same endpoint with `USE NS test; USE DB test; ` before the query text |
| `Connection.StatusError` | ui/src/components/QueryEditor.tsx:139 | the status line is the decimal status, ": ", then the body text, or the status text when the body text is empty |
| `Connection.ProbeFailure` | ui/src/components/QueryEditor.tsx:71 | the probe's thrown message is the query's message for the same response, with "HTTP " in front for a non-OK status |
| `Connection.QueryFailure` | ui/src/components/QueryEditor.tsx:137-142 | the query's thrown message is "Failed to fetch" when unreachable, the rejection's message, the status line for a non-OK status, or the JSON parser's message |
| `Connection.ClassifyProbeError` | ui/src/components/QueryEditor.tsx:76-82 | "Failed to fetch" is tested before "403". The result is the unreachable message, the authentication message, or "Connection failed: " plus the message, each exactly in its case |
| `Connection.UnreachableProbeError` | ui/src/components/QueryEditor.tsx:76-77 | an unreachable server is reported as "Cannot reach SurrealDB on port 8001. Is it running?" |
| `Connection.Forbidden403Message` | ui/src/components/QueryEditor.tsx:71-79 | a message `HTTP 403: <detail>` whose detail does not mention "Failed to fetch" is classified as an authentication failure |
| `Connection.ForbiddenStatusLine` | ui/src/components/QueryEditor.tsx:69-71 | a 403 probe response throws `HTTP 403: ` followed by the body text, or the status text when the body is empty |
| `Connection.ForbiddenProbeError` | ui/src/components/QueryEditor.tsx:69-79 | a 403 probe response is reported as "Authentication failed. Using credentials: root/root" unless its body, or its status text when the body is empty, mentions "Failed to fetch" |
| `Connection.BodyMentioning403` | ui/src/components/QueryEditor.tsx:69-79 | a probe response of any status whose body mentions 403 is reported as an authentication failure |
| `Connection.ClassifyQueryError` | ui/src/components/QueryEditor.tsx:149-153 | a query error is "Connection lost" when the message mentions "Failed to fetch", and the message verbatim otherwise |
| `Connection.ForbiddenQueryError` | ui/src/components/QueryEditor.tsx:137-153 | a 403 answer to a query shows `403: <body or status text>`, with no authentication message |
| `Connection.StatusLabel` | ui/src/components/QueryEditor.tsx:177 | the chip reads "Connecting..." exactly while connecting, "Connected" exactly when connected and not connecting, and "Disconnected" otherwise |
| `EditorModel.StartProbeStep` | ui/src/components/QueryEditor.tsx:39-63 | with a probe in flight nothing changes; otherwise either `connecting` is raised and the probe request is appended to the log, or preparing the probe threw and the state is disconnected with the classified error |
| `EditorModel.FinishProbeStep` | ui/src/components/QueryEditor.tsx:65-85 | `connecting` ends false; the editor is connected with no error exactly when the response is OK; otherwise the error is the classification of the thrown message (`HTTP <status>: ...`, "Failed to fetch" or the rejection's own message), one of the three probe messages |
| `EditorModel.ProbeStep` | ui/src/components/QueryEditor.tsx:38-86 | guard: a probe in flight makes the call a no-op. Otherwise the call ends with `connecting` false and sends at most the probe request. It connects exactly when the request was prepared and answered OK; the error is cleared exactly when connected, and otherwise it is the classification of the message thrown while preparing or by the response. Query, result, loading and execution time are untouched |
| `EditorModel.TickStep` | ui/src/components/QueryEditor.tsx:30-33 | the tick changes nothing while connected or connecting; otherwise it is exactly one probe call, so it ends not connecting, sends at most the probe request and connects exactly when that request is answered OK |
| `EditorModel.TickProbesOnlyWhenDisconnected` | ui/src/components/QueryEditor.tsx:30-33 | the tick sends a request only while the chip reads "Disconnected", and then it sends the probe request |
| `EditorModel.RunQueryStep` | ui/src/components/QueryEditor.tsx:108-157 | loading ends false and at most the query request is sent. On success, result is the payload, execution time is end minus start, error is null and `connected` is unchanged. On failure, result is null, execution time keeps its old value, error is the classified message, and `connected` drops only for "Failed to fetch" |
| `EditorModel.QueryFailed` | ui/src/components/QueryEditor.tsx:147-157 | the catch block sets the classified error and clears `connected` only when the message mentions "Failed to fetch", and loading ends false; nothing else changes |
| `EditorModel.ExecuteStep` | ui/src/components/QueryEditor.tsx:96-158 | a blank query only sets "Please enter a query". A disconnected editor sets "Not connected. Reconnecting..." and then is exactly one probe call on that state: it sends only the probe, leaves loading, result and execution time alone, and does nothing more when a probe is already in flight. A connected editor runs the query. At most one request is sent |
| `EditorModel.ClearStep` | ui/src/components/QueryEditor.tsx:160-165 | the query is emptied and result, error and execution time are reset; the connection fields and the request log are untouched |
| `EditorModel.LoadExampleStep` | ui/src/components/QueryEditor.tsx:167-169 | only the query text changes |
| `EditorModel.ExamplesAreNotBlank` | ui/src/components/QueryEditor.tsx:88-94 | every example query passes the blank-query check |
| `EditorModel.ClearThenExecute` | ui/src/components/QueryEditor.tsx:97-100 | after clearing, executing only reports the empty query and sends nothing |
| `EditorModel.ExecutionTimeNonNegative` | ui/src/components/QueryEditor.tsx:111-145 | with a monotonic clock, a successful query on a connected editor records end minus start as its execution time, which is never negative |
| `EditorModel.HealthyProbe` | ui/src/components/QueryEditor.tsx:38-67 | from the initial state with nothing stored, a successful probe connects and sends only the default probe request |
| `EditorModel.HealthyQuery` | ui/src/components/QueryEditor.tsx:108-146 | once connected, the initial query goes out as `USE NS test; USE DB test; SELECT * FROM users;` and its payload and timing are recorded |
| `EditorModel.UnreachableScenario` | ui/src/components/QueryEditor.tsx:76-105 | with the server down, mount and then execute leave the initial state with the unreachable message and two identical probe requests sent, and nothing else changed |
| `EditorModel.UnreachableMount` | ui/src/components/QueryEditor.tsx:38-86 | from the initial state, a probe that cannot reach the server only sets the unreachable message and logs the default probe request |
| `EditorModel.UnreachableRetry` | ui/src/components/QueryEditor.tsx:76-105 | executing a non-blank query while disconnected and with the server down only sets the unreachable message and logs one more probe, whatever the query's response would have been |
| `EditorModel.ReconnectDropsQuery` | ui/src/components/QueryEditor.tsx:102-106 | a disconnected execute whose probe succeeds ends connected with no error but sends only the probe, never the query |
| `EditorModel.ExecuteReconnectingStep` | ui/src/components/QueryEditor.tsx:102-106 | the corrected execute agrees with the original on blank queries and in the connected case |
| `EditorModel.ReconnectThenQueries` | ui/src/components/QueryEditor.tsx:102-106 | with the correction, a successful reconnect is followed by exactly one query request, and a failed probe still abandons the query |
| `EditorModel.ReconnectedThenQueries` | ui/src/components/QueryEditor.tsx:102-110 | with the correction, after a successful probe the log gains the probe and then the query request, and a successful query's payload is shown |
| `EditorModel.FailedReconnectAbandons` | ui/src/components/QueryEditor.tsx:102-105 | with the correction, after a failed probe only the probe was sent and the editor stays disconnected |
| `EditorModel.ReconnectedState` | ui/src/components/QueryEditor.tsx:102-110 | with the correction, after a successful probe the query runs on the original state with the error cleared, `connected` raised and the probe logged |
| `EditorModel.QueryAppendsRequest` | ui/src/components/QueryEditor.tsx:124-135 | a prepared query request is appended to the log after every earlier request |
| `EditorModel.AwaitQuery` | ui/src/components/QueryEditor.tsx:127-157 | on a parsed OK answer the payload and end minus start are recorded and loading ends false, with query, error, connection fields and log kept; on any other answer the catch and finally blocks run with the message the try block threw |
| `QueryEditorComponent.QueryEditor.constructor` | ui/src/components/QueryEditor.tsx:20-26 | the fields start with the initial `useState` values and an empty request log |
| `QueryEditorComponent.QueryEditor.BeginProbe` | ui/src/components/QueryEditor.tsx:38-63 | updates the fields as `StartProbeStep`, and reports whether a probe now awaits its response |
| `QueryEditorComponent.QueryEditor.CompleteProbe` | ui/src/components/QueryEditor.tsx:65-85 | updates the fields as `FinishProbeStep` |
| `QueryEditorComponent.QueryEditor.Probe` | ui/src/components/QueryEditor.tsx:38-86 | updates the fields as `ProbeStep` |
| `QueryEditorComponent.QueryEditor.Tick` | ui/src/components/QueryEditor.tsx:30-33 | updates the fields as `TickStep` |
| `QueryEditorComponent.QueryEditor.Execute` | ui/src/components/QueryEditor.tsx:96-158 | updates the fields as `ExecuteStep`, reading `connected` once on entry as the handler's captured value |
| `QueryEditorComponent.QueryEditor.Reconnect` | ui/src/components/QueryEditor.tsx:102-104 | updates the fields as `ProbeStep` on the state with "Not connected. Reconnecting..." set |
| `QueryEditorComponent.QueryEditor.RunQuery` | ui/src/components/QueryEditor.tsx:108-157 | updates the fields as `RunQueryStep` |
| `QueryEditorComponent.QueryEditor.Await` | ui/src/components/QueryEditor.tsx:127-157 | after logging the request, records payload and timing on success and runs the catch block otherwise, then clears loading |
| `QueryEditorComponent.QueryEditor.Fail` | ui/src/components/QueryEditor.tsx:147-154 | updates the fields as `QueryFailed`, leaving loading to the finally block |
| `QueryEditorComponent.QueryEditor.ClearEditor` | ui/src/components/QueryEditor.tsx:160-165 | updates the fields as `ClearStep` |
| `QueryEditorComponent.QueryEditor.LoadExample` | ui/src/components/QueryEditor.tsx:167-169 | updates the fields as `LoadExampleStep` |

## Findings

| source | as written | input that shows it | evidently intended | confidence | as-written member | corrected member |
|---|---|---|---|---|---|---|
| ui/src/components/QueryEditor.tsx:102-106 | after awaiting the probe, the handler tests the `connected` value it captured on entry. That value is still false, so it always returns | a disconnected editor with no probe already running, a non-blank query, settings that parse with Latin-1 credentials, and a probe answered OK: the editor ends connected with no error, no query is sent and no result is shown | once the probe connects, go on and send the query | not executed; high | `EditorModel.ReconnectDropsQuery` | `EditorModel.ReconnectThenQueries` |

The class `QueryEditor` models the code as written. `ExecuteReconnectingStep`
is the corrected definition. It differs from `ExecuteStep` only in running
the query after a successful reconnect.

## Left out

- The base64 step of the `Authorization` header (`btoa`) is not modelled. A
  `Request` records the user-pass string given to it. Only `btoa`'s rejection
  of characters above U+00FF is modelled, using Chromium's message.
- JSX rendering is not modelled (lines 171-269). This includes the
  `toFixed(2)` time chip, `JSON.stringify` pretty-printing, the retry and
  warning alerts, and the truncated example chips. The Retry and Reconnect
  buttons call `connectToDatabase`, which is `Probe`. Typing in the text field
  sets the query the way `LoadExample` does.
- The `useEffect` lifecycle is not modelled: the probe on mount, and
  re-registering the interval whenever `connected` or `connecting` changes.
  Because the effect body probes each time it runs, probes follow one another
  after every change of those flags. The model shows each probe and tick only
  as a single step.
- Concurrency is not modelled. Only the probe is split at its `await`. A query
  is one atomic step, so a probe completing while a query is in flight is not
  modelled.
- Console logging, request timeouts and cancellation are not modelled.
- `response.text()` and `response.json()` are folded into the `Response`
  input. A failure of `response.text()` itself is not modelled.
- Stored settings are modelled as a complete `Config`. Parsed JSON with
  missing or non-string fields is not modelled; JavaScript would interpolate
  those as `undefined`. An empty stored string is falsy, so it counts as
  `NotStored`.
- Times are naturals rather than the floating-point milliseconds of
  `performance.now()`. JavaScript strings are UTF-16 code units, but the
  model's `char` is a Unicode scalar value.
- `ui/src/components/DatabaseManager.tsx` (container control through the
  Docker CLI), `ui/src/components/Help.tsx`, `ui/src/App.tsx` and
  `ui/src/components/Surrealist.tsx` (static UI) are not part of this model.
