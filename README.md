# Oracle monitoring: dashboard stream, alerts view and server/agent endpoints

This project models the core of an Oracle database monitoring system in Dafny. The system has three parts:

- a React client that shows a live dashboard and an incident list;
- a FastAPI server that builds the dashboard data, runs SQL entered in an editor, and tests database connections;
- a database-side agent that runs SQL and shapes active-session-history (ASH) and top-SQL results.

The model covers these pieces:

- **ApiUrl** (`api_url.dfy`): how the client derives the server's HTTP base address from the stored `server_url`, and the WebSocket address from that.
- **Dashboard** (`dashboard.dfy`): the dashboard component's state as a class (`DashboardState`) with the three WebSocket handlers, plus the values the view derives from that state. The class keeps the last snapshot, a rolling history of at most 20 CPU points, and the connected flag. A ghost record of every appended point gives the invariant `history == last 20 of all points`.
- **Alerts** (`alerts.dfy`): the severity filter of the incident list, the icon and badge chosen per severity, and the "No alerts found." branch.
- **Monitoring** (`monitoring.dfy`): the server's post-processing of the metrics dictionary. It adds a timestamp and, when the dictionary has none, a health status derived from `cpu_load`.
- **SqlExec** (`sql_exec.dfy`): the query test `sql.strip().upper().startswith("SELECT")`, and the reply shape that the agent and the editor share.
- **Agent** (`agent.dfy`): the agent's `/execute`, `/metrics/ash` and `/metrics/top-sql` endpoints. The pool and what the database does with a cursor are inputs.
- **Editor** (`editor.dfy`): the server's mock execute path, used when no agent is configured. It returns ten canned rows for a query and an affected-rows message for anything else.
- **Settings** (`settings.dfy`): the connection test. It validates the port, probes the host over TCP, accepts the mock credentials, and otherwise builds the DSN and connects.
- **PyText** and **Common** (`pytext.dfy`, `common.dfy`): the Python builtins the endpoints depend on, and the shared value types. The builtins are `str.strip`, `str.upper`, `str.lower`, `str(int)` and `int(str)`; the shared types are Option, Result and a JSON-like `Value` (None, bool, int, float, str, list and dict).

Several things the code depends on become parameters of the model:

- the clock (`toLocaleTimeString`, `datetime.now().isoformat()`);
- `JSON.parse` (its decoded result, or None when it throws);
- the browser's storage;
- the TCP probe (a function `reachable`);
- the database driver (a datatype holding `makedsn` and `connect` functions, each of which may raise);
- the database cursor (a `CursorRun` record);
- the values `random.randint` and `random.choice` draw (a `Draws` record whose ranges are stated as a precondition).

Four behaviours of the code are worth stating explicitly:

- A stream message without `cpu_load` still adds a chart point, whose value is undefined (None).
- A message that `JSON.parse` rejects throws inside the handler before any state is set, so the state does not change.
- The client has no reconnection logic: after `onclose` the state keeps the last snapshot and history, with `connected` false.
- The server classifies a statement as a query by its first six non-whitespace characters, in any letter case. So `SELECTION ...` counts as a query, and `WITH ... SELECT` does not.

## Model

| member | source | states |
|---|---|---|
| ApiUrl.GetApiUrl | oracle-monitoring-client/src/utils/api.js:3-5 | The stored server_url is used unless it is missing or empty; then the default `http://localhost:8000` is used. The result is never empty. |
| ApiUrl.StreamScheme | oracle-monitoring-client/src/utils/api.js:9 | The scheme is "wss" exactly when the address starts with "https", and "ws" exactly when it does not. |
| ApiUrl.StripHttpScheme | oracle-monitoring-client/src/utils/api.js:10 | One leading "http://" or "https://" is removed; any other address is unchanged. The result is always a suffix of the input. |
| ApiUrl.WsUrlFor | oracle-monitoring-client/src/utils/api.js:7-12 | Every derived stream address starts with "ws://" or "wss://". |
| ApiUrl.WsUrlOfHttp | oracle-monitoring-client/src/utils/api.js:9-11 | "http://h" maps to "ws://h", for every h. |
| ApiUrl.WsUrlOfHttps | oracle-monitoring-client/src/utils/api.js:9-11 | "https://h" maps to "wss://h", for every h. |
| ApiUrl.WsUrlOfBareAddress | oracle-monitoring-client/src/utils/api.js:9-11 | An address with no http(s):// prefix keeps its text; only the scheme put in front depends on whether it starts with "https". |
| ApiUrl.HttpUrlForWsUrl | oracle-monitoring-client/src/utils/api.js:7-12 | For an http(s) base address, the base address can be recovered from its stream address, so the derivation loses nothing. |
| ApiUrl.GetWsUrl | oracle-monitoring-client/src/utils/api.js:7-12 | The stream address always starts with "ws://" or "wss://". With nothing stored, or an empty string stored, it is ws://localhost:8000. For a stored http(s) address, the stored address can be recovered from the stream address. |
| ApiUrl.DefaultWsUrl | oracle-monitoring-client/src/utils/api.js:1-12 | With nothing stored, or an empty string stored, the client streams from ws://localhost:8000. |
| Dashboard.KeepLast | oracle-monitoring-client/src/components/Dashboard.jsx:30 | For n > 0, `slice(-n)` returns min(\|s\|, n) elements, and they are the last ones of s. The source slices with 20 only. |
| Dashboard.KeepLastAppend | oracle-monitoring-client/src/components/Dashboard.jsx:29-30 | Truncating to the last n before each append gives the same result as truncating once after all appends. |
| Dashboard.AppendPoint | oracle-monitoring-client/src/components/Dashboard.jsx:24-31 | The history after an append holds min(previous + 1, 20) points, between 1 and 20, and its last point is the new one. |
| Dashboard.AppendPointEvictsOldest | oracle-monitoring-client/src/components/Dashboard.jsx:29-30 | The points before the new one are the last 19 of the previous history, so a full window loses exactly its oldest point. |
| Dashboard.AppendBelowCapacity | oracle-monitoring-client/src/components/Dashboard.jsx:29-30 | While the history holds fewer than 20 points, nothing is evicted and the new point is simply appended. |
| Dashboard.ReplayKeepsLast | oracle-monitoring-client/src/components/Dashboard.jsx:24-31 | After N appends from empty, the history is exactly the last min(N, 20) points, oldest first. Eviction is FIFO and nothing is reordered. |
| Dashboard.PointsOfDecoded | oracle-monitoring-client/src/components/Dashboard.jsx:20-28 | When every message decodes, there is one chart point per message, carrying that message's receipt time and cpu_load. |
| Dashboard.HistoryOfDecodedMessages | oracle-monitoring-client/src/components/Dashboard.jsx:20-31 | After N decoded messages, the history holds the cpu_load of the last min(N, 20) messages, in arrival order. |
| Dashboard.CpuTrend | oracle-monitoring-client/src/components/Dashboard.jsx:55-56 | The trend is "High" exactly when cpu_load is present and above 80. |
| Dashboard.WaitEventsOf | oracle-monitoring-client/src/components/Dashboard.jsx:129 | The pie chart shows the message's wait events, or nothing when the message has none. |
| Dashboard.Legend | oracle-monitoring-client/src/components/Dashboard.jsx:148 | The legend shows the first min(\|events\|, 3) wait events, as a prefix of the list. |
| Dashboard.Render | oracle-monitoring-client/src/components/Dashboard.jsx:39-48 | The loading view appears exactly while no snapshot has arrived. Otherwise the view shows the snapshot, the history and the connected flag. |
| Dashboard.DashboardState.constructor | oracle-monitoring-client/src/components/Dashboard.jsx:8-10 | On mount there is no snapshot, the history is empty and the component is not connected. |
| Dashboard.DashboardState.OnOpen | oracle-monitoring-client/src/components/Dashboard.jsx:15-18 | Only the connected flag changes, to true. The history invariant is kept. |
| Dashboard.DashboardState.OnClose | oracle-monitoring-client/src/components/Dashboard.jsx:34 | Only the connected flag changes, to false. The snapshot and history are kept. |
| Dashboard.DashboardState.OnMessage | oracle-monitoring-client/src/components/Dashboard.jsx:20-32 | A decoded message replaces the snapshot and appends one point carrying its cpu_load. The history stays the last 20 of all points and never exceeds 20. A message that does not decode changes nothing. |
| Dashboard.DashboardState.CurrentView | oracle-monitoring-client/src/components/Dashboard.jsx:39-48 | The rendered view is Loading exactly when no snapshot is held. A live view shows the held snapshot, the current history and the connected flag. |
| Alerts.WithSeverity | oracle-monitoring-client/src/pages/Alerts.jsx:18 | Only alerts of the given severity are kept, in their original order. Each matching alert is kept exactly as many times as it occurs. |
| Alerts.FilterAlerts | oracle-monitoring-client/src/pages/Alerts.jsx:16-18 | "ALL" shows the whole list. Any other filter shows exactly the alerts of that severity, as an ordered subsequence. Each such alert appears exactly as many times as in the input, and no other alert appears. |
| Alerts.WithSeverityIdempotent | oracle-monitoring-client/src/pages/Alerts.jsx:18 | Filtering by a severity twice gives the same list as filtering once. |
| Alerts.FilterIdempotent | oracle-monitoring-client/src/pages/Alerts.jsx:16-18 | Applying the same filter choice twice shows what applying it once shows. |
| Alerts.GetIcon | oracle-monitoring-client/src/pages/Alerts.jsx:20-26 | CRITICAL gets a danger triangle and WARNING a warning info glyph. Every other severity gets the primary check circle. |
| Alerts.GetBadgeStyle | oracle-monitoring-client/src/pages/Alerts.jsx:28-34 | The badge class lists for CRITICAL, WARNING and every other severity. |
| Alerts.IconAndBadgeAgree | oracle-monitoring-client/src/pages/Alerts.jsx:20-34 | Two severities get the same icon exactly when they get the same badge. That happens exactly when they are equal, or when neither is CRITICAL or WARNING. |
| Alerts.InfoTakesDefault | oracle-monitoring-client/src/pages/Alerts.jsx:20-34 | INFO, which the server also sends, falls into the default case for both icon and badge. |
| Alerts.RenderList | oracle-monitoring-client/src/pages/Alerts.jsx:57-80 | "No alerts found." appears exactly when the filtered list is empty. Otherwise there is one row per alert, in order, with that alert's icon and badge. |
| Common.AsNumber | oracle-monitoring-server/services/monitoring.py:15 | bool, int and float compare as numbers. None, str, list and dict make the comparison raise TypeError. |
| Monitoring.HealthOf | oracle-monitoring-server/services/monitoring.py:15-20 | CRITICAL exactly above 90, WARNING exactly in (70, 90], HEALTHY exactly at or below 70. |
| Monitoring.HealthMonotone | oracle-monitoring-server/services/monitoring.py:15-20 | A higher load never gives a milder status. |
| Monitoring.LoadOf | oracle-monitoring-server/services/monitoring.py:14 | A dictionary without cpu_load counts as load 0. |
| Monitoring.AddDerivedFields | oracle-monitoring-server/services/monitoring.py:7-22 | The call fails with TypeError exactly when a status has to be derived and cpu_load is not comparable. Otherwise the result has the input's keys plus timestamp and health_status, and the timestamp is the clock's. An existing health_status is kept; otherwise the status is derived from the load. Every other key is unchanged. |
| Monitoring.MissingLoadIsHealthy | oracle-monitoring-server/services/monitoring.py:13-20 | A dictionary with neither cpu_load nor health_status is reported HEALTHY. |
| PyText.TrimLeft | oracle-monitoring-agent/main.py:40 | The result is a suffix of the input that starts with a non-space character, and everything dropped is whitespace. |
| PyText.TrimRight | oracle-monitoring-agent/main.py:40 | The result is a prefix of the input that ends with a non-space character, and everything dropped is whitespace. |
| PyText.Strip | oracle-monitoring-agent/main.py:40 | Neither end of `strip()`'s result is whitespace. |
| PyText.TrimLeftOfPadded | oracle-monitoring-agent/main.py:40 | Removing leading whitespace from whitespace placed before a non-space-led text gives exactly that text. |
| PyText.TrimRightOfPadded | oracle-monitoring-agent/main.py:40 | Removing trailing whitespace from whitespace placed after a non-space-ended text gives exactly that text. |
| PyText.StripOfPadded | oracle-monitoring-agent/main.py:40 | `strip()` removes exactly the whitespace added around a text whose ends are not whitespace. |
| PyText.Upper | oracle-monitoring-agent/main.py:40 | `upper()` keeps the length and maps each character through the ASCII upper-case mapping. |
| PyText.Lower | oracle-monitoring-agent/main.py:172 | `lower()` keeps the length and maps each character through the ASCII lower-case mapping. |
| PyText.NatToString | oracle-monitoring-agent/main.py:52 | `str(n)` is a non-empty digit string with no leading zero, except for 0 itself. |
| PyText.IntToStringReadsBack | oracle-monitoring-agent/main.py:52 | `str(i)` starts with a minus sign exactly when i is negative, and the digits after any sign read back as the absolute value of i. |
| PyText.ParseNat | oracle-monitoring-server/routers/settings.py:31 | `int(port)` succeeds exactly on a non-empty string of digits. |
| PyText.ParseNatToString | oracle-monitoring-server/routers/settings.py:31-35 | `int(str(n)) == n`, so a port written without leading zeros reads back as itself. |
| SqlExec.IsSelect | oracle-monitoring-agent/main.py:40 | The test holds exactly when the stripped statement begins with the six letters of SELECT, in any letter case. |
| SqlExec.UpperPrefix | oracle-monitoring-agent/main.py:40 | An upper-cased text starts with SELECT exactly when the text's first six characters are the letters of SELECT, in any case. |
| SqlExec.IsSelectExactly | oracle-monitoring-agent/main.py:40 | A statement is a query exactly when its first non-whitespace characters spell SELECT in any letter case. |
| SqlExec.SelectWordSurvives | oracle-monitoring-agent/main.py:40 | Text that begins with the letters of SELECT, in any case, still starts with SELECT after trailing whitespace is stripped and it is upper-cased. |
| SqlExec.SelectWordOrigin | oracle-monitoring-agent/main.py:40 | A SELECT at the head of the stripped, upper-cased text comes from the text's own first six characters. |
| SqlExec.IndentedLowerCaseSelect | oracle-monitoring-server/routers/editor.py:38-44 | Any indented, lower-case "select ..." is a query. |
| SqlExec.LowerSelectBegins | oracle-monitoring-server/routers/editor.py:38-44 | A text starting with lower-case "select" begins with the letters of SELECT and does not start with whitespace. |
| SqlExec.UpdateIsNotQuery | oracle-monitoring-server/routers/editor.py:38-44 | An UPDATE statement is not a query. |
| SqlExec.ErrorReply | oracle-monitoring-agent/main.py:54-55 | An error reply has status "error" and a message, and carries no columns or rows. |
| Agent.ColumnNames | oracle-monitoring-agent/main.py:41 | There is one name per described column: the first element of each description entry, in order. |
| Agent.ExecuteQuery | oracle-monitoring-agent/main.py:27-55 | Every failure becomes an error reply: a missing pool, an execute error, a None description, or a fetch error. A query succeeds with the column names and the fetched rows. Any other statement succeeds with "Executed. Rows affected: " followed by the rowcount. |
| Agent.ExecuteQueryOutcome | oracle-monitoring-agent/main.py:32-55 | The reply is an error exactly when the pool is missing or the database raised. A success carries rows exactly when the statement was a query. |
| Agent.WaitClassOf | oracle-monitoring-agent/main.py:136 | A truthy wait_class is kept; a falsy one, such as NULL or "", becomes "CPU". |
| Agent.ShapeAshRows | oracle-monitoring-agent/main.py:132-139 | There is one record per row, in row order, with time, wait class and session count taken from cells 0, 1 and 2. The call fails with IndexError exactly when some row has fewer than three cells. |
| Agent.GetAshMetrics | oracle-monitoring-agent/main.py:123-141 | Every failure comes back as an error object carrying the credentials note. Success holds one shaped record per fetched row. When the fetch succeeds but some row has fewer than three cells, the error is "tuple index out of range" with the note. |
| Agent.ZipPrefix | oracle-monitoring-agent/main.py:174 | Inserting the first n pairs in order yields exactly the first n keys. |
| Agent.ZipPrefixLastWins | oracle-monitoring-agent/main.py:174 | Among the first n pairs, a key that does not occur again later maps to the value in its own position. |
| Agent.LastWinsUpTo | oracle-monitoring-agent/main.py:174 | Every key among the first n that does not occur again later maps to the value in its own position. |
| Agent.ZipDict | oracle-monitoring-agent/main.py:174 | `dict(zip(k, v))` pairs keys and values up to the shorter of the two. A repeated key keeps the value of its last position. |
| Agent.ZipDictOfDistinct | oracle-monitoring-agent/main.py:174 | With distinct keys and a full row, the keys are exactly the column names and each maps to the cell in its own position. |
| Agent.LowerColumnNames | oracle-monitoring-agent/main.py:172 | There is one lower-cased name per described column, in order. |
| Agent.GetTopSql | oracle-monitoring-agent/main.py:165-176 | Errors come back as an error object; a fetch error comes back as its own text. When execute, description and fetch all succeed, the result is the record list. Success holds one dictionary per fetched row, in order, built by zipping the lower-cased column names with that row. |
| Agent.TopSqlRecordFields | oracle-monitoring-agent/main.py:172-174 | With distinct lower-cased names and full rows, each record maps each lower-cased column name to that row's cell in that column. |
| Editor.MockExecute | oracle-monitoring-server/routers/editor.py:37-66 | A statement that is not a query gets the affected-rows message. A query gets the five mock columns, "Query executed successfully." and ten rows. Row k holds id k+1, name Item_{k+1}_{suffix}, one of the three statuses, the fixed timestamp, and a value between 10 and 1000. |
| Editor.DmlMessage | oracle-monitoring-server/routers/editor.py:56-59 | The message starts with "Statement executed successfully. ", the message ends with " rows affected.", and between the two is the count in decimal with no leading zeros, which reads back as the affected count. |
| Editor.MockRows | oracle-monitoring-server/routers/editor.py:46-53 | The loop produces exactly ten rows; row k is mock row k+1, built from the k-th draws. |
| Editor.MockRow | oracle-monitoring-server/routers/editor.py:47-53 | A mock row has five cells in column order: id, the name Item_id_suffix, one of the three statuses, the fixed timestamp, and a value between 10 and 1000. |
| Settings.WithDefaults | oracle-monitoring-server/routers/settings.py:8-14 | A missing mode becomes SERVICE_NAME; every other field is kept. |
| Settings.Dsn | oracle-monitoring-server/routers/settings.py:60-64 | SID mode uses the driver's makedsn, which may fail with an error text. Every other mode uses the easy-connect string host:port/service. |
| Settings.TestConnection | oracle-monitoring-server/routers/settings.py:25-84 | A port that is not a number gives "Invalid Port Number". An unreachable host gives the network-error message. A success implies the port parsed and the host answered the probe. Without a driver, the only possible success is the mock one. |
| Settings.InvalidPortProbesNothing | oracle-monitoring-server/routers/settings.py:30-38 | An invalid port is reported before anything is probed: the reply depends on neither the probe nor the driver. |
| Settings.MockCredentialsAfterProbe | oracle-monitoring-server/routers/settings.py:40-45 | localhost with password "mock" succeeds whatever the driver, once the port parses and the probe answers. |
| Settings.DriverOutcome | oracle-monitoring-server/routers/settings.py:47-84 | Past the mock check, a makedsn error or a connect error comes back prefixed with "Connection Failed: ", and a version gives the success message naming the DSN. A missing driver gives the driver-not-found error. |
| Settings.UnreachableMessage | oracle-monitoring-server/routers/settings.py:32-36 | The network error starts with "Network Error: Unable to reach ", the host and a colon, the message ends with the closing explanation, and between the two is the port in decimal with no leading zeros, which reads back as the port. |
| Settings.UnreachableNamesHostAndPort | oracle-monitoring-server/routers/settings.py:31-36 | For a port written without leading zeros, the network error names the host and the port exactly as the client sent them. |

## Left out

- Browser and network I/O are not modelled: opening the WebSocket, `fetch` of the alert history, `console.log`, and the `ws.close()` in the effect cleanup. The handlers are modelled as methods that receive what those calls deliver.
- `JSON.parse` is an input: its decoded snapshot, or None when it throws. A message that decodes to something other than an object, such as `null`, is not modelled.
- Snapshot fields hold numbers or are absent. JavaScript's coercion of a non-numeric `cpu_load` in `> 80` is not modelled, and neither are NaN or floating-point rounding: loads are reals.
- Markup is not modelled: the stat cards, chart styling and button classes. Only what the view chooses from the state is modelled.
- Settings.TestConnection: `int(info.port)` is modelled as accepting only a non-empty string of ASCII digits. Python also accepts a sign, surrounding whitespace, underscores and non-ASCII digits; those inputs are rejected in the model.
- Settings.TestConnection: a negative or out-of-range port, OverflowError from the socket layer, and exceptions of the probe other than OSError are not modelled. The probe is an oracle that answers true or false.
- The driver's `makedsn` output format and the driver import order (oracledb before cx_Oracle) are not modelled. The driver is either absent or a pair of functions, each returning a result or an error text.
- PyText.Upper and PyText.Lower map only ASCII letters. Python's full Unicode case mapping (for example 'ſ'.upper() == 'S') is not modelled.
- The editor's agent-proxy path (editor.py lines 26-35) is not modelled. It forwards the request over HTTP to the agent, whose `/execute` is modelled as Agent.ExecuteQuery.
- The `/upload` endpoint (editor.py lines 68-83) is not modelled. It only decodes a file as UTF-8 and calls the execute path.
- The random generators are not modelled. Their draws are inputs constrained to randint's and choice's ranges.
- FastAPI routing, pydantic validation, asyncio, CORS, the pool's creation at startup and uvicorn are not modelled.
- The agent's `GET /` endpoint (`health_check`, oracle-monitoring-agent/main.py lines 94-96), its startup hook and `get_db_connection` (lines 67-92 of the same file, which create the pool) are not modelled; the pool is an input. Neither is `get_db_metrics`, which produces the server's base dictionary. The dictionary is an input of Monitoring.AddDerivedFields.
- Agent.ExecuteQuery: errors from `pool.acquire()`, `conn.cursor()` and `cursor.execute()` are modelled as a single execute error, since all three reach the same except branch with str(e).
- Agent.ExecuteQuery: the JSON serialisation of the rows is not modelled. Rows are returned as the cursor's values.
- Dashboard.DashboardState.OnMessage: the receipt time is the formatted string the browser's clock gives. Its format (`toLocaleTimeString`) is not modelled.
- Monitoring.AddDerivedFields: the timestamp is the clock's ISO string, an input.
