# Sentinel console: page state machines

This project models the client-side logic of the Sentinel host intrusion-detection
console. The console is a browser front end. Its pages keep small pieces of state,
update them from user actions, agent messages and timers, and send JSON commands
to remote agents. Each such page is modelled as a Dafny class whose fields are the
page's state. Each handler is a method whose contract gives the whole new state.
The list transforms behind the handlers are pure functions, and lemmas prove the
properties the pages rely on.

- `Common` (`common.dfy`): the selected agent, firewall rules, the commands sent to
  agents, and `Option`/`Result`.
- `Lists` (`lists.dfy`): `filter` and `map`. A filter keeps exactly the wanted
  elements, with their multiplicities and in their order. This is stated through
  `IsSubsequence` and multisets.
- `LiveFeed` (`websocket_context.dfy`): the WebSocket provider. It covers the log
  and rule lists, the connected flag, the socket address and the `useWebSocket`
  guard.
- `Alerts` (`alerts.dfy`): resolve, delete, the type tabs, severity styling, and
  the selected-alert slot with its buttons.
- `Firewall` (`firewall.dfy`): the toggle, the add-rule form and rule deletion.
  Each command sent is appended to an `outbox` sequence. The rule text has a
  parser partner with a round-trip lemma.
- `PortScan` (`port_scanning.dfy`): the port → service table, the mapping of agent
  results into rows, scan validation, the message handler and the safety timer.
- `FileMonitoring` (`file_monitoring.dfy`): add with JavaScript `trim`, and remove
  by id. Also the agent's file-log lines and the `ALERT` classification.
- `Logs` (`logs.dfy`): the type-tab filter and its `All` initial tab.

JavaScript truthiness is modelled where the code relies on it. An empty string
counts as missing in `!userId`, `!target`, `!newRulePort` and
`result.service || …`. Timers are explicit "fired" events. In the port-scan page,
scans are numbered from 1 as they start. Each armed timer that has not yet fired is
kept as the number of the scan that armed it.

The firewall state shown on the page comes from the selected agent's
`firewall_enabled` flag. It does not come from the agent statistics the page also
fetches: the page fetches them but never reads them. The model follows the code
on this point.

## Model

| member | source | states |
|---|---|---|
| `LiveFeed.AfterMessage` | lib/websocket-context.tsx:65-80 | a `log_stream` message puts its log first, the older logs follow in order, the list grows by one and the rules stay; a `firewall_rules` message replaces the rules and leaves the logs; any other or unparsable message changes nothing |
| `LiveFeed.ReplayKeepsEarlierLogs` | lib/websocket-context.tsx:70-72 | over any run of messages the log list grows by exactly the number of `log_stream` messages, and the logs held before stay at the end in their order |
| `LiveFeed.SocketUrl` | lib/websocket-context.tsx:51-56 | the address starts `wss://` for an `https:` page and `ws://` otherwise, then has `localhost:3001` in development or the page host, and ends in `/?user_id=` plus the user id |
| `LiveFeed.SocketUrlInjective` | lib/websocket-context.tsx:56 | two different users on the same page get different socket addresses |
| `LiveFeed.UseWebSocket` | lib/websocket-context.tsx:112-118 | fails with the provider error exactly when no provider value is present, otherwise returns that value |
| `LiveFeed.WebSocketProvider.Value` | lib/websocket-context.tsx:98-102 | the value handed to the pages is the provider's logs, rules and connected flag, and nothing else |
| `LiveFeed.WebSocketProvider.HookSeesProvider` | lib/websocket-context.tsx:98-118 | inside the provider `useWebSocket` succeeds and returns the provider's current logs, rules and connected flag |
| `LiveFeed.WebSocketProvider.constructor` | lib/websocket-context.tsx:26-29 | starts with no logs, no rules, disconnected, no user and no socket |
| `LiveFeed.WebSocketProvider.OnUserLoaded` | lib/websocket-context.tsx:37-45 | stores the signed-in user's id; a missing user leaves the slot unchanged |
| `LiveFeed.WebSocketProvider.Connect` | lib/websocket-context.tsx:48-58 | opens no socket while the user id is missing or empty, otherwise opens one at `SocketUrl` |
| `LiveFeed.WebSocketProvider.OnOpen` | lib/websocket-context.tsx:60-63 | an open socket marks the feed connected |
| `LiveFeed.WebSocketProvider.OnClose` | lib/websocket-context.tsx:82-85 | a close marks the feed disconnected |
| `LiveFeed.WebSocketProvider.OnError` | lib/websocket-context.tsx:87-90 | an error marks the feed disconnected |
| `LiveFeed.WebSocketProvider.OnMessage` | lib/websocket-context.tsx:65-80 | the logs and rules become `AfterMessage` of the old ones |
| `Alerts.SeverityTone` | app/alerts/page.tsx:23-30 | Critical, High and Medium each get their own scheme; every other severity gets the single default one |
| `Alerts.Resolve` | app/alerts/page.tsx:38-39 | same length and order; an alert is resolved afterwards iff it was already resolved or has the id; no other field changes |
| `Alerts.ResolveIdempotent` | app/alerts/page.tsx:39 | resolving an id twice gives the same list as resolving it once |
| `Alerts.Delete` | app/alerts/page.tsx:43-44 | removes exactly the alerts with the id, keeps every other alert as often as before, and keeps their relative order |
| `Alerts.DeleteAbsentId` | app/alerts/page.tsx:44 | deleting an id no alert carries leaves the list unchanged |
| `Alerts.VisibleAlerts` | app/alerts/page.tsx:48 | the `All` tab shows the full list; any other tab shows exactly the alerts of that type, all of them, in their original order |
| `Alerts.ResolveOffered` | app/alerts/page.tsx:114 | the Resolve button is shown only when an alert is selected, and then exactly when it is unresolved |
| `Alerts.ResolvedAlertNotOffered` | app/alerts/page.tsx:114-116 | after an id is resolved, none of its alerts offers the Resolve button when opened |
| `Alerts.AlertsPage.constructor` | app/alerts/page.tsx:34-36 | starts with the given alerts, nothing selected and the `All` tab |
| `Alerts.AlertsPage.SetFilter` | app/alerts/page.tsx:64 | a tab click makes that tab active |
| `Alerts.AlertsPage.Select` | app/alerts/page.tsx:79-82 | clicking a shown card selects its alert |
| `Alerts.AlertsPage.CloseDetails` | app/alerts/page.tsx:107 | closing the detail view clears the selection |
| `Alerts.AlertsPage.HandleResolve` | app/alerts/page.tsx:38-41 | the list becomes `Resolve` of the old list; the selection is cleared iff the selected alert has that id, and kept otherwise |
| `Alerts.AlertsPage.HandleDelete` | app/alerts/page.tsx:43-46 | the list becomes `Delete` of the old list; the selection is cleared iff the selected alert has that id, and kept otherwise |
| `Alerts.AlertsPage.ClickResolve` | app/alerts/page.tsx:114-116 | the Resolve button exists only for an unresolved selected alert; it resolves that alert's id and clears the selection |
| `Alerts.AlertsPage.ClickDelete` | app/alerts/page.tsx:113 | the Delete button deletes the selected alert's id and clears the selection |
| `Firewall.RuleString` | app/firewall/page.tsx:100 | the rule text is the port, then `/`, then the protocol name |
| `Firewall.RuleStringRoundTrip` | app/firewall/page.tsx:100 | every rule text the form builds reads back as the port and protocol it came from |
| `Firewall.FirewallEnabled` | app/firewall/page.tsx:80 | the firewall shows as on exactly when the agent's flag is present and true, so a missing flag means off |
| `Firewall.PageControls` | app/firewall/page.tsx:71-147 | without a selected agent only the prompt is shown and no handler is reachable; with one, toggle is usable iff connected and no toggle is in flight, and add and remove (lines 215 and 241) are usable iff connected |
| `Firewall.FirewallPage.constructor` | app/firewall/page.tsx:19-26 | no toggle in flight; the form starts as allow, empty port, tcp, from `any`; nothing sent |
| `Firewall.FirewallPage.SetAction` | app/firewall/page.tsx:195 | the action select sets the form's action |
| `Firewall.FirewallPage.SetPort` | app/firewall/page.tsx:202 | the port input sets the form's port |
| `Firewall.FirewallPage.SetProtocol` | app/firewall/page.tsx:206 | the protocol select sets the form's protocol |
| `Firewall.FirewallPage.SetFrom` | app/firewall/page.tsx:213 | the from input sets the form's source |
| `Firewall.FirewallPage.HandleToggleFirewall` | app/firewall/page.tsx:82-91 | sends `toggle_firewall` with `enabled` equal to the negation of the shown state and marks a toggle in flight |
| `Firewall.FirewallPage.OnToggleTimerFired` | app/firewall/page.tsx:93 | the three-second timer fires only while a toggle is in flight (the button is disabled meanwhile, line 147) and clears the mark |
| `Firewall.FirewallPage.HandleAddRule` | app/firewall/page.tsx:96-109 | with an empty port nothing is sent and no field changes; otherwise it sends `add_firewall_rule` with `port/protocol`, the action and the source, then clears only the port |
| `Firewall.FirewallPage.HandleRemoveRule` | app/firewall/page.tsx:111-115 | sends `delete_firewall_rule` whose index is the clicked rule's id (line 240) |
| `PortScan.GetService` | app/port-scanning/page.tsx:8-31 | a listed port maps to its name in the service table; every other port maps to `Unknown` |
| `PortScan.NineteenNamedPorts` | app/port-scanning/page.tsx:8-31 | the table names exactly nineteen distinct ports |
| `PortScan.NamedPortsAreKnown` | app/port-scanning/page.tsx:9-28 | no listed port comes out as `Unknown` |
| `PortScan.ToScanResult` | app/port-scanning/page.tsx:58-62 | a row keeps the agent's port and has status open; its service is the agent's when that is non-empty, otherwise the table's |
| `PortScan.ToScanResults` | app/port-scanning/page.tsx:58-64 | one row per reported port, in the agent's order |
| `PortScan.ValidateScan` | app/port-scanning/page.tsx:88-101 | checks target, then agent, then connection; each failure gives its own message, and only when all three pass does it yield the selected agent |
| `PortScan.AfterMessage` | app/port-scanning/page.tsx:49-73 | other or unparsable messages change nothing; `scan_results` stops the scan and shows the rows; an empty list also sets `No open ports found.`; a message without `open_ports` only stops the scan |
| `PortScan.AfterTimeout` | app/port-scanning/page.tsx:115-118 | the timer stops the scan and sets the timeout error whatever happened before, keeping the rows |
| `PortScan.Started` | app/port-scanning/page.tsx:103-105 | a scan that passes its checks is waiting, with no rows and no error |
| `PortScan.TimeoutAfterResults` | app/port-scanning/page.tsx:114-118 | after results with open ports have arrived, the timer still replaces the error with the timeout message |
| `PortScan.TimeoutEndsLaterScan` | app/port-scanning/page.tsx:114-118 | on one page a first scan gets its result and a second scan starts; the first scan's timer then ends the second scan with the timeout error, leaving only the second scan's timer armed |
| `PortScan.AfterTimeoutIntended` | app/port-scanning/page.tsx:114-118 | the corrected timer ends a scan only when that scan armed it, is still the latest scan and is still waiting; otherwise it changes nothing |
| `PortScan.IntendedTimeoutKeepsResults` | app/port-scanning/page.tsx:114-118 | with the corrected timer, a scan whose results arrived keeps its outcome |
| `PortScan.IntendedTimeoutSparesLaterScan` | app/port-scanning/page.tsx:114-118 | with the corrected timer, an earlier scan's timer leaves a later scan running |
| `PortScan.IntendedTimeoutSparesSecondScan` | app/port-scanning/page.tsx:114-118 | the same two-scan run with the corrected timer: after the first scan's timer fires, the second scan is still waiting with no error and no rows |
| `PortScan.ScanPage.constructor` | app/port-scanning/page.tsx:42-45 | empty target, no rows, not scanning, no error, nothing sent, no scan started and no timer armed |
| `PortScan.ScanPage.SetTarget` | app/port-scanning/page.tsx:141 | the target input sets the target |
| `PortScan.ScanPage.HandleScan` | app/port-scanning/page.tsx:87-119 | a failed check sets its message and changes nothing else; a passing scan becomes `Started` (error cleared, scanning, no rows), sends `scan_common_ports` with `ip` equal to the target, gets the next scan number and arms one timer carrying that number; every armed timer belongs to a started scan |
| `PortScan.ScanPage.HandleMessage` | app/port-scanning/page.tsx:49-73 | the page's scan state becomes `AfterMessage` of the old one |
| `PortScan.ScanPage.OnScanTimeout` | app/port-scanning/page.tsx:115-118 | an armed timer fires and is disarmed; as written, the scan state becomes `AfterTimeout` of the old one |
| `PortScan.ScanPage.OnScanTimeoutIntended` | app/port-scanning/page.tsx:114-118 | the same event with the corrected timer: the scan state becomes `AfterTimeoutIntended` for the timer's scan number and the latest scan |
| `FileMonitoring.TrimStart` | app/file-monitoring/page.tsx:41 | removes exactly the leading white space: the result is a suffix that is empty or starts with a non-space |
| `FileMonitoring.TrimEnd` | app/file-monitoring/page.tsx:41 | removes exactly the trailing white space: the result is a prefix that is empty or ends with a non-space |
| `FileMonitoring.Trim` | app/file-monitoring/page.tsx:41-45 | the trimmed path is the input with its leading and trailing white space removed: a slice of the input with only white space before and after it, empty iff the input is all white space, and otherwise starting and ending with a non-space |
| `FileMonitoring.TrimKeepsTrimmed` | app/file-monitoring/page.tsx:45 | a path without surrounding white space is stored exactly as typed |
| `FileMonitoring.TrimIdempotent` | app/file-monitoring/page.tsx:45 | trimming twice is trimming once |
| `FileMonitoring.WithoutFile` | app/file-monitoring/page.tsx:55-56 | drops exactly the entries with the id and keeps the rest, in order |
| `FileMonitoring.AgentFileLogs` | app/file-monitoring/page.tsx:26-30 | three lines with ids 1, 2 and 3: the first reports a failed check (`ALERT`), the other two passed checks (`OK`) |
| `FileMonitoring.FileLogs` | app/file-monitoring/page.tsx:26-37 | there are no lines without a selected agent, and otherwise exactly three, each naming the agent |
| `FileMonitoring.IsAlertLine` | app/file-monitoring/page.tsx:118 | a line is shown as an alert exactly when its first five characters are `ALERT` |
| `FileMonitoring.OnlyFailedCheckIsAlert` | app/file-monitoring/page.tsx:118 | a line shows as an alert iff it starts with `ALERT`: of the three lines only the failed check does |
| `FileMonitoring.FileMonitoringPage.constructor` | app/file-monitoring/page.tsx:35-36 | starts with the given files and an empty input |
| `FileMonitoring.FileMonitoringPage.SetNewFilePath` | app/file-monitoring/page.tsx:78 | typing sets the input |
| `FileMonitoring.FileMonitoringPage.HandleAddFile` | app/file-monitoring/page.tsx:39-53 | an all-white-space input changes nothing; otherwise the trimmed path is put first, the old entries follow in order, and the input is cleared |
| `FileMonitoring.FileMonitoringPage.HandleRemoveFile` | app/file-monitoring/page.tsx:55-59 | the list becomes `WithoutFile` of the old list |
| `Logs.FilteredLogs` | app/logs/page.tsx:29 | `All` returns the list unchanged; any other tab returns only lines of that type, drops none of them and keeps their order |
| `Logs.InitialFilterShowsAll` | app/logs/page.tsx:27-29 | the page opens on `All` and shows every line |
| `Logs.UniformTypeShowsAll` | app/logs/page.tsx:29 | a tab whose type every line has shows the whole list |

## Findings

| source | as written | input that shows it | evidently intended | confidence | as-written member | corrected member |
|---|---|---|---|---|---|---|
| app/port-scanning/page.tsx:114-118 | with a provider that supplies `sendCommand` (the shipped one does not; see "Left out"), every scan arms a 30-second timer and never cancels it; when the timer fires it stops the scan and sets the timeout error, whatever happened before and whichever scan is running | with `scan_results` delivered to the page's window listener (as shipped nothing delivers them; see "Left out"): a scan whose agent answers with port 22 within 30 s shows, at 30 s, the open port together with "Scan timeout…"; a second scan started after that answer, 25 s after the first, is ended 5 s later by the first scan's timer | the timer ends only the scan that armed it, and only while that scan is still waiting, as the "if no response in 30 seconds" comment says | not executed; high | `PortScan.TimeoutAfterResults` (about `PortScan.AfterTimeout`) and `PortScan.TimeoutEndsLaterScan` | `PortScan.AfterTimeoutIntended`, with `PortScan.IntendedTimeoutKeepsResults`, `PortScan.IntendedTimeoutSparesLaterScan` and `PortScan.IntendedTimeoutSparesSecondScan` |

`ScanPage.OnScanTimeout` keeps the code's behaviour (`AfterTimeout`).
`ScanPage.OnScanTimeoutIntended` is the same event with the corrected transition.
Both are stated on the same numbered timers.

## Left out

- Rendering: JSX, icons and CSS class strings. `getSeverityStyling`'s four class strings become the four `Tone` values.
- Supabase: `auth.getUser` becomes the user id passed to `OnUserLoaded`. The firewall page's `agent_stats` fetch and realtime channel are not modelled, because the page never reads what they fetch.
- The WebSocket transport, `JSON.parse` and `console` output. Messages arrive as decoded values, and a payload that fails to parse is `Malformed`.
- A decoded `log_stream` message always carries a log, and a `firewall_rules` message always carries a rule list. The code would store `undefined` when the field is missing.
- The connection effect's cleanup (`ws.close()` on unmount or when the user id changes) is not modelled. The user id is set only once.
- `sendCommand` is called by the firewall and port-scan pages, but the provider's context value (lib/websocket-context.tsx:98-102) does not supply it. The handlers `Firewall.FirewallPage.HandleToggleFirewall`, `Firewall.FirewallPage.HandleAddRule`, `Firewall.FirewallPage.HandleRemoveRule` and `PortScan.ScanPage.HandleScan` are modelled as if a working `sendCommand` were supplied, and each page's commands are appended to its own `outbox`. With the provider as shipped, each call throws a `TypeError` and the statements after it never run:
  - the toggle (app/firewall/page.tsx:88) sets the in-flight mark but never arms the 3-second timer, so the toggle button stays disabled;
  - adding a rule (app/firewall/page.tsx:102) never clears the port;
  - a scan (app/port-scanning/page.tsx:110) has already cleared the error and rows and started the spinner, but never arms the 30-second timer, so it waits forever unless a `scan_results` message arrives.
- The port-scan page listens to the browser window's `message` events (app/port-scanning/page.tsx:76-77). `PortScan.ScanPage.HandleMessage` takes the decoded message directly. In the code as shipped, the agent's socket messages go only to the provider's `onmessage` (lib/websocket-context.tsx:65-80), which handles `log_stream` and `firewall_rules` and forwards nothing. No part of the console posts to the window. So a `scan_results` message reaches this listener only if something outside this code posts it to the window. The model assumes that it does.
- The 3-second and 30-second timers are events, not time.
- `Date.now()` and `new Date().toISOString()` for a new monitored file become the `id` and `added` parameters of `HandleAddFile`.
- `handleRemoveFile`'s `path` argument is only logged, so it is dropped.
- The mock starting data (alerts, monitored files, log lines, agents) are constructor parameters or inputs. The selected agent from `lib/agent-context.tsx` is an `Option<Agent>` input, or an `Agent` for handlers that exist only once an agent is selected.
- Ports are integers. `getService` on a non-number port is not modelled.
- `proxy.ts`, the dashboard, profile, agents, agent-setup and add-user pages and the sidebar are not part of this model.
