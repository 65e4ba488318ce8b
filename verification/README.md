# Live fetal-monitoring data path, modelled in Dafny

This project models the data path behind the live monitoring page of a
fetal-monitoring dashboard. Three real-time streams feed it:

- an AI analysis stream (short-term status and events, long-term hypoxia and
  emergency probabilities);
- a heart-rate (BPM) stream;
- a uterine-contraction (UC) stream.

Each stream is received by a reconnecting WebSocket client and kept in a
bounded buffer of a global store. Sliding windows of the two sample streams
are cut for the charts. An alert feed is derived from the AI stream and its
connection status, de-duplicated and capped. The panel shows the alerts the
user has not dismissed.

One Dafny module models each source file:

| module | file |
|---|---|
| `Types` | `src/shared/types/websocket.ts` |
| `WebSocketStore` | `src/shared/store/websocket-store.ts` |
| `WebSocketSelectors` | `src/shared/store/websocket-selectors.ts` |
| `SlidingWindow` | `src/shared/hooks/use-sliding-window.ts` |
| `RealtimeCharts` | `src/features/monitoring/ui/realtime-charts.tsx` |
| `AIAlerts` | `src/features/monitoring/hooks/use-ai-alerts.ts` |
| `AlertsPanel` | `src/features/monitoring/ui/alerts-panel.tsx` |
| `WebSocketClientModel` | `src/shared/api/websocket.ts` |
| `UseWebSocket` | `src/shared/hooks/use-websocket.ts` |

`Common` holds an `Option` type and the meaning of the JavaScript array
operations used here (`slice` with a possibly negative start, `filter`).

State that the source updates in place becomes a class:

- a store stream;
- the sliding-window hook;
- the alert deriver, whose alert list and two dedup cells the hook keeps in refs;
- the panel's dismissed set;
- the WebSocket client;
- the per-stream connection hook.

Pure computations become functions, with lemmas relating them to independent
definitions. Wherever the source reads the clock, the reading is a
parameter. Socket events and timer expiries become method calls, and the
callbacks a client makes are returned as a list.

In three places the code does something other than its comments or a first reading suggest. The model follows the code:

- `WINDOW_SIZE` is 100 seconds, although the comment next to it says five minutes.
- After the reconnect budget is spent, an explicit `connect()` does not reset
  the attempt counter. Only a successful open or a `disconnect()` resets it,
  so a failed manual connect schedules no retry.
- The stored connection status is never `connecting`. The hooks map only
  'open', 'error' and 'close'.

## Model

| member | source | states |
|---|---|---|
| `Common.SliceFrom` | src/shared/store/websocket-selectors.ts:38 | `slice(start)`: a negative start keeps the last `-start` elements (all if there are fewer); a non-negative start drops that many from the front |
| `Common.Filter` | src/shared/hooks/use-sliding-window.ts:34 | `filter` keeps exactly the elements that pass, in their original order (a subsequence), and is never longer than its input |
| `WebSocketStore.Append` | src/shared/store/websocket-store.ts:94-107 | appending to a buffer gives length min(n+1, 1000), with the new message last; a full buffer loses exactly its oldest element; the result is the newest 1000 of buffer+[msg] |
| `WebSocketStore.AppendAll` | src/shared/store/websocket-store.ts:94-107 | after any number of appends, the buffer is exactly the newest 1000 messages of everything appended, in arrival order |
| `WebSocketStore.Stream.constructor` | src/shared/store/websocket-store.ts:71-83 | initial stream: empty buffer, no last message, disconnected |
| `WebSocketStore.Stream.Add` | src/shared/store/websocket-store.ts:94-107 | `add*Message`: the buffer becomes `Append(old, msg)`, the last message becomes msg, and the status is kept; the invariant "last is the buffer's newest element" is preserved |
| `WebSocketStore.Stream.SetStatus` | src/shared/store/websocket-store.ts:109 | `set*Status` changes only the status |
| `WebSocketStore.Stream.Clear` | src/shared/store/websocket-store.ts:111-115 | `clear*Data` empties the buffer and the last cell and keeps the status |
| `WebSocketStore.Store.constructor` | src/shared/store/websocket-store.ts:71-83 | all three streams start empty and disconnected |
| `WebSocketStore.Store.ClearAllData` | src/shared/store/websocket-store.ts:164-172 | every buffer and last cell is reset; the statuses are kept |
| `WebSocketStore.Store.ResetAllStatuses` | src/shared/store/websocket-store.ts:174-179 | every status becomes disconnected; the data and last cells are kept |
| `WebSocketStore.AddBPMIsolated` | src/shared/store/websocket-store.ts:118-130 | appending to the heart-rate stream leaves the AI and contraction streams, and the heart-rate status, unchanged |
| `WebSocketSelectors.Recent` | src/shared/store/websocket-selectors.ts:36-49 | `slice(-count)`: for count ≥ 1, the last min(count, n) elements; count 0 keeps all; a negative count drops the first -count; always a subsequence of the data |
| `WebSocketSelectors.ConnectionStatus` | src/shared/store/websocket-selectors.ts:54-70 | the (ai, bpm, uc) triple is all-connected exactly when `useAllSocketsConnected` holds |
| `SlidingWindow.WindowData` | src/shared/hooks/use-sliding-window.ts:27-42 | empty input gives empty output; every kept sample is inside [now - windowSize, ∞); the result is a subsequence of the data; at most maxPoints (≥ 1) samples; when more pass the filter, exactly the last maxPoints of them |
| `Common.FilterConcat` | src/shared/hooks/use-sliding-window.ts:34 | `filter` of a concatenation is the concatenation of the filters |
| `Common.FilterOfSplit` | src/shared/hooks/use-sliding-window.ts:34 | when the test fails before position k and holds from k on, `filter` returns exactly the suffix from k |
| `SlidingWindow.FilterOfOrderedIsSuffix` | src/shared/hooks/use-sliding-window.ts:34 | on time-ordered data, the time filter keeps a suffix that starts at the first sample inside the window |
| `SlidingWindow.WindowChart` | src/shared/hooks/use-sliding-window.ts:50-58 | the series have the window's length; an empty window gives empty series; otherwise x starts at 0 |
| `SlidingWindow.SlidingWindowHook.constructor` | src/shared/hooks/use-sliding-window.ts:23-42 | the first render computes the window at the clock reading, and `currentTime` starts at 0 |
| `SlidingWindow.SlidingWindowHook.Recompute` | src/shared/hooks/use-sliding-window.ts:27-42 | a render with new data recomputes the window at the current clock reading; `currentTime` is untouched |
| `SlidingWindow.SlidingWindowHook.UpdateTime` | src/shared/hooks/use-sliding-window.ts:45-47 | `updateTime` sets `currentTime` only; the window does not move |
| `SlidingWindow.SlidingWindowHook.DataCount` | src/shared/hooks/use-sliding-window.ts:66 | `dataCount` equals the length of both plotted series |
| `RealtimeCharts.ToChartData` | src/features/monitoring/ui/realtime-charts.tsx:20-30 | no points gives empty series; otherwise both series have one entry per point |
| `RealtimeCharts.ToChartDataRoundTrip` | src/features/monitoring/ui/realtime-charts.tsx:20-30 | re-basing starts x at 0, and adding the first time back recovers the points exactly |
| `RealtimeCharts.ToChartDataOrdered` | src/features/monitoring/ui/realtime-charts.tsx:20-30 | on time-ordered points, x is non-negative and non-decreasing |
| `RealtimeCharts.WindowChartIsToChartData` | src/features/monitoring/ui/realtime-charts.tsx:20-30 | the hook's `chartData` and the page's `toChartData` are the same re-basing |
| `RealtimeCharts.Displayed` | src/features/monitoring/ui/realtime-charts.tsx:64-72 | window mode shows exactly the window hook's chart and its count; scroll mode shows the full history, re-based losslessly, with count = history length |
| `RealtimeCharts.Tick` | src/features/monitoring/ui/realtime-charts.tsx:80-91 | the one-second interval runs only in window mode; it sets both hooks' `currentTime` and moves neither window; in scroll mode neither hook's `currentTime` changes |
| `RealtimeCharts.WindowOfSteadyStream` | src/features/monitoring/ui/realtime-charts.tsx:15-16 | with samples at 0..150, now = 150 and the 100 s window, the kept samples are exactly those at 50..150, and the plot starts at x = 0 |
| `AIAlerts.ConnectionAlert` | src/features/monitoring/hooks/use-ai-alerts.ts:23-65 | the id is (status, ms) and the timestamp is the clock reading; error gives an error alert that is unacknowledged; every other status gives an acknowledged info alert |
| `AIAlerts.EventAlerts` | src/features/monitoring/hooks/use-ai-alerts.ts:92-114 | the events contribute at most one alert each |
| `AIAlerts.MessageAlerts` | src/features/monitoring/hooks/use-ai-alerts.ts:67-157 | a message yields at most one alert per rule and per event: at most (number of events) + 3 |
| `AIAlerts.PushEventAlerts` | src/features/monitoring/hooks/use-ai-alerts.ts:92-114 | the event loop appends, in index order, exactly the per-event alerts |
| `AIAlerts.BuildAlertsFromMessage` | src/features/monitoring/hooks/use-ai-alerts.ts:67-157 | the pushes produce the status, event, hypoxia and emergency alerts in that order |
| `AIAlerts.EventAlertsMembers` | src/features/monitoring/hooks/use-ai-alerts.ts:92-114 | an alert comes from the first n events iff it is the event alert its id's rule calls for, with index < n |
| `AIAlerts.MessageAlertsByRule` | src/features/monitoring/hooks/use-ai-alerts.ts:67-157 | an alert is derived from a message iff it is the one the per-id rule calls for. The rules: alarm gives error and suspicion gives warning; event > 0.7 gives error and > 0.4 gives warning; hypoxia > 0.8 / > 0.6; emergency > 0.7 / > 0.5; stamped time·1000 ms and unacknowledged |
| `AIAlerts.EventAlertsRanked` | src/features/monitoring/hooks/use-ai-alerts.ts:92-114 | event alerts come in strictly increasing event index |
| `AIAlerts.MessageAlertsOrdered` | src/features/monitoring/hooks/use-ai-alerts.ts:67-157 | the derived list is strictly ordered: status, events by index, hypoxia, emergency |
| `AIAlerts.MessageAlertsShared` | src/features/monitoring/hooks/use-ai-alerts.ts:67-157 | the ids of one message's alerts are pairwise distinct; all carry the message time in ms and are unacknowledged |
| `AIAlerts.HypoxiaOnlyMessage` | src/features/monitoring/hooks/use-ai-alerts.ts:116-124 | a message that is normal apart from hypoxia 0.85 yields exactly one error alert |
| `AIAlerts.Hundredths` | src/features/monitoring/hooks/use-ai-alerts.ts:212-215 | `toFixed(2)` as a whole number of hundredths: within half a hundredth of the value |
| `AIAlerts.SignatureOf` | src/features/monitoring/hooks/use-ai-alerts.ts:208-216 | the signature keeps the time, the status and each event's type exactly, in order, and each severity and the two probabilities rounded to the nearest hundredth |
| `AIAlerts.SignatureHidesThresholdCrossing` | src/features/monitoring/hooks/use-ai-alerts.ts:205-218 | two messages whose event severities are 0.6996 and 0.7004 share a signature but call for different alerts, so the second is never derived |
| `AIAlerts.IndexOf` | src/features/monitoring/hooks/use-ai-alerts.ts:175 | `map.get`: the first position holding the id, or -1 when no alert has it |
| `AIAlerts.UpsertOne` | src/features/monitoring/hooks/use-ai-alerts.ts:174-180 | one `map.set` adds at most one entry, and every alert with another id keeps its place (the Map keeps insertion order) |
| `AIAlerts.MergeAll` | src/features/monitoring/hooks/use-ai-alerts.ts:171-180 | the merged map has at least the stored alerts' count and at most one more per incoming alert |
| `AIAlerts.InsertNewestFirst` | src/features/monitoring/hooks/use-ai-alerts.ts:184-186 | insertion adds exactly one element (multiset) |
| `AIAlerts.InsertKeepsNewestFirst` | src/features/monitoring/hooks/use-ai-alerts.ts:184-186 | inserting into a newest-first list keeps it newest-first |
| `AIAlerts.SortNewestFirst` | src/features/monitoring/hooks/use-ai-alerts.ts:184-186 | the sort (an insertion sort, stable like `Array.prototype.sort`) is a permutation of its input: same multiset, same length |
| `AIAlerts.SortIsNewestFirst` | src/features/monitoring/hooks/use-ai-alerts.ts:184-186 | the sorted list is ordered by non-increasing timestamp |
| `AIAlerts.InsertKeepsTies` | src/features/monitoring/hooks/use-ai-alerts.ts:184-186 | inserting into a newest-first list puts the alert after every alert with its timestamp and reorders no tied alerts |
| `AIAlerts.SortIsStable` | src/features/monitoring/hooks/use-ai-alerts.ts:184-186 | the sort is stable: for every timestamp, the alerts carrying it come out in the order they went in |
| `AIAlerts.SortOfNewestFirst` | src/features/monitoring/hooks/use-ai-alerts.ts:184-186 | sorting a list that is already newest first returns it unchanged |
| `AIAlerts.SortKeepsNewerPrefix` | src/features/monitoring/hooks/use-ai-alerts.ts:184-186 | sorting a newest-first list followed by alerts no newer than any of it keeps that list in front and sorts only the rest |
| `AIAlerts.UpsertOneWhenStored` | src/features/monitoring/hooks/use-ai-alerts.ts:174-180 | one merge step changes nothing exactly when the alert is stored under its id with the same timestamp |
| `AIAlerts.UpsertOneDistinct` | src/features/monitoring/hooks/use-ai-alerts.ts:174-180 | a merge step keeps ids unique |
| `AIAlerts.MergeAllDistinct` | src/features/monitoring/hooks/use-ai-alerts.ts:171-180 | merging a batch keeps ids unique |
| `AIAlerts.NoChangeIffAllStored` | src/features/monitoring/hooks/use-ai-alerts.ts:171-182 | `changed` stays false iff every incoming alert is already stored with its timestamp, and then the list is untouched |
| `AIAlerts.InsertKeepsDistinct` | src/features/monitoring/hooks/use-ai-alerts.ts:184-186 | inserting an alert with a new id keeps ids unique |
| `AIAlerts.SortKeepsDistinct` | src/features/monitoring/hooks/use-ai-alerts.ts:184-186 | sorting keeps ids unique |
| `AIAlerts.UpsertResult` | src/features/monitoring/hooks/use-ai-alerts.ts:168-191 | an upsert that changes nothing returns the stored list; any result is at most 100 long or the stored list |
| `AIAlerts.UpsertKeepsWellFormed` | src/features/monitoring/hooks/use-ai-alerts.ts:168-191 | every upsert keeps the list id-unique, newest first and at most 100 long; after a change the length is min(merged, 100), the list holds only merged alerts (multiset), and every dropped alert is no newer than every kept one |
| `AIAlerts.PrefixKeepsOrder` | src/features/monitoring/hooks/use-ai-alerts.ts:184-187 | keeping the first 100 of a sorted, id-unique list keeps it sorted and id-unique, and drops nothing newer than what it keeps |
| `AIAlerts.StoredSurvivesOthers` | src/features/monitoring/hooks/use-ai-alerts.ts:174-180 | merging alerts with other ids never disturbs a stored alert |
| `AIAlerts.MergeAllStoresIncoming` | src/features/monitoring/hooks/use-ai-alerts.ts:174-180 | after merging a batch with distinct ids, each of its alerts is stored with its timestamp |
| `AIAlerts.UpsertStoresIncoming` | src/features/monitoring/hooks/use-ai-alerts.ts:168-191 | after an upsert that cuts nothing off, every alert of the batch is in the list under its id with its timestamp |
| `AIAlerts.MergeAppendsOlder` | src/features/monitoring/hooks/use-ai-alerts.ts:171-180 | merging a batch whose alerts are each stored already or new and no newer than any stored alert leaves the stored list in front and only appends older alerts |
| `AIAlerts.CutOrKept` | src/features/monitoring/hooks/use-ai-alerts.ts:184-187 | an alert of the sorted list is either kept by the cut at 100, or its id is absent from what is kept and it is no newer than anything kept |
| `AIAlerts.CutBatch` | src/features/monitoring/hooks/use-ai-alerts.ts:168-191 | after an upsert that changed the list, each batch alert is stored or was cut off as such an older newcomer; if one was cut off, the list is full |
| `AIAlerts.UpsertIntoFullKeeps` | src/features/monitoring/hooks/use-ai-alerts.ts:168-191 | upserting into a full list a batch whose missing alerts are older newcomers leaves the list as it is |
| `AIAlerts.UpsertIdempotent` | src/features/monitoring/hooks/use-ai-alerts.ts:168-191 | upserting the same batch (distinct ids) twice equals upserting it once, also when the first upsert cut alerts of the batch off at 100 |
| `AIAlerts.UpsertNewAlert` | src/features/monitoring/hooks/use-ai-alerts.ts:168-191 | one alert with a new id, added to a list with room, is added and nothing else changes (multiset) |
| `AIAlerts.DerivedAlertsStamped` | src/features/monitoring/hooks/use-ai-alerts.ts:23-157 | every derived alert carries the timestamp its id implies |
| `AIAlerts.StampedMergeKeepsCurrent` | src/features/monitoring/hooks/use-ai-alerts.ts:174-180 | with such alerts, merging never replaces a stored alert: a re-derived alert with new content under a known id is dropped |
| `AIAlerts.UpsertKeepsStamped` | src/features/monitoring/hooks/use-ai-alerts.ts:168-191 | upserts preserve that property |
| `AIAlerts.UpsertNeverReplaces` | src/features/monitoring/hooks/use-ai-alerts.ts:168-191 | after an upsert of such alerts, every alert under the id of a previously stored alert is that stored alert, cut or not |
| `AIAlerts.AlertDeriver.constructor` | src/features/monitoring/hooks/use-ai-alerts.ts:162-166 | no alerts, no status seen, no signature seen |
| `AIAlerts.AlertDeriver.Upsert` | src/features/monitoring/hooks/use-ai-alerts.ts:168-191 | the loop with its `changed` flag yields `UpsertResult`, keeps the list well formed and stamped, and replaces no stored alert; the hook passes it derived, hence stamped, alerts only |
| `AIAlerts.AlertDeriver.OnStatus` | src/features/monitoring/hooks/use-ai-alerts.ts:193-203 | a status equal to the last one seen derives nothing; another status upserts its connection alert; the status is remembered; the list stays well formed and stamped, and no stored alert is replaced |
| `AIAlerts.AlertDeriver.OnLastMessage` | src/features/monitoring/hooks/use-ai-alerts.ts:205-223 | no message, or a signature equal to the last one, derives nothing; otherwise the signature is remembered and the message's alerts upserted; the list stays well formed and stamped, and no stored alert is replaced |
| `AIAlerts.RepeatedStatusScenario` | src/features/monitoring/hooks/use-ai-alerts.ts:193-203 | "disconnected" reported twice, a second apart, leaves one alert: the repeat derives nothing although its alert would have a new id |
| `AlertsPanel.VisibleAlerts` | src/features/monitoring/ui/alerts-panel.tsx:67 | an alert is shown iff it is derived and its id is not dismissed; the shown list keeps the derived order; with nothing dismissed, all are shown |
| `AlertsPanel.DismissOneMore` | src/features/monitoring/ui/alerts-panel.tsx:67-71 | dismissing one more id removes exactly the alerts with that id from what was shown |
| `AlertsPanel.DismissingOnlyHides` | src/features/monitoring/ui/alerts-panel.tsx:67-71 | a larger dismissed set shows a subsequence of what a smaller one shows |
| `AlertsPanel.BadgeCountsUndismissed` | src/features/monitoring/ui/alerts-panel.tsx:85 | the "active" count plus the number of dismissed-id alerts is the number of derived alerts |
| `AlertsPanel.DismissalState.constructor` | src/features/monitoring/ui/alerts-panel.tsx:65 | nothing is dismissed at first |
| `AlertsPanel.DismissalState.Dismiss` | src/features/monitoring/ui/alerts-panel.tsx:69-71 | `handleDismiss` adds the id; ids are never removed |
| `AlertsPanel.DismissThenShow` | src/features/monitoring/ui/alerts-panel.tsx:67-71 | after dismissing an id, no alert with it is shown, whatever is derived later, and every other undismissed alert is |
| `AlertsPanel.FormatTimestamp` | src/features/monitoring/ui/alerts-panel.tsx:50-61 | the label is seconds for diff < 60 s, minutes in 1..59 for diff < 1 h, hours in 1..23 for diff < 1 day, else the date; each number is the floor of the elapsed time in its unit |
| `AlertsPanel.FutureAlertLabel` | src/features/monitoring/ui/alerts-panel.tsx:50-58 | a timestamp 1.5 s in the future reads "-2 s ago" (floor of a negative quotient) |
| `WebSocketClientModel.OrDefault` | src/shared/api/websocket.ts:130-131 | `??`: only an absent option takes the default (3000 ms, 5 attempts) |
| `WebSocketClientModel.WebSocketClient.constructor` | src/shared/api/websocket.ts:114-132 | options with their defaults; no socket, no attempts, no timer, not intentionally closed |
| `WebSocketClientModel.WebSocketClient.Connect` | src/shared/api/websocket.ts:137-143 | `connect` does nothing when the socket is open; otherwise it creates a new connecting socket (even over a connecting one) and clears the intentional flag |
| `WebSocketClientModel.WebSocketClient.OnOpen` | src/shared/api/websocket.ts:145-149 | an open event resets the attempt counter and reports 'open' |
| `WebSocketClientModel.WebSocketClient.OnMessage` | src/shared/api/websocket.ts:151-158 | a frame that parses is delivered; one that does not is dropped |
| `WebSocketClientModel.WebSocketClient.IsConnected` | src/shared/api/websocket.ts:226-228 | connected only with a current socket, and so only after the client created one |
| `WebSocketClientModel.WebSocketClient.OnError` | src/shared/api/websocket.ts:160-164 | the callbacks are exactly the error handler's call, when one is set, followed by the status handler's 'error', when one is set |
| `WebSocketClientModel.WebSocketClient.OnClosing` | src/shared/api/websocket.ts:226-228 | the browser moves a socket to CLOSING before its close event; nothing is called and no counter moves, and if it is the current socket the client stops being connected |
| `WebSocketClientModel.WebSocketClient.OnClose` | src/shared/api/websocket.ts:166-173 | a close event reports 'close'; unless the close was intentional, a reconnect is attempted |
| `WebSocketClientModel.WebSocketClient.AttemptReconnect` | src/shared/api/websocket.ts:179-195 | once the maximum number of attempts has been made, nothing; otherwise one more attempt and one more timer; the attempt counter never exceeds the maximum |
| `WebSocketClientModel.WebSocketClient.FireTimer` | src/shared/api/websocket.ts:192-194 | a firing timer calls `connect`; the timer handle is not cleared |
| `WebSocketClientModel.WebSocketClient.Disconnect` | src/shared/api/websocket.ts:200-214 | sets the intentional flag, cancels only the remembered timer, forgets the socket and resets the attempt counter |
| `WebSocketClientModel.FailedRound` | src/shared/api/websocket.ts:166-195 | a close of the connecting socket followed by its timer uses one attempt and opens the next socket |
| `WebSocketClientModel.RetriesRunOut` | src/shared/api/websocket.ts:179-185 | with the defaults, a server that never accepts sees 6 sockets (5 reconnects); after the sixth close no timer is pending |
| `WebSocketClientModel.LateCloseAfterReconnect` | src/shared/api/websocket.ts:137-173 | when `disconnect` is followed at once by `connect`, the old socket's late close schedules a reconnect |
| `WebSocketClientModel.ConnectWhileClosing` | src/shared/api/websocket.ts:137-173 | a `connect` while the open socket is closing creates a second socket over it, and the first one's close event still reports 'close' and schedules a reconnect |
| `UseWebSocket.StatusOf` | src/shared/hooks/use-websocket.ts:37-48 | open maps to connected, error to error, close to disconnected; `connecting` is never produced |
| `UseWebSocket.StatusOfRoundTrip` | src/shared/hooks/use-websocket.ts:37-48 | the mapping is a bijection onto the statuses other than `connecting` |
| `UseWebSocket.IsConnectedStatus` | src/shared/hooks/use-websocket.ts:80 | the hook's `isConnected` holds exactly for the status an 'open' event produces |
| `UseWebSocket.AllConnectedAgreesWithSelector` | src/shared/hooks/use-websocket.ts:226 | `allConnected` of the hooks equals the store's `useAllSocketsConnected` and the all-connected status triple |
| `UseWebSocket.SocketHook.constructor` | src/shared/hooks/use-websocket.ts:27 | no client before the first `connect` |
| `UseWebSocket.SocketHook.Connect` | src/shared/hooks/use-websocket.ts:50-60 | the client is created lazily, once, with the defaults and only a status handler; later calls reuse it |
| `UseWebSocket.SocketHook.Disconnect` | src/shared/hooks/use-websocket.ts:62-64 | a no-op before any client exists; otherwise the client is intentionally closed, has no socket, no attempts and no remembered timer |
| `UseWebSocket.SocketHook.HandleMessage` | src/shared/hooks/use-websocket.ts:30-35 | a delivered message is appended to the hook's stream |
| `UseWebSocket.SocketHook.HandleStatusChange` | src/shared/hooks/use-websocket.ts:37-48 | the stream's status becomes the mapped status; the stream never shows `connecting` |
| `UseWebSocket.SocketHook.Deliver` | src/shared/hooks/use-websocket.ts:30-48 | a client callback reaches the store as an append or a status change |
| `UseWebSocket.DisconnectBeforeCloseEvent` | src/shared/hooks/use-websocket.ts:62-80 | after `disconnect`, until the close event arrives, the hook still reports connected while its client does not |

## Left out

- The mock socket factories (`src/shared/api/websocket.ts:28-108`). They are test scaffolding driven by random numbers and intervals.
- The browser `WebSocket`, `JSON.parse`, `setTimeout`/`setInterval`, `console` and `Date.now`:
  - socket events and timer expiries are method calls;
  - a decoded frame is an `Option`;
  - clock readings are parameters;
  - logging is dropped;
  - the URL is not modelled.
- `getReadyState` is not modelled separately. `ws` holds the ready state of the current socket; `OnOpen`, `OnClosing` and `OnClose` move it through OPEN, CLOSING and CLOSED.
- The reconnect interval is recorded but not used for timing. Timers are counted, and they fire in the order they were scheduled.
- React and zustand wiring is left out: effect, memo and callback lifecycles, `devtools`, the `useShallow` comparison, and the effects that call `connect`/`disconnect` on mount and unmount. The methods model what those effects run.
- Plain selectors (`useAIData`, `useLastAIMessage`, `useAIStatus` and their BPM/UC twins) are direct field reads of `Stream`. `WebSocketSelectors.AllSocketsConnected` has no contract of its own; `ConnectionStatus` and `AllConnectedAgreesWithSelector` state it.
- Alert titles and message strings:
  - titles are fixed per id kind;
  - messages are kept as the values they show (`AlertText`);
  - `toFixed`, percentage and locale date formatting are not modelled.
- `AIAlerts.Hundredths`: `toFixed(2)` in the message signature is rounding of the exact real to hundredths, half up. This matches `toFixed` for non-negative values but not binary floating-point artefacts. The signature is a tuple, not the joined string.
- Alert ids are a datatype, not template strings. The string templates are injective for integer times and indices, so equality is the same.
- Message time, sample times and alert timestamps are integers (seconds or milliseconds). Severities and probabilities are reals. Floating-point rounding is not modelled.
- `UseWebSocket.SocketHook.constructor`: this requires that the stream is not in state `connecting`. The store starts disconnected, and nothing in the modelled code sets `connecting`.
- The display-only parts of the panel (styles, icons, `renderAlertIcon`) and of the chart page (subtitle, scroll flag, buttons).
