# Web-activity tracking pipeline, in Dafny

This project models the backend of a web-activity tracker. An HTTP
controller validates a tracking event and publishes it to the Kafka topic
`web-activity`. A consumer reads each message, stores it as an `Event`
document, records it in a metrics engine's recent-events buffer, recomputes
the dashboard metrics from the store and broadcasts them over a socket
server, then commits the message's offset by hand. Any failure on the way
sends the message to the dead-letter topic `web-activity-dlq`.

The model has these parts:

- **Foreign calls.** Every broker, database, socket and clock call becomes a
  parameter that says whether it succeeds and what it returns. These are
  `Env` in the consumer, `connectError`/`broker` in the producer, and `now`
  everywhere.
- **The store.** The event store is a `seq<Event>`.
- **The Mongo pipelines.** Each is a pure function of the store and `now`,
  in module `Aggregates`.
- **Stateful objects.** Each object whose fields the source changes is a
  class:
  - `MetricsEngine` and its metrics object, `Metrics`;
  - `KafkaProducer`;
  - `KafkaConsumer`;
  - `EventCollection`;
  - `WebSocketServer`.

  Every method's ensures gives its new state in terms of the old one, most
  of them as a pure step function on the object's state. The properties are
  lemmas about those functions. For example, `KafkaConsumer.EachMessage`
  equals `HandleMessage`.

Files, in dependency order:

- `wrappers.dfy`: `Option` and `Result`.
- `config.dfy`: the topic names and the dashboard token.
- `json.dfy`: JSON values, and a payload that either parses or does not.
- `event.dfy`: the Mongoose `Event` schema and `save`.
- `validation.dfy`: the Zod schema.
- `producer.dfy`: the Kafka producer.
- `tracking.dfy`: the HTTP controller.
- `aggregates.dfy`: the store queries.
- `metrics.dfy`: the metrics engine.
- `websocket.dfy`: the socket server.
- `consumer.dfy`: the Kafka consumer.
- `pipeline.dfy`: the path from a published record to a stored event.

Three behaviours of the code worth knowing:

- `broadcastMetrics` reaches every connected socket, authenticated or not.
- A dead-lettered message's offset is not committed.
- `processEvent` runs only after the save succeeds, and it is handed the
  parsed payload. `Consumer.ProcessedEntryIsPayload` shows that the entry it
  records is the same as the one the stored document would give.

## Model

| member | source | states |
|---|---|---|
| EventModel.FromName | backend/src/models/Event.js:4-9 | Only the four enum names map to an event type, and each maps to the type with that name. |
| EventModel.Rejected | backend/src/models/Event.js:3-38 | The failing paths are exactly the schema paths the document does not satisfy. |
| EventModel.ToDocument | backend/src/models/Event.js:3-38 | A document is built exactly when every path passes; otherwise the error lists every failing path. `event`, `page`, `sessionId` and a numeric `timestamp` are required, and the optional strings are copied. `createdAt` defaults to the insertion time. |
| EventModel.PathAccepts | backend/src/models/Event.js:3-38 | One path's rule, whose conjunction over every path `ToDocument` states. `event` is a non-empty enum name, `page` and `sessionId` are non-empty strings, `timestamp` is a number, `createdAt` is absent, null or a number, and the other paths are absent, null or strings. |
| EventModel.CreatedAtOf | backend/src/models/Event.js:33-37 | `createdAt` is the insertion time when the document has none. A supplied number is kept. Any other value gives no date. |
| EventModel.Complaint | backend/src/models/Event.js:3-38 | A failing path gets the `required` message exactly when it is required and its value is missing (absent, null or empty). An enum message is given exactly when `event` holds a string, and it names that string. Any other failure is a cast error naming the path's type. |
| EventModel.Complaints | backend/src/models/Event.js:3-38 | One entry per failing path, in the same order, each with that path's message. |
| EventModel.JoinEntries | backend/src/models/Event.js:45 | The entries are written `path: message` and joined with `, `. `EntryInJoin` states that each entry appears. |
| EventModel.ErrorMessage | backend/src/models/Event.js:45 | A validation error's message is `Event validation failed: ` followed by the joined entries. A write error keeps the driver's message. `EntryInMessage` states what the text holds. |
| EventModel.AppearsAfter | backend/src/models/Event.js:45 | Text put before a string moves each occurrence in it along by the text's length. |
| EventModel.EntryInJoin | backend/src/models/Event.js:45 | Every entry's `path: message` text appears in the joined entries. |
| EventModel.EntryInMessage | backend/src/models/Event.js:45 | Every failing path's `path: message` text appears in the validation error's message. |
| EventModel.SaveOutcome | backend/src/models/Event.js:3-45 | `save` succeeds exactly when the document is built and the write succeeds. A rejected document gives a validation error with an entry for each failing path. A write failure gives the driver's message. |
| EventModel.MissingRequiredEntry | backend/src/models/Event.js:4-32 | A missing `event`, `page`, `sessionId` or `timestamp` makes `save` fail with that path's `required` entry. |
| EventModel.NotInEnumEntry | backend/src/models/Event.js:4-9 | An `event` string outside the four names makes `save` fail with the `enum` entry that names it. |
| EventModel.EventCollection.Save | backend/src/models/Event.js:3-45 | `save` appends exactly the built document. A validation or write error leaves the collection unchanged. |
| Validation.Issues | backend/src/utils/validation.js:3-12 | The issues are exactly the fields whose rule fails. |
| Validation.FieldAccepts | backend/src/utils/validation.js:3-12 | One key's rule, whose conjunction over every key `ValidateTrackingEvent` states. `event` is an enum name, `page`, `sessionId` and `userAgent` are non-empty strings, `timestamp` is a positive integer, and the optional keys are absent or strings. |
| Validation.Parsed | backend/src/utils/validation.js:3-12 | The parsed data holds the body's values. The event type has the body's name, the timestamp equals the body's number, and an optional field is present exactly when the body has its key. |
| Validation.AcceptedEveryField | backend/src/utils/validation.js:3-12 | The field-by-field rules together say that every field passes. |
| Validation.ValidateTrackingEvent | backend/src/utils/validation.js:14-26 | Returns success exactly when every field rule holds, otherwise a non-empty list of exactly the failing fields. The data is the body restricted to the declared keys. `page`, `sessionId` and `userAgent` are non-empty and `timestamp` is positive. |
| Validation.ParsedDataIsDeclared | backend/src/utils/validation.js:3-12 | The parsed data, as JSON, is the body with its undeclared keys stripped. |
| Validation.ParsedKeyPresent | backend/src/utils/validation.js:7-10 | An optional key appears in the parsed data only if the body had it. |
| Validation.ParsedKeepsField | backend/src/utils/validation.js:3-12 | A declared key of the body is kept with the same value. |
| Validation.ToJsonKeys | backend/src/utils/validation.js:3-12 | The parsed data has only declared keys, and an optional key is present only when its value is. |
| Producer.MessageFor | backend/src/services/kafka-producer.js:37-49 | A record goes to the topic `web-activity` with `acks: -1`. Its key is the session id and its value parses back to the event. |
| Producer.ConnectStep | backend/src/services/kafka-producer.js:20-29 | The flag is set when connect succeeds. A failure is rethrown and leaves the flag as it was. |
| Producer.SendStep | backend/src/services/kafka-producer.js:31-64 | When not connected, returns "not connected" and sends nothing. A broker failure is rethrown and publishes nothing. A success publishes exactly that event's record. |
| Producer.DisconnectStep | backend/src/services/kafka-producer.js:66-72 | A no-op when not connected; otherwise a successful disconnect clears the flag. |
| Producer.ConnectedIffLastConnectSucceeded | backend/src/services/kafka-producer.js:17-72 | From a fresh producer, the flag is set exactly when some connect succeeded and no successful disconnect followed it. |
| Producer.RunFlag | backend/src/services/kafka-producer.js:20-72 | The same, from any starting state. |
| Producer.NothingPublishedBeforeConnect | backend/src/services/kafka-producer.js:31-34 | Without a connect, no call changes the producer or publishes anything. |
| Producer.KafkaProducer.Connect | backend/src/services/kafka-producer.js:20-29 | Acts as `ConnectStep` on the producer's fields. |
| Producer.KafkaProducer.SendEvent | backend/src/services/kafka-producer.js:31-64 | Acts as `SendStep` on the producer's fields. |
| Producer.KafkaProducer.Disconnect | backend/src/services/kafka-producer.js:66-72 | Acts as `DisconnectStep` on the producer's fields. |
| Tracking.TrackOutcome | backend/src/controllers/tracking.js:5-42 | A failed validation gives 400 with the errors and no send. A valid event that is sent gives 200 with exactly its record published. A send that throws gives 500. The status is always 200, 400 or 500, and `success` holds exactly for 200. |
| Tracking.ClientIp | backend/src/controllers/tracking.js:8 | A non-empty `x-forwarded-for` header is the address. A missing or empty header falls back to the remote address. |
| Tracking.WithIp | backend/src/controllers/tracking.js:11-14 | `ip` is present exactly when there is an address, and then holds it. Every other key is kept with its value. |
| Tracking.ValidatorInput | backend/src/controllers/tracking.js:8-14 | The validator sees the body with `ip` set from the header or the remote address, and every other key unchanged. |
| Tracking.ClientIpNeverPublished | backend/src/controllers/tracking.js:8-14 | The client address is merged into the body, but no published record carries an `ip` key, because the validator strips it. |
| Tracking.SentRecordHasNoIp | backend/src/services/kafka-producer.js:37-41 | A record built from validated data has no `ip` key. |
| Tracking.TrackEvent | backend/src/controllers/tracking.js:5-42 | Acts as `TrackOutcome` on the producer object. |
| Tracking.GetHealth | backend/src/controllers/tracking.js:44-50 | Always 200, `success: true`, status `healthy`, with the current time. |
| Aggregates.Select | backend/src/services/metrics.js:40-43 | A `$match` keeps at most the events it was given. |
| Aggregates.SelectMultiplicity | backend/src/services/metrics.js:40-43 | A `$match` keeps each matching event as often as it occurs in the store and drops the others. |
| Aggregates.SelectAppend | backend/src/services/metrics.js:40-43 | Matching the store plus one more event matches the store, then that event. |
| Aggregates.CountAfterInsert | backend/src/services/metrics.js:40-43 | Storing one more event raises `countDocuments` by one exactly when the event matches. |
| Aggregates.PageViewsLastMinuteStep | backend/src/services/metrics.js:40-43 | `PageViewsLastMinute` is 0 on an empty store. Each stored event adds one exactly when it is a page view of the last minute. |
| Aggregates.Distinct | backend/src/services/metrics.js:47-55 | `distinct` holds each value of its input exactly once. |
| Aggregates.NoRepeatsCardinality | backend/src/services/metrics.js:47-56 | A list without repeats has as many elements as its set. |
| Aggregates.SessionIds | backend/src/services/metrics.js:47-55 | Projects each event to its session id, in order. |
| Aggregates.DistinctSessionsCount | backend/src/services/metrics.js:46-56 | The length of `distinct('sessionId')` over a window is the number of distinct sessions in that window. |
| Aggregates.ActiveUsersAtMostVisitorsToday | backend/src/services/metrics.js:45-56 | `activeUsers` counts the distinct sessions of the last 5 minutes, and `uniqueVisitorsToday` those of the last 24 hours, over events of any type. The first is never greater than the second. |
| Aggregates.ActiveUsers | backend/src/services/metrics.js:47-50 | `activeUsers` is the number of distinct sessions with an event in the last 5 minutes. |
| Aggregates.UniqueVisitorsToday | backend/src/services/metrics.js:53-56 | `uniqueVisitorsToday` is the number of distinct sessions with an event in the last 24 hours. |
| Aggregates.SubsetCardinality | backend/src/services/metrics.js:45-56 | A subset is no larger than its superset. |
| Aggregates.Keys | backend/src/services/metrics.js:66-71 | Every group's key is among the keys. |
| Aggregates.KeysHaveGroups | backend/src/services/metrics.js:66-71 | Every key belongs to a group. |
| Aggregates.AddKey | backend/src/services/metrics.js:66-71 | `$sum: 1` for one more key adds one to that key's group, or opens a new group of 1 at the end. |
| Aggregates.AddKeyDistinct | backend/src/services/metrics.js:66-71 | Adding a key keeps the group keys distinct. |
| Aggregates.AddKeyKeys | backend/src/services/metrics.js:66-71 | Adding a key adds exactly that key to the keys. |
| Aggregates.GroupBy | backend/src/services/metrics.js:66-71 | `$group` gives one group per distinct key. Each group's count is that key's multiplicity, and every key has a group. |
| Aggregates.GroupByStep | backend/src/services/metrics.js:66-71 | Grouping one more key adds it to the grouping of the rest. |
| Aggregates.GroupByKeys | backend/src/services/metrics.js:66-71 | The group keys are exactly the distinct input keys. |
| Aggregates.Find | backend/src/services/metrics.js:121 | `find` returns the index of a group with that key, or reports that no group has it. |
| Aggregates.CountOfGroupBy | backend/src/services/metrics.js:66-71 | The count looked up for a key is its multiplicity in the input. |
| Aggregates.InsertByCount | backend/src/services/metrics.js:72-74 | Inserting adds exactly one element and leaves the inserted one or the old head first. |
| Aggregates.InsertByCountSorted | backend/src/services/metrics.js:72-74 | Inserting into a list sorted by descending count keeps it sorted. |
| Aggregates.InsertByCountPermutes | backend/src/services/metrics.js:72-74 | Inserting adds exactly that element to the multiset. |
| Aggregates.DescendingCons | backend/src/services/metrics.js:72-74 | A head no smaller than a sorted tail keeps the list sorted. |
| Aggregates.SortByCountDesc | backend/src/services/metrics.js:72-74 | `$sort: {count: -1}` gives a permutation of the groups with non-increasing counts. |
| Aggregates.Limit | backend/src/services/metrics.js:75-77 | `$limit` keeps the first `n` entries, or all of them when there are fewer. |
| Aggregates.Pages | backend/src/services/metrics.js:68 | The projection has one page per event. |
| Aggregates.PagesAt | backend/src/services/metrics.js:68 | The projection keeps the order: the i-th page is the i-th event's. |
| Aggregates.TopEntry | backend/src/services/metrics.js:59-78 | Each entry of the limited list is the sorted group at that index. Its count is its key's positive multiplicity. |
| Aggregates.TopGroupsSound | backend/src/services/metrics.js:59-78 | The top list has at most `n` entries, distinct keys and non-increasing counts. Each count is its key's multiplicity. |
| Aggregates.TopGroupsComplete | backend/src/services/metrics.js:59-78 | A key missing from the top list means the list is full and every entry's count is at least that key's multiplicity. |
| Aggregates.SortedGroupOf | backend/src/services/metrics.js:66-74 | After grouping and sorting, every input key has an entry holding its multiplicity. |
| Aggregates.IndexAfterPermutation | backend/src/services/metrics.js:72-74 | An element of a list also appears in any permutation of it. |
| Aggregates.Entries | backend/src/services/metrics.js:80-83 | The `map` to `{page, views}` keeps one entry per group. |
| Aggregates.EntriesAt | backend/src/services/metrics.js:80-83 | Entry `i` carries group `i`'s key as the page and its count as the views. |
| Aggregates.PagesMultiplicity | backend/src/services/metrics.js:59-71 | Among the matched events, a page occurs as often as there are matching events for that page. |
| Aggregates.TopPagesSound | backend/src/services/metrics.js:59-83 | `topPages` has at most 10 entries, distinct pages and non-increasing views. Each entry's views equal the number of page views of that page in the last 24 hours. |
| Aggregates.TopPagesComplete | backend/src/services/metrics.js:59-83 | A page viewed today but missing from `topPages` means 10 entries were shown, each with at least as many views. |
| Aggregates.TopPages | backend/src/services/metrics.js:59-83 | At most 10 entries. `TopPagesSound` and `TopPagesComplete` state the rest. |
| Aggregates.MinuteStartBounds | backend/src/services/metrics.js:118-119 | `time - time % 60000`, with JavaScript's truncating `%`, is a multiple of a minute: the start of the minute for non-negative times, its end for negative ones. |
| Aggregates.EventMinuteBounds | backend/src/services/metrics.js:96-101 | `$subtract`/`$mod` rounds an event's timestamp to its minute in the same way. |
| Aggregates.EventMinuteOfInteger | backend/src/services/metrics.js:96-119 | For an integer time, the store's rounding and the loop's rounding agree. |
| Aggregates.MultiplesApart | backend/src/services/metrics.js:96-119 | Two minute multiples less than a minute apart are equal. |
| Aggregates.Minutes | backend/src/services/metrics.js:93-103 | The `$project` stage gives one minute per event. |
| Aggregates.FilledFrom | backend/src/services/metrics.js:116-129 | The fill from step `k` produces `30 - k` points. |
| Aggregates.Filled | backend/src/services/metrics.js:116-129 | The filled history has exactly 30 points. |
| Aggregates.FilledFromAt | backend/src/services/metrics.js:116-129 | The point at offset `j` of the fill from `k` is the point for step `k + j`. |
| Aggregates.FilledAt | backend/src/services/metrics.js:116-129 | Point `k` holds the count of the group whose minute is the `k`-th bucket, or 0 when no group has that minute. |
| Aggregates.PageViewsHistory | backend/src/services/metrics.js:86-130 | `pageViewsHistory` always has exactly 30 entries. |
| Aggregates.HistoryGroups | backend/src/services/metrics.js:86-113 | The groups are distinct minutes, each counting the page views of the last 30 minutes in that minute, and every such minute has a group. |
| Aggregates.HistoryBucketsConsecutive | backend/src/services/metrics.js:117-119 | The buckets run oldest first, 60000 ms apart, and the last is the current minute. |
| Aggregates.MinutesMultiplicity | backend/src/services/metrics.js:86-109 | Among the minutes of the matched events, a minute inside the window occurs as often as there are page views in that minute. |
| Aggregates.MinuteSelected | backend/src/services/metrics.js:88-91 | A page view whose minute lies inside the window is matched by the 30-minute query. |
| Aggregates.PageViewsHistoryCounts | backend/src/services/metrics.js:86-130 | Entry `k` counts exactly the page views whose minute is the `k`-th bucket, and 0 when there are none. |
| Aggregates.LowerAscii | backend/src/services/metrics.js:143-147 | The `/i` flag's case folding on ASCII letters. |
| Aggregates.SearchFrom | backend/src/services/metrics.js:143-147 | The search finds the pattern exactly when it occurs at or after the start position. |
| Aggregates.RegexMatch | backend/src/services/metrics.js:143-147 | `$regexMatch` holds exactly when the user agent exists and contains the pattern, ignoring case. |
| Aggregates.Classify | backend/src/services/metrics.js:141-153 | Mobile exactly when the user agent contains "mobile"; otherwise Tablet exactly when it contains "tablet"; otherwise Desktop. A missing user agent is Desktop. |
| Aggregates.DeviceClasses | backend/src/services/metrics.js:139-156 | Each event gets the class of its own user agent. |
| Aggregates.ReduceCounts | backend/src/services/metrics.js:159-162 | The `reduce` into an object has one key per group, holding that group's count. |
| Aggregates.DistinctHead | backend/src/services/metrics.js:159-162 | With distinct keys, the first group's key does not occur again. |
| Aggregates.DeviceStatsCounts | backend/src/services/metrics.js:133-162 | `deviceStats` has a key exactly for each class seen in the last 24 hours, holding that class's count. The three counts sum to the number of events in that window. |
| Aggregates.DeviceStats | backend/src/services/metrics.js:133-162 | The device counts, whose keys and values `DeviceStatsCounts` states. |
| Aggregates.ClassTotal | backend/src/services/metrics.js:139-156 | Every event falls into exactly one of the three classes. |
| Aggregates.DistinctKeysAfterPermutation | backend/src/services/metrics.js:72-74 | Sorting keeps the group keys distinct. |
| Aggregates.MultiplicityOfDistinct | backend/src/services/metrics.js:66-74 | A group with a distinct key occurs once. |
| MetricsService.EntryOf | backend/src/services/metrics.js:19-24 | The recorded entry holds the event's type, page, timestamp and session id. |
| MetricsService.PushRecent | backend/src/services/metrics.js:17-30 | The new entry is at index 0 and every older entry moves back one. The buffer keeps at most 50 entries, dropping the oldest. |
| MetricsService.Reverse | backend/src/services/metrics.js:19 | The reference order for entries pushed to the front: newest first. |
| MetricsService.RecentIsNewestFifty | backend/src/services/metrics.js:17-30 | After any run of `processEvent` from empty, the buffer is the newest 50 entries, newest first. |
| MetricsService.Fresh | backend/src/services/metrics.js:39-162 | A full recomputation sets each field and keeps the buffer. |
| MetricsService.Overlay | backend/src/services/metrics.js:32-169 | A failing `getMetrics` never touches the buffer, and it changes nothing if its first query fails. Without a failure every field takes its fresh value. |
| MetricsService.RecomputeForgetsPrevious | backend/src/services/metrics.js:32-165 | A `getMetrics` without a failure gives the same metrics whatever the object held before, apart from the buffer. |
| MetricsService.Recompute | backend/src/services/metrics.js:32-170 | `getMetrics` never changes the buffer. Without a failure every field takes its fresh value, and a failing first query changes nothing. `OverlaySteps` gives each other failure. |
| MetricsService.RecomputeRecovers | backend/src/services/metrics.js:166-169 | A successful `getMetrics` after a failed one gives the same metrics as if the failure had not happened. |
| MetricsService.OverlaySteps | backend/src/services/metrics.js:39-169 | Each query, if it fails, keeps the fields assigned before it at their new values and all later fields at their old values. |
| MetricsService.FillHistory | backend/src/services/metrics.js:115-130 | The loop from 29 down to 0 builds exactly `Filled`: 30 points, each the count of its minute's group or 0. |
| MetricsService.MetricsEngine.ProcessEvent | backend/src/services/metrics.js:17-30 | `processEvent` changes only `recentEvents`, as `PushRecent` says. |
| MetricsService.MetricsEngine.GetMetrics | backend/src/services/metrics.js:32-170 | `getMetrics` returns the same object, with its fields overwritten field by field up to the failing query, as `Recompute` says. |
| MetricsService.MetricsEngine.RefreshCounts | backend/src/services/metrics.js:39-56 | The three counters are each assigned only when their query is reached. No other field changes. |
| MetricsService.MetricsEngine.RefreshAggregations | backend/src/services/metrics.js:58-162 | `topPages`, `pageViewsHistory` and `deviceStats` are each assigned only when their query is reached. No other field changes. |
| WebSocket.Emit | backend/src/services/websocket.js:29-32 | `emit` appends to that socket's messages and to no other socket's. |
| WebSocket.InitStep | backend/src/services/websocket.js:9-17 | After `initWebSocket`, `io` exists and has no clients yet. |
| WebSocket.ConnectStep | backend/src/services/websocket.js:19-25 | A connection gets a fresh, unauthenticated socket that is sent nothing. Before `io` exists, no connection happens. |
| WebSocket.DisconnectStep | backend/src/services/websocket.js:22-24 | The socket leaves the registry, and no other socket changes. |
| WebSocket.AuthenticateStep | backend/src/services/websocket.js:26-35 | The dashboard token sets the flag and replies `{success: true}`. Any other token replies `{success: false}` and disconnects the socket. |
| WebSocket.BroadcastStep | backend/src/services/websocket.js:41-46 | Nothing happens before `io` is set. Afterwards every connected socket, authenticated or not, is sent `metrics:update` with the metrics, and no other socket is. |
| WebSocket.ApplyValid | backend/src/services/websocket.js:6-46 | Every event keeps the registry within the sockets seen and keeps ids fresh. |
| WebSocket.DisconnectedHearsNothing | backend/src/services/websocket.js:19-46 | A socket that is not connected stays disconnected and is sent nothing more, whatever happens next. |
| WebSocket.RejectedSocketGetsNoUpdates | backend/src/services/websocket.js:31-43 | A socket rejected by `authenticate` hears only `{success: false}`, and no later broadcast reaches it. |
| WebSocket.AuthenticatedOnlyByToken | backend/src/services/websocket.js:26-30 | A socket marked authenticated was sent `authenticate` with exactly the dashboard token. |
| WebSocket.FlagNeedsToken | backend/src/services/websocket.js:26-30 | The same, from any starting state. |
| WebSocket.WebSocketServer.InitWebSocket | backend/src/services/websocket.js:9-17 | Acts as `InitStep` on the server's fields. |
| WebSocket.WebSocketServer.Connection | backend/src/services/websocket.js:19-25 | Acts as `ConnectStep` on the server's fields. |
| WebSocket.WebSocketServer.ClientDisconnect | backend/src/services/websocket.js:22-24 | Acts as `DisconnectStep` on the server's fields. |
| WebSocket.WebSocketServer.OnAuthenticate | backend/src/services/websocket.js:26-35 | Acts as `AuthenticateStep` on the server's fields. |
| WebSocket.WebSocketServer.BroadcastMetrics | backend/src/services/websocket.js:41-46 | Acts as `BroadcastStep` on the server's fields. |
| Consumer.Decode | backend/src/services/kafka-consumer.js:48-54 | Decoding succeeds exactly on a present, parseable, non-null value, and then gives the parsed value. A null value fails at `.toString()` and text that is not JSON fails at `JSON.parse`. |
| Consumer.NextOffset | backend/src/services/kafka-consumer.js:67-73 | The commit is for the same topic and partition, at the message's offset plus 1. |
| Consumer.DlqRecordFor | backend/src/services/kafka-consumer.js:102-117 | The dead-letter record goes to `web-activity-dlq` with the original key and value. Its headers are `originalTopic`, the caught error's message and the current time. |
| Consumer.DecodeAndSave | backend/src/services/kafka-consumer.js:48-99 | A decode failure is final. Otherwise `saveEvent` rethrows the save's error or gives the stored document. |
| Consumer.MetricsAfter | backend/src/services/kafka-consumer.js:60-63 | `processEvent` then `getMetrics` leave the buffer with the saved event pushed. |
| Consumer.Deliver | backend/src/services/kafka-consumer.js:64-73 | A failing broadcast skips the commit. A failing commit comes after the broadcast. The next offset is committed exactly when both succeed. |
| Consumer.AfterSaveStep | backend/src/services/kafka-consumer.js:57-73 | After the save come `processEvent`, `getMetrics`, the broadcast and the commit. On success these are exactly the five effects in order, with the metrics read being the ones broadcast. |
| Consumer.Finish | backend/src/services/kafka-consumer.js:63-73 | The metrics read are the ones broadcast, followed by the commit. |
| Consumer.TryBlock | backend/src/services/kafka-consumer.js:47-77 | The `try` block completes exactly when every call succeeds. It commits only then, and it never dead-letters. |
| Consumer.SendToDlq | backend/src/services/kafka-consumer.js:102-122 | `sendToDLQ` publishes the dead-letter record, or logs and swallows the publish failure. |
| Consumer.HandleMessage | backend/src/services/kafka-consumer.js:46-87 | The handler: the `try` block, then the `catch` clause. `SuccessPath` and `FailurePath` state its effects. |
| Consumer.Conclude | backend/src/services/kafka-consumer.js:78-86 | Without a fault, the `try` block's result. After a fault, one dead-letter attempt is appended, as `ConcludeFault` states. |
| Consumer.FaultMessage | backend/src/services/kafka-consumer.js:111 | The `errorMessage` header: the thrown error's message, which for a failed save is `ErrorMessage`. |
| Consumer.ConcludeFault | backend/src/services/kafka-consumer.js:78-86 | After a fault, the `catch` clause adds exactly one dead-letter attempt and commits nothing. |
| Consumer.SuccessPath | backend/src/services/kafka-consumer.js:46-77 | On success the effects are, in order: save, `processEvent`, `getMetrics`, the broadcast of those metrics, and the commit of `offset + 1`. Nothing is dead-lettered. |
| Consumer.SuccessStores | backend/src/services/kafka-consumer.js:57-73 | On success the event is added to the store, the next offset is committed and the dead-letter topic is untouched. |
| Consumer.FailurePath | backend/src/services/kafka-consumer.js:46-86 | Any fault, including one from the broadcast or the commit, commits no offset and ends with exactly one dead-letter attempt for the message and that fault. A failed publish is swallowed. |
| Consumer.DecodeFailureTouchesNothing | backend/src/services/kafka-consumer.js:48-86 | A message that does not decode is never saved. The store, metrics, sockets and commits are untouched, and the only effect is the dead-letter attempt with the decode error. |
| Consumer.SaveFailureSkipsTheRest | backend/src/services/kafka-consumer.js:57-99 | A failed save skips `processEvent`, `getMetrics`, the broadcast and the commit, and dead-letters with the save's error message. |
| Consumer.MissingRequiredInDlqMessage | backend/src/services/kafka-consumer.js:46-122 | A payload missing a required value is dead-lettered. Its `errorMessage` header contains that path's entry; for `page` that is ``page: Path `page` is required.`` |
| Consumer.LateFailureKeepsTheSave | backend/src/services/kafka-consumer.js:57-86 | A broadcast or commit failure after the save leaves the event stored and the metrics updated, yet the message is dead-lettered and its offset is not committed. |
| Consumer.SavedIsPayload | backend/src/services/kafka-consumer.js:48-94 | The stored document's event, page, session and timestamp are the payload's own. |
| Consumer.ProcessedEntryIsPayload | backend/src/services/kafka-consumer.js:48-60 | `processEvent` records the payload's event, page, session and timestamp. |
| Consumer.ProcessedSecond | backend/src/services/kafka-consumer.js:57-60 | Once the save succeeded, the second effect is `processEvent` of the stored event. |
| Consumer.StartStep | backend/src/services/kafka-consumer.js:36-42 | `isRunning` becomes true once `subscribe` succeeds. A failed `subscribe` rethrows and leaves the flag as it was. |
| Consumer.StopStep | backend/src/services/kafka-consumer.js:124-131 | `disconnect` is a no-op when not running. Otherwise the flag is cleared once both clients disconnect, and a failure rethrows with the flag still set. |
| Consumer.KafkaConsumer.Start | backend/src/services/kafka-consumer.js:36-42 | Acts as `StartStep` on `isRunning`. |
| Consumer.KafkaConsumer.Disconnect | backend/src/services/kafka-consumer.js:124-131 | Acts as `StopStep` on `isRunning`. |
| Consumer.KafkaConsumer.EachMessage | backend/src/services/kafka-consumer.js:46-87 | `eachMessage` changes the store, the metrics, the sockets, the commits and the dead letters as `HandleMessage` says, and never throws. |
| Consumer.KafkaConsumer.RunTryBlock | backend/src/services/kafka-consumer.js:47-77 | Acts as `TryBlock`. |
| Consumer.KafkaConsumer.SaveEvent | backend/src/services/kafka-consumer.js:48-99 | Acts as `DecodeAndSave`. The collection grows by the document exactly when it succeeds. |
| Consumer.KafkaConsumer.AfterSave | backend/src/services/kafka-consumer.js:60-73 | Acts as `AfterSaveStep`. |
| Consumer.KafkaConsumer.DeliverStep | backend/src/services/kafka-consumer.js:64-73 | Acts as `Deliver`. |
| Consumer.KafkaConsumer.SendToDlqStep | backend/src/services/kafka-consumer.js:102-122 | Acts as `SendToDlq`, and commits nothing. |
| EndToEnd.Consumed | backend/src/services/kafka-consumer.js:46 | The consumer sees the record's topic, key and value. |
| EndToEnd.NoServerKeys | backend/src/utils/validation.js:3-12 | Validated data has no `ip` and no `createdAt` key. |
| EndToEnd.JsonFormFields | backend/src/utils/validation.js:3-12 | The JSON form of validated data holds each field under its own key. |
| EndToEnd.PublishedDocument | backend/src/models/Event.js:3-38 | The schema accepts validated data. The stored document has the same fields, no client address, and the insertion time as `createdAt`. |
| EndToEnd.PublishedRecordSaves | backend/src/services/kafka-producer.js:37-41 | A record the producer publishes decodes at the consumer back to the data and is saved as that document. |

## Left out

- The kafkajs, Mongoose, socket.io and Express clients are not modelled.
  - Each call becomes an outcome parameter.
  - Connection settings, heartbeats, timeouts, compression and the index declarations do not appear.
- Consumer `connect()` is not modelled. It only connects the two clients and logs; add a connect error as an outcome if one is ever needed.
- Consumer.StartStep: `start` awaits `consumer.run(...)` after setting `isRunning`. A `run` that rejects makes `start` rethrow with the flag already set. The model has no outcome for `run`, so it promises success whenever `subscribe` succeeds.
- The kafkajs `run` loop is not modelled. `EachMessage` is the handler called once per message, and messages are not handled concurrently.
- SIGINT handlers, process exit and the startup wiring are not modelled. They are process lifecycle, not logic.
- The rate limiter, the routes and the env config parsing are not modelled. The topic names and the dashboard token are constants in `config.dfy`.
- The frontend is not modelled, because it is UI.
- The JSON grammar is not modelled.
  - A payload is either the serialisation of a value or text that does not parse.
  - JSON numbers are reals.
- Consumer.FaultMessage: the `SyntaxError` text depends on the JavaScript engine and the input, so it is one constant. The two `TypeError` texts follow V8.
- Mongoose type coercion is not modelled.
  - Casting a number to a string, or a numeric string to a number, makes the save fail instead.
  - `createdAt` is kept as the supplied number, not cast to a `Date`.
- EventModel.CastMessage: a Mongoose cast error also renders the rejected value and its JavaScript type. The model's message names only the cast kind and the path.
- EventModel.ErrorMessage: the entries follow the schema's path order. The order in which Mongoose adds cast and validator errors to a `ValidationError` is not modelled.
- Validation.ValidateTrackingEvent: Zod's issue objects are reduced to the list of failing fields. Their messages, codes and the `url()` alternative are not modelled.
- Aggregates.RegexMatch: case folding covers ASCII letters only. A non-string `userAgent` counts as missing.
- Aggregates.SortByCountDesc: `$sort` is an insertion sort. No lemma promises an order between tied pages, because the store does not fix one.
- The history's `$sort: {_id: 1}` is not modelled. The fill loop looks groups up by minute, so their order does not matter.
- The `HH:MM` label of each history point is not modelled, because it depends on the local timezone. A point carries its minute and its views.
- Aggregates.PageViewsHistoryCounts requires `now` to be at least 30 minutes after the epoch. Earlier buckets are negative, and there JavaScript's truncating `%` and the store's `$mod` disagree with the bucket bounds.
- Consumer.Env: one `now` per message stands for every `Date.now()` call while it is handled. Query timing and interleaving are not modelled.
- Consumer.Deliver: a broadcast that throws is modelled as reaching no socket. Partial delivery before the throw is not modelled.
- Consumer.KafkaMessage: the offset is a `nat`. The `parseInt`/`toString` round trip on the offset string is not modelled.
- Consumer.Decode: a parsed payload that is not an object, such as a number or a string, is treated as a document with no fields. The schema then rejects it.
- WebSocket.InitStep: a second `initWebSocket` replaces `io` with a server that has no clients, and the model drops every earlier socket from `connected`. In the code, a socket of the first server keeps its `authenticate` handler, which still replies to it and can disconnect it; only `broadcastMetrics` no longer reaches it. The model does not keep that handler, so an `Authenticate` from such a socket does nothing.
