# Tracearr correlation engine: a verified model

Tracearr turns webhook events about a piece of media (request, grab, download, import) into one trace of
spans. This project models the engine that correlates the events, the two stores it can run on, the span
builder it drives, the two pollers and the Sonarr fan-out that feed it, and proves what they keep.

There are two layers.

- **Values.** `Types`, `MediaKeys`, `StoreSpec`, `SpanSpec` and `EngineSpec` say what every operation does as
  functions on values. A run is a sequence of four kinds of step: an event is delivered, a queue issue is noted, a
  sweep walks the stale traces in some order, or the process dies and a new one reopens the file and restores.
  The engine mutex makes each call one step. The theorems are about all runs.
- **Objects.** `TraceRecords`, `MemoryStores`, `BoltStores`, `Stores`, `Builders` and `Engines` are the
  program's own objects: records shared between store and engine and changed in place, maps updated
  method by method, collection and iteration loops that may take the entries in any order. Each method
  is proved to take its object from one value of the specification to the next; `Processes.Serve` ties whole
  lists of commands on them, crashes included, to runs, and so the theorems to the objects.

`SpanMonitor` is the reference for the span protocol. It folds over the log of builder calls, knows nothing of
the engine, and notices every broken rule; the theorems of `SpanDiscipline` say that it never does. `StoreChanges`
reduces every engine call to four kinds of store change, which the theorems about the file, the attempt
numbers and the index go through; `StepEffects` says in closed form what each does to update times, download IDs
and the index, and `LogGrowth` what it adds to the log. `EventCalls` reads everything that an event does off the
tables before it, call by call and field by field, and `TraceHistory` says what the records tell of the past. The
pollers have their history, not their tables, as reference.

Time is an integer: nanoseconds since Go's zero instant, with 0 for `IsZero()`. Dedup times in the file
are whole seconds. The order in which a Go map is walked is a parameter of sweeps and restarts. Fields of media
keys are unbounded except where text is read back, where 64 bits are the limit.

## Where code and comments differ

The model follows the code.

- `internal/correlate/store.go:67` says Delete removes any index entry pointing at the trace. It removes only the
  entry of the latest ID (lines 164-171), and removes it even when it names another key: `DeleteLeavesEntries`,
  `DeleteKeepsLookup`; both happen: `RegrabLeavesEntry`, `ImportLosesSibling`.
- `internal/correlate/store.go:141` finds a trace by its download ID only while no other live trace is given the same
  one: `LookupComplete` has the exact condition. A pack that no live series trace resolves breaks it
  (`internal/source/sonarr.go:128-146` gives each episode its own key and all of them one ID): `StrayPackLosesTrace`.
- `internal/correlate/engine.go:129` says events of a resumed trace become synthetic spans. Children opened after a
  restart are live spans; only the root is rebuilt (lines 341-352): `CompleteRoot`.
- `internal/correlate/engine.go:342-343` says the rebuilt root makes the reassembled trace show up as a complete tree.
  It is emitted under `context.TODO()` (lines 348, 575, 766), so it gets a trace ID of its own and is the parent of
  nothing. What the model's call says it is about (`about` in `SpanSpec.Synthetic`) is a note for the monitor that the
  program's call does not carry: `CompleteRoot`, `RootCompletedOnce`.
- The grab gauge would be decremented when a trace with an open grab is completed (lines 360 and 587), but both
  callers have cleared the flag by then, so it never is: `GrabGaugeNeverFalls`.
- A sweep leaves the timing entries and the gauges of the traces it drops: `SweepExact`, `GaugeExact`.
- A replayed start can move `UpdatedAt` backwards (line 473), since parked starts are collected only when another is
  parked (lines 443-452): `RewoundIffRewinds` has the exact condition, `ApprovedThenSetBack` an example, and by
  `StaleAtItsGrab` a trace can be stale at its own grab. `NoNegativeSpans` holds all the same.
- A second end of a download takes it off the download gauge again (lines 503-508): `SecondEndGoesNegative`.
- A note for the root of a resumed trace is dropped, as its context does not record: `StepLosesNote`.
- Closing a root through its context leaves it in the builder's table (`internal/spans/builder.go:89-96`):
  `ChildSpanDiscipline` says what the table holds instead.
- When two keys share a download ID, what a restart makes of the index depends on the order of the records:
  `RestartRestoresIndex` has the exact condition.
- The search-history cursor does not move to a date at or before the zero instant: `CursorIsMax`, `StuckBeforeZero`.

## Model

| member | source | states |
|---|---|---|
| `SpanDiscipline.ChildSpanDiscipline` | internal/correlate/engine.go:136-156 | Over every run from an empty process, restarts included: a monitor that reads only the log of builder calls never finds a broken rule (fresh IDs, each child closed or annotated only under its own root, while open, in the process that opened it; no root opened beside an unfinished one of its key or TV series); the children open now are exactly the `GrabSpanID`/`DownloadSpanID` that live traces flag; the builder table is those children plus the roots this process opened |
| `SpanDiscipline.RootExactlyOnce` | internal/correlate/engine.go:763-773 | Over every run each root ever opened is finished iff its trace is no longer live; the root contexts and the live traces have the same keys; no two live traces share a root |
| `SpanDiscipline.RootCompletedOnce` | internal/correlate/engine.go:763-773 | Counted over the log of any run: the calls that complete a root, by its context or rebuilt, are none while its trace is live and one when it is not |
| `SpanMonitor.CompletionsCounted` | internal/correlate/engine.go:341-352 | In any log without broken rules a root is completed by exactly one call if the monitor has it as finished, and by none if not |
| `SpanDiscipline.NoCallIsLost` | internal/spans/builder.go:86-99 | Over every run the builder table is what its calls make of it, and every call that closes or annotates a child finds it in the table, so none falls to the nil check |
| `SpanMonitor.EveryCallFindsItsSpan` | internal/spans/builder.go:135-147 | In any log without broken rules a call that addresses a child comes while the child is in the builder table |
| `LogGrowth.StepGrows` | internal/correlate/engine.go:175-206 | What each step adds to the log: its leading call, which is the root it opens or the note it leaves, if it does either, and then only calls that do neither |
| `EventCalls.RequestOpens` | internal/correlate/engine.go:223-272 | An accepted request that no live trace takes adds one call, a root with number, link and reason literally by the recalled outcome; the whole new record, context and timing entry; recall drops only the key's own expired record |
| `EventCalls.Approves` | internal/correlate/engine.go:310-323 | An accepted approval adds a note `request.approved` on the root, sets search start and update time to its own, and times the approval; nothing else changes |
| `EventCalls.RequestCloses` | internal/correlate/engine.go:325-372 | An accepted close adds exactly the ok ends of an open download and of an open grab and then the end of the root, ok iff the outcome is available and with the event's reason, or for a resumed trace the rebuilt root with its error; trace, context and timing entry go, and the closed record has trace ID, number, this outcome and this time |
| `EventCalls.GrabLands` | internal/correlate/engine.go:373-438 | An accepted grab on a live trace adds, in order: a search span from the search start to now if that is set and earlier, the superseded end of an open grab, the grab span named by its source, and a replayed download; the whole new record and timing entry |
| `EventCalls.OrphanGrabLands` | internal/correlate/engine.go:616-655 | One that no live trace takes adds first a root, with the reason literally by upgrade flag and recalled outcome, and then the same calls for the new trace |
| `EventCalls.DownloadStarts` | internal/correlate/engine.go:458-479 | An accepted start found by its ID adds one download span, with the new record and timing entry, or nothing if one is open |
| `EventCalls.StartWaits` | internal/correlate/engine.go:440-452 | One not found is parked under its ID, and of the others exactly those added at or after `now - pendingDLTTL` stay; nothing else changes |
| `EventCalls.DownloadEnds` | internal/correlate/engine.go:481-509 | An accepted end found by its ID adds exactly one call: the end of the open download, ok iff there is no error reason, or else a download span of no length; the flag is cleared, the record updated, the end timed |
| `EventCalls.Imports` | internal/correlate/engine.go:511-555 | An accepted import on a requested trace adds the ok end of an open download, an import span named by its source from the earlier of last update and now, and the ok end of an open grab; the new record |
| `EventCalls.ImportCompletes` | internal/correlate/engine.go:570-593 | On a trace that no request opened the same calls are followed by the end of the root, ok and without reason, or the rebuilt root; the closed record says available, now |
| `EventCalls.NeedsManual` | internal/correlate/engine.go:595-609 | An accepted manual notice adds one note, on the open grab's span or else on the root, and leaves `arr.manual_interaction_required` as the last error |
| `EventCalls.QueueNoted` | internal/correlate/engine.go:722-744 | A queue note found by its ID adds one note `queue.stalled` likewise, and leaves `arr.queue_` and the status as the last error |
| `EventCalls.Unmatched` | internal/correlate/engine.go:175-221 | Duplicates, and events that meet no trace or open one that is live, change nothing but the dedup memory |
| `TraceHistory.SearchStartsLast` | internal/correlate/engine.go:383-394 | Over every run the search start of a live trace is the time of its last accepted approval, or of its opening if there was none |
| `TraceHistory.RecordsTellEndings` | internal/correlate/store.go:186-220 | Over every run whose times do not go back, restarts included, a key's closed record has the outcome and the time of the last step that ended a trace of the key, by event or by sweep; and no record is missing whose ending is inside the recall time |
| `TraceHistory.OpenedBecause` | internal/correlate/engine.go:299-308 | So after a trace of a key ended inside the recall time, the next root opened for the key carries the reason for that outcome: `failed_retry` after failed or timeout, `quality_upgrade` for a request after available or an upgrading grab, else `manual` |
| `LostNotes.StepLosesNote` | internal/spans/builder.go:135-149 | In a reachable state a step leaves a note that its context does not record, and then one, iff it is an accepted approval of a resumed trace, or a manual or queue notice about a resumed trace without an open grab |
| `LostNotes.NotesLostExactly` | internal/spans/builder.go:135-149 | Over every run the notes in the log that go nowhere are those of such steps, one each |
| `SpanDiscipline.NoNegativeSpans` | internal/correlate/engine.go:541-547 | If the times given to events and sweeps never decrease, whatever times the queue notes have, no completed or synthesised span ends before it starts, replayed downloads, anchored imports and resumed roots included |
| `SpanDiscipline.StepFine` | internal/correlate/engine.go:175-206 | One step of any kind keeps the agreement between the log of builder calls and the engine tables, and keeps to the clock |
| `SpanDiscipline.CloseTraceFine` | internal/correlate/engine.go:341-355 | Completing and dropping a trace without open children is one allowed completion of its root, live or rebuilt |
| `SpanDiscipline.RestartFine` | internal/correlate/engine.go:136-156 | A restart loses the running roots, forgets all children and leaves contexts that point at the lost roots |
| `CrashRecovery.AlwaysTracesSynced` | internal/correlate/store_bolt.go:154-200 | After every call of every run the trace and index buckets equal the in-memory mirror (but for `Resumed`), although handlers change the shared records before they save them |
| `CrashRecovery.AlwaysClosedSynced` | internal/correlate/store_bolt.go:240-271 | The same for the closed bucket, when the media types of the events have no separator in them |
| `CrashRecovery.StepTracesSynced` | internal/correlate/store_bolt.go:154-200 | One step of any kind keeps trace and index buckets equal to the mirror |
| `CrashRecovery.RestartRestoresTraces` | internal/correlate/engine.go:136-156 | Reopening the file and restoring gives the same live traces back, with `Resumed` set and the child flags cleared and nothing else changed, each with a remote context carrying its old IDs |
| `CrashRecovery.CrashAnywhere` | internal/correlate/store_bolt.go:71-109 | After any run from an empty file a new process has the same live traces; the same closed table if the keys of the events are ones the codec reads back; and the same index, however the records are walked, if every live trace was indexed under its current ID |
| `CrashRecovery.RestartRestoresClosed` | internal/correlate/store_bolt.go:94-105 | The closed table comes back unchanged iff every key in it reads back from its text form |
| `CrashRecovery.RestartRestoresIndex` | internal/correlate/engine.go:136-156 | The download index comes back unchanged, in whatever order the records are walked, iff before the crash every live trace was indexed under its current ID |
| `CrashRecovery.ReopenedClosed` | internal/correlate/store_bolt.go:71-109 | What `load` makes of the closed bucket is the old closed table iff all its keys read back |
| `CrashRecovery.RestoreEffect` | internal/correlate/engine.go:136-156 | Restoring any list of live keys clears their child flags and leaves every other field, the closed table and the key set alone |
| `Attempts.AlwaysNumbered` | internal/correlate/engine.go:227-257 | In every state of every run a live trace has the attempt number after the one of its key's closed record, whatever the clocks, collections and restarts |
| `Attempts.AttemptsFollow` | internal/correlate/engine.go:617-651 | The same from the first process on |
| `AttemptHistory.AttemptsInSequence` | internal/correlate/engine.go:227-257 | In the log of every run, restarts included, each root opened is a first attempt without a link, or is numbered one above the last root opened earlier for its key (or for TV its series key) and links to that very root |
| `AttemptHistory.NextAttempt` | internal/correlate/engine.go:227-257 | Which of the two: after any run a step opens a root iff it is an accepted request or grab that no live trace takes, and then one; that is a first attempt without a link iff recall finds no unexpired record, and otherwise succeeds the last root opened for the key whose record is recalled, its own or its series' |
| `Attempts.RecalledAttempt` | internal/correlate/engine.go:616-655 | The two ways of opening while the key's own record is recalled: number, link, and literally the reason by the recalled outcome and the upgrade flag; the closed table stays |
| `DownloadIndex.LookupSound` | internal/correlate/store.go:141-153 | Over every run a lookup by download ID finds only a live trace whose key a grab once gave that ID |
| `IndexHolders.IndexNamesHolders` | internal/correlate/store.go:155-171 | Over every run, shared IDs, re-grabs and restarts included, the index names for an ID exactly its holder: the trace saved last with it, until a trace that carries it ends |
| `IndexHolders.StepKeepsLookup` | internal/correlate/store.go:155-171 | A found trace that stays live stays found through a step iff the step neither saves another trace under the ID nor ends another one that carries it |
| `IndexHolders.DeleteKeepsLookup` | internal/correlate/store.go:164-171 | Deleting another live trace keeps the lookup of an ID iff that trace does not carry the ID |
| `IndexHolders.DeleteLeavesEntries` | internal/correlate/store.go:164-171 | Of the entries that name a trace, deleting it removes that of its latest ID and leaves all others |
| `DownloadIndex.IndexExact` | internal/correlate/store.go:155-171 | After any run in which no grab collides the index is exactly the current IDs of the live traces plus the earlier IDs of re-grabbed keys, restarts included (`IndexNamesHolders` has no such condition) |
| `DownloadIndex.StepKeepsCurrent` | internal/correlate/store.go:155-171 | From a state in which every live trace is found by its current ID, a step of any kind keeps it so iff it does not collide, that is, iff it is no accepted grab whose ID another live trace has now |
| `DownloadIndex.CurrentIffNeverCollides` | internal/correlate/store.go:155-171 | Over any run from such a state: every live trace is found in every state iff no step collides |
| `DownloadIndex.LookupComplete` | internal/correlate/store.go:141-153 | The same from the first process on |
| `DownloadIndex.CurrentIsFound` | internal/correlate/store.go:141-153 | Every live trace is indexed under its current ID iff a lookup of each one's ID gives it, as a scan would |
| `DownloadIndex.IndexIsScan` | internal/correlate/store.go:155-171 | If moreover no grab changes the ID of a trace, the index is exactly what a scan of the live traces for their current IDs gives |
| `SharedIDs.StrayPackCollides` | internal/source/sonarr.go:93-148 | Collisions do occur: when a pack of distinct episodes comes and no live trace resolves the first two, the second of their grabs collides |
| `SharedIDs.StrayPackLosesTrace` | internal/source/sonarr.go:93-148 | So from a first process on, the two grabs of a two-episode pack reach a state in which a live trace is not found by its ID and in which, with a file, a restart can change the index |
| `SharedIDs.ImportLosesSibling` | internal/correlate/engine.go:557-593 | And when the first of the two episodes is imported, the second one's trace is live with the ID but no lookup of it finds any trace |
| `SharedIDs.EndHidesSibling` | internal/correlate/store.go:164-171 | The same for any two grabs that open two traces under one ID, and for either way of ending the first |
| `SharedIDs.RegrabLeavesEntry` | internal/correlate/store.go:164-171 | From a first process on, two grabs of one key with different IDs and the end of its trace leave an entry of the first ID for a key that is not live; a later request for the key is found by that ID, which it never had |
| `RequestGauge.GaugeAccounted` | internal/correlate/engine.go:261-266 | Over every run the net request adjustment is the number of timing entries plus the request-opens that overwrote an entry a sweep had left |
| `RequestGauge.GaugeNeverNegative` | internal/correlate/engine.go:356-364 | The net request adjustment is never negative |
| `RequestGauge.GaugeExact` | internal/correlate/engine.go:261-266 | Over every run it is the number of live traces that requests opened in this process, plus the timing entries that sweeps left, plus the request-opens that overwrote one; no entry is counted twice |
| `RequestGauge.GaugeCountsRequests` | internal/correlate/engine.go:261-266 | So in sweep-free runs it is the number of live traces that requests opened in this process |
| `RequestGauge.SweptRequestCounts` | internal/correlate/engine.go:748-779 | With a sweep it is not: one request, timed out, leaves no trace live and the gauge at one |
| `GrabGauge.GrabGaugeNeverFalls` | internal/correlate/engine.go:420-429 | Each step but a restart adds one to the grab gauge if it is an accepted grab that lands on a timed trace, and otherwise leaves it; none takes one off |
| `GrabGauge.GrabGaugeCounts` | internal/correlate/engine.go:356-365 | Over any run of one process it grows by the number of those grabs, however many have ended |
| `DownloadGauge.StepDownloads` | internal/correlate/engine.go:475-508 | Each step but a restart adds one to the download gauge iff it opens a download, at once or by replay, on a timed trace, and takes one off iff it ends one, open or not, on a timed trace that has seen a start; nothing else moves it |
| `DownloadGauge.DownloadGaugeCounts` | internal/correlate/engine.go:475-508 | Over every run it is the starts less the ends counted so since the last restart |
| `DownloadGauge.EndsKeepCounting` | internal/correlate/engine.go:503-508 | A counted end leaves the trace such that another end of the download counts again |
| `DownloadGauge.SecondEndGoesNegative` | internal/correlate/engine.go:503-508 | From a first process on, a request, its grab, one start and two ends leave the gauge at minus one |
| `Dedup.DedupKeyInjective` | internal/correlate/store.go:235 | The joined dedup key tells source and event ID apart, as sources have no separator in their names |
| `DedupWindow.SlidingWindow` | internal/correlate/store.go:222-241 | For either store, any calls in between and nondecreasing times of the event calls: a non-empty ID is accepted iff no earlier acceptance of it is in the window, at or after `now - dedupTTL` in memory despite the collection, by its whole second after `now - dedupTTL` on disk |
| `DedupWindow.AnswersByWindow` | internal/correlate/store_bolt.go:215-238 | So from empty dedup entries on, ties or not, the two implementations answer a call about an event alike iff it is suppressed by both windows or by neither |
| `DedupWindow.SeenCollects` | internal/correlate/store.go:226-233 | In memory each event with an ID collects exactly the entries from before the window |
| `DedupWindow.NoIDNoMemory` | internal/correlate/store.go:222-226 | An event without an ID is always accepted and never remembered |
| `Dedup.StillAccepted` | internal/correlate/engine.go:175-184 | Processing one event does not make another with a different dedup key look like a duplicate |
| `Dedup.RedeliveryIgnored` | internal/correlate/engine.go:175-184 | An accepted event delivered again inside the window, whatever came in between, changes no trace, index, parked start, timing, gauge, file or span |
| `DownloadRace.RaceIndependent` | internal/correlate/engine.go:373-479 | For two fresh events with one non-empty download ID that is neither parked nor resolvable, start-then-grab and grab-then-start end in the same state up to dedup memory and parked entries: same traces, index, file, timing, gauges and sequence of builder calls, even if a download is already open |
| `DownloadRace.RacePending` | internal/correlate/engine.go:441-452 | After both events, in either order, the start is not parked; start-first has collected the expired ones of the other entries, grab-first leaves exactly what was parked before |
| `DownloadRace.ReplayLands` | internal/correlate/engine.go:431-437 | A replay lands in the trace of the grab, which then carries the ID and has an open download, one that starts when the parked start occurred unless one was open before |
| `StepEffects.StepTakes` | internal/correlate/engine.go:186-205 | What each step but a restart does to update times, download IDs and the index, in closed form: nothing, or one trace saved with a given time and ID, or given traces ended |
| `UpdateTimes.StepRewinds` | internal/correlate/engine.go:458-479 | Whatever the times, a step sets a live trace's `UpdatedAt` back iff its effect saves the trace with an earlier one |
| `UpdateTimes.ProcessRewinds` | internal/correlate/engine.go:458-479 | If no live trace was updated after the event, the event sets one back iff it is an accepted grab on a live trace without an open download that replays a start from before the trace's last update |
| `UpdateTimes.RewoundIffRewinds` | internal/correlate/engine.go:458-479 | Over any run in which the times of events and queue notes do not go back, restarts included, from any state in which nothing was updated or parked later: no step sets a trace back iff no step is such a grab |
| `UpdateTimes.RewoundFromStart` | internal/correlate/engine.go:458-479 | In particular from a first process on |
| `UpdateTimes.StaleAtItsGrab` | internal/correlate/engine.go:748-751 | From a first process on, a start parked longer than the trace timeout and then its grab leave a trace that is stale at the very instant of the grab; a sweep at that instant ends it |
| `UpdateTimes.ApprovedThenSetBack` | internal/correlate/engine.go:458-479 | With times that do not go back: a request, a start before its grab, an approval and the grab set the trace back |
| `Bookkeeping.ReplayedAtMostOnce` | internal/correlate/engine.go:431-437 | Over any run and for any ID, replays plus what is still parked never outnumber parkings plus what was parked at first |
| `Bookkeeping.ParkedRecently` | internal/correlate/engine.go:441-452 | After a start is parked at time `now`, every parked entry was added at or after `now - pendingDLTTL` |
| `Bookkeeping.AlwaysParkedUnderOwnID` | internal/correlate/engine.go:452 | What is parked under an ID is always a download start with that ID |
| `Bookkeeping.StepParked` | internal/correlate/engine.go:431-452 | Exactly which parked entries each step leaves |
| `Bookkeeping.HandleTiming` | internal/correlate/engine.go:356-364 | Which events add and remove timing entries, with the request gauge: a request-open adds, a completion by event removes, nothing else does |
| `StoreSimulation.CallSimilar` | internal/correlate/store.go:186-241 | Whatever the call, similar stores stay similar but for the dedup keys a tie has put out of step; a call not about such a key gets the same answer iff it is neither a tie nor a shadowed recall (`AnswersByWindow` decides the others) |
| `StoreSimulation.AnswersPointwise` | internal/correlate/store.go:57-97 | For any call sequence with nondecreasing times and each of its calls not about a key out of step: the two answers to that call are the same iff it is neither a tie nor a shadowed recall (`AnswersByWindow` decides the others) |
| `StoreSimulation.OnlyShadowsDiffer` | internal/correlate/store.go:57-97 | In a sequence without ties the two implementations differ at exactly the shadowed recalls |
| `StoreSimulation.StoresSimulate` | internal/correlate/store.go:57-97 | For any call sequence with nondecreasing times all answers are the same iff no call meets one of the two situations |
| `StoreSimulation.WholeSecondTie` | internal/correlate/store_bolt.go:221-236 | With whole-second acceptance times the first situation is the repeat exactly at `now - dedupTTL` |
| `StoreSimulation.BothOccur` | internal/correlate/store_bolt.go:251-271 | Both situations do occur: the tie after two calls, the expired episode record that hides the series record after three |
| `SweepOrder.SweepExact` | internal/correlate/engine.go:748-779 | A sweep removes precisely the traces with `UpdatedAt < now - ttl` and their contexts, leaves the others, the parked starts, the timing and the gauges unchanged, records each removed one as timed out now, leaves nothing stale, and adds for each, in order, the ends of its open download and grab and of its root, not ok, as `tracearr.timeout` |
| `SweepOrder.SweepCompletes` | internal/correlate/engine.go:763-773 | The root of each removed trace is completed, with no rule of the span protocol broken |
| `SweepOrder.SweepIdempotent` | internal/correlate/engine.go:748-779 | The same sweep again changes nothing |
| `SweepOrder.SweepOrderFree` | internal/correlate/store.go:173-184 | Two orders of the stale keys end in the same state, file included; the builder calls are permutations of each other |
| `MediaKeys.EncodeInjective` | internal/correlate/store_bolt.go:115-117 | Distinct keys never have the same text form, whatever their type contains |
| `MediaKeys.RoundTrip` | internal/correlate/store_bolt.go:113-131 | For keys with 64-bit fields, negative ones included, decoding the text form gives the key back iff its type has no separator |
| `MediaKeys.DecodedIsCodable` | internal/correlate/store_bolt.go:119-131 | Whatever text is decoded, a key that comes out is one that round-trips |
| `MediaKeys.IntTextInjective` | internal/correlate/store_bolt.go:116 | Decimal texts determine their integers |
| `MediaKeys.EncodeText` | internal/correlate/store_bolt.go:115-117 | For example: the fields in order, between bars |
| `StoreChanges.HandleChanges` | internal/correlate/engine.go:186-205 | Seen from the store, every event is a short sequence of four kinds of change, opens at most a trace for its own key, and gives a download ID only if it is a grab |
| `StoreChanges.GrabChanges` | internal/correlate/engine.go:396-414 | A grab is a single saved change of one record |
| `Sonarr.EventIDInjective` | internal/source/sonarr.go:144 | The event ID determines download ID, kind, season and episode, across grabs, imports, manual notices and the movie forms, whatever the download ID contains |
| `Sonarr.SonarrGrabs` | internal/source/sonarr.go:93-148 | One grab event per episode, in order, with literally that season and episode number in its key and ID, the series' IDs and title, and a release with the payload's fields that lists every episode; without episodes one for the movie |
| `Sonarr.SonarrImports` | internal/source/sonarr.go:150-192 | One import event per episode likewise, with size, codec and resolution, and the path or if there is none the relative path; without episodes one for the movie |
| `Sonarr.SonarrManual` | internal/source/sonarr.go:194-223 | One manual notice per episode likewise; without episodes one for the movie |
| `Sonarr.Protocols` | internal/source/sonarr.go:225-234 | Which client types, in whatever case, give usenet and which torrent; every other gives none |
| `Sonarr.ParseArr` | internal/source/sonarr.go:69-91 | Which delivery types give which events; a missing type is an error |
| `Sonarr.GrabDelivered` | internal/correlate/engine.go:396-414 | One accepted grab on a live trace opens one grab span, supersedes the one open before if any, and touches no other trace |
| `Sonarr.SeasonPack` | internal/source/sonarr.go:93-148 | Delivering a season pack with distinct episodes and unseen IDs to the live trace of its series opens one grab per episode, closes all but the last and any open before as superseded, and touches no other trace |
| `Sonarr.SeasonPackLeavesOne` | internal/correlate/engine.go:210-221 | In a reachable state, of the grabs it opened exactly the last is still open |
| `QueuePolling.QueuePoller.Tick` | internal/poller/queue.go:91-149 | A failed request changes nothing; after a successful one `seen` is the stalled last statuses of the response, whatever it held before, and the issues are the edges against it |
| `QueuePolling.EdgeTriggered` | internal/poller/queue.go:116-148 | Across any ticks an issue is raised for exactly the records whose status is `warning`, `failed` or `delay` and differs from the status their ID was last observed with, absence from a response resetting it, repeated IDs included |
| `QueuePolling.Run` | internal/poller/queue.go:56-73 | The same for the issues of a whole run of the poller, each with the record's status and its error or else its first message |
| `QueuePolling.LastStatusSome` | internal/poller/queue.go:120-126 | An ID has a last status iff the response has a record of it |
| `ProwlarrPolling.ProwlarrPoller.Tick` | internal/poller/prowlarr.go:88-135 | A failed request changes nothing; a successful one emits exactly the records newer than the old cursor, in order, and moves the cursor to the newest date unless that is not after the zero instant |
| `ProwlarrPolling.ProwlarrPoller.Anchor` | internal/poller/prowlarr.go:52-60 | The cursor starts at startup time |
| `ProwlarrPolling.CursorIsMax` | internal/poller/prowlarr.go:114-133 | A tick ends at the maximum of the old cursor and all dates iff the old cursor is not before the zero instant, or no record is newer, or some date is after the zero instant |
| `ProwlarrPolling.CursorRises` | internal/poller/prowlarr.go:130-132 | Over any ticks the cursor never decreases |
| `ProwlarrPolling.CursorIsHighest` | internal/poller/prowlarr.go:130-132 | From a cursor not before the zero instant it is always the greatest date seen or its first value |
| `ProwlarrPolling.EmittedAtMostOnce` | internal/poller/prowlarr.go:117-129 | No record is emitted in two ticks |
| `ProwlarrPolling.EmitsIffNewest` | internal/poller/prowlarr.go:117-129 | A tick emits a record iff it is dated after the start and after everything returned before |
| `ProwlarrPolling.NewerEmits` | internal/poller/prowlarr.go:117-129 | The searches a tick lists are those of exactly the newer records, with their query, indexer, date and elapsed time |
| `ProwlarrPolling.NewerInOrder` | internal/poller/prowlarr.go:117-129 | In the order of the response |
| `ProwlarrPolling.StuckBeforeZero` | internal/poller/prowlarr.go:116-132 | A cursor before the zero instant can be stuck and emit a record in two ticks |
| `ProwlarrPolling.MaxDate` | internal/poller/prowlarr.go:115-123 | The greatest of a start and the dates of the records |
| `TraceRecords.TraceState.constructor` | internal/correlate/store.go:10-53 | A record object with the given value |
| `MemoryStores.MemoryStore.constructor` | internal/correlate/store.go:123-132 | The empty store |
| `MemoryStores.MemoryStore.Get` | internal/correlate/store.go:134-139 | The record object of the key, or nil |
| `MemoryStores.MemoryStore.GetByDownloadID` | internal/correlate/store.go:141-153 | The record object of the key the index names, or nil for an empty, unknown or dangling ID |
| `MemoryStores.MemoryStore.Put` | internal/correlate/store.go:155-162 | The whole new state: the record under its key, its non-empty ID in the index |
| `MemoryStores.MemoryStore.Delete` | internal/correlate/store.go:164-171 | The whole new state: the key gone, and from the index the record's latest ID whoever the index named for it |
| `MemoryStores.MemoryStore.Stale` | internal/correlate/store.go:173-184 | Each key updated before the cutoff, once |
| `MemoryStores.MemoryStore.RememberClosed` | internal/correlate/store.go:186-197 | The whole new state: the expired records collected, the new one added |
| `MemoryStores.MemoryStore.RecallClosed` | internal/correlate/store.go:199-220 | The key's own unexpired record, else for TV the series' one; an expired one drops the key's entry |
| `MemoryStores.MemoryStore.SeenEvent` | internal/correlate/store.go:222-241 | Whether the ID is new, and the whole new state: the expired entries collected, the new one added |
| `MemoryStores.MemoryStore.LoadAll` | internal/correlate/store.go:243-251 | Every record object, once |
| `BoltStores.BoltStore.constructor` | internal/correlate/store_bolt.go:39-69 | Opening a file gives a mirror of it and changes nothing on disk |
| `BoltStores.BoltStore.LoadTraces` | internal/correlate/store_bolt.go:73-84 | For every record on disk one object, under the record's own key |
| `BoltStores.BoltStore.LoadClosed` | internal/correlate/store_bolt.go:94-105 | For every name that reads back one closed record, under the key it reads as |
| `BoltStores.BoltStore.Get` | internal/correlate/store_bolt.go:133-138 | The record object of the key, or nil |
| `BoltStores.BoltStore.GetByDownloadID` | internal/correlate/store_bolt.go:140-152 | As in memory |
| `BoltStores.BoltStore.Put` | internal/correlate/store_bolt.go:154-178 | The whole new state, mirror and file: the record's value now, without `Resumed`, under the key's text form |
| `BoltStores.BoltStore.Delete` | internal/correlate/store_bolt.go:180-200 | The whole new state, mirror and file |
| `BoltStores.BoltStore.Stale` | internal/correlate/store_bolt.go:202-213 | Each key updated before the cutoff, once |
| `BoltStores.BoltStore.SeenEvent` | internal/correlate/store_bolt.go:215-238 | Whether the ID is new by its whole-second time in the file, and the whole new file |
| `BoltStores.BoltStore.RememberClosed` | internal/correlate/store_bolt.go:240-249 | The whole new state, mirror and file, with nothing collected |
| `BoltStores.BoltStore.RecallClosed` | internal/correlate/store_bolt.go:251-271 | As in memory, with the entry dropped from the file too |
| `BoltStores.BoltStore.LoadAll` | internal/correlate/store_bolt.go:273-282 | Every record object, once, each marked as resumed |
| `Builders.OTelBuilder.constructor` | internal/spans/builder.go:24-29 | A builder with no open spans |
| `Builders.OTelBuilder.TakeOver` | internal/spans/builder.go:24-29 | The builder of a process that takes over: no open spans, the tracer's IDs go on |
| `Builders.OTelBuilder.OpenRoot` | internal/spans/builder.go:49-68 | A fresh root in the table and in the log, and the context that carries it |
| `Builders.OTelBuilder.OpenChild` | internal/spans/builder.go:71-83 | A fresh child in the table and in the log |
| `Builders.OTelBuilder.CloseSpan` | internal/spans/builder.go:86-112 | The call in the log; the table loses the span, but never a root closed through its context |
| `Builders.OTelBuilder.SyntheticSpan` | internal/spans/builder.go:116-132 | The call in the log, the table unchanged |
| `Builders.OTelBuilder.AddSpanEvent` | internal/spans/builder.go:135-149 | The call in the log, the table unchanged |
| `Engines.Engine.constructor` | internal/correlate/engine.go:108-119 | An engine with empty tables over the given store and builder |
| `Engines.Engine.ResolveTrace` | internal/correlate/engine.go:210-221 | The live record of the key, else for TV the one of the series, with the key it is under |
| `Engines.Engine.TraceOfDownload` | internal/correlate/engine.go:482 | The live record that the index names for a download ID |
| `Engines.Engine.Process` | internal/correlate/engine.go:175-206 | The engine takes the specification's delivery step: a duplicate only touches the dedup memory |
| `Engines.Engine.Handle` | internal/correlate/engine.go:186-205 | Each phase takes the step of its handler; an unknown phase none |
| `Engines.Engine.OnRequestOpened` | internal/correlate/engine.go:223-272 | Takes the specified step: nothing if resolvable, else a new root, record, context, timing entry and gauge |
| `Engines.Engine.LinkToPrior` | internal/correlate/engine.go:227-243 | Attempt number and link from the recalled record, and literally the reason for its outcome |
| `Engines.Engine.MustRecallOutcome` | internal/correlate/engine.go:276-281 | The recalled outcome, else failed |
| `Engines.Engine.OpenTrace` | internal/correlate/engine.go:245-260 | Root span, record, context, in the states before and after |
| `Engines.Engine.OnRequestApproved` | internal/correlate/engine.go:310-323 | Takes the specified step: search and update times set and saved, approval timed, an event on the root |
| `Engines.Engine.OnRequestClosed` | internal/correlate/engine.go:325-372 | Takes the specified step, whose calls and records are those of `EventCalls.RequestCloses`: children, root, record, closed table, timing |
| `Engines.Engine.CloseOpenDownload` | internal/correlate/engine.go:332-335 | Ends the download span if one is open, and clears its flag |
| `Engines.Engine.CloseOpenGrab` | internal/correlate/engine.go:336-339 | Ends the grab span if one is open, and clears its flag |
| `Engines.Engine.CompleteRoot` | internal/correlate/engine.go:341-352 | Ends the live root, or rebuilds the resumed one from its record |
| `Engines.Engine.Retire` | internal/correlate/engine.go:353-355 | Drops context and record and remembers how the trace ended |
| `Engines.Engine.Settle` | internal/correlate/engine.go:356-365 | Removes the timing entry with its gauges |
| `Engines.Engine.OnGrabbed` | internal/correlate/engine.go:373-438 | Takes the specified step, whose calls and records are those of `EventCalls.GrabLands` and `OrphanGrabLands`: orphan root, search span, superseded grab, new grab, replay |
| `Engines.Engine.GrabOn` | internal/correlate/engine.go:381-429 | The grab on its trace, before any replay: the calls and the record of `EventCalls.GrabLands` without a replayed start |
| `Engines.Engine.OpenOrphanRoot` | internal/correlate/engine.go:616-655 | A root, linked to the recalled attempt, for a grab nothing was requested for |
| `Engines.Engine.OnDownloadStart` | internal/correlate/engine.go:440-456 | Takes the specified step: the start on its trace, or parked |
| `Engines.Engine.Park` | internal/correlate/engine.go:443-452 | The expired entries collected, the start parked, replacing one under the same ID |
| `Engines.Engine.HandleDownloadStart` | internal/correlate/engine.go:458-479 | Opens the download unless one is open |
| `Engines.Engine.OnDownloadDone` | internal/correlate/engine.go:481-509 | Takes the specified step, whose call and record are those of `EventCalls.DownloadEnds`: the open download ended, ok iff there is no error reason, else a span of no length; record saved, end timed, download gauge |
| `Engines.Engine.ImportOn` | internal/correlate/engine.go:516-555 | The import on its trace, anchored at the last update or now |
| `Engines.Engine.OnImported` | internal/correlate/engine.go:511-593 | Takes the specified step, whose calls and records are those of `EventCalls.Imports` and `ImportCompletes`: a trace that no request opened is completed |
| `Engines.Engine.OnManualNeeded` | internal/correlate/engine.go:595-609 | Takes the specified step: an event on the open grab or else the root, the error on the record |
| `Engines.Engine.NoteQueueIssue` | internal/correlate/engine.go:722-744 | Takes the specified step: an event on the open grab or else the root of the trace that the download ID names, the status as error on the record |
| `Engines.Engine.Sweep` | internal/correlate/engine.go:748-779 | Takes the specified sweep step, for the order in which the stale keys came |
| `Engines.Engine.SweepOn` | internal/correlate/engine.go:752-773 | One stale trace: its children and root ended as timed out, its record dropped without touching the flags |
| `Engines.Engine.Restore` | internal/correlate/engine.go:136-156 | Takes the specified restore, for the order in which the records came |
| `Engines.Engine.RestoreOn` | internal/correlate/engine.go:140-149 | One record: remote context, cleared flags, saved |
| `Engines.Begin` | cmd/tracearr/main.go:74-105 | A first process is in an initial state of the specification |
| `Engines.Reopen` | cmd/tracearr/main.go:77-105 | A process that takes over takes the specification's restart step: open the same file, new builder, new engine, restore |
| `Processes.Obey` | internal/correlate/engine.go:175-206 | One command on the objects, an event, a queue note, a sweep or a crash, is an enabled step of the specification |
| `Processes.Serve` | cmd/tracearr/main.go:74-135 | An engine that serves any list of commands from a first process on, dying and reopening its file among them, ends in the state that a run of the specification from an initial state reaches, by steps that take those commands in order |

## Left out

- The engine's timing entries and parked starts are values in maps, where the program has pointers to them; nothing else holds those pointers.
- The steps that several handlers write out (closing an open child, completing a root, retiring a trace) are shared methods in the model.
- TraceRecords.TraceState.constructor: the fields set when a trace is opened are constants, as no code assigns them again.
- Builders.OTelBuilder.CloseSpan: the log holds the call, not what the SDK makes of it; `NoCallIsLost` says that calls with the ID of a child find it, `NotesLostExactly` which notes on a root are dropped.
- Builders.OTelBuilder.OpenRoot: attributes and span kinds are not modelled, except attempt, link, reason and error. The key in the call, and the name of the trace in a synthetic root, are annotations that the monitor reads. Trace and span ID of a root are one number.
- CrashRecovery.AlwaysClosedSynced: needs event keys that the codec reads back; the program only makes keys of type `movie` and `tv`.
- Attempts.AlwaysNumbered: needs the same, as a restart loses or renames records of other keys.
- TraceHistory.RecordsTellEndings: needs the same, and so does TraceHistory.OpenedBecause; of endings at times that go back nothing is claimed.
- AttemptHistory.AttemptsInSequence: needs the same, and so does AttemptHistory.NextAttempt, which decides between its cases.
- StoreSimulation.AnswersPointwise: of a dedup key that has met a tie nothing is claimed until both stores accept it at the same time; `DedupWindow.AnswersByWindow` decides those calls.
- StoreSimulation.StoresSimulate: does not cover `LoadAll`, which only startup calls and which differs by design, nor the order in which `Stale` lists its keys.
- IndexHolders.StepKeepsLookup: not for restarts, where the order of the records decides (`IndexNamesHolders`, `RestartRestoresIndex`).
- MediaKeys.RoundTrip: blanks other than the space are not skipped when a number is read.
- Sonarr.ParseArr: starts from the decoded payload; lower-casing is exact only where the result can be a client's name.
- QueuePolling.QueuePoller.Tick: the request itself is a parameter, either failed or a list of records; the calls on the observer are the list returned.
- ProwlarrPolling.ProwlarrPoller.Tick: the same; the elapsed time of a record is a parameter, as parsed.
- The metrics `Observe*` and `CountAttempt`, logging and `SetMetrics` are not modelled.
- `EmitProwlarrSearch` and `lookupByTitle`: best-effort matching that depends on map order.
- Radarr, Overseerr, NZBGet and SABnzbd receivers, HTTP servers, authentication, configuration, exporters: plumbing around the engine.
- JSON and bbolt: the persisted fields are taken to survive the round trip, each update to be atomic and to succeed. A crash happens between engine calls only.
- Processes.Serve: a crash needs the store with a file; a process with the in-memory store starts from nothing again.
- Goroutines and locks: the mutexes make each call one step.
