/**
 * The correlation engine as a state machine on values. Every handler is a composition of small
 * moves, each of which changes one trace record, one span or one bookkeeping entry.
 */
module EngineSpec {
  import opened Types
  import opened StoreSpec
  import opened SpanSpec

  datatype Parked = Parked(event: Event, addedAt: Time)

  datatype Timing = Timing(
    openedAt: Time, approvedAt: Time, grabbedAt: Time, downloadStartedAt: Time, downloadEndedAt: Time,
    indexer: string, downloadClient: string, protocol: string, mediaType: string, source: string)

  /** Net in-flight adjustments of this process, one per phase. */
  datatype Gauges = Gauges(request: int, grab: int, download: int)

  datatype State = State(
    store: StoreState, ctx: map<MediaKey, RootCtx>, pending: map<string, Parked>, pendingTTL: nat,
    timing: map<MediaKey, Timing>, gauges: Gauges, spans: Spans)

  function NewState(store: StoreState, pendingTTL: nat, spans: Spans): State {
    State(store, map[], map[], pendingTTL, map[], Gauges(0, 0, 0), spans)
  }

  /** A Go map read: a missing key gives the nil context. */
  function CtxOf(s: State, k: MediaKey): RootCtx {
    if k in s.ctx then s.ctx[k] else NoCtx
  }

  function Resolve(traces: map<MediaKey, Trace>, k: MediaKey): Option<MediaKey> {
    if k in traces then Some(k)
    else if k.mediaType == TYPE_TV && k.SeriesKey() in traces then Some(k.SeriesKey())
    else None
  }

  // ---------- moves ----------

  /** An in-place change of the shared record; the disk copy is untouched until `Save`. */
  function Amend(s: State, k: MediaKey, t: Trace): State {
    s.(store := SetTrace(s.store, k, t))
  }

  function Save(s: State, k: MediaKey): State
    requires k in s.store.traces
  {
    s.(store := Put(s.store, s.store.traces[k]))
  }

  function EndDownload(s: State, k: MediaKey, at: Time, ok: bool, reason: string): State
    requires k in s.store.traces
  {
    var t := s.store.traces[k];
    Amend(s, k, t.(hasDownload := false))
      .(spans := CloseSpan(s.spans, CtxOf(s, k), t.downloadSpanID, at, ok, reason))
  }

  function EndGrab(s: State, k: MediaKey, at: Time, ok: bool, reason: string): State
    requires k in s.store.traces
  {
    var t := s.store.traces[k];
    Amend(s, k, t.(hasGrab := false))
      .(spans := CloseSpan(s.spans, CtxOf(s, k), t.grabSpanID, at, ok, reason))
  }

  /** Close whichever children are open, download first. */
  function EndOpenDownload(s: State, k: MediaKey, at: Time, ok: bool, reason: string): State
    requires k in s.store.traces
  {
    if s.store.traces[k].hasDownload then EndDownload(s, k, at, ok, reason) else s
  }

  function EndOpenGrab(s: State, k: MediaKey, at: Time, ok: bool, reason: string): State
    requires k in s.store.traces
  {
    if s.store.traces[k].hasGrab then EndGrab(s, k, at, ok, reason) else s
  }

  function EndChildren(s: State, k: MediaKey, at: Time, ok: bool, reason: string): State
    requires k in s.store.traces
  {
    EndOpenGrab(EndOpenDownload(s, k, at, ok, reason), k, at, ok, reason)
  }

  function BeginGrab(s: State, k: MediaKey, name: string, at: Time, downloadID: string): State
    requires k in s.store.traces
  {
    var t := s.store.traces[k];
    Amend(s, k, t.(grabSpanID := s.spans.next, hasGrab := true, updatedAt := at,
                   downloadID := if downloadID != "" then downloadID else t.downloadID))
      .(spans := OpenChild(s.spans, CtxOf(s, k), name, at))
  }

  function BeginDownload(s: State, k: MediaKey, at: Time): State
    requires k in s.store.traces
  {
    var t := s.store.traces[k];
    Amend(s, k, t.(downloadSpanID := s.spans.next, hasDownload := true, downloadStartedAt := at, updatedAt := at))
      .(spans := OpenChild(s.spans, CtxOf(s, k), SPAN_DOWNLOAD, at))
  }

  function Touch(s: State, k: MediaKey, at: Time): State
    requires k in s.store.traces
  {
    Amend(s, k, s.store.traces[k].(updatedAt := at))
  }

  /** A synthetic span under the trace's root. */
  function EmitUnder(s: State, k: MediaKey, name: string, start: Time, end: Time): State {
    s.(spans := SyntheticSpan(s.spans, CtxOf(s, k), name, start, end, None, ""))
  }

  /** An event on the root span (`id` 0) or on an open child of the trace. */
  function AnnotateUnder(s: State, k: MediaKey, id: ID, name: string, when: Time): State {
    s.(spans := AddSpanEvent(s.spans, CtxOf(s, k), id, name, when))
  }

  /** The span that notices about a trace go to: its open grab, else the root. */
  function NoticeTarget(t: Trace): ID {
    if t.hasGrab then t.grabSpanID else 0
  }

  /** Open a root span and a live trace for it. */
  function OpenTrace(s: State, ev: Event, attempt: int, link: Option<ID>, reason: string,
                     requestID: string, requestedBy: string): State {
    var id := s.spans.next;
    var t := Trace(ev.key, id, id, attempt, ev.source, ev.occurredAt, ev.occurredAt,
                   0, false, 0, false, ev.occurredAt, ZERO_TIME, "", "",
                   ev.title, requestID, requestedBy, false);
    s.(spans := OpenRoot(s.spans, ev.key, ev.occurredAt, attempt, link, reason),
       ctx := s.ctx[ev.key := LiveCtx(id, id)],
       store := Put(s.store, t))
  }

  /** Complete the root span: end the live one, or rebuild the lost one from the stored record. */
  function CompleteRoot(s: State, k: MediaKey, at: Time, ok: bool, reason: string): State
    requires k in s.store.traces
  {
    var t := s.store.traces[k];
    if t.resumed then
      s.(spans := SyntheticSpan(s.spans, NoCtx, SPAN_REQUEST, t.openedAt, at, Some(t.traceID),
                                if ok then "" else reason))
    else
      s.(spans := CloseSpan(s.spans, CtxOf(s, k), 0, at, ok, reason))
  }

  /** Drop the live trace and remember how it ended. */
  function Retire(s: State, k: MediaKey, outcome: Outcome, at: Time): State
    requires k in s.store.traces
  {
    var t := s.store.traces[k];
    s.(ctx := s.ctx - {k},
       store := RememberClosed(Delete(s.store, k), k, ClosedTrace(t.traceID, t.attempt, outcome, at)))
  }

  /** Settle the request gauge. The grab gauge would follow `hadGrab`, which every caller has cleared by then. */
  function Settle(s: State, k: MediaKey, hadGrab: bool): State {
    if k !in s.timing then s
    else s.(timing := s.timing - {k},
            gauges := s.gauges.(request := s.gauges.request - 1,
                                grab := if hadGrab then s.gauges.grab - 1 else s.gauges.grab))
  }

  // ---------- opening traces ----------

  function UpgradeReasonForOutcome(o: Outcome): string {
    match o
    case Failed => UPGRADE_RETRY
    case Timeout => UPGRADE_RETRY
    case Available => UPGRADE_QUALITY
    case _ => UPGRADE_MANUAL
  }

  function AttemptAfter(prior: Option<ClosedTrace>): int {
    match prior case None => 1 case Some(c) => c.attempt + 1
  }

  function LinkTo(prior: Option<ClosedTrace>): Option<ID> {
    match prior case None => None case Some(c) => Some(c.traceID)
  }

  function RequestReason(prior: Option<ClosedTrace>): string {
    match prior case None => "" case Some(c) => UpgradeReasonForOutcome(c.outcome)
  }

  function OrphanReason(prior: Option<ClosedTrace>, isUpgrade: bool): string {
    match prior
    case None => if isUpgrade then UPGRADE_QUALITY else ""
    case Some(c) =>
      if isUpgrade then UPGRADE_QUALITY
      else if c.outcome.Failed? || c.outcome.Timeout? then UPGRADE_RETRY
      else UPGRADE_MANUAL
  }

  function Recall(s: State, k: MediaKey, now: Time): State {
    s.(store := RecallClosed(s.store, k, now))
  }

  function NewTiming(ev: Event): Timing {
    Timing(ev.occurredAt, ZERO_TIME, ZERO_TIME, ZERO_TIME, ZERO_TIME, "", "", "", ev.key.mediaType, ev.source)
  }

  function OnRequestOpened(s: State, ev: Event): State {
    if Resolve(s.store.traces, ev.key).Some? then s
    else
      var prior := Recalled(s.store, ev.key, ev.occurredAt);
      var s1 := OpenTrace(Recall(s, ev.key, ev.occurredAt), ev, AttemptAfter(prior), LinkTo(prior),
                          RequestReason(prior), ev.requestID, ev.requestedBy);
      s1.(timing := s1.timing[ev.key := NewTiming(ev)],
          gauges := s1.gauges.(request := s1.gauges.request + 1))
  }

  function OpenOrphanRoot(s: State, ev: Event): State {
    var prior := Recalled(s.store, ev.key, ev.occurredAt);
    OpenTrace(Recall(s, ev.key, ev.occurredAt), ev, AttemptAfter(prior), LinkTo(prior),
              OrphanReason(prior, ev.release.isUpgrade), "", "")
  }

  // ---------- handlers ----------

  function OnRequestApproved(s: State, ev: Event): State {
    match Resolve(s.store.traces, ev.key)
    case None => s
    case Some(k) =>
      var t := s.store.traces[k];
      var s1 := Save(Amend(s, k, t.(searchStart := ev.occurredAt, updatedAt := ev.occurredAt)), k);
      var s2 := if k in s1.timing
                then s1.(timing := s1.timing[k := s1.timing[k].(approvedAt := ev.occurredAt)]) else s1;
      AnnotateUnder(s2, k, 0, "request.approved", ev.occurredAt)
  }

  function CloseTrace(s: State, k: MediaKey, at: Time, ok: bool, reason: string, outcome: Outcome): State
    requires k in s.store.traces
  {
    Retire(CompleteRoot(s, k, at, ok, reason), k, outcome, at)
  }

  function OnRequestClosed(s: State, ev: Event): State {
    match Resolve(s.store.traces, ev.key)
    case None => s
    case Some(k) =>
      var s1 := EndChildren(s, k, ev.occurredAt, true, "");
      var s2 := CloseTrace(s1, k, ev.occurredAt, ev.outcome.Available?, ev.errorReason, ev.outcome);
      Settle(s2, k, s1.store.traces[k].hasGrab)
  }

  function GrabSpanName(source: string): string {
    if source == SOURCE_RADARR then SPAN_RADARR_GRAB else SPAN_SONARR_GRAB
  }

  function EmitSearch(s: State, k: MediaKey, at: Time): State
    requires k in s.store.traces
  {
    var start := s.store.traces[k].searchStart;
    if start != ZERO_TIME && start < at then EmitUnder(s, k, SPAN_SEARCH, start, at) else s
  }

  function TimeGrab(s: State, k: MediaKey, ev: Event): State {
    if k !in s.timing then s
    else
      s.(timing := s.timing[k := s.timing[k].(grabbedAt := ev.occurredAt, indexer := ev.release.indexer,
                                              downloadClient := ev.release.downloadClient,
                                              protocol := ev.release.protocol)],
         gauges := s.gauges.(grab := s.gauges.grab + 1))
  }

  /** The key of the trace a grab lands on. */
  function LandsOn(traces: map<MediaKey, Trace>, key: MediaKey): MediaKey {
    match Resolve(traces, key) case Some(k) => k case None => key
  }

  /** The trace a grab lands on, opened as an orphan if there is none. */
  function GrabTarget(s: State, ev: Event): (MediaKey, State) {
    match Resolve(s.store.traces, ev.key)
    case Some(k) => (k, s)
    case None => (ev.key, OpenOrphanRoot(s, ev))
  }

  /** The grab itself, before any parked download start is replayed. */
  function Grab(s: State, k: MediaKey, ev: Event): State
    requires k in s.store.traces
  {
    var s1 := EmitSearch(s, k, ev.occurredAt);
    var s2 := EndOpenGrab(s1, k, ev.occurredAt, false, ERR_SUPERSEDED);
    var s3 := BeginGrab(s2, k, GrabSpanName(ev.source), ev.occurredAt, ev.release.downloadID);
    TimeGrab(Save(s3, k), k, ev)
  }

  function Replay(s: State, k: MediaKey, id: string): State
    requires k in s.store.traces
  {
    if id == "" || id !in s.pending then s
    else HandleDownloadStart(s.(pending := s.pending - {id}), k, s.pending[id].event)
  }

  function OnGrabbed(s: State, ev: Event): State {
    var (k, s1) := GrabTarget(s, ev);
    Replay(Grab(s1, k, ev), k, ev.release.downloadID)
  }

  function Unexpired(pending: map<string, Parked>, cutoff: Time): map<string, Parked> {
    map id | id in pending && pending[id].addedAt >= cutoff :: pending[id]
  }

  function Park(s: State, ev: Event): State {
    s.(pending := Unexpired(s.pending, ev.occurredAt - s.pendingTTL)
                  [ev.release.downloadID := Parked(ev, ev.occurredAt)])
  }

  function HandleDownloadStart(s: State, k: MediaKey, ev: Event): State
    requires k in s.store.traces
  {
    if s.store.traces[k].hasDownload then s
    else
      var s1 := Save(BeginDownload(s, k, ev.occurredAt), k);
      if k !in s1.timing then s1
      else s1.(timing := s1.timing[k := s1.timing[k].(downloadStartedAt := ev.occurredAt)],
               gauges := s1.gauges.(download := s1.gauges.download + 1))
  }

  function OnDownloadStart(s: State, ev: Event): State {
    match ByDownloadID(s.store, ev.release.downloadID)
    case None => Park(s, ev)
    case Some(k) => HandleDownloadStart(s, k, ev)
  }

  function TimeDownloadEnd(s: State, k: MediaKey, at: Time): State {
    if k !in s.timing then s
    else
      var t := s.timing[k];
      s.(timing := s.timing[k := t.(downloadEndedAt := at)],
         gauges := if t.downloadStartedAt != ZERO_TIME
                   then s.gauges.(download := s.gauges.download - 1) else s.gauges)
  }

  function OnDownloadDone(s: State, ev: Event): State {
    match ByDownloadID(s.store, ev.release.downloadID)
    case None => s
    case Some(k) =>
      var s1 := if s.store.traces[k].hasDownload
                then EndDownload(s, k, ev.occurredAt, ev.errorReason == "", ev.errorReason)
                else EmitUnder(s, k, SPAN_DOWNLOAD, ev.occurredAt, ev.occurredAt);
      TimeDownloadEnd(Save(Touch(s1, k, ev.occurredAt), k), k, ev.occurredAt)
  }

  function ImportSpanName(source: string): string {
    if source == SOURCE_RADARR then SPAN_RADARR_IMPORT else SPAN_SONARR_IMPORT
  }

  function Earlier(a: Time, b: Time): Time {
    if a < b then a else b
  }

  /** The import work on the trace, before a request-less root is closed. */
  function Import(s: State, k: MediaKey, ev: Event): State
    requires k in s.store.traces
  {
    var s1 := EndOpenDownload(s, k, ev.occurredAt, true, "");
    var s2 := EmitUnder(s1, k, ImportSpanName(ev.source),
                        Earlier(s1.store.traces[k].updatedAt, ev.occurredAt), ev.occurredAt);
    var s3 := EndOpenGrab(s2, k, ev.occurredAt, true, "");
    Save(Touch(s3, k, ev.occurredAt), k)
  }

  function OnImported(s: State, ev: Event): State {
    match Resolve(s.store.traces, ev.key)
    case None => s
    case Some(k) =>
      var s1 := Import(s, k, ev);
      var t := s1.store.traces[k];
      if t.source == SOURCE_SONARR || t.source == SOURCE_RADARR then
        Settle(CloseTrace(s1, k, ev.occurredAt, true, "", Available), k, t.hasGrab)
      else s1
  }

  function OnManualNeeded(s: State, ev: Event): State {
    match Resolve(s.store.traces, ev.key)
    case None => s
    case Some(k) =>
      var t := s.store.traces[k];
      var s1 := AnnotateUnder(s, k, NoticeTarget(t), "manual_interaction_required", ev.occurredAt);
      Save(Amend(s1, k, t.(lastError := ERR_MANUAL, updatedAt := ev.occurredAt)), k)
  }

  function NoteQueueIssue(s: State, id: string, status: string, when: Time): State {
    match ByDownloadID(s.store, id)
    case None => s
    case Some(k) =>
      var t := s.store.traces[k];
      var s1 := AnnotateUnder(s, k, NoticeTarget(t), "queue.stalled", when);
      Save(Amend(s1, k, t.(lastError := "arr.queue_" + status, updatedAt := when)), k)
  }

  function Handle(s: State, ev: Event): State {
    match ev.phase
    case RequestOpened => OnRequestOpened(s, ev)
    case RequestApproved => OnRequestApproved(s, ev)
    case RequestClosed => OnRequestClosed(s, ev)
    case Grabbed => OnGrabbed(s, ev)
    case DownloadStart => OnDownloadStart(s, ev)
    case DownloadDone => OnDownloadDone(s, ev)
    case Imported => OnImported(s, ev)
    case ManualNeeded => OnManualNeeded(s, ev)
    case OtherPhase(_) => s
  }

  function Process(s: State, ev: Event): State {
    var s1 := s.(store := SeenEvent(s.store, ev.source, ev.eventID, ev.occurredAt));
    if Accepts(s.store, ev.source, ev.eventID, ev.occurredAt) then Handle(s1, ev) else s1
  }

  // ---------- sweep ----------

  function SweepOne(s: State, k: MediaKey, now: Time): State
    requires k in s.store.traces
  {
    CloseTrace(EndChildren(s, k, now, false, ERR_TIMEOUT), k, now, false, ERR_TIMEOUT, Timeout)
  }

  /** Sweep the given keys in the given order; a key that is no longer live is passed over. */
  function Sweep(s: State, order: seq<MediaKey>, now: Time): State
    decreases |order|
  {
    if order == [] then s
    else
      var s1 := Sweep(s, order[..|order| - 1], now);
      var k := order[|order| - 1];
      if k in s1.store.traces then SweepOne(s1, k, now) else s1
  }

  // ---------- restart ----------

  /** A new process: new engine and builder, tracer IDs go on, the opened store is all there is. */
  function Reborn(s: State, reopened: StoreState): State {
    NewState(reopened, s.pendingTTL, Record(s.spans, Restarted).(openSpans := {}))
  }

  function RestoreOne(s: State, k: MediaKey): State
    requires k in s.store.traces
  {
    var t := s.store.traces[k];
    var s1 := Amend(s, k, t.(hasGrab := false, hasDownload := false));
    Save(s1.(ctx := s1.ctx[k := RemoteCtx(t.traceID, t.rootSpanID)]), k)
  }

  function RestoreKeys(s: State, order: seq<MediaKey>): State
    decreases |order|
  {
    if order == [] then s
    else
      var s1 := RestoreKeys(s, order[..|order| - 1]);
      var k := order[|order| - 1];
      if k in s1.store.traces then RestoreOne(s1, k) else s1
  }

  function Restore(s: State, order: seq<MediaKey>): State {
    RestoreKeys(s.(store := LoadAll(s.store)), order)
  }

  // ---------- steps and runs ----------

  /** `order` lists the set `keys`, each once: one of the orders a Go map range may take. */
  ghost predicate Lists(order: seq<MediaKey>, keys: set<MediaKey>) {
    && (forall i, j :: 0 <= i < j < |order| ==> order[i] != order[j])
    && (forall k :: k in order <==> k in keys)
  }

  datatype Action =
    | Deliver(ev: Event)
    | QueueIssue(id: string, status: string, when: Time)
    | SweepAt(now: Time, ttl: int, order: seq<MediaKey>)
    | Restart(reopened: StoreState, order: seq<MediaKey>)

  /** Restarts are crash-and-reopen steps of a process with the on-disk store, placed between engine calls. */
  ghost predicate Enabled(s: State, a: Action) {
    match a
    case Deliver(_) => true
    case QueueIssue(_, _, _) => true
    case SweepAt(now, ttl, order) => Lists(order, StaleKeys(s.store, ttl, now))
    case Restart(reopened, order) =>
      && s.store.kind.OnDisk?
      && Opens(s.store.disk, s.store.dedupTTL, s.store.recallTTL, reopened)
      && Lists(order, reopened.traces.Keys)
  }

  function Step(s: State, a: Action): State {
    match a
    case Deliver(ev) => Process(s, ev)
    case QueueIssue(id, status, when) => NoteQueueIssue(s, id, status, when)
    case SweepAt(now, _, order) => Sweep(s, order, now)
    case Restart(reopened, order) => Restore(Reborn(s, reopened), order)
  }

  /** `acts` can be taken one after another from `s`. */
  ghost predicate CanRun(s: State, acts: seq<Action>)
    decreases |acts|
  {
    acts == [] || (Enabled(s, acts[0]) && CanRun(Step(s, acts[0]), acts[1..]))
  }

  function Run(s: State, acts: seq<Action>): State
    decreases |acts|
  {
    if acts == [] then s else Run(Step(s, acts[0]), acts[1..])
  }

  /** A first process on an empty store. */
  predicate Initial(s: State) {
    && s.store == EmptyStore(s.store.kind, s.store.dedupTTL, s.store.recallTTL)
    && s == NewState(s.store, s.pendingTTL, Spans(1, {}, []))
  }
}
