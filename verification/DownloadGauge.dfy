/**
 * The in-flight download gauge: each step's effect on it, exactly. A second end of one download takes it off
 * again, and no completion of a trace does.
 */
module DownloadGauge {
  import opened Types
  import opened StoreSpec
  import opened SpanSpec
  import opened EngineSpec
  import opened StoreChanges
  import opened Bookkeeping
  import opened DownloadRace
  import opened GrabGauge
  import opened RequestGauge
  import opened Dedup
  import opened CrashRecovery

  predicate SameDownloads(s: State, s': State) {
    s'.gauges.download == s.gauges.download
  }

  /** The trace has no download open, and there is a timing entry for it. */
  predicate Startable(s: State, k: MediaKey) {
    k in s.timing && (k in s.store.traces ==> !s.store.traces[k].hasDownload)
  }

  /** The event opens a download, at once or by replay, on a trace with a timing entry. */
  predicate CountsStart(s: State, ev: Event) {
    var id := ev.release.downloadID;
    if ev.phase.Grabbed? then id != "" && id in s.pending && Startable(s, LandsOn(s.store.traces, ev.key))
    else if ev.phase.DownloadStart? then
      ByDownloadID(s.store, id).Some? && Startable(s, ByDownloadID(s.store, id).value)
    else false
  }

  /** The event ends a download, open or not, on a trace whose timing entry has seen one start. */
  predicate CountsEnd(s: State, ev: Event) {
    && ev.phase.DownloadDone? && ByDownloadID(s.store, ev.release.downloadID).Some?
    && var k := ByDownloadID(s.store, ev.release.downloadID).value;
       k in s.timing && s.timing[k].downloadStartedAt != ZERO_TIME
  }

  function DownloadDelta(s: State, a: Action): int {
    if a.Deliver? && Accepts(s.store, a.ev.source, a.ev.eventID, a.ev.occurredAt) then
      (if CountsStart(s, a.ev) then 1 else 0) - (if CountsEnd(s, a.ev) then 1 else 0)
    else 0
  }

  // ---------- one lemma a handler ----------

  lemma StartDownloads(s: State, k: MediaKey, ev: Event)
    requires k in s.store.traces
    ensures HandleDownloadStart(s, k, ev).gauges.download
            == s.gauges.download + if k in s.timing && !s.store.traces[k].hasDownload then 1 else 0
  {
    hide Put;
  }

  lemma GrabKeepsDownload(s: State, k: MediaKey, ev: Event)
    requires k in s.store.traces
    ensures var r := Grab(s, k, ev);
            && SameDownloads(s, r) && r.timing.Keys == s.timing.Keys && r.pending == s.pending && k in r.store.traces
            && (s.store.traces[k].key == k ==> r.store.traces[k].hasDownload == s.store.traces[k].hasDownload)
  {
    hide EmitSearch, TimeGrab, BeginGrab, EndOpenGrab, Put;
    SearchCore(s, k, ev.occurredAt);
    var s1 := EmitSearch(s, k, ev.occurredAt);
    SearchKeeps(s, k, ev.occurredAt);
    SupersedeCore(s1, k, ev.occurredAt);
    EndGrabSameBooks(s1, k, ev.occurredAt);
    var s2 := EndOpenGrab(s1, k, ev.occurredAt, false, ERR_SUPERSEDED);
    BeginCore(s2, k, GrabSpanName(ev.source), ev.occurredAt, ev.release.downloadID);
    BeginBooks(s2, k, GrabSpanName(ev.source), ev.occurredAt, ev.release.downloadID);
    var s3 := BeginGrab(s2, k, GrabSpanName(ev.source), ev.occurredAt, ev.release.downloadID);
    PutTraces(s3.store, s3.store.traces[k]);
    TimeGrabDownloads(Save(s3, k), k, ev);
  }

  lemma BeginBooks(s: State, k: MediaKey, name: string, at: Time, id: string)
    requires k in s.store.traces
    ensures SameBooks(s, BeginGrab(s, k, name, at, id))
  {
  }

  lemma TimeGrabDownloads(s: State, k: MediaKey, ev: Event)
    ensures var r := TimeGrab(s, k, ev);
            SameDownloads(s, r) && r.timing.Keys == s.timing.Keys && r.store == s.store && r.pending == s.pending
  {
  }

  lemma TargetDownload(s: State, ev: Event)
    requires Keyed(s.store.traces)
    ensures var (k, s1) := GrabTarget(s, ev);
            && k == LandsOn(s.store.traces, ev.key) && SameBooks(s, s1)
            && k in s1.store.traces && s1.store.traces[k].key == k
            && (k in s.timing && !s1.store.traces[k].hasDownload <==> Startable(s, k))
  {
  }

  lemma GrabbedDownloads(s: State, ev: Event)
    requires Keyed(s.store.traces)
    ensures var id := ev.release.downloadID;
            OnGrabbed(s, ev).gauges.download
            == s.gauges.download
               + if id != "" && id in s.pending && Startable(s, LandsOn(s.store.traces, ev.key)) then 1 else 0
  {
    hide GrabTarget, Grab, HandleDownloadStart, Startable, LandsOn;
    TargetDownload(s, ev);
    var (k, s1) := GrabTarget(s, ev);
    GrabKeepsDownload(s1, k, ev);
    var s2, id := Grab(s1, k, ev), ev.release.downloadID;
    if id != "" && id in s2.pending { StartDownloads(s2.(pending := s2.pending - {id}), k, s2.pending[id].event); }
  }

  lemma DoneDownloads(s: State, ev: Event)
    requires ev.phase.DownloadDone?
    ensures OnDownloadDone(s, ev).gauges.download == s.gauges.download - if CountsEnd(s, ev) then 1 else 0
  {
    hide Put, CloseSpan, SyntheticSpan, ByDownloadID;
  }

  lemma RequestClosedDownloads(s: State, ev: Event)
    ensures SameDownloads(s, OnRequestClosed(s, ev))
  {
    hide EndChildren, CloseTrace;
    if Resolve(s.store.traces, ev.key).Some? {
      var k, at := Resolve(s.store.traces, ev.key).value, ev.occurredAt;
      EndChildrenEdits(s, k, at, true, "");
      EndChildrenBooks(s, k, at, true, "");
      CloseTraceBooks(EndChildren(s, k, at, true, ""), k, at, ev.outcome.Available?, ev.errorReason, ev.outcome);
    }
  }

  lemma ImportedDownloads(s: State, ev: Event)
    ensures SameDownloads(s, OnImported(s, ev))
  {
    hide Import, CloseTrace;
    if Resolve(s.store.traces, ev.key).Some? {
      var k, at := Resolve(s.store.traces, ev.key).value, ev.occurredAt;
      ImportBooks(s, k, ev);
      ImportEndsGrab(s, k, ev);
      CloseTraceBooks(Import(s, k, ev), k, at, true, "", Available);
    }
  }

  /** The handlers that do not look at the download gauge at all. */
  lemma OtherDownloads(s: State, ev: Event)
    ensures SameDownloads(s, OnRequestOpened(s, ev)) && SameDownloads(s, OnRequestApproved(s, ev))
    ensures SameDownloads(s, OnManualNeeded(s, ev))
  {
    hide Put, StoreSpec.RecallClosed;
  }

  lemma DownloadStartDownloads(s: State, ev: Event)
    requires ev.phase.DownloadStart?
    ensures OnDownloadStart(s, ev).gauges.download == s.gauges.download + if CountsStart(s, ev) then 1 else 0
  {
    hide HandleDownloadStart;
    var k := ByDownloadID(s.store, ev.release.downloadID);
    if k.Some? { StartDownloads(s, k.value, ev); }
  }

  lemma HandleDownloads(s: State, ev: Event)
    requires Keyed(s.store.traces)
    ensures Handle(s, ev).gauges.download
            == s.gauges.download + (if CountsStart(s, ev) then 1 else 0) - (if CountsEnd(s, ev) then 1 else 0)
  {
    hide OnRequestOpened, OnRequestApproved, OnRequestClosed, OnGrabbed, OnDownloadStart, OnDownloadDone,
      OnImported, OnManualNeeded, Startable, LandsOn;
    match ev.phase
    case RequestOpened => OtherDownloads(s, ev);
    case RequestApproved => OtherDownloads(s, ev);
    case RequestClosed => RequestClosedDownloads(s, ev);
    case Grabbed => GrabbedDownloads(s, ev);
    case DownloadStart => DownloadStartDownloads(s, ev);
    case DownloadDone => DoneDownloads(s, ev);
    case Imported => ImportedDownloads(s, ev);
    case ManualNeeded => OtherDownloads(s, ev);
    case OtherPhase(_) =>
  }

  // ---------- steps and runs ----------

  /** Exactly what a step of a process does to the download gauge. */
  lemma StepDownloads(s: State, a: Action)
    requires Keyed(s.store.traces) && !a.Restart?
    ensures Step(s, a).gauges.download == s.gauges.download + DownloadDelta(s, a)
  {
    hide Handle, NoteQueueIssue, CountsStart, CountsEnd;
    match a
    case Deliver(ev) =>
      SeenCounts(s, ev);
      HandleDownloads(s.(store := SeenEvent(s.store, ev.source, ev.eventID, ev.occurredAt)), ev);
    case QueueIssue(id, status, when) => QueueIssueDownloads(s, id, status, when);
    case SweepAt(now, _, order) => SweepBooks(s, order, now);
  }

  lemma SeenCounts(s: State, ev: Event)
    ensures var s1 := s.(store := SeenEvent(s.store, ev.source, ev.eventID, ev.occurredAt));
            && s1.store.traces == s.store.traces
            && (CountsStart(s1, ev) <==> CountsStart(s, ev)) && (CountsEnd(s1, ev) <==> CountsEnd(s, ev))
  {
    hide SeenEvent;
    SeenKeeps(s.store, ev);
  }

  lemma QueueIssueDownloads(s: State, id: string, status: string, when: Time)
    ensures SameDownloads(s, NoteQueueIssue(s, id, status, when))
  {
    hide Put;
  }

  lemma RestartDownloads(s: State, a: Action)
    requires a.Restart?
    ensures Step(s, a).gauges.download == 0
  {
    RestoreBooks(Reborn(s, a.reopened).(store := LoadAll(a.reopened)), a.order);
  }

  /** The starts counted in this process less the ends counted in it, with `n` at first. */
  function DownloadsCounted(s: State, acts: seq<Action>, n: int): int
    decreases |acts|
  {
    if acts == [] then n
    else DownloadsCounted(Step(s, acts[0]), acts[1..], if acts[0].Restart? then 0 else n + DownloadDelta(s, acts[0]))
  }

  /** Over every run, restarts included, that is what the download gauge shows. */
  lemma {:induction false} DownloadGaugeCounts(s: State, acts: seq<Action>)
    requires TracesSynced(s.store) && CanRun(s, acts)
    ensures Run(s, acts).gauges.download == DownloadsCounted(s, acts, s.gauges.download)
    decreases |acts|
  {
    hide Step, DownloadDelta;
    if acts != [] {
      if acts[0].Restart? { RestartDownloads(s, acts[0]); } else { StepDownloads(s, acts[0]); }
      StepTracesSynced(s, acts[0]);
      DownloadGaugeCounts(Step(s, acts[0]), acts[1..]);
    }
  }

  // ---------- below zero ----------

  /** The download `id` is found, on a trace whose timing entry has seen a start. */
  predicate StartSeen(s: State, id: string) {
    && ByDownloadID(s.store, id).Some?
    && var k := ByDownloadID(s.store, id).value; k in s.timing && s.timing[k].downloadStartedAt != ZERO_TIME
  }

  /** A counted end leaves the trace such that the next end of the download counts as well. */
  lemma EndsKeepCounting(s: State, done: Event)
    requires Keyed(s.store.traces) && done.phase.DownloadDone?
    requires Accepts(s.store, done.source, done.eventID, done.occurredAt) && StartSeen(s, done.release.downloadID)
    ensures var r := Process(s, done);
            r.gauges.download == s.gauges.download - 1 && StartSeen(r, done.release.downloadID)
  {
    hide Handle, SeenEvent;
    SeenKeeps(s.store, done);
    var s1 := s.(store := SeenEvent(s.store, done.source, done.eventID, done.occurredAt));
    DoneDownloads(s1, done);
    DoneKeepsStart(s1, done);
    assert Handle(s1, done) == OnDownloadDone(s1, done) by { Dispatched(s1, done); }
  }

  lemma Dispatched(s: State, ev: Event)
    ensures ev.phase.DownloadDone? ==> Handle(s, ev) == OnDownloadDone(s, ev)
    ensures ev.phase.DownloadStart? ==> Handle(s, ev) == OnDownloadStart(s, ev)
    ensures ev.phase.Grabbed? ==> Handle(s, ev) == OnGrabbed(s, ev)
    ensures ev.phase.RequestOpened? ==> Handle(s, ev) == OnRequestOpened(s, ev)
  {
  }

  lemma DoneKeepsStart(s: State, ev: Event)
    requires Keyed(s.store.traces) && StartSeen(s, ev.release.downloadID)
    ensures StartSeen(OnDownloadDone(s, ev), ev.release.downloadID)
  {
    hide EndDownload, EmitUnder, Touch;
    var k, at := ByDownloadID(s.store, ev.release.downloadID).value, ev.occurredAt;
    var s1 := if s.store.traces[k].hasDownload then EndDownload(s, k, at, ev.errorReason == "", ev.errorReason)
              else EmitUnder(s, k, SPAN_DOWNLOAD, at, at);
    DownloadDoneEdits(s, k, at, ev.errorReason == "", ev.errorReason);
    EndedBooks(s, k, ev);
    IndexSaved(s.store, k, s.store.traces[k].(hasDownload := false, updatedAt := at), ev.release.downloadID);
  }

  lemma EndedBooks(s: State, k: MediaKey, ev: Event)
    requires k in s.store.traces
    ensures var at := ev.occurredAt;
            var s1 := if s.store.traces[k].hasDownload then EndDownload(s, k, at, ev.errorReason == "", ev.errorReason)
                      else EmitUnder(s, k, SPAN_DOWNLOAD, at, at);
            k in s1.store.traces && SameBooks(s, Touch(s1, k, at))
  {
  }

  /** Saving a record keeps what the index says of an ID that names its key. */
  lemma IndexSaved(st: StoreState, k: MediaKey, t: Trace, id: string)
    requires k == t.key && ByDownloadID(st, id) == Some(k)
    ensures ByDownloadID(Put(SetTrace(st, k, t), t), id) == Some(k)
  {
  }

  /** The first start of a download that is found: it is counted, and seen. */
  lemma FirstStart(s: State, start: Event, k: MediaKey)
    requires Keyed(s.store.traces) && start.phase.DownloadStart? && start.occurredAt != ZERO_TIME
    requires Accepts(s.store, start.source, start.eventID, start.occurredAt)
    requires ByDownloadID(s.store, start.release.downloadID) == Some(k) && Startable(s, k)
    ensures var r := Process(s, start);
            r.gauges.download == s.gauges.download + 1 && StartSeen(r, start.release.downloadID)
  {
    hide Handle, SeenEvent, HandleDownloadStart, StartSeen;
    SeenKeeps(s.store, start);
    var s1 := s.(store := SeenEvent(s.store, start.source, start.eventID, start.occurredAt));
    assert Handle(s1, start) == HandleDownloadStart(s1, k, start) by { Dispatched(s1, start); }
    StartDownloads(s1, k, start);
    StartIsSeen(s1, k, start);
  }

  lemma StartIsSeen(s: State, k: MediaKey, start: Event)
    requires Keyed(s.store.traces) && start.occurredAt != ZERO_TIME && Startable(s, k)
    requires ByDownloadID(s.store, start.release.downloadID) == Some(k)
    ensures StartSeen(HandleDownloadStart(s, k, start), start.release.downloadID)
  {
    hide OpenChild, Put;
    var t := BeginDownload(s, k, start.occurredAt).store.traces[k];
    IndexSaved(s.store, k, t, start.release.downloadID);
  }

  /** A first process after its first request. */
  lemma FirstRequest(s: State, req: Event)
    requires Initial(s) && req.phase.RequestOpened?
    ensures var r := Process(s, req);
            && r.store.traces.Keys == {req.key} && Keyed(r.store.traces) && Startable(r, req.key)
            && r.pending == map[] && r.gauges.download == 0
  {
    hide OpenRoot;
  }

  /** And after the grab: its download is found and can start. */
  lemma FirstGrab(s: State, grab: Event, k: MediaKey)
    requires Keyed(s.store.traces) && k in s.store.traces && Startable(s, k) && s.pending == map[]
    requires grab.phase.Grabbed? && grab.key == k && grab.release.downloadID != ""
    requires Accepts(s.store, grab.source, grab.eventID, grab.occurredAt)
    ensures var r := Process(s, grab);
            && ByDownloadID(r.store, grab.release.downloadID) == Some(k) && Startable(r, k)
            && r.gauges.download == s.gauges.download
  {
    hide Handle, SeenEvent, Grab;
    SeenKeeps(s.store, grab);
    var s1 := s.(store := SeenEvent(s.store, grab.source, grab.eventID, grab.occurredAt));
    assert Process(s, grab) == Grab(s1, k, grab) by { Dispatched(s1, grab); GrabKeepsDownload(s1, k, grab); }
    GrabKeepsDownload(s1, k, grab);
    GrabResolves(s1, k, grab);
  }

  /** A request, its grab, a start and two ends of the download: the gauge is at minus one. */
  lemma SecondEndGoesNegative(s: State, req: Event, grab: Event, start: Event, done: Event, again: Event)
    requires Initial(s) && Apart([req, grab, start, done, again]) && start.occurredAt != ZERO_TIME
    requires req.phase.RequestOpened? && grab.phase.Grabbed? && start.phase.DownloadStart?
    requires done.phase.DownloadDone? && again.phase.DownloadDone? && grab.key == req.key
    requires grab.release.downloadID == start.release.downloadID == done.release.downloadID
             == again.release.downloadID != ""
    ensures CanRun(s, Deliveries([req, grab, start, done, again]))
    ensures Run(s, Deliveries([req, grab, start, done, again])).gauges.download == -1
  {
    hide Process, Accepts, Startable, StartSeen, DedupKey, Run, Deliveries;
    var evs, k, id := [req, grab, start, done, again], req.key, grab.release.downloadID;
    CanDeliver(s, evs);
    AllNewAtFirst(s, evs);
    var s1 := DeliverNext(s, evs);
    FirstRequest(s, req);
    assert evs[1..] == [grab, start, done, again];
    var s2 := DeliverNext(s1, evs[1..]);
    FirstGrab(s1, grab, k);
    assert evs[1..][1..] == [start, done, again];
    var s3 := DeliverNext(s2, [start, done, again]);
    FirstStart(s2, start, k);
    assert [start, done, again][1..] == [done, again];
    var s4 := DeliverNext(s3, [done, again]);
    EndsKeepCounting(s3, done);
    assert [done, again][1..] == [again];
    var s5 := DeliverNext(s4, [again]);
    EndsKeepCounting(s4, again);
    assert [again][1..] == [];
    NothingDelivered(s5);
  }
}
