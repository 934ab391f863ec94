/**
 * The race between a grab and the start of its download: whichever of the two arrives first, the
 * traces, the index, the timing, the gauges and every builder call come out the same.
 */
module DownloadRace {
  import opened Types
  import opened StoreSpec
  import opened SpanSpec
  import opened EngineSpec
  import opened StoreChanges
  import opened Bookkeeping
  import opened Dedup

  /** A state without its dedup memory and its parked entries: what the two orders must agree on. */
  function Core(s: State): State {
    s.(pending := map[], store := s.store.(dedup := map[], disk := s.store.disk.(dedup := map[])))
  }

  lemma SeenCore(s: State, source: string, id: string, now: Time)
    ensures Core(s.(store := SeenEvent(s.store, source, id, now))) == Core(s)
  {
  }

  lemma OpenTraceCore(s: State, ev: Event, attempt: int, link: Option<ID>, reason: string,
                      requestID: string, requestedBy: string)
    ensures Core(OpenTrace(s, ev, attempt, link, reason, requestID, requestedBy))
            == OpenTrace(Core(s), ev, attempt, link, reason, requestID, requestedBy)
  {
  }

  lemma GrabTargetCore(s: State, ev: Event)
    ensures GrabTarget(Core(s), ev).0 == GrabTarget(s, ev).0
    ensures Core(GrabTarget(s, ev).1) == GrabTarget(Core(s), ev).1
  {
    if Resolve(s.store.traces, ev.key).None? {
      var prior := Recalled(s.store, ev.key, ev.occurredAt);
      assert Recalled(Core(s).store, ev.key, ev.occurredAt) == prior;
      var s1 := Recall(s, ev.key, ev.occurredAt);
      assert Core(s1) == Recall(Core(s), ev.key, ev.occurredAt);
      OpenTraceCore(s1, ev, AttemptAfter(prior), LinkTo(prior), OrphanReason(prior, ev.release.isUpgrade), "", "");
    }
  }

  lemma SearchCore(s: State, k: MediaKey, at: Time)
    requires k in s.store.traces
    ensures Core(EmitSearch(s, k, at)) == EmitSearch(Core(s), k, at) && EmitSearch(s, k, at).store == s.store
  {
  }

  lemma SupersedeCore(s: State, k: MediaKey, at: Time)
    requires k in s.store.traces
    ensures var r := EndOpenGrab(s, k, at, false, ERR_SUPERSEDED);
            && k in r.store.traces && r.store.traces[k].key == s.store.traces[k].key
            && r.store.traces[k].hasDownload == s.store.traces[k].hasDownload
            && Core(r) == EndOpenGrab(Core(s), k, at, false, ERR_SUPERSEDED)
  {
    EndGrabCore(s, k, at, false, ERR_SUPERSEDED);
  }

  lemma EndGrabCore(s: State, k: MediaKey, at: Time, ok: bool, reason: string)
    requires k in s.store.traces
    ensures var r := EndGrab(s, k, at, ok, reason);
            && k in r.store.traces && r.store.traces[k].key == s.store.traces[k].key
            && Core(r) == EndGrab(Core(s), k, at, ok, reason)
  {
  }

  lemma BeginCore(s: State, k: MediaKey, name: string, at: Time, id: string)
    requires k in s.store.traces
    ensures var r := BeginGrab(s, k, name, at, id);
            && k in r.store.traces && r.store.traces[k].key == s.store.traces[k].key
            && r.store.traces[k].hasDownload == s.store.traces[k].hasDownload
            && (id != "" ==> r.store.traces[k].downloadID == id)
            && Core(r) == BeginGrab(Core(s), k, name, at, id)
  {
  }

  lemma SaveCore(s: State, k: MediaKey)
    requires k in s.store.traces
    ensures Core(Save(s, k)) == Save(Core(s), k)
  {
  }

  lemma TimeGrabCore(s: State, k: MediaKey, ev: Event)
    ensures Core(TimeGrab(s, k, ev)) == TimeGrab(Core(s), k, ev) && TimeGrab(s, k, ev).store == s.store
  {
  }

  lemma GrabCore(s: State, k: MediaKey, ev: Event)
    requires k in s.store.traces
    ensures Core(Grab(s, k, ev)) == Grab(Core(s), k, ev)
  {
    hide EmitSearch, EndOpenGrab, BeginGrab, Save, TimeGrab;
    var at := ev.occurredAt;
    SearchCore(s, k, at);
    var s1 := EmitSearch(s, k, at);
    SupersedeCore(s1, k, at);
    var s2 := EndOpenGrab(s1, k, at, false, ERR_SUPERSEDED);
    BeginCore(s2, k, GrabSpanName(ev.source), at, ev.release.downloadID);
    var s3 := BeginGrab(s2, k, GrabSpanName(ev.source), at, ev.release.downloadID);
    SaveCore(s3, k);
    TimeGrabCore(Save(s3, k), k, ev);
  }

  lemma DownloadStartCore(s: State, k: MediaKey, ev: Event)
    requires k in s.store.traces
    ensures Core(HandleDownloadStart(s, k, ev)) == HandleDownloadStart(Core(s), k, ev)
  {
    if !s.store.traces[k].hasDownload {
      var s1 := BeginDownload(s, k, ev.occurredAt);
      assert Core(s1) == BeginDownload(Core(s), k, ev.occurredAt);
      assert Core(Save(s1, k)) == Save(BeginDownload(Core(s), k, ev.occurredAt), k);
    }
  }

  /** The grab's ID resolves to the trace it landed on. */
  lemma GrabResolves(s: State, k: MediaKey, ev: Event)
    requires k in s.store.traces && s.store.traces[k].key == k && ev.release.downloadID != ""
    ensures ByDownloadID(Grab(s, k, ev).store, ev.release.downloadID) == Some(k)
  {
    hide EmitSearch, EndOpenGrab, BeginGrab, TimeGrab;
    var at := ev.occurredAt;
    SearchCore(s, k, at);
    var s1 := EmitSearch(s, k, at);
    SupersedeCore(s1, k, at);
    var s2 := EndOpenGrab(s1, k, at, false, ERR_SUPERSEDED);
    BeginCore(s2, k, GrabSpanName(ev.source), at, ev.release.downloadID);
    var s3 := BeginGrab(s2, k, GrabSpanName(ev.source), at, ev.release.downloadID);
    TimeGrabCore(Save(s3, k), k, ev);
    assert Save(s3, k).store.dlIndex[ev.release.downloadID] == k;
  }

  /** Both orders come down to this: the grab, then the start on the trace it landed on. */
  function GrabThenStart(s: State, grab: Event, start: Event): State {
    var (k, s1) := GrabTarget(s, grab);
    HandleDownloadStart(Grab(s1, k, grab), k, start)
  }

  lemma GrabThenStartCore(s: State, grab: Event, start: Event)
    ensures Core(GrabThenStart(s, grab, start)) == GrabThenStart(Core(s), grab, start)
  {
    var (k, s1) := GrabTarget(s, grab);
    GrabTargetCore(s, grab);
    GrabCore(s1, k, grab);
    DownloadStartCore(Grab(s1, k, grab), k, start);
  }

  /** The pair of events: a start and a grab for one non-empty download ID. */
  predicate Pair(grab: Event, start: Event) {
    && grab.phase.Grabbed? && start.phase.DownloadStart?
    && grab.release.downloadID == start.release.downloadID != ""
  }

  /** The grab finds the start parked and replays it. */
  lemma ParkedGrab(s: State, grab: Event, start: Event)
    requires Pair(grab, start) && ByDownloadID(s.store, start.release.downloadID).None?
    requires start.release.downloadID in s.pending && s.pending[start.release.downloadID].event == start
    ensures Core(OnGrabbed(s, grab)) == GrabThenStart(Core(s), grab, start)
  {
    var (k, s1) := GrabTarget(s, grab);
    hide Grab, HandleDownloadStart;
    GrabLive(s1, k, grab);
    var s2 := Grab(s1, k, grab);
    GrabBooks(s1, k, grab);
    assert s2.pending == s.pending;
    var s3 := s2.(pending := s2.pending - {grab.release.downloadID});
    assert OnGrabbed(s, grab) == HandleDownloadStart(s3, k, start);
    DownloadStartCore(s3, k, start);
    DownloadStartCore(s2, k, start);
    GrabThenStartCore(s, grab, start);
  }

  /** The grab comes first and the start finds its trace. */
  lemma GrabFirst(s: State, grab: Event, start: Event, s': State)
    requires Pair(grab, start) && Keyed(s.store.traces)
    requires start.release.downloadID !in s.pending
    requires Core(s') == Core(OnGrabbed(s, grab))
    ensures Core(OnDownloadStart(s', start)) == GrabThenStart(Core(s), grab, start)
  {
    hide Grab;
    var (k, s1) := GrabTarget(s, grab);
    var s2 := Grab(s1, k, grab);
    GrabBooks(s1, k, grab);
    assert OnGrabbed(s, grab) == s2;
    assert s1.store.traces[k].key == k;
    GrabResolves(s1, k, grab);
    assert ByDownloadID(s'.store, start.release.downloadID) == ByDownloadID(Core(s').store, start.release.downloadID);
    assert ByDownloadID(s2.store, start.release.downloadID) == ByDownloadID(Core(s2).store, start.release.downloadID);
    DownloadStartCore(s', k, start);
    DownloadStartCore(s2, k, start);
    GrabThenStartCore(s, grab, start);
  }

  /** Both events would be accepted, and they are not duplicates of each other. */
  predicate BothFresh(s: State, grab: Event, start: Event) {
    && Accepts(s.store, start.source, start.eventID, start.occurredAt)
    && Accepts(s.store, grab.source, grab.eventID, grab.occurredAt)
    && (start.eventID != "" || grab.eventID != "" ==>
          DedupKey(start.source, start.eventID) != DedupKey(grab.source, grab.eventID))
  }

  lemma StartParked(s: State, start: Event)
    requires start.phase.DownloadStart? && Accepts(s.store, start.source, start.eventID, start.occurredAt)
    requires ByDownloadID(s.store, start.release.downloadID).None?
    ensures Process(s, start)
            == Park(s.(store := SeenEvent(s.store, start.source, start.eventID, start.occurredAt)), start)
  {
    assert ByDownloadID(SeenEvent(s.store, start.source, start.eventID, start.occurredAt),
                        start.release.downloadID).None?;
  }

  lemma StartFirst(s: State, grab: Event, start: Event)
    requires Keyed(s.store.traces) && Pair(grab, start) && BothFresh(s, grab, start)
    requires ByDownloadID(s.store, start.release.downloadID).None?
    ensures Core(Process(Process(s, start), grab)) == GrabThenStart(Core(s), grab, start)
  {
    hide OnGrabbed, OnDownloadStart, GrabThenStart;
    StillAccepted(s, start, grab);
    StartParked(s, start);
    var a0 := s.(store := SeenEvent(s.store, start.source, start.eventID, start.occurredAt));
    var a1 := Process(s, start);
    var a2 := a1.(store := SeenEvent(a1.store, grab.source, grab.eventID, grab.occurredAt));
    SeenCore(s, start.source, start.eventID, start.occurredAt);
    SeenCore(a1, grab.source, grab.eventID, grab.occurredAt);
    assert Core(a2) == Core(s);
    ParkedGrab(a2, grab, start);
  }

  lemma GrabFirstRun(s: State, grab: Event, start: Event)
    requires Keyed(s.store.traces) && Pair(grab, start) && BothFresh(s, grab, start)
    requires start.release.downloadID !in s.pending
    ensures Core(Process(Process(s, grab), start)) == GrabThenStart(Core(s), grab, start)
  {
    hide OnGrabbed, OnDownloadStart, GrabThenStart;
    StillAccepted(s, grab, start);
    var b0 := s.(store := SeenEvent(s.store, grab.source, grab.eventID, grab.occurredAt));
    var b1 := Process(s, grab);
    assert b1 == OnGrabbed(b0, grab);
    SeenCore(s, grab.source, grab.eventID, grab.occurredAt);
    SeenCore(b1, start.source, start.eventID, start.occurredAt);
    GrabFirst(b0, grab, start, b1.(store := SeenEvent(b1.store, start.source, start.eventID, start.occurredAt)));
  }

  /**
   * Order independence: for two fresh events with one non-empty download ID that is neither parked
   * nor resolvable, start-then-grab and grab-then-start agree on everything but the dedup memory and
   * the parked entries, even if a download is already open on the trace.
   */
  lemma RaceIndependent(s: State, grab: Event, start: Event)
    requires Keyed(s.store.traces)
    requires Pair(grab, start) && start.release.downloadID !in s.pending
    requires ByDownloadID(s.store, start.release.downloadID).None?
    requires BothFresh(s, grab, start)
    ensures Core(Process(Process(s, start), grab)) == Core(Process(Process(s, grab), start))
  {
    hide Process, GrabThenStart;
    StartFirst(s, grab, start);
    GrabFirstRun(s, grab, start);
  }

  /** After the grab its ID resolves, so that the start is not parked. */
  lemma GrabResolvesNow(s: State, grab: Event)
    requires Keyed(s.store.traces) && grab.release.downloadID != "" && grab.release.downloadID !in s.pending
    ensures ByDownloadID(OnGrabbed(s, grab).store, grab.release.downloadID).Some?
  {
    hide Grab;
    TargetKept(s, grab);
    var (k, s1) := GrabTarget(s, grab);
    GrabLive(s1, k, grab);
    GrabBooks(s1, k, grab);
    GrabResolves(s1, k, grab);
  }

  lemma GrabFirstPending(s: State, grab: Event, start: Event)
    requires Keyed(s.store.traces) && BothFresh(s, grab, start)
    requires Pair(grab, start) && start.release.downloadID !in s.pending
    ensures Process(Process(s, grab), start).pending == s.pending
  {
    hide OnGrabbed;
    StepParked(s, Deliver(grab));
    var s1 := s.(store := SeenEvent(s.store, grab.source, grab.eventID, grab.occurredAt));
    assert Process(s, grab) == OnGrabbed(s1, grab);
    GrabResolvesNow(s1, grab);
    StepParked(Process(s, grab), Deliver(start));
    assert s.pending - {grab.release.downloadID} == s.pending;
  }

  /**
   * And neither order leaves the start parked. Of the other entries, start-first collects the expired ones;
   * grab-first leaves all.
   */
  lemma RacePending(s: State, grab: Event, start: Event)
    requires Keyed(s.store.traces) && BothFresh(s, grab, start)
    requires Pair(grab, start) && start.release.downloadID !in s.pending
    requires ByDownloadID(s.store, start.release.downloadID).None?
    ensures Process(Process(s, start), grab).pending
            == EngineSpec.Unexpired(s.pending, start.occurredAt - s.pendingTTL)
    ensures Process(Process(s, grab), start).pending == s.pending
  {
    hide Process;
    StillAccepted(s, start, grab);
    StepParked(s, Deliver(start));
    StepParked(Process(s, start), Deliver(grab));
    GrabFirstPending(s, grab, start);
    var id := start.release.downloadID;
    var left := EngineSpec.Unexpired(s.pending, start.occurredAt - s.pendingTTL);
    assert id !in left;
    assert left[id := Parked(start, start.occurredAt)] - {id} == left;
  }

  /** A start handled on the live trace at `k`: it opens the download, unless one is open. */
  lemma StartLands(s: State, k: MediaKey, start: Event)
    requires k in s.store.traces && s.store.traces[k].key == k
    ensures var r := HandleDownloadStart(s, k, start); var t := s.store.traces[k];
            && k in r.store.traces && r.store.traces[k].hasDownload && r.store.traces[k].downloadID == t.downloadID
            && (if t.hasDownload then r.spans == s.spans && r.store.traces[k] == t
                else r.store.traces[k].downloadStartedAt == start.occurredAt
                     && r.spans.log == s.spans.log
                                     + [ChildOpened(CtxOf(s, k), s.spans.next, SPAN_DOWNLOAD, start.occurredAt)])
  {
  }

  lemma GrabGivesID(s: State, k: MediaKey, ev: Event)
    requires k in s.store.traces && s.store.traces[k].key == k && ev.release.downloadID != ""
    ensures var r := Grab(s, k, ev).store;
            k in r.traces && r.traces[k].key == k && r.traces[k].downloadID == ev.release.downloadID
            && r.traces[k].hasDownload == s.store.traces[k].hasDownload
  {
    hide EmitSearch, TimeGrab, BeginGrab, EndOpenGrab, Put;
    SearchCore(s, k, ev.occurredAt);
    var s1 := EmitSearch(s, k, ev.occurredAt);
    SupersedeCore(s1, k, ev.occurredAt);
    var s2 := EndOpenGrab(s1, k, ev.occurredAt, false, ERR_SUPERSEDED);
    BeginCore(s2, k, GrabSpanName(ev.source), ev.occurredAt, ev.release.downloadID);
    var s3 := BeginGrab(s2, k, GrabSpanName(ev.source), ev.occurredAt, ev.release.downloadID);
    PutTraces(s3.store, s3.store.traces[k]);
    TimeGrabCore(Save(s3, k), k, ev);
  }

  /**
   * A replay lands in the trace of the grab, which carries the same ID: that trace ends with an open
   * download, and if it had none the download's span starts when the parked start occurred.
   */
  lemma ReplayLands(s: State, ev: Event)
    requires Keyed(s.store.traces) && Replays(s, Deliver(ev), ev.release.downloadID)
    ensures var s1 := s.(store := SeenEvent(s.store, ev.source, ev.eventID, ev.occurredAt));
            var (k, target) := GrabTarget(s1, ev); var r := Process(s, ev);
            var start := s.pending[ev.release.downloadID].event;
            && k in r.store.traces && r.store.traces[k].downloadID == ev.release.downloadID
            && r.store.traces[k].hasDownload
            && ev.release.downloadID !in r.pending
            && (k in target.store.traces && !target.store.traces[k].hasDownload ==>
                  && r.store.traces[k].downloadStartedAt == start.occurredAt
                  && r.spans.log != [] && r.spans.log[|r.spans.log| - 1].ChildOpened?
                  && r.spans.log[|r.spans.log| - 1].name == SPAN_DOWNLOAD
                  && r.spans.log[|r.spans.log| - 1].start == start.occurredAt)
  {
    hide OnGrabbed, GrabTarget;
    var s1 := s.(store := SeenEvent(s.store, ev.source, ev.eventID, ev.occurredAt));
    assert Process(s, ev) == OnGrabbed(s1, ev);
    GrabReplays(s1, ev);
    StepParked(s, Deliver(ev));
  }

  lemma TargetKept(s: State, ev: Event)
    requires Keyed(s.store.traces)
    ensures var (k, r) := GrabTarget(s, ev);
            k in r.store.traces && r.store.traces[k].key == k && r.pending == s.pending
  {
  }

  lemma GrabReplays(s: State, ev: Event)
    requires Keyed(s.store.traces) && ev.release.downloadID != "" && ev.release.downloadID in s.pending
    ensures var (k, target) := GrabTarget(s, ev); var r := OnGrabbed(s, ev);
            var start := s.pending[ev.release.downloadID].event;
            && k in r.store.traces && r.store.traces[k].downloadID == ev.release.downloadID
            && r.store.traces[k].hasDownload
            && (k in target.store.traces && !target.store.traces[k].hasDownload ==>
                  && r.store.traces[k].downloadStartedAt == start.occurredAt
                  && r.spans.log != [] && r.spans.log[|r.spans.log| - 1].ChildOpened?
                  && r.spans.log[|r.spans.log| - 1].name == SPAN_DOWNLOAD
                  && r.spans.log[|r.spans.log| - 1].start == start.occurredAt)
  {
    hide Grab, HandleDownloadStart, GrabTarget;
    var id := ev.release.downloadID;
    TargetKept(s, ev);
    var (k, s2) := GrabTarget(s, ev);
    GrabGivesID(s2, k, ev);
    GrabBooks(s2, k, ev);
    var s3 := Grab(s2, k, ev);
    StartLands(s3.(pending := s3.pending - {id}), k, s.pending[id].event);
  }
}
