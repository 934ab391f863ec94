/**
 * What each engine call does to the live traces' update times and download IDs and to the index, in closed form:
 * nothing, or one trace saved, or some traces ended.
 */
module StepEffects {
  import opened Types
  import opened StoreSpec
  import opened SpanSpec
  import opened EngineSpec
  import opened StoreChanges
  import opened CrashRecovery
  import opened SweepOrder

  /** What is followed of a live trace. */
  datatype Mark = Mark(updatedAt: Time, downloadID: string, source: string, searchStart: Time)

  function MarkOf(t: Trace): Mark {
    Mark(t.updatedAt, t.downloadID, t.source, t.searchStart)
  }

  /** The mark of a trace that the event opens. */
  function NewMark(ev: Event): Mark {
    Mark(ev.occurredAt, "", ev.source, ev.occurredAt)
  }

  function Marks(traces: map<MediaKey, Trace>): map<MediaKey, Mark> {
    map k | k in traces :: MarkOf(traces[k])
  }

  datatype Effect =
    | Nothing
    | Saved(k: MediaKey, mark: Mark)
    | Ended(keys: set<MediaKey>)

  /** The store has taken the effect. */
  ghost predicate Takes(st: StoreState, e: Effect, st': StoreState) {
    match e
    case Nothing => Marks(st'.traces) == Marks(st.traces) && st'.dlIndex == st.dlIndex
    case Saved(k, m) =>
      && Marks(st'.traces) == Marks(st.traces)[k := m]
      && st'.dlIndex == (if m.downloadID == "" then st.dlIndex else st.dlIndex[m.downloadID := k])
    case Ended(keys) =>
      && Marks(st'.traces) == Marks(st.traces) - keys
      && st'.dlIndex == st.dlIndex - IDsOf(st.traces, keys)
  }

  // ---------- saving and ending one trace ----------

  lemma MarksWith(traces: map<MediaKey, Trace>, k: MediaKey, t: Trace)
    ensures Marks(traces[k := t]) == Marks(traces)[k := MarkOf(t)]
  {
  }

  lemma PutTakes(st: StoreState, t: Trace)
    ensures Takes(st, Saved(t.key, MarkOf(t)), Put(st, t))
  {
    MarksWith(st.traces, t.key, t);
  }

  lemma SaveTakes(s: State, k: MediaKey, s1: State)
    requires Keyed(s.store.traces) && Edited(s, k, s1)
    ensures Takes(s.store, Saved(k, MarkOf(s1.store.traces[k])), Save(s1, k).store)
  {
    hide Put;
    var u := s1.store.traces[k];
    PutTakes(s.store, u);
    assert Put(s1.store, u) == Put(s.store, u) by { PutOver(s.store, k, u); }
  }

  lemma PutOver(st: StoreState, k: MediaKey, u: Trace)
    requires u.key == k
    ensures Put(SetTrace(st, k, u), u) == Put(st, u)
  {
    assert st.traces[k := u][k := u] == st.traces[k := u];
  }

  lemma EndTakes(s: State, k: MediaKey, s1: State, at: Time, ok: bool, reason: string, outcome: Outcome)
    requires Edited(s, k, s1) && s1.store.traces[k].downloadID == s.store.traces[k].downloadID
    ensures Takes(s.store, Ended({k}), CloseTrace(s1, k, at, ok, reason, outcome).store)
  {
    hide StoreSpec.Delete, StoreSpec.RememberClosed;
    var t := s1.store.traces[k];
    DeleteTraces(s1.store, k);
    DeleteKeeps(s1.store, k);
    RememberKeeps(Delete(s1.store, k), k, ClosedTrace(t.traceID, t.attempt, outcome, at));
    assert s1.store.traces - {k} == s.store.traces - {k};
    MarksWithout(s.store.traces, {k});
    OneID(s.store.traces, k);
  }

  lemma MarksWithout(traces: map<MediaKey, Trace>, keys: set<MediaKey>)
    ensures Marks(traces - keys) == Marks(traces) - keys
  {
  }

  lemma OneID(traces: map<MediaKey, Trace>, k: MediaKey)
    requires k in traces
    ensures IDsOf(traces, {k}) == if traces[k].downloadID == "" then {} else {traces[k].downloadID}
  {
  }

  /** Two savings of one trace, the second under the same ID, unless the first had none. */
  lemma SavedTwice(st: StoreState, k: MediaKey, m: Mark, st1: StoreState, n: Mark, st2: StoreState)
    requires Takes(st, Saved(k, m), st1) && Takes(st1, Saved(k, n), st2)
    requires m.downloadID == "" || m.downloadID == n.downloadID
    ensures Takes(st, Saved(k, n), st2)
  {
    assert Marks(st.traces)[k := m][k := n] == Marks(st.traces)[k := n];
  }

  lemma SavedThenEnded(st: StoreState, k: MediaKey, m: Mark, st1: StoreState, st2: StoreState)
    requires k in st.traces && m.downloadID == st.traces[k].downloadID
    requires Takes(st, Saved(k, m), st1) && k in st1.traces && Takes(st1, Ended({k}), st2)
    ensures Takes(st, Ended({k}), st2)
  {
    assert Marks(st1.traces)[k] == m;
    OneID(st.traces, k);
    OneID(st1.traces, k);
    assert Marks(st.traces)[k := m] - {k} == Marks(st.traces) - {k};
  }

  // ---------- the effect of an event ----------

  function Resave(s: State, k: MediaKey, at: Time): Effect
    requires k in s.store.traces
  {
    Saved(k, MarkOf(s.store.traces[k]).(updatedAt := at))
  }

  /** The grab finds its start parked and opens the download. */
  predicate ReplaysInto(s: State, k: MediaKey, id: string) {
    id != "" && id in s.pending && (k in s.store.traces ==> !s.store.traces[k].hasDownload)
  }

  function GrabEffect(s: State, ev: Event): Effect {
    var k, id := LandsOn(s.store.traces, ev.key), ev.release.downloadID;
    var before := if k in s.store.traces then MarkOf(s.store.traces[k]) else NewMark(ev);
    Saved(k, Mark(if ReplaysInto(s, k, id) then s.pending[id].event.occurredAt else ev.occurredAt,
                  if id != "" then id else before.downloadID, before.source, before.searchStart))
  }

  function EffectOf(s: State, ev: Event): Effect {
    var resolved, found := Resolve(s.store.traces, ev.key), ByDownloadID(s.store, ev.release.downloadID);
    match ev.phase
    case RequestOpened =>
      if resolved.Some? then Nothing else Saved(ev.key, NewMark(ev))
    case RequestApproved =>
      if resolved.None? then Nothing
      else Saved(resolved.value, MarkOf(s.store.traces[resolved.value])
                                   .(updatedAt := ev.occurredAt, searchStart := ev.occurredAt))
    case RequestClosed => if resolved.None? then Nothing else Ended({resolved.value})
    case Grabbed => GrabEffect(s, ev)
    case DownloadStart =>
      if found.None? || s.store.traces[found.value].hasDownload then Nothing
      else Resave(s, found.value, ev.occurredAt)
    case DownloadDone => if found.None? then Nothing else Resave(s, found.value, ev.occurredAt)
    case Imported =>
      if resolved.None? then Nothing
      else if s.store.traces[resolved.value].source in [SOURCE_SONARR, SOURCE_RADARR] then Ended({resolved.value})
      else Resave(s, resolved.value, ev.occurredAt)
    case ManualNeeded => if resolved.None? then Nothing else Resave(s, resolved.value, ev.occurredAt)
    case OtherPhase(_) => Nothing
  }

  // ---------- one lemma a handler ----------

  lemma OpenTakes(s: State, ev: Event, reason: string, requestID: string, requestedBy: string)
    ensures var prior := Recalled(s.store, ev.key, ev.occurredAt);
            var r := OpenTrace(Recall(s, ev.key, ev.occurredAt), ev, AttemptAfter(prior), LinkTo(prior), reason,
                               requestID, requestedBy);
            && Takes(s.store, Saved(ev.key, NewMark(ev)), r.store)
            && r.pending == s.pending && ev.key in r.store.traces
            && r.store.traces == s.store.traces[ev.key := r.store.traces[ev.key]]
            && r.store.traces[ev.key].key == ev.key && !r.store.traces[ev.key].hasDownload
            && MarkOf(r.store.traces[ev.key]) == NewMark(ev)
  {
    hide Put, Takes;
    var prior, id := Recalled(s.store, ev.key, ev.occurredAt), s.spans.next;
    var t := Trace(ev.key, id, id, AttemptAfter(prior), ev.source, ev.occurredAt, ev.occurredAt,
                   0, false, 0, false, ev.occurredAt, ZERO_TIME, "", "", ev.title, requestID, requestedBy, false);
    var st1 := Recall(s, ev.key, ev.occurredAt).store;
    PutTakes(st1, t);
    PutTraces(st1, t);
    TakesOnSame(s.store, st1, Saved(ev.key, MarkOf(t)), Put(st1, t));
  }

  lemma TakesOnSame(st: StoreState, st1: StoreState, e: Effect, st2: StoreState)
    requires st1.traces == st.traces && st1.dlIndex == st.dlIndex
    ensures Takes(st, e, st2) <==> Takes(st1, e, st2)
  {
  }

  lemma RequestOpenedTakes(s: State, ev: Event)
    requires ev.phase.RequestOpened?
    ensures Takes(s.store, EffectOf(s, ev), OnRequestOpened(s, ev).store)
  {
    hide OpenTrace;
    OpenTakes(s, ev, RequestReason(Recalled(s.store, ev.key, ev.occurredAt)), ev.requestID, ev.requestedBy);
  }

  lemma AmendTakes(s: State, k: MediaKey, u: Trace)
    requires Keyed(s.store.traces) && k in s.store.traces && Continues(s.store.traces[k], u)
    ensures Takes(s.store, Saved(k, MarkOf(u)), Save(Amend(s, k, u), k).store)
  {
    hide Put, Takes;
    SaveTakes(s, k, Amend(s, k, u));
  }

  lemma NoticeTakes(s: State, ev: Event)
    requires Keyed(s.store.traces)
    ensures ev.phase.RequestApproved? ==> Takes(s.store, EffectOf(s, ev), OnRequestApproved(s, ev).store)
    ensures ev.phase.ManualNeeded? ==> Takes(s.store, EffectOf(s, ev), OnManualNeeded(s, ev).store)
  {
    hide Put;
    if Resolve(s.store.traces, ev.key).Some? {
      var k := Resolve(s.store.traces, ev.key).value;
      var t := s.store.traces[k];
      AmendTakes(s, k, t.(searchStart := ev.occurredAt, updatedAt := ev.occurredAt));
      AmendTakes(s, k, t.(lastError := ERR_MANUAL, updatedAt := ev.occurredAt));
    }
  }

  lemma RequestClosedTakes(s: State, ev: Event)
    requires Keyed(s.store.traces) && ev.phase.RequestClosed?
    ensures Takes(s.store, EffectOf(s, ev), OnRequestClosed(s, ev).store)
  {
    hide EndChildren, CloseTrace, Takes;
    if Resolve(s.store.traces, ev.key).Some? {
      var k, at := Resolve(s.store.traces, ev.key).value, ev.occurredAt;
      EndChildrenEdits(s, k, at, true, "");
      EndTakes(s, k, EndChildren(s, k, at, true, ""), at, ev.outcome.Available?, ev.errorReason, ev.outcome);
    } else {
      Untouched(s.store);
    }
  }

  lemma Untouched(st: StoreState)
    ensures Takes(st, Nothing, st)
  {
  }

  lemma StartTakes(s: State, k: MediaKey, ev: Event)
    requires Keyed(s.store.traces) && k in s.store.traces
    ensures Takes(s.store, if s.store.traces[k].hasDownload then Nothing else Resave(s, k, ev.occurredAt),
                  HandleDownloadStart(s, k, ev).store)
  {
    hide Put, Takes;
    Untouched(s.store);
    if !s.store.traces[k].hasDownload { SaveTakes(s, k, BeginDownload(s, k, ev.occurredAt)); }
  }

  lemma DownloadStartTakes(s: State, ev: Event)
    requires Keyed(s.store.traces) && ev.phase.DownloadStart?
    ensures Takes(s.store, EffectOf(s, ev), OnDownloadStart(s, ev).store)
  {
    hide HandleDownloadStart, Takes;
    Untouched(s.store);
    var found := ByDownloadID(s.store, ev.release.downloadID);
    if found.Some? { StartTakes(s, found.value, ev); }
  }

  lemma DownloadDoneTakes(s: State, ev: Event)
    requires Keyed(s.store.traces) && ev.phase.DownloadDone?
    ensures Takes(s.store, EffectOf(s, ev), OnDownloadDone(s, ev).store)
  {
    hide EndDownload, EmitUnder, Touch, Put, Takes;
    Untouched(s.store);
    if ByDownloadID(s.store, ev.release.downloadID).Some? {
      var k, at := ByDownloadID(s.store, ev.release.downloadID).value, ev.occurredAt;
      var s1 := if s.store.traces[k].hasDownload then EndDownload(s, k, at, ev.errorReason == "", ev.errorReason)
                else EmitUnder(s, k, SPAN_DOWNLOAD, at, at);
      DownloadDoneEdits(s, k, at, ev.errorReason == "", ev.errorReason);
      SaveTakes(s, k, Touch(s1, k, at));
    }
  }

  lemma ImportTakes(s: State, k: MediaKey, ev: Event)
    requires Keyed(s.store.traces) && k in s.store.traces
    ensures var r := Import(s, k, ev);
            && Takes(s.store, Resave(s, k, ev.occurredAt), r.store)
            && k in r.store.traces
            && MarkOf(r.store.traces[k]) == MarkOf(s.store.traces[k]).(updatedAt := ev.occurredAt)
  {
    hide EndOpenDownload, EndOpenGrab, Put, Takes;
    var at := ev.occurredAt;
    EndDownloadEdits(s, k, at, true, "");
    var s1 := EndOpenDownload(s, k, at, true, "");
    var s2 := EmitUnder(s1, k, ImportSpanName(ev.source), Earlier(s1.store.traces[k].updatedAt, at), at);
    EndGrabEdits(s2, k, at, true, "");
    var s4 := Touch(EndOpenGrab(s2, k, at, true, ""), k, at);
    assert s4.store.traces == s.store.traces[k := s4.store.traces[k]];
    SaveTakes(s, k, s4);
    PutTraces(s4.store, s4.store.traces[k]);
  }

  lemma ImportedTakes(s: State, ev: Event)
    requires Keyed(s.store.traces) && ev.phase.Imported?
    ensures Takes(s.store, EffectOf(s, ev), OnImported(s, ev).store)
  {
    hide Import, CloseTrace, Takes;
    Untouched(s.store);
    if Resolve(s.store.traces, ev.key).Some? {
      var k := Resolve(s.store.traces, ev.key).value;
      ImportTakes(s, k, ev);
      var s1 := Import(s, k, ev);
      assert s1.store.traces[k := s1.store.traces[k]] == s1.store.traces;
      EndTakes(s1, k, s1, ev.occurredAt, true, "", Available);
      if s.store.traces[k].source in [SOURCE_SONARR, SOURCE_RADARR] {
        SavedThenEnded(s.store, k, MarkOf(s.store.traces[k]).(updatedAt := ev.occurredAt), s1.store,
                       OnImported(s, ev).store);
      }
    }
  }

  lemma GrabOnTakes(s: State, k: MediaKey, ev: Event)
    requires Keyed(s.store.traces) && k in s.store.traces
    ensures var r := Grab(s, k, ev); var t := s.store.traces[k];
            var id := if ev.release.downloadID != "" then ev.release.downloadID else t.downloadID;
            && Takes(s.store, Saved(k, Mark(ev.occurredAt, id, t.source, t.searchStart)), r.store)
            && k in r.store.traces && Keyed(r.store.traces) && r.pending == s.pending
            && r.store.traces[k].hasDownload == t.hasDownload
            && MarkOf(r.store.traces[k]) == Mark(ev.occurredAt, id, t.source, t.searchStart)
  {
    hide EndOpenGrab, EmitSearch, BeginGrab, Put, Takes, TimeGrab;
    GrabEdits(s, k, ev);
    GrabUpdates(s, k, ev);
    var s3 := Regrabbing(s, k, ev);
    SaveTakes(s, k, s3);
    PutTraces(s3.store, s3.store.traces[k]);
    TimeGrabKeeps(Save(s3, k), k, ev);
  }

  lemma TimeGrabKeeps(s: State, k: MediaKey, ev: Event)
    ensures TimeGrab(s, k, ev).store == s.store && TimeGrab(s, k, ev).pending == s.pending
  {
  }

  lemma GrabUpdates(s: State, k: MediaKey, ev: Event)
    requires k in s.store.traces
    ensures var r := Regrabbing(s, k, ev);
            && k in r.store.traces && r.store.traces[k].updatedAt == ev.occurredAt && r.pending == s.pending
            && r.store.traces[k].searchStart == s.store.traces[k].searchStart
            && r.store.traces[k].hasDownload == s.store.traces[k].hasDownload
  {
    hide EmitSearch, EndOpenGrab, OpenChild;
    SearchKeeps(s, k, ev.occurredAt);
    var s1 := EmitSearch(s, k, ev.occurredAt);
    EndGrabEdits(s1, k, ev.occurredAt, false, ERR_SUPERSEDED);
    EndGrabKeeps(s1, k, ev.occurredAt);
  }

  lemma EndGrabKeeps(s: State, k: MediaKey, at: Time)
    requires k in s.store.traces
    ensures EndOpenGrab(s, k, at, false, ERR_SUPERSEDED).pending == s.pending
  {
  }

  lemma TargetTakes(s: State, ev: Event)
    requires Keyed(s.store.traces)
    ensures var (k, s1) := GrabTarget(s, ev);
            && k == LandsOn(s.store.traces, ev.key) && k in s1.store.traces && Keyed(s1.store.traces)
            && s1.pending == s.pending
            && (if k in s.store.traces then s1 == s
                else && Takes(s.store, Saved(k, NewMark(ev)), s1.store)
                     && MarkOf(s1.store.traces[k]) == NewMark(ev)
                     && !s1.store.traces[k].hasDownload)
  {
    hide Takes, OpenTrace;
    OpenTakes(s, ev, OrphanReason(Recalled(s.store, ev.key, ev.occurredAt), ev.release.isUpgrade), "", "");
  }

  lemma GrabbedTakes(s: State, ev: Event)
    requires Keyed(s.store.traces)
    ensures Takes(s.store, GrabEffect(s, ev), OnGrabbed(s, ev).store)
  {
    hide GrabTarget, Grab, HandleDownloadStart, Takes, LandsOn;
    TargetTakes(s, ev);
    var (k, s1) := GrabTarget(s, ev);
    GrabOnTakes(s1, k, ev);
    var s2, id, m := Grab(s1, k, ev), ev.release.downloadID, MarkOf(Grab(s1, k, ev).store.traces[k]);
    if k !in s.store.traces {
      SavedTwice(s.store, k, NewMark(ev), s1.store, m, s2.store);
    }
    if id != "" && id in s2.pending {
      var start, s3 := s2.pending[id].event, s2.(pending := s2.pending - {id});
      StartTakes(s3, k, start);
      if !s2.store.traces[k].hasDownload {
        SavedTwice(s.store, k, m, s2.store, m.(updatedAt := start.occurredAt), OnGrabbed(s, ev).store);
      } else {
        SavedThenNothing(s.store, Saved(k, m), s2.store, OnGrabbed(s, ev).store);
      }
    }
  }

  lemma SavedThenNothing(st: StoreState, e: Effect, st1: StoreState, st2: StoreState)
    requires Takes(st, e, st1) && Takes(st1, Nothing, st2)
    ensures Takes(st, e, st2)
  {
  }

  lemma HandleTakes(s: State, ev: Event)
    requires Keyed(s.store.traces)
    ensures Takes(s.store, EffectOf(s, ev), Handle(s, ev).store)
  {
    hide OnRequestOpened, OnRequestApproved, OnRequestClosed, OnGrabbed, OnDownloadStart, OnDownloadDone,
      OnImported, OnManualNeeded, Takes, Resave, GrabEffect, ByDownloadID, Resolve;
    Untouched(s.store);
    match ev.phase
    case RequestOpened => RequestOpenedTakes(s, ev);
    case RequestApproved => NoticeTakes(s, ev);
    case RequestClosed => RequestClosedTakes(s, ev);
    case Grabbed => GrabbedTakes(s, ev);
    case DownloadStart => DownloadStartTakes(s, ev);
    case DownloadDone => DownloadDoneTakes(s, ev);
    case Imported => ImportedTakes(s, ev);
    case ManualNeeded => NoticeTakes(s, ev);
    case OtherPhase(_) =>
  }

  // ---------- the effect of a step ----------

  function StepEffect(s: State, a: Action): Effect {
    match a
    case Deliver(ev) =>
      if Accepts(s.store, ev.source, ev.eventID, ev.occurredAt) then EffectOf(s, ev) else Nothing
    case QueueIssue(id, _, when) =>
      (match ByDownloadID(s.store, id) case None => Nothing case Some(k) => Resave(s, k, when))
    case SweepAt(now, ttl, _) => Ended(StaleKeys(s.store, ttl, now))
    case Restart(_, _) => Nothing
  }

  lemma QueueTakes(s: State, id: string, status: string, when: Time)
    requires Keyed(s.store.traces)
    ensures Takes(s.store, StepEffect(s, QueueIssue(id, status, when)), NoteQueueIssue(s, id, status, when).store)
  {
    hide Put, Takes;
    Untouched(s.store);
    if ByDownloadID(s.store, id).Some? {
      var k := ByDownloadID(s.store, id).value;
      AmendTakes(s, k, s.store.traces[k].(lastError := "arr.queue_" + status, updatedAt := when));
    }
  }

  lemma SweepTakes(s: State, a: Action)
    requires a.SweepAt? && Enabled(s, a)
    ensures Takes(s.store, StepEffect(s, a), Step(s, a).store)
  {
    hide Sweep;
    SweepSwept(s, a.order, a.now);
    assert AsSet(a.order) == StaleKeys(s.store, a.ttl, a.now);
    MarksWithout(s.store.traces, AsSet(a.order));
  }

  lemma SeenEffect(s: State, ev: Event)
    ensures var s1 := s.(store := SeenEvent(s.store, ev.source, ev.eventID, ev.occurredAt));
            && EffectOf(s1, ev) == EffectOf(s, ev)
            && s1.store.traces == s.store.traces && s1.store.dlIndex == s.store.dlIndex
  {
    hide SeenEvent;
    SeenKeeps(s.store, ev);
  }

  /** Every step of a process takes its effect, and no other. */
  lemma StepTakes(s: State, a: Action)
    requires Keyed(s.store.traces) && Enabled(s, a) && !a.Restart?
    ensures Takes(s.store, StepEffect(s, a), Step(s, a).store)
  {
    hide Handle, NoteQueueIssue, Takes, EffectOf;
    match a
    case Deliver(ev) =>
      var s1 := s.(store := SeenEvent(s.store, ev.source, ev.eventID, ev.occurredAt));
      SeenEffect(s, ev);
      Untouched(s.store);
      TakesOnSame(s.store, s1.store, EffectOf(s, ev), Process(s, ev).store);
      TakesOnSame(s.store, s1.store, Nothing, s1.store);
      Untouched(s1.store);
      HandleTakes(s1, ev);
    case QueueIssue(id, status, when) => QueueTakes(s, id, status, when);
    case SweepAt(_, _, _) => SweepTakes(s, a);
  }

  /** A restart leaves what is followed of the live traces; the index it makes depends on the order. */
  lemma RestartMarks(s: State, a: Action)
    requires TracesSynced(s.store) && Enabled(s, a) && a.Restart?
    ensures Marks(Step(s, a).store.traces) == Marks(s.store.traces)
  {
    hide Step, TracesMirrored;
    RestartRestoresTraces(s, a.reopened, a.order);
  }
}
