/**
 * Over every run, restarts included, the engine keeps the span protocol: the monitor of the builder
 * calls never finds a broken rule, and what it knows to be open is exactly what the engine's tables
 * name. If the times given are nondecreasing, no completed span ends before it starts.
 */
module SpanDiscipline {
  import opened Types
  import opened StoreSpec
  import opened SpanSpec
  import opened EngineSpec
  import opened StoreChanges
  import opened SpanMonitor
  import opened CallLists
  import opened CrashRecovery
  import opened Bookkeeping

  ghost predicate Sound(s: State) {
    Agrees(s.store.traces, s.ctx, s.spans)
  }

  ghost predicate InTime(s: State, now: Time) {
    OnTime(Watch(s.spans.log), now)
  }

  /** What a move at time `now` must do: keep the protocol, and keep to the clock. */
  ghost predicate Fine(s: State, s': State, now: Time) {
    Sound(s') && (InTime(s, now) ==> InTime(s', now))
  }

  lemma SoundLinked(s: State, k: MediaKey)
    requires Sound(s) && k in s.store.traces
    ensures k in s.ctx && s.store.traces[k].key == k
    ensures forall now :: InTime(s, now) ==> s.store.traces[k].openedAt <= now
    ensures forall id :: Owns(s.store.traces[k], id) ==> id != 0
  {
    var m := Watch(s.spans.log);
    assert Linked(k, s.store.traces[k], s.ctx, m.roots) && Parents(s.store.traces[k], m.kids);
  }

  // ---------- moves ----------

  lemma EndDownloadFine(s: State, k: MediaKey, now: Time, ok: bool, reason: string)
    requires Sound(s) && k in s.store.traces
    ensures Fine(s, EndOpenDownload(s, k, now, ok, reason), now)
  {
    hide Agrees, OnTime;
    var t := s.store.traces[k];
    if t.hasDownload {
      SoundLinked(s, k);
      CloseChildAgrees(s.store.traces, s.ctx, s.spans, k, t.(hasDownload := false), t.downloadSpanID, now, ok, reason);
      if InTime(s, now) { RecordOnTime(s.spans.log, Closed(s.ctx[k], t.downloadSpanID, now, ok, reason), now); }
    }
  }

  lemma EndGrabFine(s: State, k: MediaKey, now: Time, ok: bool, reason: string)
    requires Sound(s) && k in s.store.traces
    ensures Fine(s, EndOpenGrab(s, k, now, ok, reason), now)
  {
    hide Agrees, OnTime;
    var t := s.store.traces[k];
    if t.hasGrab {
      SoundLinked(s, k);
      CloseChildAgrees(s.store.traces, s.ctx, s.spans, k, t.(hasGrab := false), t.grabSpanID, now, ok, reason);
      if InTime(s, now) { RecordOnTime(s.spans.log, Closed(s.ctx[k], t.grabSpanID, now, ok, reason), now); }
    }
  }

  lemma EndChildrenFine(s: State, k: MediaKey, now: Time, ok: bool, reason: string)
    requires Sound(s) && k in s.store.traces
    ensures Fine(s, EndChildren(s, k, now, ok, reason), now)
  {
    EndDownloadFine(s, k, now, ok, reason);
    EndGrabFine(EndOpenDownload(s, k, now, ok, reason), k, now, ok, reason);
  }

  lemma BeginGrabFine(s: State, k: MediaKey, name: string, now: Time, downloadID: string)
    requires Sound(s) && k in s.store.traces && !s.store.traces[k].hasGrab
    ensures Fine(s, BeginGrab(s, k, name, now, downloadID), now)
  {
    SoundLinked(s, k);
    var u := BeginGrab(s, k, name, now, downloadID).store.traces[k];
    OpenChildAgrees(s.store.traces, s.ctx, s.spans, k, u, name, now);
    if InTime(s, now) { RecordOnTime(s.spans.log, ChildOpened(s.ctx[k], s.spans.next, name, now), now); }
  }

  /** A download may be replayed with an earlier start than `now`. */
  lemma BeginDownloadFine(s: State, k: MediaKey, start: Time, now: Time)
    requires Sound(s) && k in s.store.traces && !s.store.traces[k].hasDownload && start <= now
    ensures Fine(s, BeginDownload(s, k, start), now)
  {
    SoundLinked(s, k);
    var u := BeginDownload(s, k, start).store.traces[k];
    OpenChildAgrees(s.store.traces, s.ctx, s.spans, k, u, SPAN_DOWNLOAD, start);
    if InTime(s, now) { RecordOnTime(s.spans.log, ChildOpened(s.ctx[k], s.spans.next, SPAN_DOWNLOAD, start), now); }
  }

  lemma AmendFine(s: State, k: MediaKey, u: Trace, now: Time)
    requires Sound(s) && k in s.store.traces
    requires SameRoot(s.store.traces[k], u) && SameGrab(s.store.traces[k], u) && SameDownload(s.store.traces[k], u)
    ensures Fine(s, Amend(s, k, u), now)
  {
    AmendAgrees(s.store.traces, s.ctx, s.spans, k, u);
  }

  lemma SaveFine(s: State, k: MediaKey, now: Time)
    requires Sound(s) && k in s.store.traces
    ensures Fine(s, Save(s, k), now)
    ensures Save(s, k).store.traces == s.store.traces
  {
    hide Agrees, OnTime;
    SoundLinked(s, k);
    assert s.store.traces[k := s.store.traces[k]] == s.store.traces;
  }

  lemma EmitFine(s: State, k: MediaKey, name: string, start: Time, end: Time, now: Time)
    requires Sound(s) && k in s.store.traces && start <= end
    ensures Fine(s, EmitUnder(s, k, name, start, end), now)
  {
    SoundLinked(s, k);
    SyntheticAgrees(s.store.traces, s.ctx, s.spans, k, name, start, end);
    if InTime(s, now) { RecordOnTime(s.spans.log, Synthetic(s.ctx[k], name, start, end, None, ""), now); }
  }

  lemma NoticeFine(s: State, k: MediaKey, id: ID, name: string, when: Time, now: Time)
    requires Sound(s) && k in s.store.traces && (id == 0 || Owns(s.store.traces[k], id))
    ensures Fine(s, AnnotateUnder(s, k, id, name, when), now)
  {
    SoundLinked(s, k);
    AnnotateAgrees(s.store.traces, s.ctx, s.spans, k, id, name, when);
    if InTime(s, now) { RecordOnTime(s.spans.log, Annotated(s.ctx[k], id, name, when), now); }
  }

  lemma OpenTraceFine(s: State, ev: Event, attempt: int, link: Option<ID>, reason: string,
                      requestID: string, requestedBy: string)
    requires Sound(s) && Resolve(s.store.traces, ev.key).None?
    ensures Fine(s, OpenTrace(s, ev, attempt, link, reason, requestID, requestedBy), ev.occurredAt)
  {
    var s' := OpenTrace(s, ev, attempt, link, reason, requestID, requestedBy);
    var t := s'.store.traces[ev.key];
    OpenRootAgrees(s.store.traces, s.ctx, s.spans, t, attempt, link, reason);
    if InTime(s, ev.occurredAt) {
      RecordOnTime(s.spans.log, RootOpened(ev.key, s.spans.next, ev.occurredAt, attempt, link, reason), ev.occurredAt);
    }
  }

  lemma CloseTraceParts(s: State, k: MediaKey, now: Time, ok: bool, reason: string, outcome: Outcome)
    requires k in s.store.traces
    ensures var r := CloseTrace(s, k, now, ok, reason, outcome);
            && r.spans == Record(s.spans, RootEnd(s.store.traces[k], CtxOf(s, k), now, ok, reason))
            && r.store.traces == s.store.traces - {k} && r.ctx == s.ctx - {k}
  {
    hide StoreSpec.Delete, StoreSpec.RememberClosed;
    var t := s.store.traces[k];
    DeleteTraces(s.store, k);
    RememberKeeps(Delete(s.store, k), k, ClosedTrace(t.traceID, t.attempt, outcome, now));
  }

  lemma CloseTraceFine(s: State, k: MediaKey, now: Time, ok: bool, reason: string, outcome: Outcome)
    requires Sound(s) && k in s.store.traces && !s.store.traces[k].hasGrab && !s.store.traces[k].hasDownload
    ensures Fine(s, CloseTrace(s, k, now, ok, reason, outcome), now)
  {
    hide Agrees, OnTime, CloseTrace;
    SoundLinked(s, k);
    var op := RootEnd(s.store.traces[k], s.ctx[k], now, ok, reason);
    CloseTraceParts(s, k, now, ok, reason, outcome);
    FinishAgrees(s.store.traces, s.ctx, s.spans, op, k);
    if InTime(s, now) { RecordOnTime(s.spans.log, op, now); }
  }

  // ---------- handlers ----------

  lemma RequestOpenedFine(s: State, ev: Event)
    requires Sound(s)
    ensures Fine(s, OnRequestOpened(s, ev), ev.occurredAt)
  {
    hide Agrees, OnTime;
    if Resolve(s.store.traces, ev.key).None? {
      var prior := Recalled(s.store, ev.key, ev.occurredAt);
      OpenTraceFine(Recall(s, ev.key, ev.occurredAt), ev, AttemptAfter(prior), LinkTo(prior),
                    RequestReason(prior), ev.requestID, ev.requestedBy);
    }
  }

  lemma RequestApprovedFine(s: State, ev: Event)
    requires Sound(s)
    ensures Fine(s, OnRequestApproved(s, ev), ev.occurredAt)
  {
    hide Agrees, OnTime, Put, AnnotateUnder;
    if Resolve(s.store.traces, ev.key).Some? {
      var k := Resolve(s.store.traces, ev.key).value;
      var t := s.store.traces[k];
      var s1 := Amend(s, k, t.(searchStart := ev.occurredAt, updatedAt := ev.occurredAt));
      AmendFine(s, k, t.(searchStart := ev.occurredAt, updatedAt := ev.occurredAt), ev.occurredAt);
      SaveFine(s1, k, ev.occurredAt);
      var s2 := Save(s1, k);
      var s3 := if k in s2.timing
                then s2.(timing := s2.timing[k := s2.timing[k].(approvedAt := ev.occurredAt)]) else s2;
      NoticeFine(s3, k, 0, "request.approved", ev.occurredAt, ev.occurredAt);
    }
  }

  lemma RequestClosedFine(s: State, ev: Event)
    requires Sound(s)
    ensures Fine(s, OnRequestClosed(s, ev), ev.occurredAt)
  {
    hide Agrees, OnTime;
    if Resolve(s.store.traces, ev.key).Some? {
      var k := Resolve(s.store.traces, ev.key).value;
      EndChildrenFine(s, k, ev.occurredAt, true, "");
      EndChildrenEdits(s, k, ev.occurredAt, true, "");
      var s1 := EndChildren(s, k, ev.occurredAt, true, "");
      SettledFine(s1, k, ev.occurredAt, ev.outcome.Available?, ev.errorReason, ev.outcome, s1.store.traces[k].hasGrab);
    }
  }

  lemma GrabTargetFine(s: State, ev: Event)
    requires Sound(s)
    ensures Fine(s, GrabTarget(s, ev).1, ev.occurredAt)
  {
    if Resolve(s.store.traces, ev.key).None? {
      var prior := Recalled(s.store, ev.key, ev.occurredAt);
      OpenTraceFine(Recall(s, ev.key, ev.occurredAt), ev, AttemptAfter(prior), LinkTo(prior),
                    OrphanReason(prior, ev.release.isUpgrade), "", "");
    }
  }

  lemma SupersedeFine(s: State, k: MediaKey, at: Time)
    requires Sound(s) && k in s.store.traces
    ensures Fine(s, EndOpenGrab(EmitSearch(s, k, at), k, at, false, ERR_SUPERSEDED), at)
    ensures var s2 := EndOpenGrab(EmitSearch(s, k, at), k, at, false, ERR_SUPERSEDED);
            k in s2.store.traces && !s2.store.traces[k].hasGrab
  {
    hide Agrees, OnTime, Watch;
    var start := s.store.traces[k].searchStart;
    if start != ZERO_TIME && start < at { EmitFine(s, k, SPAN_SEARCH, start, at, at); }
    EndGrabFine(EmitSearch(s, k, at), k, at, false, ERR_SUPERSEDED);
  }

  lemma GrabFine(s: State, k: MediaKey, ev: Event)
    requires Sound(s) && k in s.store.traces
    ensures Fine(s, Grab(s, k, ev), ev.occurredAt)
  {
    hide Agrees, OnTime, EndOpenGrab;
    var at := ev.occurredAt;
    SupersedeFine(s, k, at);
    var s2 := EndOpenGrab(EmitSearch(s, k, at), k, at, false, ERR_SUPERSEDED);
    BeginGrabFine(s2, k, GrabSpanName(ev.source), at, ev.release.downloadID);
    var s3 := BeginGrab(s2, k, GrabSpanName(ev.source), at, ev.release.downloadID);
    SoundLinked(s3, k);
    SaveFine(s3, k, at);
  }

  lemma DownloadStartFine(s: State, k: MediaKey, ev: Event, now: Time)
    requires Sound(s) && k in s.store.traces && ev.occurredAt <= now
    ensures Fine(s, HandleDownloadStart(s, k, ev), now)
  {
    if !s.store.traces[k].hasDownload {
      BeginDownloadFine(s, k, ev.occurredAt, now);
      SaveFine(BeginDownload(s, k, ev.occurredAt), k, now);
    }
  }

  /** No parked download start lies in the future. */
  ghost predicate ParkedBy(s: State, now: Time) {
    forall id :: id in s.pending ==> s.pending[id].event.occurredAt <= now
  }

  lemma ReplayFine(s: State, k: MediaKey, id: string, now: Time)
    requires Sound(s) && k in s.store.traces
    ensures Sound(Replay(s, k, id))
    ensures ParkedBy(s, now) && InTime(s, now) ==> InTime(Replay(s, k, id), now)
  {
    if id != "" && id in s.pending {
      var start := s.pending[id].event;
      var s1 := s.(pending := s.pending - {id});
      DownloadStartFine(s1, k, start, start.occurredAt);
      if start.occurredAt <= now { DownloadStartFine(s1, k, start, now); }
    }
  }

  /** The protocol is kept whatever the parked times are; the clock needs them to be past. */
  lemma GrabbedFine(s: State, ev: Event)
    requires Sound(s)
    ensures Sound(OnGrabbed(s, ev))
    ensures ParkedBy(s, ev.occurredAt) && InTime(s, ev.occurredAt) ==> InTime(OnGrabbed(s, ev), ev.occurredAt)
  {
    hide Agrees, OnTime;
    var (k, s1) := GrabTarget(s, ev);
    GrabTargetFine(s, ev);
    GrabFine(s1, k, ev);
    GrabBooks(s1, k, ev);
    assert s1.pending == s.pending;
    ReplayFine(Grab(s1, k, ev), k, ev.release.downloadID, ev.occurredAt);
  }

  lemma DownloadDoneFine(s: State, ev: Event)
    requires Sound(s)
    ensures Fine(s, OnDownloadDone(s, ev), ev.occurredAt)
  {
    hide Agrees, OnTime, Put, CloseSpan, SyntheticSpan, Record;
    if ByDownloadID(s.store, ev.release.downloadID).Some? {
      var k := ByDownloadID(s.store, ev.release.downloadID).value;
      var at := ev.occurredAt;
      var s1 := if s.store.traces[k].hasDownload
                then EndDownload(s, k, at, ev.errorReason == "", ev.errorReason)
                else EmitUnder(s, k, SPAN_DOWNLOAD, at, at);
      if s.store.traces[k].hasDownload {
        EndDownloadFine(s, k, at, ev.errorReason == "", ev.errorReason);
      } else {
        EmitFine(s, k, SPAN_DOWNLOAD, at, at, at);
      }
      AmendFine(s1, k, s1.store.traces[k].(updatedAt := at), at);
      SaveFine(Touch(s1, k, at), k, at);
    }
  }

  lemma ImportFine(s: State, k: MediaKey, ev: Event)
    requires Sound(s) && k in s.store.traces
    ensures Fine(s, Import(s, k, ev), ev.occurredAt)
    ensures Import(s, k, ev).store.traces[k]
            == s.store.traces[k].(hasDownload := false, hasGrab := false, updatedAt := ev.occurredAt)
  {
    var at := ev.occurredAt;
    var s1 := EndOpenDownload(s, k, at, true, "");
    EndDownloadFine(s, k, at, true, "");
    EndDownloadEdits(s, k, at, true, "");
    var start := Earlier(s1.store.traces[k].updatedAt, at);
    EmitFine(s1, k, ImportSpanName(ev.source), start, at, at);
    var s2 := EmitUnder(s1, k, ImportSpanName(ev.source), start, at);
    EndGrabFine(s2, k, at, true, "");
    EndGrabEdits(s2, k, at, true, "");
    var s3 := EndOpenGrab(s2, k, at, true, "");
    AmendFine(s3, k, s3.store.traces[k].(updatedAt := at), at);
    SaveFine(Touch(s3, k, at), k, at);
  }

  lemma SettledFine(s: State, k: MediaKey, now: Time, ok: bool, reason: string, outcome: Outcome, hadGrab: bool)
    requires Sound(s) && k in s.store.traces && !s.store.traces[k].hasGrab && !s.store.traces[k].hasDownload
    ensures Fine(s, Settle(CloseTrace(s, k, now, ok, reason, outcome), k, hadGrab), now)
  {
    CloseTraceFine(s, k, now, ok, reason, outcome);
  }

  lemma ImportClosedFine(s: State, s1: State, k: MediaKey, ev: Event)
    requires Resolve(s.store.traces, ev.key) == Some(k) && s1 == Import(s, k, ev) && Fine(s, s1, ev.occurredAt)
    requires !s1.store.traces[k].hasGrab && !s1.store.traces[k].hasDownload
    ensures Fine(s, OnImported(s, ev), ev.occurredAt)
  {
    var t := s1.store.traces[k];
    SettledFine(s1, k, ev.occurredAt, true, "", Available, t.hasGrab);
    assert OnImported(s, ev) ==
           if t.source == SOURCE_SONARR || t.source == SOURCE_RADARR
           then Settle(CloseTrace(s1, k, ev.occurredAt, true, "", Available), k, t.hasGrab) else s1;
  }

  lemma ImportedFine(s: State, ev: Event)
    requires Sound(s)
    ensures Fine(s, OnImported(s, ev), ev.occurredAt)
  {
    if Resolve(s.store.traces, ev.key).Some? {
      var k := Resolve(s.store.traces, ev.key).value;
      ImportFine(s, k, ev);
      ImportClosedFine(s, Import(s, k, ev), k, ev);
    }
  }

  lemma ReportFine(s: State, k: MediaKey, name: string, u: Trace, when: Time, now: Time)
    requires Sound(s) && k in s.store.traces
    requires SameRoot(s.store.traces[k], u) && SameGrab(s.store.traces[k], u) && SameDownload(s.store.traces[k], u)
    ensures Fine(s, Save(Amend(AnnotateUnder(s, k, NoticeTarget(s.store.traces[k]), name, when), k, u), k), now)
  {
    var s1 := AnnotateUnder(s, k, NoticeTarget(s.store.traces[k]), name, when);
    NoticeFine(s, k, NoticeTarget(s.store.traces[k]), name, when, now);
    AmendFine(s1, k, u, now);
    SaveFine(Amend(s1, k, u), k, now);
  }

  lemma HandleFine(s: State, ev: Event)
    requires Sound(s)
    ensures Sound(Handle(s, ev))
    ensures ParkedBy(s, ev.occurredAt) && InTime(s, ev.occurredAt) ==> InTime(Handle(s, ev), ev.occurredAt)
  {
    hide Agrees, OnTime;
    match ev.phase
    case RequestOpened => RequestOpenedFine(s, ev);
    case RequestApproved => RequestApprovedFine(s, ev);
    case RequestClosed => RequestClosedFine(s, ev);
    case Grabbed => GrabbedFine(s, ev);
    case DownloadStart =>
      if ByDownloadID(s.store, ev.release.downloadID).Some? {
        DownloadStartFine(s, ByDownloadID(s.store, ev.release.downloadID).value, ev, ev.occurredAt);
      }
    case DownloadDone => DownloadDoneFine(s, ev);
    case Imported => ImportedFine(s, ev);
    case ManualNeeded =>
      if Resolve(s.store.traces, ev.key).Some? {
        var k := Resolve(s.store.traces, ev.key).value;
        var t := s.store.traces[k];
        ReportFine(s, k, "manual_interaction_required", t.(lastError := ERR_MANUAL, updatedAt := ev.occurredAt),
                   ev.occurredAt, ev.occurredAt);
      }
    case OtherPhase(_) =>
  }

  lemma QueueIssueFine(s: State, id: string, status: string, when: Time, now: Time)
    requires Sound(s)
    ensures Fine(s, NoteQueueIssue(s, id, status, when), now)
  {
    if ByDownloadID(s.store, id).Some? {
      var k := ByDownloadID(s.store, id).value;
      var t := s.store.traces[k];
      ReportFine(s, k, "queue.stalled", t.(lastError := "arr.queue_" + status, updatedAt := when), when, now);
    }
  }

  lemma {:induction false} SweepFine(s: State, order: seq<MediaKey>, now: Time)
    requires Sound(s)
    ensures Fine(s, Sweep(s, order, now), now)
    decreases |order|
  {
    if order != [] {
      var s1 := Sweep(s, order[..|order| - 1], now);
      var k := order[|order| - 1];
      SweepFine(s, order[..|order| - 1], now);
      if k in s1.store.traces {
        EndChildrenFine(s1, k, now, false, ERR_TIMEOUT);
        EndChildrenEdits(s1, k, now, false, ERR_TIMEOUT);
        CloseTraceFine(EndChildren(s1, k, now, false, ERR_TIMEOUT), k, now, false, ERR_TIMEOUT, Timeout);
      }
    }
  }

  lemma RestartFine(s: State, reopened: StoreState, order: seq<MediaKey>, now: Time)
    requires Sound(s) && TracesSynced(s.store) && Enabled(s, Restart(reopened, order))
    ensures Fine(s, Step(s, Restart(reopened, order)), now)
  {
    var r := Step(s, Restart(reopened, order));
    RestartRestoresTraces(s, reopened, order);
    RestartAgrees(s.store.traces, s.ctx, s.spans, r.store.traces, r.ctx);
    if InTime(s, now) { RecordOnTime(s.spans.log, Restarted, now); }
  }

  // ---------- runs ----------

  /** The time an action is taken at, if it has one that matters for span times. */
  function ActionTime(a: Action): Option<Time> {
    match a
    case Deliver(ev) => Some(ev.occurredAt)
    case SweepAt(now, _, _) => Some(now)
    case _ => None
  }

  function Clock(now: Time, a: Action): Time {
    match ActionTime(a) case Some(t) => t case None => now
  }

  /** The times given to Process and Sweep never go back. */
  predicate Nondecreasing(now: Time, acts: seq<Action>)
    decreases |acts|
  {
    acts == [] || (now <= Clock(now, acts[0]) && Nondecreasing(Clock(now, acts[0]), acts[1..]))
  }

  lemma InTimeLater(s: State, now: Time, later: Time)
    requires InTime(s, now) && now <= later
    ensures InTime(s, later)
  {
  }

  lemma ParkedStep(s: State, a: Action, now: Time)
    requires ParkedBy(s, now) && now <= Clock(now, a)
    ensures ParkedBy(Step(s, a), Clock(now, a))
  {
    StepParked(s, a);
  }

  lemma ProcessFine(s: State, ev: Event)
    requires Sound(s)
    ensures Sound(Process(s, ev))
    ensures ParkedBy(s, ev.occurredAt) && InTime(s, ev.occurredAt) ==> InTime(Process(s, ev), ev.occurredAt)
  {
    hide Agrees, OnTime;
    var s1 := s.(store := SeenEvent(s.store, ev.source, ev.eventID, ev.occurredAt));
    assert s1.store.traces == s.store.traces;
    HandleFine(s1, ev);
  }

  lemma StepFine(s: State, a: Action, now: Time)
    requires Sound(s) && Enabled(s, a) && (a.Restart? ==> TracesSynced(s.store))
    ensures Sound(Step(s, a))
    ensures InTime(s, now) && ParkedBy(s, now) && now <= Clock(now, a) ==>
              InTime(Step(s, a), Clock(now, a)) && ParkedBy(Step(s, a), Clock(now, a))
  {
    hide Agrees, OnTime;
    match a {
      case Deliver(ev) => ProcessFine(s, ev);
      case QueueIssue(id, status, when) => QueueIssueFine(s, id, status, when, now);
      case SweepAt(t, _, order) => SweepFine(s, order, t);
      case Restart(reopened, order) => RestartFine(s, reopened, order, now);
    }
    if InTime(s, now) && ParkedBy(s, now) && now <= Clock(now, a) {
      InTimeLater(s, now, Clock(now, a));
      ParkedStep(s, a, now);
    }
  }

  /** Everything that holds in each reachable state. */
  ghost predicate Reachable(s: State) {
    Sound(s) && TracesSynced(s.store)
  }

  lemma InitialReachable(s: State)
    requires Initial(s)
    ensures Reachable(s) && forall now :: InTime(s, now) && ParkedBy(s, now)
  {
  }

  lemma {:induction false} RunReachable(s: State, acts: seq<Action>)
    requires Reachable(s) && CanRun(s, acts)
    ensures Reachable(Run(s, acts))
    decreases |acts|
  {
    if acts != [] {
      StepFine(s, acts[0], 0);
      StepTracesSynced(s, acts[0]);
      RunReachable(Step(s, acts[0]), acts[1..]);
    }
  }

  // ---------- the results ----------

  /** The open children named by the live traces. */
  function OpenGrabs(traces: map<MediaKey, Trace>): set<ID> {
    set k | k in traces && traces[k].hasGrab :: traces[k].grabSpanID
  }

  function OpenDownloads(traces: map<MediaKey, Trace>): set<ID> {
    set k | k in traces && traces[k].hasDownload :: traces[k].downloadSpanID
  }

  lemma AgreesChildren(traces: map<MediaKey, Trace>, m: Monitor)
    requires ChildrenAgree(traces, m)
    ensures m.kids.Keys == OpenGrabs(traces) + OpenDownloads(traces)
  {
    forall id
      ensures id in m.kids <==> id in OpenGrabs(traces) + OpenDownloads(traces)
    {
      if id in m.kids {
        assert Adopted(id, m.kids[id], m.roots, traces);
      }
      if id in OpenGrabs(traces) {
        var k :| k in traces && traces[k].hasGrab && traces[k].grabSpanID == id;
        assert Parents(traces[k], m.kids);
      }
      if id in OpenDownloads(traces) {
        var k :| k in traces && traces[k].hasDownload && traces[k].downloadSpanID == id;
        assert Parents(traces[k], m.kids);
      }
    }
  }

  /**
   * Child-span discipline over every run: no rule is ever broken (in particular no child is closed twice
   * and none from before a restart is closed or annotated), and the children open in this process are
   * exactly those the live traces name.
   */
  lemma ChildSpanDiscipline(s: State, acts: seq<Action>)
    requires Initial(s) && CanRun(s, acts)
    ensures var r := Run(s, acts); var m := Watch(r.spans.log);
            && m.disciplined
            && m.kids.Keys == OpenGrabs(r.store.traces) + OpenDownloads(r.store.traces)
            && r.spans.openSpans == m.kids.Keys + m.local
  {
    InitialReachable(s);
    RunReachable(s, acts);
    var r := Run(s, acts);
    AgreesChildren(r.store.traces, Watch(r.spans.log));
  }

  /** So over every run the builder finds every child it looks up, and its table is what the log says. */
  lemma NoCallIsLost(s: State, acts: seq<Action>, i: nat)
    requires Initial(s) && CanRun(s, acts) && i < |Run(s, acts).spans.log|
    ensures var r := Run(s, acts);
            && r.spans.openSpans == TableAfter(r.spans.log)
            && (Addressed(r.spans.log[i]) != 0 ==> Addressed(r.spans.log[i]) in TableAfter(r.spans.log[..i]))
  {
    ChildSpanDiscipline(s, acts);
    var log := Run(s, acts).spans.log;
    TableIsOpen(log);
    if Addressed(log[i]) != 0 { EveryCallFindsItsSpan(log, i); }
  }

  /**
   * Roots exactly once over every run: each root ever opened is completed by exactly one call iff its
   * trace is no longer live; live traces and root contexts have the same keys.
   */
  lemma RootExactlyOnce(s: State, acts: seq<Action>)
    requires Initial(s) && CanRun(s, acts)
    ensures var r := Run(s, acts); var m := Watch(r.spans.log);
            && m.disciplined && r.ctx.Keys == r.store.traces.Keys
            && (forall id :: id in m.roots ==>
                  (m.roots[id].life.Finished? <==> forall k :: k in r.store.traces ==> r.store.traces[k].traceID != id))
            && (forall k :: k in r.store.traces ==> r.store.traces[k].traceID in m.roots)
            && (forall k, l :: k in r.store.traces && l in r.store.traces ==>
                  (r.store.traces[k].traceID == r.store.traces[l].traceID ==> k == l))
  {
    InitialReachable(s);
    RunReachable(s, acts);
    var r := Run(s, acts);
    var traces, m := r.store.traces, Watch(r.spans.log);
    forall id | id in m.roots
      ensures m.roots[id].life.Finished? <==> forall k :: k in traces ==> traces[k].traceID != id
    {
      assert Claimed(id, m.roots[id], traces);
      forall k | k in traces && traces[k].traceID == id
        ensures !m.roots[id].life.Finished?
      {
        assert Linked(k, traces[k], r.ctx, m.roots);
      }
    }
    assert forall k :: k in traces ==> Linked(k, traces[k], r.ctx, m.roots);
  }

  /**
   * Counted over the log: for each root opened there is no completing call while its trace is live, and exactly
   * one when it is not.
   */
  lemma RootCompletedOnce(s: State, acts: seq<Action>, i: nat)
    requires Initial(s) && CanRun(s, acts)
    requires i < |Run(s, acts).spans.log| && Run(s, acts).spans.log[i].RootOpened?
    ensures var r := Run(s, acts); var id := r.spans.log[i].id;
            Completions(r.spans.log, id)
            == if exists k :: k in r.store.traces && r.store.traces[k].traceID == id then 0 else 1
  {
    hide Run, CanRun, Initial, Observe;
    RootExactlyOnce(s, acts);
    var log := Run(s, acts).spans.log;
    OpenedIsKnown(log, i);
    CompletionsCounted(log, log[i].id);
  }

  lemma {:induction false} TimelyRun(s: State, acts: seq<Action>, now: Time)
    requires Reachable(s) && InTime(s, now) && ParkedBy(s, now)
    requires CanRun(s, acts) && Nondecreasing(now, acts)
    ensures Watch(Run(s, acts).spans.log).timely
    decreases |acts|
  {
    if acts != [] {
      StepFine(s, acts[0], now);
      StepTracesSynced(s, acts[0]);
      TimelyRun(Step(s, acts[0]), acts[1..], Clock(now, acts[0]));
    }
  }

  /** With nondecreasing times no completed or synthesised span ends before it starts. */
  lemma NoNegativeSpans(s: State, acts: seq<Action>, now: Time)
    requires Initial(s) && CanRun(s, acts) && Nondecreasing(now, acts)
    ensures Watch(Run(s, acts).spans.log).timely
  {
    InitialReachable(s);
    TimelyRun(s, acts, now);
  }
}
