/** The in-flight grab gauge: it only ever counts up within a process. */
module GrabGauge {
  import opened Types
  import opened StoreSpec
  import opened SpanSpec
  import opened EngineSpec
  import opened StoreChanges
  import opened Bookkeeping

  predicate SameGrabs(s: State, s': State) {
    s'.gauges.grab == s.gauges.grab
  }

  lemma RequestClosedGrabs(s: State, ev: Event)
    ensures SameGrabs(s, OnRequestClosed(s, ev))
  {
    hide EndChildren, CloseTrace;
    if Resolve(s.store.traces, ev.key).Some? {
      var k, at := Resolve(s.store.traces, ev.key).value, ev.occurredAt;
      EndChildrenEdits(s, k, at, true, "");
      EndChildrenBooks(s, k, at, true, "");
      var s1 := EndChildren(s, k, at, true, "");
      CloseTraceBooks(s1, k, at, ev.outcome.Available?, ev.errorReason, ev.outcome);
      assert !s1.store.traces[k].hasGrab;
    }
  }

  lemma ImportEndsGrab(s: State, k: MediaKey, ev: Event)
    requires k in s.store.traces
    ensures k in Import(s, k, ev).store.traces && !Import(s, k, ev).store.traces[k].hasGrab
  {
    hide EndOpenDownload, EndOpenGrab;
    var at := ev.occurredAt;
    EndDownloadEdits(s, k, at, true, "");
    var s1 := EndOpenDownload(s, k, at, true, "");
    var s2 := EmitUnder(s1, k, ImportSpanName(ev.source), Earlier(s1.store.traces[k].updatedAt, at), at);
    EndGrabEdits(s2, k, at, true, "");
  }

  lemma ImportedGrabs(s: State, ev: Event)
    ensures SameGrabs(s, OnImported(s, ev))
  {
    hide Import, CloseTrace;
    if Resolve(s.store.traces, ev.key).Some? {
      var k, at := Resolve(s.store.traces, ev.key).value, ev.occurredAt;
      ImportBooks(s, k, ev);
      ImportEndsGrab(s, k, ev);
      CloseTraceBooks(Import(s, k, ev), k, at, true, "", Available);
    }
  }

  /** The grab is counted iff its trace has a timing entry. */
  lemma GrabGrabs(s: State, k: MediaKey, ev: Event)
    requires k in s.store.traces
    ensures Grab(s, k, ev).gauges.grab == s.gauges.grab + if k in s.timing then 1 else 0
  {
    hide EndOpenGrab, Put;
    var s1 := EmitSearch(s, k, ev.occurredAt);
    EndGrabSameBooks(s1, k, ev.occurredAt);
  }

  lemma EndGrabSameBooks(s: State, k: MediaKey, at: Time)
    requires k in s.store.traces
    ensures k in EndOpenGrab(s, k, at, false, ERR_SUPERSEDED).store.traces
    ensures SameBooks(s, EndOpenGrab(s, k, at, false, ERR_SUPERSEDED))
  {
  }

  lemma ReplayGrabs(s: State, k: MediaKey, id: string)
    requires k in s.store.traces
    ensures SameGrabs(s, Replay(s, k, id))
  {
    hide Put;
  }

  lemma TargetGrabs(s: State, ev: Event)
    ensures var (k, s1) := GrabTarget(s, ev); k in s1.store.traces && SameBooks(s, s1)
  {
  }

  lemma GrabbedGrabs(s: State, ev: Event)
    ensures OnGrabbed(s, ev).gauges.grab == s.gauges.grab + if GrabTarget(s, ev).0 in s.timing then 1 else 0
  {
    hide GrabTarget, Grab, Replay;
    TargetGrabs(s, ev);
    var (k, s1) := GrabTarget(s, ev);
    GrabGrabs(s1, k, ev);
    GrabLive(s1, k, ev);
    ReplayGrabs(Grab(s1, k, ev), k, ev.release.downloadID);
  }

  /** The handlers that do not look at the grab gauge at all. */
  lemma OtherGrabs(s: State, ev: Event)
    ensures SameGrabs(s, OnRequestOpened(s, ev)) && SameGrabs(s, OnRequestApproved(s, ev))
    ensures SameGrabs(s, OnDownloadStart(s, ev)) && SameGrabs(s, OnManualNeeded(s, ev))
  {
    hide Put, StoreSpec.RecallClosed;
  }

  lemma DownloadDoneGrabs(s: State, ev: Event)
    ensures SameGrabs(s, OnDownloadDone(s, ev))
  {
    hide Put;
  }

  /** The step is an accepted grab on a trace that a request's timing entry is kept for. */
  predicate TimesGrab(s: State, a: Action) {
    && a.Deliver? && a.ev.phase.Grabbed? && Accepts(s.store, a.ev.source, a.ev.eventID, a.ev.occurredAt)
    && LandsOn(s.store.traces, a.ev.key) in s.timing
  }

  lemma HandleGrabs(s: State, ev: Event)
    ensures Handle(s, ev).gauges.grab
            == s.gauges.grab + if ev.phase.Grabbed? && GrabTarget(s, ev).0 in s.timing then 1 else 0
  {
    hide OnRequestOpened, OnRequestApproved, OnRequestClosed, OnGrabbed, OnDownloadStart, OnDownloadDone,
      OnImported, OnManualNeeded, GrabTarget;
    match ev.phase
    case RequestOpened => OtherGrabs(s, ev);
    case RequestApproved => OtherGrabs(s, ev);
    case RequestClosed => RequestClosedGrabs(s, ev);
    case Grabbed => GrabbedGrabs(s, ev);
    case DownloadStart => OtherGrabs(s, ev);
    case DownloadDone => DownloadDoneGrabs(s, ev);
    case Imported => ImportedGrabs(s, ev);
    case ManualNeeded => OtherGrabs(s, ev);
    case OtherPhase(_) =>
  }

  /** Every step of a process adds one to the grab gauge or nothing: no step ever takes one off. */
  lemma GrabGaugeNeverFalls(s: State, a: Action)
    requires !a.Restart?
    ensures Step(s, a).gauges.grab == s.gauges.grab + if TimesGrab(s, a) then 1 else 0
  {
    hide Handle, NoteQueueIssue;
    match a
    case Deliver(ev) =>
      var s1 := s.(store := SeenEvent(s.store, ev.source, ev.eventID, ev.occurredAt));
      assert s1.store.traces == s.store.traces;
      HandleGrabs(s1, ev);
    case QueueIssue(id, status, when) => QueueIssueGrabs(s, id, status, when);
    case SweepAt(now, _, order) => SweepBooks(s, order, now);
  }

  lemma QueueIssueGrabs(s: State, id: string, status: string, when: Time)
    ensures SameGrabs(s, NoteQueueIssue(s, id, status, when))
  {
    hide Put;
  }

  function GrabsTimed(s: State, acts: seq<Action>): nat
    decreases |acts|
  {
    if acts == [] then 0
    else (if TimesGrab(s, acts[0]) then 1 else 0) + GrabsTimed(Step(s, acts[0]), acts[1..])
  }

  /** So over any run of one process it is the number of those grabs, however many have ended. */
  lemma {:induction false} GrabGaugeCounts(s: State, acts: seq<Action>)
    requires forall i :: 0 <= i < |acts| ==> !acts[i].Restart?
    ensures Run(s, acts).gauges.grab == s.gauges.grab + GrabsTimed(s, acts)
    decreases |acts|
  {
    hide Step, TimesGrab;
    if acts != [] {
      GrabGaugeNeverFalls(s, acts[0]);
      GrabGaugeCounts(Step(s, acts[0]), acts[1..]);
    }
  }
}
