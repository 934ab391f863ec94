/** The in-flight request gauge, accounted for exactly over every run. */
module RequestGauge {
  import opened Types
  import opened StoreSpec
  import opened SpanSpec
  import opened EngineSpec
  import opened StoreChanges
  import opened CrashRecovery
  import opened Bookkeeping
  import opened SweepOrder

  predicate Accepted(s: State, ev: Event) {
    Accepts(s.store, ev.source, ev.eventID, ev.occurredAt)
  }

  /** The step opens a trace for a request. */
  predicate OpensRequest(s: State, a: Action) {
    a.Deliver? && a.ev.phase.RequestOpened? && Accepted(s, a.ev) && Resolve(s.store.traces, a.ev.key).None?
  }

  function SettledBy(s: State, a: Action): Option<MediaKey> {
    if a.Deliver? && Accepted(s, a.ev) then Settled(s, a.ev) else None
  }

  /** What a step does to the timing entries and the gauge. */
  lemma StepTiming(s: State, a: Action)
    ensures var r := Step(s, a);
            if a.Restart? then r.timing == map[] && r.gauges.request == 0
            else if OpensRequest(s, a) then
              r.timing.Keys == s.timing.Keys + {a.ev.key} && r.gauges.request == s.gauges.request + 1
            else match SettledBy(s, a)
              case Some(k) => Settles(s, k, r)
              case None => SameEntries(s, r)
  {
    match a
    case Deliver(ev) =>
      var s1 := s.(store := SeenEvent(s.store, ev.source, ev.eventID, ev.occurredAt));
      assert s1.store.traces == s.store.traces;
      HandleTiming(s1, ev);
    case QueueIssue(_, _, _) =>
    case SweepAt(now, _, order) => SweepBooks(s, order, now);
    case Restart(reopened, order) => RestoreBooks(Reborn(s, reopened).(store := LoadAll(reopened)), order);
  }

  // ---------- the gauge is the timing entries plus the overwritten ones ----------

  /** Request-opens of this process that found a timing entry already there, `n` before the run. */
  function Overwrites(s: State, acts: seq<Action>, n: nat): nat
    decreases |acts|
  {
    if acts == [] then n
    else
      var a := acts[0];
      var n' := if a.Restart? then 0 else if OpensRequest(s, a) && a.ev.key in s.timing then n + 1 else n;
      Overwrites(Step(s, a), acts[1..], n')
  }

  lemma SizeWithout(keys: set<MediaKey>, k: MediaKey)
    ensures |keys - {k}| == |keys| - (if k in keys then 1 else 0)
    ensures |keys + {k}| == |keys| + (if k in keys then 0 else 1)
  {
    if k in keys {
      assert keys + {k} == keys;
    } else {
      assert keys - {k} == keys;
    }
  }

  /** In every run the net request adjustment is the number of timing entries plus the overwrites. */
  lemma {:induction false} GaugeAccounted(s: State, acts: seq<Action>, n: nat)
    requires s.gauges.request == |s.timing.Keys| + n
    ensures var r := Run(s, acts); r.gauges.request == |r.timing.Keys| + Overwrites(s, acts, n)
    decreases |acts|
  {
    if acts != [] {
      var a := acts[0];
      var n' := if a.Restart? then 0 else if OpensRequest(s, a) && a.ev.key in s.timing then n + 1 else n;
      StepTiming(s, a);
      var s1 := Step(s, a);
      if !a.Restart? {
        if OpensRequest(s, a) {
          SizeWithout(s.timing.Keys, a.ev.key);
        } else if SettledBy(s, a).Some? {
          SizeWithout(s.timing.Keys, SettledBy(s, a).value);
          assert s1.timing.Keys == s.timing.Keys - {SettledBy(s, a).value};
        }
      }
      GaugeAccounted(s1, acts[1..], n');
    }
  }

  lemma GaugeNeverNegative(s: State, acts: seq<Action>)
    requires Initial(s)
    ensures Run(s, acts).gauges.request >= 0
  {
    GaugeAccounted(s, acts, 0);
  }

  // ---------- without sweeps: the live traces that requests opened ----------

  /** The traces, with nothing but their identity. */
  function IDs(traces: map<MediaKey, Trace>): map<MediaKey, ID> {
    map k | k in traces :: traces[k].traceID
  }

  lemma IDsWith(traces: map<MediaKey, Trace>, k: MediaKey, t: Trace)
    ensures IDs(traces[k := t]) == IDs(traces)[k := t.traceID]
    ensures k in traces && traces[k].traceID == t.traceID ==> IDs(traces[k := t]) == IDs(traces)
  {
  }

  lemma IDsWithout(traces: map<MediaKey, Trace>, k: MediaKey)
    ensures IDs(traces - {k}) == IDs(traces) - {k}
  {
  }

  lemma SavedIDs(s: State, k: MediaKey, s1: State)
    requires Keyed(s.store.traces) && Edited(s, k, s1)
    ensures IDs(Save(s1, k).store.traces) == IDs(s.store.traces)
  {
    var u := s1.store.traces[k];
    assert Save(s1, k).store.traces == s.store.traces[k := u];
    IDsWith(s.store.traces, k, u);
  }

  lemma GrabIDs(s: State, k: MediaKey, ev: Event)
    requires Keyed(s.store.traces) && k in s.store.traces
    ensures IDs(Grab(s, k, ev).store.traces) == IDs(s.store.traces) && Keyed(Grab(s, k, ev).store.traces)
  {
    hide Grab, Put;
    var c := GrabChanges(s, k, ev);
    KeyedApply(s.store, c);
    PutTraces(s.store, c.t);
    IDsWith(s.store.traces, c.t.key, c.t);
  }

  lemma DownloadStartIDs(s: State, k: MediaKey, ev: Event)
    requires Keyed(s.store.traces) && k in s.store.traces
    ensures IDs(HandleDownloadStart(s, k, ev).store.traces) == IDs(s.store.traces)
  {
    if !s.store.traces[k].hasDownload { SavedIDs(s, k, BeginDownload(s, k, ev.occurredAt)); }
  }

  lemma ReplayIDs(s: State, k: MediaKey, id: string)
    requires Keyed(s.store.traces) && k in s.store.traces
    ensures IDs(Replay(s, k, id).store.traces) == IDs(s.store.traces)
  {
    if id != "" && id in s.pending {
      DownloadStartIDs(s.(pending := s.pending - {id}), k, s.pending[id].event);
    }
  }

  lemma OpenTraceIDs(s: State, ev: Event, attempt: int, link: Option<ID>, reason: string,
                     requestID: string, requestedBy: string)
    requires Keyed(s.store.traces)
    ensures var r := OpenTrace(s, ev, attempt, link, reason, requestID, requestedBy);
            Keyed(r.store.traces) && IDs(r.store.traces) == IDs(s.store.traces)[ev.key := s.spans.next]
  {
    var r := OpenTrace(s, ev, attempt, link, reason, requestID, requestedBy);
    assert r.store.traces == s.store.traces[ev.key := r.store.traces[ev.key]];
    IDsWith(s.store.traces, ev.key, r.store.traces[ev.key]);
  }

  lemma GrabTargetIDs(s: State, ev: Event)
    requires Keyed(s.store.traces)
    ensures var (k, s1) := GrabTarget(s, ev);
            && Keyed(s1.store.traces)
            && IDs(s1.store.traces) ==
               if Resolve(s.store.traces, ev.key).None? then IDs(s.store.traces)[ev.key := s.spans.next]
               else IDs(s.store.traces)
  {
    if Resolve(s.store.traces, ev.key).None? {
      var prior := Recalled(s.store, ev.key, ev.occurredAt);
      OpenTraceIDs(Recall(s, ev.key, ev.occurredAt), ev, AttemptAfter(prior), LinkTo(prior),
                   OrphanReason(prior, ev.release.isUpgrade), "", "");
    }
  }

  lemma RequestOpenedIDs(s: State, ev: Event)
    requires Keyed(s.store.traces) && Resolve(s.store.traces, ev.key).None?
    ensures IDs(OnRequestOpened(s, ev).store.traces) == IDs(s.store.traces)[ev.key := s.spans.next]
  {
    var prior := Recalled(s.store, ev.key, ev.occurredAt);
    var s1 := Recall(s, ev.key, ev.occurredAt);
    assert s1.store.traces == s.store.traces;
    OpenTraceIDs(s1, ev, AttemptAfter(prior), LinkTo(prior), RequestReason(prior), ev.requestID, ev.requestedBy);
    assert OnRequestOpened(s, ev).store == OpenTrace(s1, ev, AttemptAfter(prior), LinkTo(prior), RequestReason(prior),
                                                     ev.requestID, ev.requestedBy).store;
  }

  lemma GrabbedIDs(s: State, ev: Event)
    requires Keyed(s.store.traces)
    ensures IDs(OnGrabbed(s, ev).store.traces) ==
            if Resolve(s.store.traces, ev.key).None? then IDs(s.store.traces)[ev.key := s.spans.next]
            else IDs(s.store.traces)
  {
    var (k, s1) := GrabTarget(s, ev);
    GrabTargetIDs(s, ev);
    GrabIDs(s1, k, ev);
    ReplayIDs(Grab(s1, k, ev), k, ev.release.downloadID);
  }

  lemma CloseTraceIDs(s: State, k: MediaKey, at: Time, ok: bool, reason: string, outcome: Outcome, hadGrab: bool)
    requires k in s.store.traces
    ensures IDs(Settle(CloseTrace(s, k, at, ok, reason, outcome), k, hadGrab).store.traces) == IDs(s.store.traces) - {k}
  {
    hide StoreSpec.Delete, StoreSpec.RememberClosed;
    DeleteTraces(s.store, k);
    RememberKeeps(Delete(s.store, k), k,
                  ClosedTrace(s.store.traces[k].traceID, s.store.traces[k].attempt, outcome, at));
    IDsWithout(s.store.traces, k);
  }

  lemma RequestClosedIDs(s: State, ev: Event)
    requires Keyed(s.store.traces) && Resolve(s.store.traces, ev.key).Some?
    ensures IDs(OnRequestClosed(s, ev).store.traces) == IDs(s.store.traces) - {Resolve(s.store.traces, ev.key).value}
  {
    var k := Resolve(s.store.traces, ev.key).value;
    EndChildrenEdits(s, k, ev.occurredAt, true, "");
    var s1 := EndChildren(s, k, ev.occurredAt, true, "");
    IDsWith(s.store.traces, k, s1.store.traces[k]);
    CloseTraceIDs(s1, k, ev.occurredAt, ev.outcome.Available?, ev.errorReason, ev.outcome, s1.store.traces[k].hasGrab);
  }

  lemma ImportIDs(s: State, k: MediaKey, ev: Event)
    requires Keyed(s.store.traces) && k in s.store.traces
    ensures IDs(Import(s, k, ev).store.traces) == IDs(s.store.traces)
  {
    var at := ev.occurredAt;
    var s1 := EndOpenDownload(s, k, at, true, "");
    EndDownloadEdits(s, k, at, true, "");
    var s2 := EmitUnder(s1, k, ImportSpanName(ev.source), Earlier(s1.store.traces[k].updatedAt, at), at);
    EndGrabEdits(s2, k, at, true, "");
    var s3 := Touch(EndOpenGrab(s2, k, at, true, ""), k, at);
    assert s3.store.traces == s.store.traces[k := s3.store.traces[k]];
    SavedIDs(s, k, s3);
  }

  lemma ImportedIDs(s: State, ev: Event)
    requires Keyed(s.store.traces) && ev.phase.Imported?
    ensures IDs(OnImported(s, ev).store.traces) ==
            match Settled(s, ev) case Some(k) => IDs(s.store.traces) - {k} case None => IDs(s.store.traces)
  {
    if Resolve(s.store.traces, ev.key).Some? {
      var k := Resolve(s.store.traces, ev.key).value;
      ImportIDs(s, k, ev);
      ImportSource(s, k, ev);
      ImportClosedIDs(s, Import(s, k, ev), k, ev);
    }
  }

  lemma ImportClosedIDs(s: State, s1: State, k: MediaKey, ev: Event)
    requires Resolve(s.store.traces, ev.key) == Some(k) && s1 == Import(s, k, ev)
    ensures var t := s1.store.traces[k];
            IDs(OnImported(s, ev).store.traces) ==
            if t.source == SOURCE_SONARR || t.source == SOURCE_RADARR then IDs(s1.store.traces) - {k}
            else IDs(s1.store.traces)
  {
    var t := s1.store.traces[k];
    CloseTraceIDs(s1, k, ev.occurredAt, true, "", Available, t.hasGrab);
    assert OnImported(s, ev) ==
           if t.source == SOURCE_SONARR || t.source == SOURCE_RADARR
           then Settle(CloseTrace(s1, k, ev.occurredAt, true, "", Available), k, t.hasGrab) else s1;
  }

  lemma DownloadDoneIDs(s: State, ev: Event)
    requires Keyed(s.store.traces)
    ensures IDs(OnDownloadDone(s, ev).store.traces) == IDs(s.store.traces)
  {
    hide EndDownload, EmitUnder, Touch;
    if ByDownloadID(s.store, ev.release.downloadID).Some? {
      var k := ByDownloadID(s.store, ev.release.downloadID).value;
      var s1 := if s.store.traces[k].hasDownload
                then EndDownload(s, k, ev.occurredAt, ev.errorReason == "", ev.errorReason)
                else EmitUnder(s, k, SPAN_DOWNLOAD, ev.occurredAt, ev.occurredAt);
      DownloadDoneEdits(s, k, ev.occurredAt, ev.errorReason == "", ev.errorReason);
      SavedIDs(s, k, Touch(s1, k, ev.occurredAt));
    }
  }

  lemma AmendedIDs(s: State, k: MediaKey, u: Trace)
    requires Keyed(s.store.traces) && k in s.store.traces && Continues(s.store.traces[k], u)
    ensures IDs(Save(Amend(s, k, u), k).store.traces) == IDs(s.store.traces)
  {
    SavedIDs(s, k, Amend(s, k, u));
  }

  /** Which traces an event leaves: a request or a stray grab opens one, a completion drops one. */
  function IDsAfter(s: State, ev: Event): map<MediaKey, ID> {
    if (ev.phase.RequestOpened? || ev.phase.Grabbed?) && Resolve(s.store.traces, ev.key).None?
    then IDs(s.store.traces)[ev.key := s.spans.next]
    else match Settled(s, ev) case Some(k) => IDs(s.store.traces) - {k} case None => IDs(s.store.traces)
  }

  lemma RequestApprovedIDs(s: State, ev: Event)
    requires Keyed(s.store.traces)
    ensures IDs(OnRequestApproved(s, ev).store.traces) == IDs(s.store.traces)
  {
    if Resolve(s.store.traces, ev.key).Some? {
      var k := Resolve(s.store.traces, ev.key).value;
      AmendedIDs(s, k, s.store.traces[k].(searchStart := ev.occurredAt, updatedAt := ev.occurredAt));
    }
  }

  lemma ManualNeededIDs(s: State, ev: Event)
    requires Keyed(s.store.traces)
    ensures IDs(OnManualNeeded(s, ev).store.traces) == IDs(s.store.traces)
  {
    if Resolve(s.store.traces, ev.key).Some? {
      var k := Resolve(s.store.traces, ev.key).value;
      AmendedIDs(s, k, s.store.traces[k].(lastError := ERR_MANUAL, updatedAt := ev.occurredAt));
    }
  }

  lemma DownloadStartedIDs(s: State, ev: Event)
    requires Keyed(s.store.traces)
    ensures IDs(OnDownloadStart(s, ev).store.traces) == IDs(s.store.traces)
  {
    if ByDownloadID(s.store, ev.release.downloadID).Some? {
      DownloadStartIDs(s, ByDownloadID(s.store, ev.release.downloadID).value, ev);
    }
  }

  /** A second request, or the end of an unknown one, changes nothing. */
  lemma RequestIgnored(s: State, ev: Event)
    ensures Resolve(s.store.traces, ev.key).Some? ==> OnRequestOpened(s, ev) == s
    ensures Resolve(s.store.traces, ev.key).None? ==> OnRequestClosed(s, ev) == s
  {
  }

  lemma HandleIDs(s: State, ev: Event)
    requires Keyed(s.store.traces)
    ensures IDs(Handle(s, ev).store.traces) == IDsAfter(s, ev)
  {
    hide OnRequestOpened, OnRequestApproved, OnRequestClosed, OnGrabbed, OnDownloadStart, OnDownloadDone,
      OnImported, OnManualNeeded;
    var target := Resolve(s.store.traces, ev.key);
    RequestIgnored(s, ev);
    match ev.phase
    case RequestOpened => if target.None? { RequestOpenedIDs(s, ev); }
    case RequestApproved => RequestApprovedIDs(s, ev);
    case RequestClosed => if target.Some? { RequestClosedIDs(s, ev); }
    case Grabbed => GrabbedIDs(s, ev);
    case DownloadStart => DownloadStartedIDs(s, ev);
    case DownloadDone => DownloadDoneIDs(s, ev);
    case Imported => ImportedIDs(s, ev);
    case ManualNeeded => ManualNeededIDs(s, ev);
    case OtherPhase(_) =>
  }

  // ---------- fresh IDs ----------

  lemma EndChildrenNext(s: State, k: MediaKey, at: Time, ok: bool, reason: string)
    requires k in s.store.traces
    ensures EndChildren(s, k, at, ok, reason).spans.next == s.spans.next
  {
    assert EndOpenDownload(s, k, at, ok, reason).spans.next == s.spans.next;
  }

  lemma GrabNext(s: State, k: MediaKey, ev: Event)
    requires k in s.store.traces
    ensures Grab(s, k, ev).spans.next >= s.spans.next
  {
    var s1 := EmitSearch(s, k, ev.occurredAt);
    var s2 := EndOpenGrab(s1, k, ev.occurredAt, false, ERR_SUPERSEDED);
    assert s2.spans.next == s1.spans.next == s.spans.next;
  }

  lemma GrabTargetNext(s: State, ev: Event)
    ensures GrabTarget(s, ev).1.spans.next >= s.spans.next
    ensures Resolve(s.store.traces, ev.key).None? ==> GrabTarget(s, ev).1.spans.next > s.spans.next
  {
  }

  lemma GrabbedNext(s: State, ev: Event)
    ensures OnGrabbed(s, ev).spans.next >= s.spans.next
    ensures Resolve(s.store.traces, ev.key).None? ==> OnGrabbed(s, ev).spans.next > s.spans.next
  {
    var (k, s1) := GrabTarget(s, ev);
    GrabTargetNext(s, ev);
    GrabNext(s1, k, ev);
    var s2 := Grab(s1, k, ev);
    assert Replay(s2, k, ev.release.downloadID).spans.next >= s2.spans.next;
  }

  lemma ImportNext(s: State, k: MediaKey, ev: Event)
    requires k in s.store.traces
    ensures Import(s, k, ev).spans.next == s.spans.next
  {
    var at := ev.occurredAt;
    var s1 := EndOpenDownload(s, k, at, true, "");
    assert s1.spans.next == s.spans.next;
    var s2 := EmitUnder(s1, k, ImportSpanName(ev.source), Earlier(s1.store.traces[k].updatedAt, at), at);
    assert EndOpenGrab(s2, k, at, true, "").spans.next == s2.spans.next;
  }

  lemma CloseTraceNext(s: State, k: MediaKey, at: Time, ok: bool, reason: string, outcome: Outcome, hadGrab: bool)
    requires k in s.store.traces
    ensures Settle(CloseTrace(s, k, at, ok, reason, outcome), k, hadGrab).spans.next == s.spans.next
    ensures CloseTrace(s, k, at, ok, reason, outcome).spans.next == s.spans.next
  {
  }

  lemma RequestClosedNext(s: State, ev: Event)
    ensures OnRequestClosed(s, ev).spans.next == s.spans.next
  {
    if Resolve(s.store.traces, ev.key).Some? {
      var k := Resolve(s.store.traces, ev.key).value;
      EndChildrenNext(s, k, ev.occurredAt, true, "");
      var s1 := EndChildren(s, k, ev.occurredAt, true, "");
      CloseTraceNext(s1, k, ev.occurredAt, ev.outcome.Available?, ev.errorReason, ev.outcome,
                     s1.store.traces[k].hasGrab);
    }
  }

  lemma ImportedNext(s: State, ev: Event)
    ensures OnImported(s, ev).spans.next == s.spans.next
  {
    if Resolve(s.store.traces, ev.key).Some? {
      var k := Resolve(s.store.traces, ev.key).value;
      ImportNext(s, k, ev);
      var s1 := Import(s, k, ev);
      CloseTraceNext(s1, k, ev.occurredAt, true, "", Available, s1.store.traces[k].hasGrab);
    }
  }

  lemma OtherNext(s: State, ev: Event)
    ensures OnRequestOpened(s, ev).spans.next >= s.spans.next
    ensures Resolve(s.store.traces, ev.key).None? ==> OnRequestOpened(s, ev).spans.next > s.spans.next
    ensures OnRequestApproved(s, ev).spans.next == s.spans.next == OnManualNeeded(s, ev).spans.next
  {
  }

  lemma DownloadNext(s: State, ev: Event)
    ensures OnDownloadStart(s, ev).spans.next >= s.spans.next
    ensures OnDownloadDone(s, ev).spans.next == s.spans.next
  {
  }

  /** IDs once used are never handed out again. */
  lemma HandleNext(s: State, ev: Event)
    ensures Handle(s, ev).spans.next >= s.spans.next
    ensures (ev.phase.RequestOpened? || ev.phase.Grabbed?) && Resolve(s.store.traces, ev.key).None? ==>
              Handle(s, ev).spans.next > s.spans.next
  {
    match ev.phase
    case Grabbed => GrabbedNext(s, ev);
    case RequestClosed => RequestClosedNext(s, ev);
    case Imported => ImportedNext(s, ev);
    case DownloadStart => DownloadNext(s, ev);
    case DownloadDone => DownloadNext(s, ev);
    case _ => OtherNext(s, ev);
  }

  // ---------- the result without sweeps ----------

  /** The IDs of the traces that requests opened in this process, on top of `ids`. */
  function RequestIDs(s: State, acts: seq<Action>, ids: set<ID>): set<ID>
    decreases |acts|
  {
    if acts == [] then ids else RequestIDs(Step(s, acts[0]), acts[1..], NextRequestIDs(s, acts[0], ids))
  }

  function NextRequestIDs(s: State, a: Action, ids: set<ID>): set<ID> {
    if a.Restart? then {} else if OpensRequest(s, a) then ids + {s.spans.next} else ids
  }

  /** The keys of the live traces among `ids`. */
  function LiveAmong(live: map<MediaKey, ID>, ids: set<ID>): set<MediaKey> {
    set k | k in live && live[k] in ids
  }

  /**
   * The timing entries are those of the live traces among `ids`, and apart from them those under the keys `left`,
   * which sweeps have left behind; all IDs in use are below the next one.
   */
  ghost predicate TimedExactly(s: State, ids: set<ID>, left: set<MediaKey>) {
    && s.timing.Keys == LiveAmong(IDs(s.store.traces), ids) + left
    && LiveAmong(IDs(s.store.traces), ids) !! left
    && Below(IDs(s.store.traces), ids, s.spans.next)
  }

  /** The keys whose timing entry a sweep left behind, after a step: a later request or completion takes them over. */
  function NextLeft(s: State, a: Action, ids: set<ID>, left: set<MediaKey>): set<MediaKey> {
    match a
    case Restart(_, _) => {}
    case SweepAt(now, ttl, _) => left + LiveAmong(IDs(s.store.traces), ids) * StaleKeys(s.store, ttl, now)
    case _ =>
      if OpensRequest(s, a) then left - {a.ev.key}
      else match SettledBy(s, a) case Some(k) => left - {k} case None => left
  }

  function LeftBySweeps(s: State, acts: seq<Action>, ids: set<ID>, left: set<MediaKey>): set<MediaKey>
    decreases |acts|
  {
    if acts == [] then left
    else LeftBySweeps(Step(s, acts[0]), acts[1..], NextRequestIDs(s, acts[0], ids), NextLeft(s, acts[0], ids, left))
  }

  ghost predicate Below(live: map<MediaKey, ID>, ids: set<ID>, next: ID) {
    (forall id :: id in ids ==> id < next) && forall k :: k in live ==> live[k] < next
  }

  lemma LiveAmongMoved(live: map<MediaKey, ID>, ids: set<ID>, next: ID, k: MediaKey)
    requires Below(live, ids, next)
    ensures LiveAmong(live - {k}, ids) == LiveAmong(live, ids) - {k}
    ensures k !in live ==> LiveAmong(live[k := next], ids + {next}) == LiveAmong(live, ids) + {k}
    ensures k !in live ==> LiveAmong(live[k := next], ids) == LiveAmong(live, ids)
  {
  }

  lemma BelowMoved(live: map<MediaKey, ID>, ids: set<ID>, next: ID, k: MediaKey, next': ID)
    requires Below(live, ids, next) && next <= next'
    ensures Below(live, ids, next') && Below(live - {k}, ids, next')
    ensures next < next' ==> Below(live[k := next], ids, next') && Below(live[k := next], ids + {next}, next')
  {
  }

  lemma EventTimed(s: State, ev: Event, ids: set<ID>, left: set<MediaKey>)
    requires Keyed(s.store.traces) && TimedExactly(s, ids, left)
    ensures var opens := ev.phase.RequestOpened? && Resolve(s.store.traces, ev.key).None?;
            TimedExactly(Handle(s, ev), if opens then ids + {s.spans.next} else ids,
                         if opens then left - {ev.key}
                         else match Settled(s, ev) case Some(k) => left - {k} case None => left)
  {
    hide Handle;
    HandleTiming(s, ev);
    HandleIDs(s, ev);
    HandleNext(s, ev);
    var r, live, next := Handle(s, ev), IDs(s.store.traces), s.spans.next;
    if (ev.phase.RequestOpened? || ev.phase.Grabbed?) && Resolve(s.store.traces, ev.key).None? {
      assert ev.key !in live;
      LiveAmongMoved(live, ids, next, ev.key);
      BelowMoved(live, ids, next, ev.key, r.spans.next);
    } else if Settled(s, ev).Some? {
      var k := Settled(s, ev).value;
      assert r.timing.Keys == s.timing.Keys - {k};
      LiveAmongMoved(live, ids, next, k);
      BelowMoved(live, ids, next, k, r.spans.next);
    }
  }

  lemma SweptIDs(s: State, a: Action)
    requires a.SweepAt? && Enabled(s, a)
    ensures var r := Step(s, a);
            && IDs(r.store.traces) == IDs(s.store.traces) - StaleKeys(s.store, a.ttl, a.now)
            && r.timing == s.timing && r.spans.next == s.spans.next
  {
    hide SweptTables, Listing, Gather, AllChunks;
    SweepExact(s, a.order, a.now, a.ttl);
    SweepSwept(s, a.order, a.now);
    var traces, stale := s.store.traces, StaleKeys(s.store, a.ttl, a.now);
    assert IDs(traces - stale) == IDs(traces) - stale;
  }

  lemma LiveAmongSwept(live: map<MediaKey, ID>, ids: set<ID>, swept: set<MediaKey>)
    ensures LiveAmong(live - swept, ids) == LiveAmong(live, ids) - swept
  {
  }

  lemma SweepTimed(s: State, a: Action, ids: set<ID>, left: set<MediaKey>)
    requires TimedExactly(s, ids, left) && a.SweepAt? && Enabled(s, a)
    ensures TimedExactly(Step(s, a), ids, NextLeft(s, a, ids, left))
  {
    hide Step, LiveAmong;
    SweptIDs(s, a);
    var live, swept := IDs(s.store.traces), StaleKeys(s.store, a.ttl, a.now);
    LiveAmongSwept(live, ids, swept);
    var timed := LiveAmong(live, ids);
    assert timed == (timed - swept) + timed * swept;
  }

  lemma QueueTimed(s: State, id: string, status: string, when: Time, ids: set<ID>, left: set<MediaKey>)
    requires Keyed(s.store.traces) && TimedExactly(s, ids, left)
    ensures TimedExactly(NoteQueueIssue(s, id, status, when), ids, left)
  {
    hide LiveAmong, IDs;
    if ByDownloadID(s.store, id).Some? {
      var k := ByDownloadID(s.store, id).value;
      var t := s.store.traces[k];
      AmendedIDs(AnnotateUnder(s, k, NoticeTarget(t), "queue.stalled", when), k,
                 t.(lastError := "arr.queue_" + status, updatedAt := when));
    }
  }

  lemma DeliveryTimed(s: State, ev: Event, ids: set<ID>, left: set<MediaKey>)
    requires Keyed(s.store.traces) && TimedExactly(s, ids, left)
    ensures TimedExactly(Process(s, ev), NextRequestIDs(s, Deliver(ev), ids), NextLeft(s, Deliver(ev), ids, left))
  {
    hide Handle, LiveAmong, IDs;
    var s1 := s.(store := SeenEvent(s.store, ev.source, ev.eventID, ev.occurredAt));
    assert s1.store.traces == s.store.traces;
    assert TimedExactly(s1, ids, left);
    EventTimed(s1, ev, ids, left);
  }

  lemma RecoveredIDs(s: State, r: State)
    requires Recovered(s, r)
    ensures IDs(r.store.traces) == IDs(s.store.traces) && r.timing.Keys == {} && r.spans.next == s.spans.next
  {
  }

  lemma RestartTimed(s: State, reopened: StoreState, order: seq<MediaKey>, ids: set<ID>, left: set<MediaKey>)
    requires TracesSynced(s.store) && TimedExactly(s, ids, left) && Enabled(s, Restart(reopened, order))
    ensures TimedExactly(Step(s, Restart(reopened, order)), {}, {})
  {
    RestartRestoresTraces(s, reopened, order);
    var r := Step(s, Restart(reopened, order));
    RecoveredIDs(s, r);
    assert LiveAmong(IDs(r.store.traces), {}) == {};
  }

  lemma StepTimed(s: State, a: Action, ids: set<ID>, left: set<MediaKey>)
    requires TracesSynced(s.store) && TimedExactly(s, ids, left) && Enabled(s, a)
    ensures TimedExactly(Step(s, a), NextRequestIDs(s, a, ids), NextLeft(s, a, ids, left))
  {
    hide TimedExactly, TracesMirrored, Process, NoteQueueIssue, Sweep;
    match a
    case Deliver(ev) => DeliveryTimed(s, ev, ids, left);
    case QueueIssue(id, status, when) => QueueTimed(s, id, status, when, ids, left);
    case SweepAt(_, _, _) => SweepTimed(s, a, ids, left);
    case Restart(reopened, order) => RestartTimed(s, reopened, order, ids, left);
  }

  lemma {:induction false} RunTimed(s: State, acts: seq<Action>, ids: set<ID>, left: set<MediaKey>)
    requires TracesSynced(s.store) && TimedExactly(s, ids, left) && CanRun(s, acts)
    ensures TimedExactly(Run(s, acts), RequestIDs(s, acts, ids), LeftBySweeps(s, acts, ids, left))
    decreases |acts|
  {
    hide TimedExactly, TracesMirrored;
    if acts != [] {
      StepTimed(s, acts[0], ids, left);
      StepTracesSynced(s, acts[0]);
      RunTimed(Step(s, acts[0]), acts[1..], NextRequestIDs(s, acts[0], ids), NextLeft(s, acts[0], ids, left));
    }
  }

  /**
   * Over every run from a first process the request gauge is the number of live traces that requests opened in
   * this process, plus the timing entries that sweeps left behind, plus the request-opens that overwrote one.
   */
  lemma GaugeExact(s: State, acts: seq<Action>)
    requires Initial(s) && CanRun(s, acts)
    ensures var r := Run(s, acts); var live := LiveAmong(IDs(r.store.traces), RequestIDs(s, acts, {}));
            var left := LeftBySweeps(s, acts, {}, {});
            live !! left && r.gauges.request == |live| + |left| + Overwrites(s, acts, 0)
  {
    hide Run, CanRun;
    GaugeAccounted(s, acts, 0);
    assert TimedExactly(s, {}, {}) by { assert LiveAmong(IDs(s.store.traces), {}) == {}; }
    EmptySynced(s);
    RunTimed(s, acts, {}, {});
  }

  predicate SweepFree(acts: seq<Action>) {
    forall i :: 0 <= i < |acts| ==> !acts[i].SweepAt?
  }

  /** Without sweeps no timing entry is left behind, and a request-open never finds one for its key. */
  lemma {:induction false} NothingLeft(s: State, acts: seq<Action>, ids: set<ID>)
    requires TracesSynced(s.store) && TimedExactly(s, ids, {}) && CanRun(s, acts) && SweepFree(acts)
    ensures Overwrites(s, acts, 0) == 0 && LeftBySweeps(s, acts, ids, {}) == {}
    decreases |acts|
  {
    hide TimedExactly, TracesMirrored;
    if acts != [] {
      StepTimed(s, acts[0], ids, {});
      StepTracesSynced(s, acts[0]);
      OpensUntimed(s, acts[0], ids);
      assert NextLeft(s, acts[0], ids, {}) == {};
      NothingLeft(Step(s, acts[0]), acts[1..], NextRequestIDs(s, acts[0], ids));
    }
  }

  lemma OpensUntimed(s: State, a: Action, ids: set<ID>)
    requires TimedExactly(s, ids, {})
    ensures OpensRequest(s, a) ==> a.ev.key !in s.timing
  {
  }

  /** In sweep-free runs the request gauge is the number of live traces that requests opened in this process. */
  lemma GaugeCountsRequests(s: State, acts: seq<Action>)
    requires Initial(s) && CanRun(s, acts) && SweepFree(acts)
    ensures var r := Run(s, acts);
            r.gauges.request == |LiveAmong(IDs(r.store.traces), RequestIDs(s, acts, {}))|
  {
    hide Run, CanRun;
    GaugeExact(s, acts);
    assert TimedExactly(s, {}, {}) by { assert LiveAmong(IDs(s.store.traces), {}) == {}; }
    EmptySynced(s);
    NothingLeft(s, acts, {});
  }

  lemma OnlyStale(st: StoreState, k: MediaKey, now: Time, ttl: int)
    requires st.traces.Keys == {k} && st.traces[k].updatedAt < now - ttl
    ensures StaleKeys(st, ttl, now) == {k}
  {
  }

  lemma RunTwo(s: State, a: Action, b: Action)
    ensures CanRun(s, [a, b]) <==> Enabled(s, a) && Enabled(Step(s, a), b)
    ensures Run(s, [a, b]) == Step(Step(s, a), b)
  {
    hide Step, Enabled;
    assert [a, b][1..] == [b] && [b][1..] == [];
    assert Run(Step(s, a), [b]) == Run(Step(Step(s, a), b), []);
    assert CanRun(Step(s, a), [b]) <==> Enabled(Step(s, a), b) && CanRun(Step(Step(s, a), b), []);
  }

  /** With a sweep it is not: one request, timed out, still counts. */
  lemma SweptRequestCounts(s: State, ev: Event, now: Time, ttl: int)
    requires Initial(s) && ev.phase.RequestOpened? && ev.occurredAt < now - ttl
    ensures var acts := [Deliver(ev), SweepAt(now, ttl, [ev.key])]; var r := Run(s, acts);
            CanRun(s, acts) && r.store.traces == map[] && r.gauges.request == 1
  {
    hide Step, Run, CanRun, StaleKeys;
    var sweep := SweepAt(now, ttl, [ev.key]);
    var s1 := Step(s, Deliver(ev));
    OpenedAlone(s, ev);
    OnlyStale(s1.store, ev.key, now, ttl);
    SweepExact(s1, [ev.key], now, ttl);
    RunTwo(s, Deliver(ev), sweep);
  }

  lemma OpenedAlone(s: State, ev: Event)
    requires Initial(s) && ev.phase.RequestOpened?
    ensures var s1 := Step(s, Deliver(ev));
            && s1.store.traces.Keys == {ev.key} && s1.store.traces[ev.key].updatedAt == ev.occurredAt
            && s1.gauges.request == 1
  {
  }
}
