/**
 * What the records say of the past, over every run: since when a trace is searched for, how and when a key's last
 * trace ended, and so why the next one is opened.
 */
module TraceHistory {
  import opened Types
  import opened StoreSpec
  import opened SpanSpec
  import opened EngineSpec
  import opened StoreChanges
  import opened CrashRecovery
  import opened SweepOrder
  import opened SpanDiscipline
  import opened LogGrowth
  import opened AttemptHistory
  import opened StepEffects
  import opened EventCalls
  import opened CallLists
  import opened Dedup

  predicate Taken(s: State, ev: Event) {
    Accepts(s.store, ev.source, ev.eventID, ev.occurredAt)
  }

  // ---------- since when a trace is searched for ----------

  /** The key that the step opens a trace for, or approves the request of. */
  function Searches(s: State, a: Action): Option<MediaKey> {
    if !a.Deliver? || !Taken(s, a.ev) then None
    else
      match Resolve(s.store.traces, a.ev.key)
      case None => if a.ev.phase.RequestOpened? || a.ev.phase.Grabbed? then Some(a.ev.key) else None
      case Some(k) => if a.ev.phase.RequestApproved? then Some(k) else None
  }

  function SearchedAfter(s: State, a: Action, times: map<MediaKey, Time>): map<MediaKey, Time> {
    match Searches(s, a) case None => times case Some(k) => times[k := a.ev.occurredAt]
  }

  /** For each key the time of its last opening or approval. */
  function SearchTimes(s: State, acts: seq<Action>, times: map<MediaKey, Time>): map<MediaKey, Time>
    decreases |acts|
  {
    if acts == [] then times else SearchTimes(Step(s, acts[0]), acts[1..], SearchedAfter(s, acts[0], times))
  }

  ghost predicate SearchedSince(traces: map<MediaKey, Trace>, times: map<MediaKey, Time>) {
    forall k :: k in traces ==> k in times && traces[k].searchStart == times[k]
  }

  /** What a step saves a trace with starts its search if the step is an opening or an approval, and else keeps it. */
  lemma SavedSearch(s: State, a: Action)
    ensures Searches(s, a).Some? ==> StepEffect(s, a).Saved? && StepEffect(s, a).k == Searches(s, a).value
    ensures var e := StepEffect(s, a);
            e.Saved? ==>
              if Searches(s, a).Some? then e.mark.searchStart == a.ev.occurredAt
              else e.k in s.store.traces && e.mark.searchStart == s.store.traces[e.k].searchStart
  {
    hide Accepts, ReplaysInto;
  }

  lemma EffectSearched(s: State, a: Action, times: map<MediaKey, Time>, traces: map<MediaKey, Trace>)
    requires SearchedSince(s.store.traces, times)
    requires match StepEffect(s, a)
             case Nothing => Marks(traces) == Marks(s.store.traces)
             case Saved(k, m) => Marks(traces) == Marks(s.store.traces)[k := m]
             case Ended(keys) => Marks(traces) == Marks(s.store.traces) - keys
    ensures SearchedSince(traces, SearchedAfter(s, a, times))
  {
    hide StepEffect, Searches;
    forall k | k in traces
      ensures var times' := SearchedAfter(s, a, times);
              k in times' && traces[k].searchStart == times'[k]
    {
      assert k in Marks(traces) && Marks(traces)[k] == MarkOf(traces[k]);
      if k in s.store.traces { assert Marks(s.store.traces)[k] == MarkOf(s.store.traces[k]); }
      if StepEffect(s, a).Saved? && StepEffect(s, a).k == k { SavedSearch(s, a); }
      else { assert Searches(s, a) != Some(k) by { SavedSearch(s, a); } }
    }
  }

  lemma StepSearched(s: State, a: Action, times: map<MediaKey, Time>)
    requires TracesSynced(s.store) && Enabled(s, a) && SearchedSince(s.store.traces, times)
    ensures SearchedSince(Step(s, a).store.traces, SearchedAfter(s, a, times))
  {
    hide Step, StepEffect, Enabled, TracesMirrored, SearchedSince, SearchedAfter;
    if a.Restart? {
      RestartMarks(s, a);
      assert StepEffect(s, a) == Nothing by { RestartNothing(s, a); }
    } else {
      StepTakes(s, a);
    }
    EffectSearched(s, a, times, Step(s, a).store.traces);
  }

  lemma RestartNothing(s: State, a: Action)
    requires a.Restart?
    ensures StepEffect(s, a) == Nothing
  {
  }

  lemma {:induction false} RunSearched(s: State, acts: seq<Action>, times: map<MediaKey, Time>)
    requires TracesSynced(s.store) && CanRun(s, acts) && SearchedSince(s.store.traces, times)
    ensures SearchedSince(Run(s, acts).store.traces, SearchTimes(s, acts, times))
    decreases |acts|
  {
    hide Step, TracesMirrored, SearchedSince, SearchedAfter;
    if acts != [] {
      StepSearched(s, acts[0], times);
      StepTracesSynced(s, acts[0]);
      RunSearched(Step(s, acts[0]), acts[1..], SearchedAfter(s, acts[0], times));
    }
  }

  /** Over every run a live trace is searched for since its last approval, or its opening if there was none. */
  lemma SearchStartsLast(s: State, acts: seq<Action>, k: MediaKey)
    requires Initial(s) && CanRun(s, acts) && k in Run(s, acts).store.traces
    ensures var times := SearchTimes(s, acts, map[]);
            k in times && Run(s, acts).store.traces[k].searchStart == times[k]
  {
    EmptySynced(s);
    RunSearched(s, acts, map[]);
  }

  // ---------- how and when a key's last trace ended ----------

  datatype Ending = Ending(outcome: Outcome, at: Time)

  /** The traces that the step ends, and how. */
  function Endings(s: State, a: Action): map<MediaKey, Ending> {
    match a
    case Deliver(ev) =>
      if !Taken(s, ev) || Resolve(s.store.traces, ev.key).None? then map[]
      else
        var k := Resolve(s.store.traces, ev.key).value;
        if ev.phase.RequestClosed? then map[k := Ending(ev.outcome, ev.occurredAt)]
        else if ev.phase.Imported?
                && (s.store.traces[k].source == "sonarr" || s.store.traces[k].source == "radarr")
        then map[k := Ending(Available, ev.occurredAt)]
        else map[]
    case SweepAt(now, ttl, _) =>
      map k | k in s.store.traces && s.store.traces[k].updatedAt < now - ttl :: Ending(Timeout, now)
    case _ => map[]
  }

  /** For each key its last ending. */
  function LastEndings(s: State, acts: seq<Action>, ends: map<MediaKey, Ending>): map<MediaKey, Ending>
    decreases |acts|
  {
    if acts == [] then ends else LastEndings(Step(s, acts[0]), acts[1..], ends + Endings(s, acts[0]))
  }

  predicate Tells(c: ClosedTrace, e: Ending) {
    c.outcome == e.outcome && c.closedAt == e.at
  }

  /** The closed records after a step: those of the endings, and of the earlier ones at least the unexpired. */
  ghost predicate Closes(s: State, a: Action, r: State) {
    && r.store.recallTTL == s.store.recallTTL
    && (forall k :: k in Endings(s, a) ==> k in r.store.closed && Tells(r.store.closed[k], Endings(s, a)[k]))
    && (forall k :: k in r.store.closed && k !in Endings(s, a) ==>
          k in s.store.closed && r.store.closed[k] == s.store.closed[k])
    && (forall k :: k in s.store.closed && Outlives(s.store.closed[k], a, s.store.recallTTL) ==> k in r.store.closed)
  }

  /** At the time of the action, if it has one, the record is not expired. */
  predicate Outlives(c: ClosedTrace, a: Action, recallTTL: nat) {
    ActionTime(a).Some? ==> c.closedAt >= ActionTime(a).value - recallTTL
  }

  lemma SameCloses(s: State, a: Action, r: State)
    requires r.store.recallTTL == s.store.recallTTL && r.store.closed == s.store.closed && Endings(s, a) == map[]
    ensures Closes(s, a, r)
  {
  }

  lemma RetireCloses(s: State, ev: Event, k: MediaKey, r: State, outcome: Outcome)
    requires k in s.store.traces && Retires(s, r, k, outcome, ev.occurredAt) && r.store.recallTTL == s.store.recallTTL
    requires Endings(s, Deliver(ev)) == map[k := Ending(outcome, ev.occurredAt)]
    ensures Closes(s, Deliver(ev), r)
  {
  }

  lemma ProcessTTL(s: State, ev: Event)
    requires Keyed(s.store.traces)
    ensures Process(s, ev).store.recallTTL == s.store.recallTTL
  {
    hide Process, SeenEvent;
    ProcessDedup(s, ev);
    SeenKeeps(s.store, ev);
  }

  lemma EndingCloses(s: State, ev: Event)
    requires Keyed(s.store.traces) && Taken(s, ev) && (ev.phase.RequestClosed? || ev.phase.Imported?)
    ensures Closes(s, Deliver(ev), Process(s, ev))
  {
    hide Process, Closes, Retires, Accepts, CtxOf, ImportCalls, DownloadEnd, GrabEnd, RootEnd;
    ProcessTTL(s, ev);
    var r := Process(s, ev);
    match Resolve(s.store.traces, ev.key) {
      case None =>
        Unmatched(s, ev);
        SameCloses(s, Deliver(ev), r);
      case Some(k) =>
        if ev.phase.RequestClosed? {
          RequestCloses(s, ev, k);
          RetireCloses(s, ev, k, r, ev.outcome);
        } else if s.store.traces[k].source == "sonarr" || s.store.traces[k].source == "radarr" {
          ImportCompletes(s, ev, k);
          RetireCloses(s, ev, k, r, Available);
        } else {
          Imports(s, ev, k);
          SameCloses(s, Deliver(ev), r);
        }
    }
  }

  lemma OpeningCloses(s: State, ev: Event)
    requires Keyed(s.store.traces) && Taken(s, ev) && (ev.phase.RequestOpened? || ev.phase.Grabbed?)
    requires Resolve(s.store.traces, ev.key).None?
    ensures Closes(s, Deliver(ev), Process(s, ev))
  {
    hide Process, Accepts, Resolve, OpensRequest, OpensOrphan, GrabCalls, GrabRecord, Recalled, Times;
    ProcessTTL(s, ev);
    if ev.phase.RequestOpened? { RequestOpens(s, ev); } else { OrphanGrabLands(s, ev); }
  }

  lemma OtherCloses(s: State, ev: Event)
    requires Keyed(s.store.traces) && Taken(s, ev) && !ev.phase.RequestClosed? && !ev.phase.Imported?
    requires ev.phase.RequestOpened? || ev.phase.Grabbed? ==> Resolve(s.store.traces, ev.key).Some?
    ensures Closes(s, Deliver(ev), Process(s, ev))
  {
    hide Process, Closes, Accepts, Resolve, ByDownloadID, GrabCalls, GrabRecord, Times, CtxOf;
    ProcessTTL(s, ev);
    var live, found := Resolve(s.store.traces, ev.key), ByDownloadID(s.store, ev.release.downloadID);
    match ev.phase {
      case RequestApproved => if live.Some? { Approves(s, ev, live.value); } else { Unmatched(s, ev); }
      case ManualNeeded => if live.Some? { NeedsManual(s, ev, live.value); } else { Unmatched(s, ev); }
      case Grabbed => GrabLands(s, ev, live.value);
      case DownloadStart => if found.Some? { DownloadStarts(s, ev, found.value); } else { StartWaits(s, ev); }
      case DownloadDone => if found.Some? { DownloadEnds(s, ev, found.value); } else { Unmatched(s, ev); }
      case _ => Unmatched(s, ev);
    }
    SameCloses(s, Deliver(ev), Process(s, ev));
  }

  lemma EventCloses(s: State, ev: Event)
    requires Keyed(s.store.traces)
    ensures Closes(s, Deliver(ev), Process(s, ev))
  {
    hide Process, Closes, Accepts;
    if !Taken(s, ev) {
      ProcessTTL(s, ev);
      Unmatched(s, ev);
      SameCloses(s, Deliver(ev), Process(s, ev));
    } else if ev.phase.RequestClosed? || ev.phase.Imported? {
      EndingCloses(s, ev);
    } else if (ev.phase.RequestOpened? || ev.phase.Grabbed?) && Resolve(s.store.traces, ev.key).None? {
      OpeningCloses(s, ev);
    } else {
      OtherCloses(s, ev);
    }
  }

  lemma SweepCloses(s: State, a: Action)
    requires a.SweepAt? && Enabled(s, a)
    ensures Closes(s, a, Step(s, a))
  {
    hide Step, Closes, SweptClosed, Sweep, SweptSpans;
    SweepSwept(s, a.order, a.now);
    assert AsSet(a.order) == Endings(s, a).Keys;
    SweepIs(s, a);
    SweptCloses(s, a, Step(s, a));
  }

  lemma SweptCloses(s: State, a: Action, r: State)
    requires a.SweepAt? && r.store.closed == SweptClosed(s.store, Endings(s, a).Keys, a.now)
    requires r.store.recallTTL == s.store.recallTTL
    ensures Closes(s, a, r)
  {
  }

  lemma SweepIs(s: State, a: Action)
    requires a.SweepAt?
    ensures Step(s, a) == Sweep(s, a.order, a.now)
  {
  }

  lemma RestartCloses(s: State, a: Action)
    requires TracesSynced(s.store) && ClosedSynced(s.store) && KeysCodable(s.store) && Enabled(s, a) && a.Restart?
    ensures Closes(s, a, Step(s, a))
  {
    hide Step, TracesMirrored, ClosedMirrored;
    RestartRestoresClosed(s, a.reopened, a.order);
    RestartTTL(s, a);
    SameCloses(s, a, Step(s, a));
  }

  lemma RestartTTL(s: State, a: Action)
    requires TracesSynced(s.store) && Enabled(s, a) && a.Restart?
    ensures Step(s, a).store.recallTTL == s.store.recallTTL
  {
    hide TracesMirrored, RestoreKeys;
    OpenedSynced(s.store, a.reopened);
    var cs := RestoreChanges(Reboot(s, a.reopened), a.order);
    FollowsDedup(LoadAll(a.reopened), cs, Step(s, a).store);
  }

  lemma QueueCloses(s: State, a: Action)
    requires a.QueueIssue?
    ensures Closes(s, a, Step(s, a))
  {
    hide CloseSpan;
  }

  lemma StepCloses(s: State, a: Action)
    requires TracesSynced(s.store) && ClosedSynced(s.store) && KeysCodable(s.store) && Enabled(s, a)
    ensures Closes(s, a, Step(s, a))
  {
    hide Process, Closes, TracesMirrored, ClosedMirrored;
    match a
    case Deliver(ev) => EventCloses(s, ev);
    case QueueIssue(_, _, _) => QueueCloses(s, a);
    case SweepAt(_, _, _) => SweepCloses(s, a);
    case Restart(_, _) => RestartCloses(s, a);
  }

  /** The closed records tell of last endings; and of the endings inside the recall time none is missing. */
  ghost predicate Told(st: StoreState, ends: map<MediaKey, Ending>, now: Time) {
    && (forall k :: k in st.closed ==> k in ends && Tells(st.closed[k], ends[k]))
    && (forall k :: k in ends && ends[k].at >= now - st.recallTTL ==> k in st.closed)
  }

  lemma StepTold(s: State, a: Action, ends: map<MediaKey, Ending>, now: Time)
    requires Told(s.store, ends, now) && now <= Clock(now, a) && Closes(s, a, Step(s, a))
    ensures Told(Step(s, a).store, ends + Endings(s, a), Clock(now, a))
  {
    hide Step, Endings;
  }

  /** The time of the last event or sweep. */
  function ClockAfter(now: Time, acts: seq<Action>): Time
    decreases |acts|
  {
    if acts == [] then now else ClockAfter(Clock(now, acts[0]), acts[1..])
  }

  lemma {:induction false} RunTold(s: State, acts: seq<Action>, ends: map<MediaKey, Ending>, now: Time)
    requires TracesSynced(s.store) && ClosedSynced(s.store) && KeysCodable(s.store) && Told(s.store, ends, now)
    requires CanRun(s, acts) && Nondecreasing(now, acts) && forall i :: 0 <= i < |acts| ==> CodableAction(acts[i])
    ensures Told(Run(s, acts).store, LastEndings(s, acts, ends), ClockAfter(now, acts))
    decreases |acts|
  {
    hide Step, Told, Closes, Endings, TracesMirrored, ClosedMirrored, KeysCodable;
    if acts != [] {
      StepCloses(s, acts[0]);
      StepTold(s, acts[0], ends, now);
      StepTracesSynced(s, acts[0]);
      StepClosedSynced(s, acts[0]);
      RunTold(Step(s, acts[0]), acts[1..], ends + Endings(s, acts[0]), Clock(now, acts[0]));
    }
  }

  /**
   * Over every run whose times do not go back, restarts included, a key's closed record tells how and when its last
   * trace ended; and while that is inside the recall time the record is there.
   */
  lemma RecordsTellEndings(s: State, acts: seq<Action>, now: Time)
    requires Initial(s) && CanRun(s, acts) && Nondecreasing(now, acts)
    requires forall i :: 0 <= i < |acts| ==> CodableAction(acts[i])
    ensures Told(Run(s, acts).store, LastEndings(s, acts, map[]), ClockAfter(now, acts))
  {
    hide Run, CanRun;
    EmptySynced(s);
    RunTold(s, acts, map[], now);
  }

  /** Why there is another attempt, from how the last one ended. */
  predicate Because(reason: string, ev: Event, outcome: Outcome) {
    if ev.phase.Grabbed? && ev.release.isUpgrade then reason == "quality_upgrade"
    else if outcome == Failed || outcome == Timeout then reason == "failed_retry"
    else if ev.phase.RequestOpened? && outcome == Available then reason == "quality_upgrade"
    else reason == "manual"
  }

  /**
   * So when a key's last trace ended inside the recall time, the next root opened for it says why there is another:
   * by how that trace ended, or for a grab by its upgrade flag.
   */
  lemma OpenedBecause(s: State, acts: seq<Action>, now: Time, ev: Event)
    requires Initial(s) && CanRun(s, acts) && Nondecreasing(now, acts)
    requires forall i :: 0 <= i < |acts| ==> CodableAction(acts[i])
    requires ClockAfter(now, acts) <= ev.occurredAt && OpensRoot(Run(s, acts), Deliver(ev))
    requires var ends := LastEndings(s, acts, map[]);
             ev.key in ends && ends[ev.key].at >= ev.occurredAt - Run(s, acts).store.recallTTL
    ensures var r := Run(s, acts); var n := |r.spans.log|; var log := Process(r, ev).spans.log;
            n < |log| && log[n].RootOpened? && log[n].key == ev.key
            && Because(log[n].reason, ev, LastEndings(s, acts, map[])[ev.key].outcome)
  {
    hide Run, CanRun, Process, Accepts, LastEndings, GrabCalls, GrabRecord, OpensWith, Times;
    RecordsTellEndings(s, acts, now);
    var r := Run(s, acts);
    assert Recalled(r.store, ev.key, ev.occurredAt) == Some(r.store.closed[ev.key]);
    assert Keyed(r.store.traces) by { RunKeyed(s, acts); }
    if ev.phase.RequestOpened? { RequestOpens(r, ev); } else { OrphanGrabLands(r, ev); }
  }

  lemma RunKeyed(s: State, acts: seq<Action>)
    requires Initial(s) && CanRun(s, acts)
    ensures Keyed(Run(s, acts).store.traces)
  {
    EmptySynced(s);
    AlwaysTracesSynced(s, acts);
  }
}
