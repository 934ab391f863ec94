/**
 * When a step sets a live trace's update time back. With times that do not go back only a replay can: the parked
 * start is put on a trace that has been updated since, so that the trace can be stale at its own grab.
 */
module UpdateTimes {
  import opened Types
  import opened StoreSpec
  import opened EngineSpec
  import opened StoreChanges
  import opened CrashRecovery
  import opened Bookkeeping
  import opened SpanDiscipline
  import opened SweepOrder
  import opened Dedup
  import opened DownloadRace
  import opened StepEffects
  import opened RequestGauge
  import opened DownloadGauge

  /** A trace live in both states was updated earlier in the second. */
  ghost predicate Rewound(before: map<MediaKey, Trace>, after: map<MediaKey, Trace>) {
    exists k :: k in before && k in after && after[k].updatedAt < before[k].updatedAt
  }

  /** The step saves a live trace with an earlier update time. */
  predicate SetsBack(s: State, a: Action) {
    var e := StepEffect(s, a);
    e.Saved? && e.k in s.store.traces && e.mark.updatedAt < s.store.traces[e.k].updatedAt
  }

  lemma MarksRewound(before: map<MediaKey, Trace>, after: map<MediaKey, Trace>)
    ensures Rewound(before, after) <==>
            exists k :: k in Marks(before) && k in Marks(after)
                        && Marks(after)[k].updatedAt < Marks(before)[k].updatedAt
  {
    if k :| k in before && k in after && after[k].updatedAt < before[k].updatedAt {
      assert k in Marks(before) && k in Marks(after);
    }
  }

  lemma EffectRewinds(st: StoreState, e: Effect, st': StoreState)
    requires Takes(st, e, st')
    ensures Rewound(st.traces, st'.traces) <==>
            e.Saved? && e.k in st.traces && e.mark.updatedAt < st.traces[e.k].updatedAt
  {
    hide Rewound;
    MarksRewound(st.traces, st'.traces);
    if e.Saved? && e.k in st.traces { assert Marks(st.traces)[e.k] == MarkOf(st.traces[e.k]); }
  }

  /** Whatever the times: which steps set a trace back, restarts included. */
  lemma StepRewinds(s: State, a: Action)
    requires TracesSynced(s.store) && Enabled(s, a)
    ensures Rewound(s.store.traces, Step(s, a).store.traces) <==> SetsBack(s, a)
  {
    hide Step, Takes, Rewound, TracesMirrored, EffectOf;
    if a.Restart? {
      RestartMarks(s, a);
      MarksRewound(s.store.traces, Step(s, a).store.traces);
    } else {
      StepTakes(s, a);
      EffectRewinds(s.store, StepEffect(s, a), Step(s, a).store);
    }
  }

  /** No live trace was updated after `now`. */
  ghost predicate UpdatedBy(traces: map<MediaKey, Trace>, now: Time) {
    forall k :: k in traces ==> traces[k].updatedAt <= now
  }

  /** An accepted grab replays a start from before the last update of the live trace it lands on. */
  predicate Rewinds(s: State, a: Action) {
    && a.Deliver? && a.ev.phase.Grabbed? && Accepts(s.store, a.ev.source, a.ev.eventID, a.ev.occurredAt)
    && var k, id := LandsOn(s.store.traces, a.ev.key), a.ev.release.downloadID;
       && k in s.store.traces && !s.store.traces[k].hasDownload && id != "" && id in s.pending
       && s.pending[id].event.occurredAt < s.store.traces[k].updatedAt
  }

  /** The time that a step stamps what it saves with. */
  function SaveTime(a: Action): Option<Time> {
    match a
    case Deliver(ev) => Some(ev.occurredAt)
    case QueueIssue(_, _, when) => Some(when)
    case _ => None
  }

  function Later(now: Time, a: Action): Time {
    match SaveTime(a) case Some(t) => t case None => now
  }

  lemma SetsBackIffRewinds(s: State, a: Action, now: Time)
    requires UpdatedBy(s.store.traces, now) && now <= Later(now, a)
    ensures SetsBack(s, a) <==> Rewinds(s, a)
  {
  }

  /** If no trace was updated after the event, it sets one back exactly when it replays such a start. */
  lemma ProcessRewinds(s: State, ev: Event)
    requires Keyed(s.store.traces) && UpdatedBy(s.store.traces, ev.occurredAt)
    ensures Rewound(s.store.traces, Process(s, ev).store.traces) <==> Rewinds(s, Deliver(ev))
  {
    hide Process, Takes, Rewound, EffectOf, UpdatedBy, Rewinds;
    StepTakes(s, Deliver(ev));
    EffectRewinds(s.store, StepEffect(s, Deliver(ev)), Process(s, ev).store);
    SetsBackIffRewinds(s, Deliver(ev), ev.occurredAt);
  }

  // ---------- runs ----------

  predicate ClockRises(now: Time, acts: seq<Action>)
    decreases |acts|
  {
    acts == [] || (now <= Later(now, acts[0]) && ClockRises(Later(now, acts[0]), acts[1..]))
  }

  ghost predicate NeverRewound(s: State, acts: seq<Action>)
    decreases |acts|
  {
    acts == [] || (!Rewound(s.store.traces, Step(s, acts[0]).store.traces) && NeverRewound(Step(s, acts[0]), acts[1..]))
  }

  predicate NeverRewinds(s: State, acts: seq<Action>)
    decreases |acts|
  {
    acts == [] || (!Rewinds(s, acts[0]) && NeverRewinds(Step(s, acts[0]), acts[1..]))
  }

  lemma EffectUpdatedBy(st: StoreState, e: Effect, st': StoreState, now: Time)
    requires Takes(st, e, st') && UpdatedBy(st.traces, now) && (e.Saved? ==> e.mark.updatedAt <= now)
    ensures UpdatedBy(st'.traces, now)
  {
    forall k | k in st'.traces
      ensures st'.traces[k].updatedAt <= now
    {
      assert k in Marks(st'.traces) && Marks(st'.traces)[k] == MarkOf(st'.traces[k]);
      if e.Saved? && e.k == k {
        assert Marks(st'.traces)[k] == e.mark;
      } else {
        assert k in Marks(st.traces) && Marks(st'.traces)[k] == Marks(st.traces)[k] == MarkOf(st.traces[k]);
      }
    }
  }

  lemma SavedBy(s: State, a: Action, now: Time)
    requires ParkedBy(s, now) && now <= Later(now, a)
    ensures StepEffect(s, a).Saved? ==> StepEffect(s, a).mark.updatedAt <= Later(now, a)
  {
  }

  lemma StepUpdatedBy(s: State, a: Action, now: Time)
    requires TracesSynced(s.store) && Enabled(s, a) && now <= Later(now, a)
    requires UpdatedBy(s.store.traces, now) && ParkedBy(s, now)
    ensures UpdatedBy(Step(s, a).store.traces, Later(now, a)) && ParkedBy(Step(s, a), Later(now, a))
  {
    hide Step, Takes, TracesMirrored, StepEffect, Enabled;
    StepParked(s, a);
    StaysParkedBy(s, a, now);
    assert UpdatedBy(s.store.traces, Later(now, a));
    if a.Restart? {
      RestartMarks(s, a);
      SameMarksUpdatedBy(s.store.traces, Step(s, a).store.traces, Later(now, a));
    } else {
      StepTakes(s, a);
      SavedBy(s, a, now);
      EffectUpdatedBy(s.store, StepEffect(s, a), Step(s, a).store, Later(now, a));
    }
  }

  lemma SameMarksUpdatedBy(traces: map<MediaKey, Trace>, traces': map<MediaKey, Trace>, now: Time)
    requires Marks(traces') == Marks(traces) && UpdatedBy(traces, now)
    ensures UpdatedBy(traces', now)
  {
    forall k | k in traces'
      ensures traces'[k].updatedAt <= now
    {
      assert MarkOf(traces'[k]) == Marks(traces')[k] && k in Marks(traces);
    }
  }

  lemma StaysParkedBy(s: State, a: Action, now: Time)
    requires ParkedBy(s, now) && now <= Later(now, a)
    ensures forall id :: id in ParkedAfter(s, a) ==> ParkedAfter(s, a)[id].event.occurredAt <= Later(now, a)
  {
  }

  /** Over any run whose times do not go back: no trace is ever set back if and only if no step replays such a start. */
  lemma {:induction false} RewoundIffRewinds(s: State, acts: seq<Action>, now: Time)
    requires TracesSynced(s.store) && CanRun(s, acts) && ClockRises(now, acts)
    requires UpdatedBy(s.store.traces, now) && ParkedBy(s, now)
    ensures NeverRewound(s, acts) <==> NeverRewinds(s, acts)
    decreases |acts|
  {
    hide Step, TracesMirrored, Rewound, Rewinds, SetsBack, UpdatedBy, ParkedBy;
    if acts != [] {
      StepRewinds(s, acts[0]);
      SetsBackIffRewinds(s, acts[0], now);
      StepUpdatedBy(s, acts[0], now);
      StepTracesSynced(s, acts[0]);
      RewoundIffRewinds(Step(s, acts[0]), acts[1..], Later(now, acts[0]));
    }
  }

  lemma RewoundFromStart(s: State, acts: seq<Action>, now: Time)
    requires Initial(s) && CanRun(s, acts) && ClockRises(now, acts)
    ensures NeverRewound(s, acts) <==> NeverRewinds(s, acts)
  {
    EmptySynced(s);
    RewoundIffRewinds(s, acts, now);
  }

  // ---------- it does happen ----------

  /** The start comes first and is parked. */
  lemma StartWaits(s: State, start: Event)
    requires start.phase.DownloadStart? && Accepts(s.store, start.source, start.eventID, start.occurredAt)
    requires s.store.dlIndex == map[]
    ensures var r := Process(s, start); var id := start.release.downloadID;
            && r.store.traces == s.store.traces && r.store.dlIndex == map[]
            && id in r.pending && r.pending[id].event == start
  {
    hide SeenEvent;
    SeenKeeps(s.store, start);
    StartParked(s, start);
  }

  /**
   * From a first process on: a start parked for longer than the trace timeout makes the trace of its grab stale
   * at the very instant of the grab, so that a sweep then ends it.
   */
  lemma StaleAtItsGrab(s: State, start: Event, grab: Event, ttl: nat)
    requires Initial(s) && Pair(grab, start) && Apart([start, grab]) && start.occurredAt < grab.occurredAt - ttl
    ensures CanRun(s, Deliveries([start, grab]))
    ensures var r := Run(s, Deliveries([start, grab])); var sweep := SweepAt(grab.occurredAt, ttl, [grab.key]);
            && r.store.traces.Keys == {grab.key} && r.store.traces[grab.key].updatedAt == start.occurredAt
            && StaleKeys(r.store, ttl, grab.occurredAt) == {grab.key}
            && Enabled(r, sweep) && Step(r, sweep).store.traces == map[]
  {
    hide Process, TracesMirrored, DedupKey, Run, Deliveries, Accepts, Takes;
    var evs := [start, grab];
    CanDeliver(s, evs);
    AllNewAtFirst(s, evs);
    var s1 := DeliverNext(s, evs);
    assert evs[1..] == [grab] && [grab][1..] == [];
    StartWaits(s, start);
    var r := DeliverNext(s1, [grab]);
    NothingDelivered(r);
    StepTakes(s1, Deliver(grab));
    OnlySaved(s1.store, grab.key, start.occurredAt, StepEffect(s1, Deliver(grab)), r.store);
    OnlyStale(r.store, grab.key, grab.occurredAt, ttl);
    SweepExact(r, [grab.key], grab.occurredAt, ttl);
  }

  /** The first trace of an empty store. */
  lemma OnlySaved(st: StoreState, k: MediaKey, at: Time, e: Effect, st': StoreState)
    requires st.traces == map[] && e.Saved? && e.k == k && e.mark.updatedAt == at && Takes(st, e, st')
    ensures st'.traces.Keys == {k} && st'.traces[k].updatedAt == at
  {
    assert Marks(st'.traces).Keys == {k} && Marks(st'.traces)[k] == e.mark;
    assert st'.traces.Keys == Marks(st'.traces).Keys;
    assert MarkOf(st'.traces[k]) == Marks(st'.traces)[k];
  }

  lemma ApprovalKeeps(s: State, ev: Event)
    requires Keyed(s.store.traces) && ev.phase.RequestApproved? && ev.key in s.store.traces
    requires Accepts(s.store, ev.source, ev.eventID, ev.occurredAt)
    ensures var r := Process(s, ev);
            && r.pending == s.pending && ev.key in r.store.traces && r.store.traces[ev.key].updatedAt == ev.occurredAt
            && r.store.traces[ev.key].hasDownload == s.store.traces[ev.key].hasDownload
  {
    hide SeenEvent, Put;
    SeenKeeps(s.store, ev);
    var s1 := s.(store := SeenEvent(s.store, ev.source, ev.eventID, ev.occurredAt));
    var u := s.store.traces[ev.key].(searchStart := ev.occurredAt, updatedAt := ev.occurredAt);
    PutTraces(Amend(s1, ev.key, u).store, u);
  }

  /** With times that do not go back: a request, a start before its grab, an approval, the grab. */
  lemma ApprovedThenSetBack(s: State, req: Event, start: Event, approved: Event, grab: Event)
    requires Initial(s) && Pair(grab, start) && Apart([req, start, approved, grab])
    requires req.phase.RequestOpened? && approved.phase.RequestApproved? && req.key == approved.key == grab.key
    requires req.occurredAt <= start.occurredAt < approved.occurredAt <= grab.occurredAt
    ensures CanRun(s, Deliveries([req, start, approved, grab]))
    ensures var r := Run(s, Deliveries([req, start, approved]));
            var r' := Run(s, Deliveries([req, start, approved, grab]));
            r' == Process(r, grab) && Rewound(r.store.traces, r'.store.traces)
  {
    hide Process, TracesMirrored, DedupKey, Run, Deliveries, Accepts, Takes, Rewound;
    var evs := [req, start, approved, grab];
    CanDeliver(s, evs);
    AllNewAtFirst(s, evs);
    var s1 := DeliverNext(s, evs);
    FirstRequest(s, req);
    FirstIndex(s, req);
    assert evs[1..] == [start, approved, grab];
    var s2 := DeliverNext(s1, [start, approved, grab]);
    StartWaits(s1, start);
    assert [start, approved, grab][1..] == [approved, grab];
    var s3 := DeliverNext(s2, [approved, grab]);
    ApprovalKeeps(s2, approved);
    assert [approved, grab][1..] == [grab] && [grab][1..] == [];
    var s4 := DeliverNext(s3, [grab]);
    NothingDelivered(s4);
    ThreeDelivered(s, req, start, approved);
    StepRewinds(s3, Deliver(grab));
  }

  lemma FirstIndex(s: State, req: Event)
    requires Initial(s) && req.phase.RequestOpened?
    ensures Process(s, req).store.dlIndex == map[]
  {
    hide Takes, EffectOf;
    StepTakes(s, Deliver(req));
    RequestEffect(s, req);
    UnindexedEffect(s.store, req.key, NewMark(req), Process(s, req).store);
  }

  lemma RequestEffect(s: State, req: Event)
    requires Initial(s) && req.phase.RequestOpened?
    ensures StepEffect(s, Deliver(req)) == Saved(req.key, NewMark(req))
  {
  }

  lemma UnindexedEffect(st: StoreState, k: MediaKey, m: Mark, st': StoreState)
    requires Takes(st, Saved(k, m), st') && m.downloadID == "" && st.dlIndex == map[]
    ensures st'.dlIndex == map[]
  {
  }
}
