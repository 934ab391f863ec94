/**
 * Where the index goes wrong, on ordinary input. Two live traces come to share a download ID when a pack with two
 * episodes, and no live trace for the series, opens a trace for each of them; the end of one then hides the other.
 * And a key grabbed again under another ID leaves its first one behind.
 */
module SharedIDs {
  import opened Types
  import opened MediaKeys
  import opened StoreSpec
  import opened EngineSpec
  import opened StoreChanges
  import opened CrashRecovery
  import opened DownloadIndex
  import opened Dedup
  import opened DownloadRace
  import opened RequestGauge
  import opened Sonarr
  import opened Bookkeeping
  import opened StepEffects

  /** A grab that nothing was requested for opens a trace under its own key, with its ID. */
  lemma OrphanGrabbed(s: State, ev: Event)
    requires Keyed(s.store.traces) && Resolve(s.store.traces, ev.key).None? && ev.release.downloadID != ""
    ensures var r := OnGrabbed(s, ev).store.traces;
            && ev.key in r && r[ev.key].downloadID == ev.release.downloadID && Keyed(r)
            && r.Keys == s.store.traces.Keys + {ev.key}
  {
    hide Grab, HandleDownloadStart, IDs;
    var id := ev.release.downloadID;
    TargetKept(s, ev);
    var (k, s1) := GrabTarget(s, ev);
    GrabGivesID(s1, k, ev);
    var s2 := Grab(s1, k, ev);
    if id in s2.pending { StartLands(s2.(pending := s2.pending - {id}), k, s2.pending[id].event); }
    GrabbedIDs(s, ev);
    SameIDsSameKeys(OnGrabbed(s, ev).store.traces, s.store.traces, ev.key, s.spans.next);
    var cs := GrabbedChanges(s, ev);
    KeyedFollows(s.store, cs, OnGrabbed(s, ev).store);
  }

  lemma SameIDsSameKeys(r: map<MediaKey, Trace>, traces: map<MediaKey, Trace>, k: MediaKey, id: ID)
    requires IDs(r) == IDs(traces)[k := id]
    ensures r.Keys == traces.Keys + {k}
  {
    assert IDs(r).Keys == r.Keys && IDs(traces).Keys == traces.Keys;
  }

  /** The pack's first two episodes, neither of them resolvable. */
  ghost predicate TwoStray(s: State, p: Payload) {
    && |p.episodes| >= 2 && DistinctEpisodes(p)
    && SeriesKeyOf(p) !in s.store.traces
    && forall i :: 0 <= i < 2 ==>
         EpisodeKey(p, p.episodes[i]) != SeriesKeyOf(p) && EpisodeKey(p, p.episodes[i]) !in s.store.traces
  }

  /** Of two grabs with one ID and no trace to land on, the second gives its trace the ID the first one's has. */
  lemma StrayGrabCollides(s: State, first: Event, second: Event)
    requires Keyed(s.store.traces) && StrayPair(s, first, second)
    requires Accepts(s.store, first.source, first.eventID, first.occurredAt)
    requires Accepts(Process(s, first).store, second.source, second.eventID, second.occurredAt)
    ensures Collides(Process(s, first), Deliver(second))
  {
    hide OnGrabbed, GrabTarget, Accepts, SeenEvent;
    GrabProcessed(s, first);
    var s0 := s.(store := SeenEvent(s.store, first.source, first.eventID, first.occurredAt));
    OrphanGrabbed(s0, first);
    var r := Process(s, first);
    assert Landing(r, Deliver(second)) == Some((second.key, second.release.downloadID));
    assert Taken(r.store.traces, (second.key, second.release.downloadID));
  }

  ghost predicate StrayPair(s: State, first: Event, second: Event) {
    && first.phase.Grabbed? && second.phase.Grabbed?
    && first.release.downloadID == second.release.downloadID != ""
    && Resolve(s.store.traces, first.key).None? && Resolve(s.store.traces, second.key).None?
    && second.key != first.key && second.key.SeriesKey() != first.key
  }

  lemma FirstTwo(s: State, p: Payload, source: string, now: Time, evs: seq<Event>)
    requires TwoStray(s, p) && p.downloadID != ""
    requires OnePerEpisode(p, (k, n) => GrabEvent(p, source, now, k, n), evs)
    ensures |evs| >= 2 && StrayPair(s, evs[0], evs[1])
  {
    var a, b := EpisodeKey(p, p.episodes[0]), EpisodeKey(p, p.episodes[1]);
    assert evs[0].key == a && evs[1].key == b && a != b;
    assert a.SeriesKey() == b.SeriesKey() == SeriesKeyOf(p);
  }

  /** The second event of such a pack gives its trace the ID that the first one's has. */
  lemma StrayPackCollides(s: State, p: Payload, source: string, now: Time, evs: seq<Event>)
    requires Keyed(s.store.traces) && TwoStray(s, p) && p.downloadID != ""
    requires OnePerEpisode(p, (k, n) => GrabEvent(p, source, now, k, n), evs) && Unseen(s, evs)
    ensures Collides(Process(s, evs[0]), Deliver(evs[1]))
  {
    hide Process, Collides, Keyed, SeenEvent, Accepts, SeriesKeyOf, DedupKey;
    FirstTwo(s, p, source, now, evs);
    GrabIDsDistinct(p, source, now, evs, 0, 1);
    DedupKeyOfSource(source, evs[0].eventID, evs[1].eventID);
    StillAccepted(s, evs[0], evs[1]);
    StrayGrabCollides(s, evs[0], evs[1]);
  }

  ghost predicate Reopens(st: StoreState, reopened: StoreState) {
    st.kind.OnDisk? && Opens(st.disk, st.dedupTTL, st.recallTTL, reopened)
  }

  /** A new process over the same file can come up with another index: some order of the records makes one. */
  ghost predicate RestartMayChangeIndex(s: State) {
    forall reopened :: Reopens(s.store, reopened) ==>
      exists order :: Lists(order, s.store.traces.Keys)
                      && Step(s, Restart(reopened, order)).store.dlIndex != s.store.dlIndex
  }

  /**
   * So from a first process on, the two events reach a state in which a live trace is not found by its ID; and
   * with a file, a restart from there can change the index.
   */
  lemma StrayPackLosesTrace(s: State, p: Payload, source: string, now: Time, evs: seq<Event>)
    requires Initial(s) && |p.episodes| == 2 && DistinctEpisodes(p) && p.downloadID != ""
    requires forall i :: 0 <= i < 2 ==> EpisodeKey(p, p.episodes[i]) != SeriesKeyOf(p)
    requires OnePerEpisode(p, (k, n) => GrabEvent(p, source, now, k, n), evs)
    ensures CanRun(s, Deliveries(evs)) && !NeverCollides(s, Deliveries(evs))
    ensures var r := Run(s, Deliveries(evs)); !IndexCurrent(r.store) && RestartMayChangeIndex(r)
  {
    hide Process;
    StrayPackCollides(s, p, source, now, evs);
    CanDeliver(s, evs);
    assert Deliveries(evs) == [Deliver(evs[0]), Deliver(evs[1])];
    RunTwo(s, Deliver(evs[0]), Deliver(evs[1]));
    TwoCollisions(s, Deliver(evs[0]), Deliver(evs[1]));
    EmptySynced(s);
    var s1 := Step(s, Deliver(evs[0]));
    StepTracesSynced(s, Deliver(evs[0]));
    StepKeepsCurrent(s, Deliver(evs[0]));
    assert !Collides(s, Deliver(evs[0]));
    StepKeepsCurrent(s1, Deliver(evs[1]));
    StepTracesSynced(s1, Deliver(evs[1]));
    var r := Run(s, Deliveries(evs));
    forall reopened | Reopens(r.store, reopened)
      ensures exists order :: Lists(order, r.store.traces.Keys)
                              && Step(r, Restart(reopened, order)).store.dlIndex != r.store.dlIndex
    {
      RestartRestoresIndex(r, reopened);
    }
  }

  lemma TwoCollisions(s: State, a: Action, b: Action)
    ensures NeverCollides(s, [a, b]) <==> !Collides(s, a) && !Collides(Step(s, a), b)
  {
    hide Step, Collides;
    assert [a, b][1..] == [b] && [b][1..] == [];
    assert NeverCollides(Step(Step(s, a), b), []);
    assert NeverCollides(Step(s, a), [b]) <==> !Collides(Step(s, a), b);
  }

  // ---------- what ending a trace does to the index ----------

  /** The live traces, as far as they are followed, and the index. */
  ghost predicate Shows(st: StoreState, marks: map<MediaKey, Mark>, index: map<string, MediaKey>) {
    Marks(st.traces) == marks && st.dlIndex == index
  }

  lemma ShownTrace(st: StoreState, marks: map<MediaKey, Mark>, index: map<string, MediaKey>, k: MediaKey)
    requires Shows(st, marks, index)
    ensures st.traces.Keys == marks.Keys
    ensures k in marks ==> MarkOf(st.traces[k]) == marks[k]
  {
    assert st.traces.Keys == Marks(st.traces).Keys;
  }

  /** The mark of a trace after a grab with nothing parked. */
  function GrabMark(ev: Event, source: string, searchStart: Time): Mark {
    Mark(ev.occurredAt, ev.release.downloadID, source, searchStart)
  }

  /** A grab that lands where `k` is or is to be, with nothing parked. */
  lemma GrabShows(s: State, ev: Event, k: MediaKey, marks: map<MediaKey, Mark>, index: map<string, MediaKey>)
    requires Keyed(s.store.traces) && Shows(s.store, marks, index) && s.pending == map[]
    requires ev.phase.Grabbed? && ev.release.downloadID != "" && LandsOn(s.store.traces, ev.key) == k
    requires Accepts(s.store, ev.source, ev.eventID, ev.occurredAt)
    ensures var r := Process(s, ev); var source := if k in marks then marks[k].source else ev.source;
            var search := if k in marks then marks[k].searchStart else ev.occurredAt;
            && Shows(r.store, marks[k := GrabMark(ev, source, search)],
                     index[ev.release.downloadID := k])
            && r.pending == map[]
  {
    hide Process, LandsOn, Accepts;
    ShownTrace(s.store, marks, index, k);
    StepTakes(s, Deliver(ev));
    StepParked(s, Deliver(ev));
  }

  lemma EndShows(s: State, ev: Event, k: MediaKey, marks: map<MediaKey, Mark>, index: map<string, MediaKey>)
    requires Keyed(s.store.traces) && Shows(s.store, marks, index) && k in marks && ev.key == k
    requires ev.phase.RequestClosed? || (ev.phase.Imported? && marks[k].source in [SOURCE_SONARR, SOURCE_RADARR])
    requires Accepts(s.store, ev.source, ev.eventID, ev.occurredAt) && marks[k].downloadID != ""
    ensures Shows(Process(s, ev).store, marks - {k}, index - {marks[k].downloadID})
  {
    hide Process, Accepts;
    ShownTrace(s.store, marks, index, k);
    StepTakes(s, Deliver(ev));
    assert StepEffect(s, Deliver(ev)) == Ended({k});
    OneID(s.store.traces, k);
  }

  lemma InitialShows(s: State)
    requires Initial(s)
    ensures Shows(s.store, map[], map[]) && s.pending == map[]
  {
  }

  lemma StrayPairDelivered(s: State, first: Event, second: Event, end: Event) returns (r: State)
    requires Initial(s) && StrayPair(s, first, second) && AllNew(s.store, [first, second, end])
    ensures TracesSynced(r.store) && AllNew(r.store, [end])
    ensures Run(s, Deliveries([first, second, end])) == Run(r, Deliveries([end]))
    ensures var id := first.release.downloadID;
            Shows(r.store, map[first.key := GrabMark(first, first.source, first.occurredAt),
                               second.key := GrabMark(second, second.source, second.occurredAt)], map[id := second.key])
  {
    hide Process, Accepts, DedupKey, Run, Deliveries, TracesMirrored, Shows, AllNew;
    var a, b, id := first.key, second.key, first.release.downloadID;
    var ma := GrabMark(first, first.source, first.occurredAt);
    var mb := GrabMark(second, second.source, second.occurredAt);
    EmptySynced(s);
    InitialShows(s);
    var s1 := DeliverNext(s, [first, second, end]);
    TakenNow(s, [first, second, end]);
    GrabShows(s, first, a, map[], map[]);
    assert [first, second, end][1..] == [second, end] && [second, end][1..] == [end];
    ShownTrace(s1.store, map[a := ma], map[id := a], a);
    r := DeliverNext(s1, [second, end]);
    TakenNow(s1, [second, end]);
    GrabShows(s1, second, b, map[a := ma], map[id := a]);
    assert map[a := ma][b := mb] == map[a := ma, b := mb] && map[id := a][id := b] == map[id := b];
  }

  /** Of two stray traces with one ID, the end of the first hides the second. */
  lemma EndHidesSibling(s: State, first: Event, second: Event, end: Event)
    requires Initial(s) && StrayPair(s, first, second) && Apart([first, second, end]) && end.key == first.key
    requires end.phase.RequestClosed? || (end.phase.Imported? && first.source in [SOURCE_SONARR, SOURCE_RADARR])
    ensures CanRun(s, Deliveries([first, second, end]))
    ensures var r := Run(s, Deliveries([first, second, end])).store; var id := first.release.downloadID;
            && r.traces.Keys == {second.key} && r.traces[second.key].downloadID == id && ByDownloadID(r, id) == None
  {
    hide Process, Accepts, DedupKey, Run, Deliveries, TracesMirrored, Shows, AllNew;
    var a, b, id := first.key, second.key, first.release.downloadID;
    var ma := GrabMark(first, first.source, first.occurredAt);
    var mb := GrabMark(second, second.source, second.occurredAt);
    CanDeliver(s, [first, second, end]);
    AllNewAtFirst(s, [first, second, end]);
    var s2 := StrayPairDelivered(s, first, second, end);
    var s3 := DeliverNext(s2, [end]);
    assert [end][1..] == [];
    TakenNow(s2, [end]);
    EndShows(s2, end, a, map[a := ma, b := mb], map[id := b]);
    NothingDelivered(s3);
    assert map[a := ma, b := mb] - {a} == map[b := mb] && map[id := b] - {id} == map[];
    ShownTrace(s3.store, map[b := mb], map[], b);
    ShownIndex(s3.store, map[b := mb], map[]);
  }

  /**
   * From a first process on: the two grabs of such a pack, and the import of its first episode. The second episode's
   * trace is live and carries the download's ID, but is no longer found by it.
   */
  lemma ImportLosesSibling(s: State, p: Payload, source: string, now: Time, later: Time, evs: seq<Event>, imp: Event)
    requires Initial(s) && |p.episodes| == 2 && DistinctEpisodes(p) && p.downloadID != ""
    requires source in [SOURCE_SONARR, SOURCE_RADARR]
    requires forall i :: 0 <= i < 2 ==> EpisodeKey(p, p.episodes[i]) != SeriesKeyOf(p)
    requires OnePerEpisode(p, (k, n) => GrabEvent(p, source, now, k, n), evs)
    requires imp == ImportEvent(p, source, later, EpisodeKey(p, p.episodes[0]),
                                Some((p.episodes[0].season, p.episodes[0].number)))
    ensures CanRun(s, Deliveries(evs + [imp]))
    ensures var r := Run(s, Deliveries(evs + [imp])).store; var b := EpisodeKey(p, p.episodes[1]);
            && r.traces.Keys == {b} && r.traces[b].downloadID == p.downloadID
            && ByDownloadID(r, p.downloadID) == None
  {
    hide Process, Run, Deliveries, EventID, Apart;
    assert evs + [imp] == [evs[0], evs[1], imp];
    PackApart(p, source, now, later, evs, imp);
    FirstTwo(s, p, source, now, evs);
    EndHidesSibling(s, evs[0], evs[1], imp);
}

  lemma ShownIndex(st: StoreState, marks: map<MediaKey, Mark>, index: map<string, MediaKey>)
    requires Shows(st, marks, index)
    ensures st.dlIndex == index
  {
  }

  lemma TakenNow(s: State, evs: seq<Event>)
    requires evs != [] && AllNew(s.store, evs) && TracesSynced(s.store)
    ensures Accepts(s.store, evs[0].source, evs[0].eventID, evs[0].occurredAt) && Keyed(s.store.traces)
  {
  }

  lemma PackApart(p: Payload, source: string, now: Time, later: Time, evs: seq<Event>, imp: Event)
    requires |p.episodes| == 2 && DistinctEpisodes(p)
    requires OnePerEpisode(p, (k, n) => GrabEvent(p, source, now, k, n), evs)
    requires imp == ImportEvent(p, source, later, EpisodeKey(p, p.episodes[0]),
                                Some((p.episodes[0].season, p.episodes[0].number)))
    ensures Apart(evs + [imp])
  {
    hide DedupKey, EventID;
    var n0 := Some((p.episodes[0].season, p.episodes[0].number));
    var n1 := Some((p.episodes[1].season, p.episodes[1].number));
    assert evs[0].eventID == EventID(p.downloadID, "grab", n0) && evs[1].eventID == EventID(p.downloadID, "grab", n1);
    assert imp.eventID == EventID(p.downloadID, "import", n0);
    GrabIDsDistinct(p, source, now, evs, 0, 1);
    if evs[0].eventID == imp.eventID { EventIDInjective(p.downloadID, "grab", n0, p.downloadID, "import", n0); }
    if evs[1].eventID == imp.eventID { EventIDInjective(p.downloadID, "grab", n1, p.downloadID, "import", n0); }
    DedupKeyOfSource(source, evs[0].eventID, evs[1].eventID);
    DedupKeyOfSource(source, evs[0].eventID, imp.eventID);
    DedupKeyOfSource(source, evs[1].eventID, imp.eventID);
  }

  /**
   * From a first process on: two grabs of one key with different IDs, and the key's end, leave an entry of the first
   * ID for a key that is not live. A later request for the key is then found by that ID, although it never had it.
   */
  lemma RegrabLeavesEntry(s: State, first: Event, second: Event, closed: Event, req: Event)
    requires Initial(s) && Apart([first, second, closed, req])
    requires first.phase.Grabbed? && second.phase.Grabbed? && closed.phase.RequestClosed? && req.phase.RequestOpened?
    requires first.key == second.key == closed.key == req.key
    requires first.release.downloadID != "" && second.release.downloadID != ""
    requires first.release.downloadID != second.release.downloadID
    ensures CanRun(s, Deliveries([first, second, closed])) && CanRun(s, Deliveries([first, second, closed, req]))
    ensures var r := Run(s, Deliveries([first, second, closed])).store;
            var k, id := first.key, first.release.downloadID;
            r.traces == map[] && r.dlIndex == map[id := k]
    ensures var r := Run(s, Deliveries([first, second, closed, req])).store;
            var k, id := first.key, first.release.downloadID;
            ByDownloadID(r, id) == Some(k) && r.traces[k].downloadID == ""
  {
    hide Process, Accepts, DedupKey, Run, Deliveries, TracesMirrored, Shows, AllNew;
    var k, a, b := first.key, first.release.downloadID, second.release.downloadID;
    var all := [first, second, closed, req];
    CanDeliver(s, all);
    CanDeliver(s, [first, second, closed]);
    ThreeDelivered(s, first, second, closed);
    AllNewAtFirst(s, all);
    InitialShows(s);
    var s1 := DeliverNext(s, all);
    TakenNow(s, all);
    var m1 := map[k := GrabMark(first, first.source, first.occurredAt)];
    GrabShows(s, first, k, map[], map[]);
    assert all[1..] == [second, closed, req];
    ShownTrace(s1.store, m1, map[a := k], k);
    var s2 := DeliverNext(s1, [second, closed, req]);
    TakenNow(s1, [second, closed, req]);
    GrabShows(s1, second, k, m1, map[a := k]);
    var m2 := map[k := GrabMark(second, first.source, first.occurredAt)];
    assert m1[k := m2[k]] == m2;
    assert [second, closed, req][1..] == [closed, req];
    var s3 := DeliverNext(s2, [closed, req]);
    TakenNow(s2, [closed, req]);
    EndShows(s2, closed, k, m2, map[a := k, b := k]);
    assert m2 - {k} == map[] && map[a := k, b := k] - {b} == map[a := k];
    ShownTrace(s3.store, map[], map[a := k], k);
    ShownIndex(s3.store, map[], map[a := k]);
    assert [closed, req][1..] == [req] && [req][1..] == [];
    var s4 := DeliverNext(s3, [req]);
    TakenNow(s3, [req]);
    NothingDelivered(s4);
    RequestShows(s3, req, map[], map[a := k]);
    ShownTrace(s4.store, map[k := NewMark(req)], map[a := k], k);
    ShownIndex(s4.store, map[k := NewMark(req)], map[a := k]);
  }

  lemma RequestShows(s: State, req: Event, marks: map<MediaKey, Mark>, index: map<string, MediaKey>)
    requires Keyed(s.store.traces) && Shows(s.store, marks, index) && req.phase.RequestOpened?
    requires Accepts(s.store, req.source, req.eventID, req.occurredAt) && Resolve(s.store.traces, req.key).None?
    ensures Shows(Process(s, req).store, marks[req.key := NewMark(req)], index)
  {
    hide Process, Accepts;
    StepTakes(s, Deliver(req));
  }
}
