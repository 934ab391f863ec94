/**
 * The secondary index from download IDs to live traces, against a scan of the traces themselves.
 * Dropping a trace removes only its latest ID, and removes it whoever the index names for it; so the
 * index is exact as long as no grab gives a trace the current ID of another live trace.
 */
module DownloadIndex {
  import opened Types
  import opened StoreSpec
  import opened EngineSpec
  import opened StoreChanges
  import opened CrashRecovery

  /** A media key and a download ID that a grab gave to its trace. */
  type Pair = (MediaKey, string)

  /** The pair that a step's grab brings together, if it is an accepted grab with an ID. */
  function Landing(s: State, a: Action): Option<Pair> {
    match a
    case Deliver(ev) =>
      if ev.phase.Grabbed? && ev.release.downloadID != "" && Accepts(s.store, ev.source, ev.eventID, ev.occurredAt)
      then Some((LandsOn(s.store.traces, ev.key), ev.release.downloadID))
      else None
    case _ => None
  }

  /** All pairs that a run brings together. */
  function Carried(s: State, acts: seq<Action>): set<Pair>
    decreases |acts|
  {
    if acts == [] then {}
    else
      var rest := Carried(Step(s, acts[0]), acts[1..]);
      match Landing(s, acts[0]) case None => rest case Some(p) => {p} + rest
  }

  /** The step gives a trace an ID that another live trace has now. */
  ghost predicate Collides(s: State, a: Action) {
    var landing := Landing(s, a);
    landing.Some? && Taken(s.store.traces, landing.value)
  }

  /** A live trace with another key has the ID. */
  ghost predicate Taken(traces: map<MediaKey, Trace>, p: Pair) {
    exists l :: l in traces && l != p.0 && traces[l].downloadID == p.1
  }

  ghost predicate NeverCollides(s: State, acts: seq<Action>)
    decreases |acts|
  {
    acts == [] || (!Collides(s, acts[0]) && NeverCollides(Step(s, acts[0]), acts[1..]))
  }

  /** Every live trace is indexed under its current ID, in every state of the run. */
  ghost predicate AlwaysCurrent(s: State, acts: seq<Action>)
    decreases |acts|
  {
    IndexCurrent(s.store) && (acts == [] || AlwaysCurrent(Step(s, acts[0]), acts[1..]))
  }

  predicate Current(traces: map<MediaKey, Trace>, p: Pair) {
    p.0 in traces && p.1 != "" && traces[p.0].downloadID == p.1
  }

  /** The pairs a grab leaves behind: the trace's previous ID stays in the index, its new one is taken over. */
  function LeftBehind(left: set<Pair>, traces: map<MediaKey, Trace>, p: Pair): set<Pair> {
    var prev := if p.0 in traces then traces[p.0].downloadID else "";
    set q | q in (if prev == "" then left else left + {(p.0, prev)}) && q.1 != p.1
  }

  /** The earlier IDs of re-grabbed keys after a run, starting from `left`. */
  function Leftover(s: State, acts: seq<Action>, left: set<Pair>): set<Pair>
    decreases |acts|
  {
    if acts == [] then left
    else
      match Landing(s, acts[0])
      case None => Leftover(Step(s, acts[0]), acts[1..], left)
      case Some(p) => Leftover(Step(s, acts[0]), acts[1..], LeftBehind(left, s.store.traces, p))
  }

  /** Everything the index and the live traces speak of is in `c`. */
  ghost predicate Within(st: StoreState, c: set<Pair>) {
    && (forall id :: id in st.dlIndex ==> (st.dlIndex[id], id) in c)
    && (forall k :: k in st.traces && st.traces[k].downloadID != "" ==> (k, st.traces[k].downloadID) in c)
  }

  /** The index holds the current IDs of the live traces and the leftovers, and nothing else. */
  ghost predicate IndexIs(st: StoreState, left: set<Pair>) {
    IndexCurrent(st) && IndexHolds(st.traces, st.dlIndex, left)
  }

  ghost predicate IndexHolds(traces: map<MediaKey, Trace>, index: map<string, MediaKey>, left: set<Pair>) {
    && (forall id :: id in index ==> Current(traces, (index[id], id)) || (index[id], id) in left)
    && (forall p :: p in left ==> p.1 in index && index[p.1] == p.0 && !Current(traces, p))
  }

  // ---------- changes ----------

  /** What a change does to the live traces and the index. */
  lemma AppliedIndex(st: StoreState, ch: Change)
    ensures var st' := Apply(st, ch);
            match ch
            case Dropped(k, _) =>
              && st'.traces == st.traces - {k}
              && st'.dlIndex == Unindexed(st.dlIndex, if k in st.traces then st.traces[k].downloadID else "")
            case _ => st'.traces == st.traces[ch.t.key := ch.t] && st'.dlIndex == Indexed(st.dlIndex, ch.t)
  {
    hide Recalled, Indexed, StoreSpec.Delete, StoreSpec.RememberClosed;
    if ch.Dropped? {
      DeleteTraces(st, ch.k);
      DeleteKeeps(st, ch.k);
      RememberKeeps(Delete(st, ch.k), ch.k, ch.c);
    }
  }

  lemma WithinApply(st: StoreState, ch: Change, c: set<Pair>)
    requires Keyed(st.traces) && Within(st, c) && Allowed(st, ch)
    requires ch.Regrabbed? ==> (ch.t.key, ch.t.downloadID) in c
    ensures Within(Apply(st, ch), c)
  {
    var st' := Apply(st, ch);
    AppliedIndex(st, ch);
  }

  lemma IndexOpened(st: StoreState, ch: Change, left: set<Pair>)
    requires Keyed(st.traces) && IndexIs(st, left) && Allowed(st, ch) && ch.Opened?
    ensures IndexIs(Apply(st, ch), left)
  {
    hide Apply;
    var st' := Apply(st, ch);
    AppliedIndex(st, ch);
    assert st'.traces == st.traces[ch.t.key := ch.t] && st'.dlIndex == st.dlIndex;
    assert forall p: Pair :: Current(st'.traces, p) <==> Current(st.traces, p);
  }

  lemma IndexUpdated(st: StoreState, ch: Change, left: set<Pair>)
    requires Keyed(st.traces) && IndexIs(st, left) && Allowed(st, ch) && ch.Updated?
    ensures IndexIs(Apply(st, ch), left)
  {
    hide Apply;
    var st' := Apply(st, ch);
    AppliedIndex(st, ch);
    assert forall p: Pair :: Current(st'.traces, p) <==> Current(st.traces, p);
  }

  lemma IndexDropped(st: StoreState, ch: Change, left: set<Pair>)
    requires Keyed(st.traces) && IndexIs(st, left) && Allowed(st, ch) && ch.Dropped?
    ensures IndexIs(Apply(st, ch), left)
  {
    hide Apply;
    var st', k := Apply(st, ch), ch.k;
    AppliedIndex(st, ch);
    var id := st.traces[k].downloadID;
    forall l | l in st'.traces && st'.traces[l].downloadID != ""
      ensures st'.traces[l].downloadID in st'.dlIndex && st'.dlIndex[st'.traces[l].downloadID] == l
    {
      assert st.traces[l].downloadID in st.dlIndex && st.dlIndex[st.traces[l].downloadID] == l;
    }
    forall p | p in left
      ensures p.1 in st'.dlIndex && st'.dlIndex[p.1] == p.0 && !Current(st'.traces, p)
    {
      assert st.dlIndex[p.1] == p.0 && !Current(st.traces, p);
    }
  }

  /** A grab with an ID that no other live trace has. */
  lemma IndexRegrabbed(st: StoreState, ch: Change, left: set<Pair>)
    requires Keyed(st.traces) && IndexIs(st, left) && Allowed(st, ch) && ch.Regrabbed?
    requires !Taken(st.traces, (ch.t.key, ch.t.downloadID))
    ensures IndexIs(Apply(st, ch), LeftBehind(left, st.traces, (ch.t.key, ch.t.downloadID)))
  {
    hide Apply, Allowed;
    AppliedIndex(st, ch);
    assert ch.t.key in st.traces && ch.t.downloadID != "" by { RegrabAllowed(st, ch); }
    RegrabbedHolds(st, left, ch.t);
    RegrabbedCurrent(st, Apply(st, ch), ch.t);
  }

  lemma RegrabAllowed(st: StoreState, ch: Change)
    requires Allowed(st, ch) && ch.Regrabbed?
    ensures ch.t.key in st.traces && ch.t.downloadID != ""
  {
  }

  lemma RegrabbedHolds(st: StoreState, left: set<Pair>, t: Trace)
    requires IndexIs(st, left) && t.key in st.traces && t.downloadID != ""
    ensures IndexHolds(st.traces[t.key := t], st.dlIndex[t.downloadID := t.key],
                       LeftBehind(left, st.traces, (t.key, t.downloadID)))
  {
    var k, id, prev := t.key, t.downloadID, st.traces[t.key].downloadID;
    var traces', index', left' := st.traces[k := t], st.dlIndex[id := k], LeftBehind(left, st.traces, (k, id));
    forall x | x in index' && x != id
      ensures Current(traces', (index'[x], x)) || (index'[x], x) in left'
    {
      assert Current(st.traces, (st.dlIndex[x], x)) || (st.dlIndex[x], x) in left;
    }
    forall p | p in left'
      ensures p.1 in index' && index'[p.1] == p.0 && !Current(traces', p)
    {
      assert p in left || p == (k, prev);
    }
  }

  lemma RegrabbedCurrent(st: StoreState, st': StoreState, t: Trace)
    requires IndexCurrent(st) && t.key in st.traces && t.downloadID != "" && !Taken(st.traces, (t.key, t.downloadID))
    requires st'.traces == st.traces[t.key := t] && st'.dlIndex == st.dlIndex[t.downloadID := t.key]
    ensures IndexCurrent(st')
  {
    forall l | l in st'.traces && st'.traces[l].downloadID != ""
      ensures st'.traces[l].downloadID in st'.dlIndex && st'.dlIndex[st'.traces[l].downloadID] == l
    {
      if l != t.key { assert st.traces[l].downloadID != t.downloadID; }
    }
  }

  /** The live trace `l` has the ID that the index names `k` for, and `k` has it too. */
  predicate Robbed(st: StoreState, k: MediaKey, l: MediaKey, id: string) {
    && k != l && k in st.traces && l in st.traces && id != ""
    && st.traces[k].downloadID == st.traces[l].downloadID == id && id in st.dlIndex && st.dlIndex[id] == k
  }

  lemma {:induction false} StaysRobbed(st: StoreState, cs: seq<Change>, st': StoreState,
                                    k: MediaKey, l: MediaKey, id: string)
    requires Robbed(st, k, l, id) && Follows(st, cs, st') && UpdatesOnly(cs, k)
    ensures Robbed(st', k, l, id)
    decreases |cs|
  {
    hide Apply;
    if cs != [] {
      AppliedIndex(st, cs[0]);
      StaysRobbed(Apply(st, cs[0]), cs[1..], st', k, l, id);
    }
  }

  /** A sequence of changes without grabs keeps the pairs. */
  lemma {:induction false} WithinFollows(st: StoreState, cs: seq<Change>, st': StoreState, c: set<Pair>)
    requires Keyed(st.traces) && Within(st, c) && Follows(st, cs, st') && NoRegrab(cs)
    ensures Within(st', c)
    decreases |cs|
  {
    hide Apply;
    if cs != [] {
      WithinApply(st, cs[0], c);
      KeyedApply(st, cs[0]);
      WithinFollows(Apply(st, cs[0]), cs[1..], st', c);
    }
  }

  /** And it keeps the index what it is. */
  lemma {:induction false} IndexFollows(st: StoreState, cs: seq<Change>, st': StoreState, left: set<Pair>)
    requires Keyed(st.traces) && IndexIs(st, left) && Follows(st, cs, st') && NoRegrab(cs)
    ensures IndexIs(st', left)
    decreases |cs|
  {
    hide Apply, IndexIs, Allowed;
    if cs != [] {
      match cs[0] {
        case Opened(_, _) => IndexOpened(st, cs[0], left);
        case Updated(_) => IndexUpdated(st, cs[0], left);
        case Dropped(_, _) => IndexDropped(st, cs[0], left);
      }
      KeyedApply(st, cs[0]);
      IndexFollows(Apply(st, cs[0]), cs[1..], st', left);
    }
  }

  // ---------- steps ----------

  lemma GrabOnWithin(s: State, k: MediaKey, ev: Event, c: set<Pair>)
    requires Keyed(s.store.traces) && k in s.store.traces && Within(s.store, c)
    requires ev.release.downloadID != "" ==> (k, ev.release.downloadID) in c
    ensures var r := Grab(s, k, ev).store; Keyed(r.traces) && k in r.traces && Within(r, c)
  {
    hide Grab, Apply;
    var ch := GrabChanges(s, k, ev);
    AppliedIndex(s.store, ch);
    WithinApply(s.store, ch, c);
    KeyedApply(s.store, ch);
  }

  /** The grab itself: it keeps the index exact, or it robs the trace that had the ID. */
  lemma GrabOnIndex(s: State, k: MediaKey, ev: Event, left: set<Pair>)
    requires Keyed(s.store.traces) && k in s.store.traces && IndexIs(s.store, left)
    ensures var r := Grab(s, k, ev).store; var p := (k, ev.release.downloadID);
            && Keyed(r.traces) && k in r.traces
            && (if p.1 == "" then IndexIs(r, left)
                else if !Taken(s.store.traces, p) then IndexIs(r, LeftBehind(left, s.store.traces, p))
                else exists l :: Robbed(r, k, l, p.1))
  {
    hide Grab, Apply, IndexIs;
    var ch := GrabChanges(s, k, ev);
    var p := (k, ev.release.downloadID);
    AppliedIndex(s.store, ch);
    KeyedApply(s.store, ch);
    if p.1 == "" {
      IndexUpdated(s.store, ch, left);
    } else if !Taken(s.store.traces, p) {
      IndexRegrabbed(s.store, ch, left);
    } else {
      var l :| l in s.store.traces && l != k && s.store.traces[l].downloadID == p.1;
      assert Robbed(Grab(s, k, ev).store, k, l, p.1);
    }
  }

  lemma GrabWithin(s: State, ev: Event, c: set<Pair>)
    requires Keyed(s.store.traces) && Within(s.store, c)
    requires var (k, _) := GrabTarget(s, ev); ev.release.downloadID != "" ==> (k, ev.release.downloadID) in c
    ensures Within(OnGrabbed(s, ev).store, c)
  {
    hide Grab, Replay, Within;
    var (k, s1) := GrabTarget(s, ev);
    var begun := GrabTargetChanges(s, ev);
    WithinFollows(s.store, begun, s1.store, c);
    KeyedFollows(s.store, begun, s1.store);
    GrabOnWithin(s1, k, ev, c);
    var s2 := Grab(s1, k, ev);
    var replayed := ReplayChanges(s2, k, ev.release.downloadID);
    WithinFollows(s2.store, replayed, OnGrabbed(s, ev).store, c);
  }

  /** Opening a trace without an ID takes no ID from anyone. */
  lemma OpenedTakesNothing(traces: map<MediaKey, Trace>, t: Trace, p: Pair, left: set<Pair>)
    requires t.key !in traces && t.downloadID == "" && p.0 == t.key && p.1 != ""
    ensures Taken(traces[t.key := t], p) <==> Taken(traces, p)
    ensures LeftBehind(left, traces[t.key := t], p) == LeftBehind(left, traces, p)
  {
    if Taken(traces, p) {
      var l :| l in traces && l != p.0 && traces[l].downloadID == p.1;
      assert traces[t.key := t][l].downloadID == p.1;
    }
  }

  lemma TargetIDs(s: State, ev: Event, left: set<Pair>)
    requires Keyed(s.store.traces)
    ensures var (k, s1) := GrabTarget(s, ev); var p := (k, ev.release.downloadID);
            && k in s1.store.traces
            && (p.1 != "" ==> (Taken(s1.store.traces, p) <==> Taken(s.store.traces, p))
                              && LeftBehind(left, s1.store.traces, p) == LeftBehind(left, s.store.traces, p))
  {
    hide Taken, LeftBehind;
    var (k, s1) := GrabTarget(s, ev);
    if Resolve(s.store.traces, ev.key).None? && ev.release.downloadID != "" {
      var t := s1.store.traces[k];
      assert s1.store.traces == s.store.traces[k := t] && t.key == k && t.downloadID == "";
      OpenedTakesNothing(s.store.traces, t, (k, ev.release.downloadID), left);
    }
  }

  lemma GrabIndex(s: State, ev: Event, left: set<Pair>)
    requires Keyed(s.store.traces) && IndexIs(s.store, left)
    ensures var r := OnGrabbed(s, ev).store; var p := (GrabTarget(s, ev).0, ev.release.downloadID);
            if p.1 == "" then IndexIs(r, left)
            else if !Taken(s.store.traces, p) then IndexIs(r, LeftBehind(left, s.store.traces, p))
            else exists l :: Robbed(r, p.0, l, p.1)
  {
    hide Grab, Replay, IndexIs, GrabTarget, Taken, LeftBehind;
    TargetIDs(s, ev, left);
    var (k, s1) := GrabTarget(s, ev);
    var begun := GrabTargetChanges(s, ev);
    IndexFollows(s.store, begun, s1.store, left);
    KeyedFollows(s.store, begun, s1.store);
    GrabOnIndex(s1, k, ev, left);
    var s2, p := Grab(s1, k, ev), (k, ev.release.downloadID);
    var r := OnGrabbed(s, ev).store;
    var replayed := ReplayChanges(s2, k, ev.release.downloadID);
    if p.1 == "" {
      IndexFollows(s2.store, replayed, r, left);
    } else if !Taken(s.store.traces, p) {
      IndexFollows(s2.store, replayed, r, LeftBehind(left, s.store.traces, p));
    } else {
      var l :| Robbed(s2.store, k, l, p.1);
      StaysRobbed(s2.store, replayed, r, k, l, p.1);
    }
  }

  /** What a step makes of the leftovers. */
  function NextLeft(s: State, a: Action, left: set<Pair>): set<Pair> {
    match Landing(s, a) case None => left case Some(p) => LeftBehind(left, s.store.traces, p)
  }

  /** Two stores that agree on the index and on every live trace's current ID. */
  ghost predicate SameIDs(st: StoreState, st': StoreState) {
    && st'.dlIndex == st.dlIndex && st'.traces.Keys == st.traces.Keys
    && (forall k :: k in st.traces ==> st'.traces[k].downloadID == st.traces[k].downloadID)
  }

  lemma SameIDsWithin(st: StoreState, st': StoreState, c: set<Pair>)
    requires SameIDs(st, st') && Within(st, c)
    ensures Within(st', c)
  {
  }

  lemma SameIDsIndexIs(st: StoreState, st': StoreState, left: set<Pair>)
    requires SameIDs(st, st') && IndexIs(st, left)
    ensures IndexIs(st', left)
  {
    assert forall p: Pair :: Current(st'.traces, p) <==> Current(st.traces, p);
  }

  lemma RebootedIDs(s: State, s1: State)
    requires Rebooted(s, s1)
    ensures SameIDs(s.store, s1.store) && Keyed(s1.store.traces)
  {
  }

  lemma RebootWithin(s: State, reopened: StoreState, order: seq<MediaKey>, c: set<Pair>)
    requires Rebooted(s, Reboot(s, reopened)) && Within(s.store, c)
    ensures Within(Step(s, Restart(reopened, order)).store, c)
  {
    var s1 := Reboot(s, reopened);
    RebootedIDs(s, s1);
    SameIDsWithin(s.store, s1.store, c);
    var cs := RestoreChanges(s1, order);
    WithinFollows(s1.store, cs, RestoreKeys(s1, order).store, c);
  }

  lemma RestartWithin(s: State, reopened: StoreState, order: seq<MediaKey>, c: set<Pair>)
    requires TracesSynced(s.store) && Within(s.store, c) && Enabled(s, Restart(reopened, order))
    ensures Within(Step(s, Restart(reopened, order)).store, c)
  {
    RebootState(s, reopened);
    RebootWithin(s, reopened, order, c);
  }

  lemma RestartIndexIs(s: State, reopened: StoreState, order: seq<MediaKey>, left: set<Pair>)
    requires TracesSynced(s.store) && IndexIs(s.store, left) && Enabled(s, Restart(reopened, order))
    ensures IndexIs(Step(s, Restart(reopened, order)).store, left)
  {
    RebootState(s, reopened);
    RestartRestoresTraces(s, reopened, order);
    RestartRestoresIndex(s, reopened);
    SameIDsIndexIs(s.store, Step(s, Restart(reopened, order)).store, left);
  }

  lemma SeenSameIDs(st: StoreState, ev: Event)
    ensures var st1 := SeenEvent(st, ev.source, ev.eventID, ev.occurredAt); SameIDs(st, st1) && st1.traces == st.traces
  {
    hide Accepts, Fresh, WholeSecond, DedupKey;
  }

  lemma GrabProcessed(s: State, ev: Event)
    requires ev.phase.Grabbed?
    ensures var s1 := s.(store := SeenEvent(s.store, ev.source, ev.eventID, ev.occurredAt));
            && SameIDs(s.store, s1.store) && s1.store.traces == s.store.traces
            && (if Accepts(s.store, ev.source, ev.eventID, ev.occurredAt)
                then Process(s, ev) == OnGrabbed(s1, ev) else Process(s, ev) == s1)
            && (Landing(s, Deliver(ev)) ==
                if ev.release.downloadID != "" && Accepts(s.store, ev.source, ev.eventID, ev.occurredAt)
                then Some((GrabTarget(s1, ev).0, ev.release.downloadID)) else None)
  {
    hide SeenEvent, Accepts, OnGrabbed, SameIDs;
    SeenSameIDs(s.store, ev);
  }

  lemma ProcessGrabWithin(s: State, ev: Event, c: set<Pair>)
    requires Keyed(s.store.traces) && Within(s.store, c) && ev.phase.Grabbed?
    requires Landing(s, Deliver(ev)).Some? ==> Landing(s, Deliver(ev)).value in c
    ensures Within(Process(s, ev).store, c)
  {
    hide OnGrabbed;
    var s1 := s.(store := SeenEvent(s.store, ev.source, ev.eventID, ev.occurredAt));
    GrabProcessed(s, ev);
    SameIDsWithin(s.store, s1.store, c);
    if Accepts(s.store, ev.source, ev.eventID, ev.occurredAt) { GrabWithin(s1, ev, c); }
  }

  /** A step that collides leaves a live trace whose ID the index does not give it; any other keeps the index exact. */
  ghost predicate IndexAfter(s: State, a: Action, left: set<Pair>) {
    if Collides(s, a) then !IndexCurrent(Step(s, a).store) else IndexIs(Step(s, a).store, NextLeft(s, a, left))
  }

  lemma RobbedNotCurrent(st: StoreState, k: MediaKey, l: MediaKey, id: string)
    requires Robbed(st, k, l, id)
    ensures !IndexCurrent(st)
  {
  }

  lemma ProcessGrabIndex(s: State, ev: Event, left: set<Pair>)
    requires Keyed(s.store.traces) && IndexIs(s.store, left) && ev.phase.Grabbed?
    ensures IndexAfter(s, Deliver(ev), left)
  {
    hide OnGrabbed, IndexIs, IndexCurrent, GrabTarget, LeftBehind;
    var s1 := s.(store := SeenEvent(s.store, ev.source, ev.eventID, ev.occurredAt));
    GrabProcessed(s, ev);
    SameIDsIndexIs(s.store, s1.store, left);
    if Accepts(s.store, ev.source, ev.eventID, ev.occurredAt) {
      GrabIndex(s1, ev, left);
      if Collides(s, Deliver(ev)) {
        var p := (GrabTarget(s1, ev).0, ev.release.downloadID);
        var l :| Robbed(OnGrabbed(s1, ev).store, p.0, l, p.1);
        RobbedNotCurrent(OnGrabbed(s1, ev).store, p.0, l, p.1);
      }
    }
  }

  lemma StepWithin(s: State, a: Action, c: set<Pair>)
    requires TracesSynced(s.store) && Within(s.store, c) && Enabled(s, a)
    requires Landing(s, a).Some? ==> Landing(s, a).value in c
    ensures Within(Step(s, a).store, c)
  {
    hide Handle, Follows, TracesMirrored;
    if a.Restart? {
      RestartWithin(s, a.reopened, a.order, c);
    } else if a.Deliver? && a.ev.phase.Grabbed? {
      ProcessGrabWithin(s, a.ev, c);
    } else {
      var st, cs := StepChanges(s, a);
      assert SameIDs(s.store, st) && st.traces == s.store.traces;
      WithinFollows(st, cs, Step(s, a).store, c);
    }
  }

  lemma StepIndex(s: State, a: Action, left: set<Pair>)
    requires TracesSynced(s.store) && IndexIs(s.store, left) && Enabled(s, a)
    ensures IndexAfter(s, a, left)
  {
    hide Handle, Follows, TracesMirrored, LeftBehind;
    if a.Restart? {
      RestartIndexIs(s, a.reopened, a.order, left);
    } else if a.Deliver? && a.ev.phase.Grabbed? {
      ProcessGrabIndex(s, a.ev, left);
    } else {
      var st, cs := StepChanges(s, a);
      assert SameIDs(s.store, st) && st.traces == s.store.traces;
      SameIDsIndexIs(s.store, st, left);
      IndexFollows(st, cs, Step(s, a).store, left);
    }
  }

  lemma {:induction false} RunWithin(s: State, acts: seq<Action>, c: set<Pair>)
    requires TracesSynced(s.store) && Within(s.store, c) && CanRun(s, acts) && Carried(s, acts) <= c
    ensures Within(Run(s, acts).store, c)
    decreases |acts|
  {
    if acts != [] {
      assert Carried(Step(s, acts[0]), acts[1..]) <= c;
      StepWithin(s, acts[0], c);
      StepTracesSynced(s, acts[0]);
      RunWithin(Step(s, acts[0]), acts[1..], c);
    }
  }

  lemma {:induction false} RunIndex(s: State, acts: seq<Action>, left: set<Pair>)
    requires TracesSynced(s.store) && IndexIs(s.store, left) && CanRun(s, acts) && NeverCollides(s, acts)
    ensures IndexIs(Run(s, acts).store, Leftover(s, acts, left))
    decreases |acts|
  {
    hide IndexIs, TracesMirrored, Collides;
    if acts != [] {
      StepIndex(s, acts[0], left);
      StepTracesSynced(s, acts[0]);
      RunIndex(Step(s, acts[0]), acts[1..], NextLeft(s, acts[0], left));
    }
  }

  // ---------- the results ----------

  /** In every run a lookup by download ID finds only a live trace whose key a grab once gave that ID. */
  lemma LookupSound(s: State, acts: seq<Action>, id: string)
    requires Initial(s) && CanRun(s, acts)
    ensures var r := Run(s, acts);
            ByDownloadID(r.store, id).Some? ==>
              var k := ByDownloadID(r.store, id).value;
              k in r.store.traces && (k, id) in Carried(s, acts)
  {
    RunWithin(s, acts, Carried(s, acts));
  }

  /** What the index leaves exact: that every live trace is indexed is that a lookup agrees with a scan. */
  lemma CurrentIsFound(st: StoreState)
    ensures IndexCurrent(st) <==>
            forall k :: k in st.traces && st.traces[k].downloadID != "" ==>
              ByDownloadID(st, st.traces[k].downloadID) == Some(k)
  {
  }

  /** Where every live trace is indexed, some index entries may be left over from grabs before; these they are. */
  function Spare(st: StoreState): set<Pair> {
    set id | id in st.dlIndex && !Current(st.traces, (st.dlIndex[id], id)) :: (st.dlIndex[id], id)
  }

  lemma SpareIs(st: StoreState)
    requires IndexCurrent(st)
    ensures IndexIs(st, Spare(st))
  {
    forall p | p in Spare(st)
      ensures p.1 in st.dlIndex && st.dlIndex[p.1] == p.0 && !Current(st.traces, p)
    {
      var id :| id in st.dlIndex && !Current(st.traces, (st.dlIndex[id], id)) && p == (st.dlIndex[id], id);
    }
  }

  /** One step, of any kind, keeps every live trace found exactly when it does not collide. */
  lemma StepKeepsCurrent(s: State, a: Action)
    requires TracesSynced(s.store) && IndexCurrent(s.store) && Enabled(s, a)
    ensures IndexCurrent(Step(s, a).store) <==> !Collides(s, a)
  {
    hide TracesMirrored, Collides, Spare, IndexHolds;
    SpareIs(s.store);
    StepIndex(s, a, Spare(s.store));
  }

  /** Over any run every live trace is found in every state exactly when no step collides. */
  lemma {:induction false} CurrentIffNeverCollides(s: State, acts: seq<Action>)
    requires TracesSynced(s.store) && IndexCurrent(s.store) && CanRun(s, acts)
    ensures AlwaysCurrent(s, acts) <==> NeverCollides(s, acts)
    decreases |acts|
  {
    hide TracesMirrored, Collides, IndexCurrent;
    if acts != [] {
      StepKeepsCurrent(s, acts[0]);
      StepTracesSynced(s, acts[0]);
      if !Collides(s, acts[0]) {
        CurrentIffNeverCollides(Step(s, acts[0]), acts[1..]);
      } else {
        NotCurrentNow(Step(s, acts[0]), acts[1..]);
      }
    }
  }

  lemma NotCurrentNow(s: State, acts: seq<Action>)
    requires !IndexCurrent(s.store)
    ensures !AlwaysCurrent(s, acts)
  {
  }

  /** In particular from a first process on. */
  lemma LookupComplete(s: State, acts: seq<Action>)
    requires Initial(s) && CanRun(s, acts)
    ensures AlwaysCurrent(s, acts) <==> NeverCollides(s, acts)
  {
    CurrentIffNeverCollides(s, acts);
  }

  /**
   * After a run without collisions, restarts included, the index is exactly: the current IDs of the live
   * traces, plus the earlier IDs of keys that were grabbed again with another.
   */
  lemma IndexExact(s: State, acts: seq<Action>)
    requires Initial(s) && CanRun(s, acts) && NeverCollides(s, acts)
    ensures var st := Run(s, acts).store; var left := Leftover(s, acts, {});
            && (forall k, id :: (id in st.dlIndex && st.dlIndex[id] == k)
                                <==> (Current(st.traces, (k, id)) || (k, id) in left))
            && (forall p :: p in left ==> !Current(st.traces, p))
  {
    RunIndex(s, acts, {});
    var st, left := Run(s, acts).store, Leftover(s, acts, {});
    assert IndexIs(st, left);
    forall k, id
      ensures (id in st.dlIndex && st.dlIndex[id] == k) <==> (Current(st.traces, (k, id)) || (k, id) in left)
    {
      if (k, id) in left { assert (k, id).1 in st.dlIndex; }
    }
  }

  /** No grab of the run gives a trace an ID other than the one it has. */
  predicate NeverChangesID(s: State, acts: seq<Action>)
    decreases |acts|
  {
    acts == []
    || (NeverChangesID(Step(s, acts[0]), acts[1..])
        && match Landing(s, acts[0])
           case None => true
           case Some(p) =>
             p.0 in s.store.traces ==> s.store.traces[p.0].downloadID == "" || s.store.traces[p.0].downloadID == p.1)
  }

  lemma {:induction false} NothingLeftBehind(s: State, acts: seq<Action>)
    requires NeverChangesID(s, acts)
    ensures Leftover(s, acts, {}) == {}
    decreases |acts|
  {
    if acts != [] {
      NothingLeftBehind(Step(s, acts[0]), acts[1..]);
      if Landing(s, acts[0]).Some? {
        assert LeftBehind({}, s.store.traces, Landing(s, acts[0]).value) == {};
      }
    }
  }

  /** If moreover no trace changes its ID, the index is exactly a scan of the live traces' current IDs. */
  lemma IndexIsScan(s: State, acts: seq<Action>, id: string, k: MediaKey)
    requires Initial(s) && CanRun(s, acts) && NeverCollides(s, acts) && NeverChangesID(s, acts)
    ensures var st := Run(s, acts).store;
            (id in st.dlIndex && st.dlIndex[id] == k)
            <==> (k in st.traces && id != "" && st.traces[k].downloadID == id)
  {
    hide Run, Leftover, NeverChangesID, NeverCollides, CanRun;
    IndexExact(s, acts);
    NothingLeftBehind(s, acts);
    var st := Run(s, acts).store;
    assert (id in st.dlIndex && st.dlIndex[id] == k)
           <==> (Current(st.traces, (k, id)) || (k, id) in Leftover(s, acts, {}));
  }
}
