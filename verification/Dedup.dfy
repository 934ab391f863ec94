/** Duplicate suppression through the engine: what an accepted event does to itself and to others. */
module Dedup {
  import opened Types
  import opened MediaKeys
  import opened StoreSpec
  import opened EngineSpec
  import opened StoreChanges
  import opened CrashRecovery

  /** Sources have no separator in their names, so the joined key tells source and ID apart. */
  lemma DedupKeyInjective(a: string, x: string, b: string, y: string)
    requires '|' !in a && '|' !in b
    requires DedupKey(a, x) == DedupKey(b, y)
    ensures a == b && x == y
  {
    IndexOfField(a, x);
    IndexOfField(b, y);
    var s := DedupKey(a, x);
    assert a == s[..|a|] && x == s[|a| + 1..];
    assert b == s[..|b|] && y == s[|b| + 1..];
  }

  predicate SameDedup(st: StoreState, st': StoreState) {
    && st'.kind == st.kind && st'.dedupTTL == st.dedupTTL && st'.recallTTL == st.recallTTL
    && st'.dedup == st.dedup && st'.disk.dedup == st.disk.dedup
  }

  lemma ApplyDedup(st: StoreState, c: Change)
    ensures SameDedup(st, Apply(st, c))
  {
    hide StoreSpec.Delete, StoreSpec.RememberClosed;
    if c.Dropped? {
      DeleteKeeps(st, c.k);
      RememberKeeps(Delete(st, c.k), c.k, c.c);
    }
  }

  lemma {:induction false} FollowsDedup(st: StoreState, cs: seq<Change>, st': StoreState)
    requires Follows(st, cs, st')
    ensures SameDedup(st, st')
    decreases |cs|
  {
    hide Apply, Allowed;
    if cs != [] {
      ApplyDedup(st, cs[0]);
      FollowsDedup(Apply(st, cs[0]), cs[1..], st');
    }
  }

  /** Handlers leave the dedup memory alone. */
  lemma ProcessDedup(s: State, ev: Event)
    requires Keyed(s.store.traces)
    ensures SameDedup(SeenEvent(s.store, ev.source, ev.eventID, ev.occurredAt), Process(s, ev).store)
  {
    var st := SeenEvent(s.store, ev.source, ev.eventID, ev.occurredAt);
    if Accepts(s.store, ev.source, ev.eventID, ev.occurredAt) {
      var cs := HandleChanges(s.(store := st), ev);
      FollowsDedup(st, cs, Process(s, ev).store);
    }
  }

  /** Accepting one event does not stop another with a different key from being accepted. */
  lemma StillAccepted(s: State, first: Event, second: Event)
    requires Keyed(s.store.traces) && Accepts(s.store, second.source, second.eventID, second.occurredAt)
    requires first.eventID != "" ==> DedupKey(first.source, first.eventID) != DedupKey(second.source, second.eventID)
    ensures Accepts(Process(s, first).store, second.source, second.eventID, second.occurredAt)
  {
    ProcessDedup(s, first);
  }

  function Deliveries(evs: seq<Event>): seq<Action> {
    seq(|evs|, i requires 0 <= i < |evs| => Deliver(evs[i]))
  }

  lemma {:induction false} CanDeliver(s: State, evs: seq<Event>)
    ensures CanRun(s, Deliveries(evs))
    decreases |evs|
  {
    if evs != [] {
      assert Deliveries(evs)[0] == Deliver(evs[0]) && Deliveries(evs)[1..] == Deliveries(evs[1..]);
      CanDeliver(Process(s, evs[0]), evs[1..]);
    }
  }

  lemma DeliverFirst(s: State, evs: seq<Event>)
    requires evs != []
    ensures Run(s, Deliveries(evs)) == Run(Process(s, evs[0]), Deliveries(evs[1..]))
  {
    hide Process;
    assert Deliveries(evs)[0] == Deliver(evs[0]) && Deliveries(evs)[1..] == Deliveries(evs[1..]);
  }

  lemma ThreeDelivered(s: State, a: Event, b: Event, c: Event)
    ensures Run(s, Deliveries([a, b, c])) == Process(Process(Process(s, a), b), c)
  {
    hide Process, Run, Deliveries;
    DeliverFirst(s, [a, b, c]);
    assert [a, b, c][1..] == [b, c] && [b, c][1..] == [c] && [c][1..] == [];
    DeliverFirst(Process(s, a), [b, c]);
    DeliverFirst(Process(Process(s, a), b), [c]);
    NothingDelivered(Process(Process(Process(s, a), b), c));
  }

  /** The store accepts each of the events now, and none of them makes a later one a duplicate. */
  ghost predicate AllNew(st: StoreState, evs: seq<Event>) {
    && (forall i :: 0 <= i < |evs| ==> Accepts(st, evs[i].source, evs[i].eventID, evs[i].occurredAt))
    && Apart(evs)
  }

  ghost predicate Apart(evs: seq<Event>) {
    forall i, j :: 0 <= i < j < |evs| && evs[i].eventID != "" ==>
      DedupKey(evs[i].source, evs[i].eventID) != DedupKey(evs[j].source, evs[j].eventID)
  }

  lemma AllNewAtFirst(s: State, evs: seq<Event>)
    requires Initial(s) && Apart(evs)
    ensures AllNew(s.store, evs) && TracesSynced(s.store)
  {
    EmptySynced(s);
  }

  lemma NothingDelivered(s: State)
    ensures Run(s, Deliveries([])) == s
  {
  }

  /** The first of some new events is taken, and the others stay new. */
  lemma DeliverNext(s: State, evs: seq<Event>) returns (r: State)
    requires TracesSynced(s.store) && evs != [] && AllNew(s.store, evs)
    ensures r == Process(s, evs[0]) && TracesSynced(r.store) && AllNew(r.store, evs[1..])
    ensures Run(s, Deliveries(evs)) == Run(r, Deliveries(evs[1..]))
  {
    hide Process, AllNew, TracesMirrored;
    r := Process(s, evs[0]);
    StepTracesSynced(s, Deliver(evs[0]));
    NewNext(s, evs);
    DeliverFirst(s, evs);
  }

  lemma NewNext(s: State, evs: seq<Event>)
    requires Keyed(s.store.traces) && evs != [] && AllNew(s.store, evs)
    ensures AllNew(Process(s, evs[0]).store, evs[1..])
  {
    hide Process, Accepts, DedupKey;
    forall i | 0 <= i < |evs[1..]|
      ensures Accepts(Process(s, evs[0]).store, evs[1..][i].source, evs[1..][i].eventID, evs[1..][i].occurredAt)
    {
      assert evs[1..][i] == evs[i + 1];
      StillAccepted(s, evs[0], evs[i + 1]);
    }
  }

  /** The dedup entries of a store, and what it keeps of a time. */
  function Entries(st: StoreState): map<string, Time> {
    if st.kind.InMemory? then st.dedup else st.disk.dedup
  }

  function Stamp(st: StoreState, t: Time): Time {
    if st.kind.InMemory? then t else WholeSecond(t)
  }

  /** At `now` an entry with the stamp `t` still suppresses duplicates. */
  predicate Holds(st: StoreState, t: Time, now: Time) {
    if st.kind.InMemory? then t >= now - st.dedupTTL else t > now - st.dedupTTL
  }

  /** The store remembers the acceptance of `x` at time `t`, as its kind does. */
  predicate Marked(st: StoreState, x: string, t: Time) {
    x in Entries(st) && Entries(st)[x] == Stamp(st, t)
  }

  /** At time `now` an acceptance at `t` still suppresses duplicates. */
  predicate InWindow(st: StoreState, t: Time, now: Time) {
    Holds(st, Stamp(st, t), now)
  }

  predicate DeliversBy(a: Action, now: Time) {
    a.Deliver? ==> a.ev.occurredAt <= now
  }

  lemma StepMarked(s: State, a: Action, x: string, t: Time, now: Time)
    requires TracesSynced(s.store) && Enabled(s, a) && DeliversBy(a, now)
    requires Marked(s.store, x, t) && InWindow(s.store, t, now)
    ensures Marked(Step(s, a).store, x, t) && InWindow(Step(s, a).store, t, now)
  {
    if a.Restart? {
      OpenedSynced(s.store, a.reopened);
      var cs := RestoreChanges(Reboot(s, a.reopened), a.order);
      FollowsDedup(LoadAll(a.reopened), cs, Step(s, a).store);
    } else {
      var st, cs := StepChanges(s, a);
      FollowsDedup(st, cs, Step(s, a).store);
    }
  }

  lemma {:induction false} RunMarked(s: State, acts: seq<Action>, x: string, t: Time, now: Time)
    requires TracesSynced(s.store) && CanRun(s, acts)
    requires forall i :: 0 <= i < |acts| ==> DeliversBy(acts[i], now)
    requires Marked(s.store, x, t) && InWindow(s.store, t, now)
    ensures Marked(Run(s, acts).store, x, t) && InWindow(Run(s, acts).store, t, now)
    decreases |acts|
  {
    if acts != [] {
      StepMarked(s, acts[0], x, t, now);
      StepTracesSynced(s, acts[0]);
      RunMarked(Step(s, acts[0]), acts[1..], x, t, now);
    }
  }

  /**
   * An event accepted once and delivered again inside the window, whatever happened in between (with the
   * on-disk store, even a restart), changes nothing but the dedup memory.
   */
  lemma RedeliveryIgnored(s: State, first: Event, acts: seq<Action>, again: Event)
    requires TracesSynced(s.store) && Accepts(s.store, first.source, first.eventID, first.occurredAt)
    requires first.eventID != "" && DedupKey(first.source, first.eventID) == DedupKey(again.source, again.eventID)
    requires again.eventID != "" && InWindow(s.store, first.occurredAt, again.occurredAt)
    requires CanRun(Process(s, first), acts) && forall i :: 0 <= i < |acts| ==> DeliversBy(acts[i], again.occurredAt)
    ensures var r := Run(Process(s, first), acts); var r' := Process(r, again);
            r' == r.(store := r.store.(dedup := r'.store.dedup))
  {
    hide Process, TracesMirrored, Marked, InWindow, Accepts;
    var x := DedupKey(first.source, first.eventID);
    var s1 := Process(s, first);
    AcceptedMarked(s, first, again.occurredAt);
    StepTracesSynced(s, Deliver(first));
    assert Step(s, Deliver(first)) == s1;
    RunMarked(s1, acts, x, first.occurredAt, again.occurredAt);
    MarkedRejected(Run(s1, acts), again, first.occurredAt);
  }

  lemma AcceptedMarked(s: State, ev: Event, now: Time)
    requires Keyed(s.store.traces) && Accepts(s.store, ev.source, ev.eventID, ev.occurredAt) && ev.eventID != ""
    requires InWindow(s.store, ev.occurredAt, now)
    ensures Marked(Process(s, ev).store, DedupKey(ev.source, ev.eventID), ev.occurredAt)
    ensures InWindow(Process(s, ev).store, ev.occurredAt, now)
  {
    hide Process;
    ProcessDedup(s, ev);
  }

  /** An event whose key is marked inside the window is dropped, at most after some collecting. */
  lemma MarkedRejected(r: State, ev: Event, t: Time)
    requires ev.eventID != "" && Marked(r.store, DedupKey(ev.source, ev.eventID), t)
             && InWindow(r.store, t, ev.occurredAt)
    ensures var r' := Process(r, ev); r' == r.(store := r.store.(dedup := r'.store.dedup))
  {
    hide Handle;
  }
}
