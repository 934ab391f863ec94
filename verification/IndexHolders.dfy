/**
 * The download index without any condition on the run: whom it names for an ID, and what ending a trace does to
 * other traces' entries and leaves of its own.
 */
module IndexHolders {
  import opened Types
  import opened StoreSpec
  import opened EngineSpec
  import opened StoreChanges
  import opened CrashRecovery
  import opened SweepOrder
  import opened StepEffects

  // ---------- one Delete ----------

  /** Deleting a trace takes the entry of another one exactly when it carries the ID of that entry. */
  lemma DeleteKeepsLookup(st: StoreState, k: MediaKey, l: MediaKey, id: string)
    requires ByDownloadID(st, id) == Some(k) && l in st.traces && l != k
    ensures ByDownloadID(Delete(st, l), id) == Some(k) <==> st.traces[l].downloadID != id
  {
    hide StoreSpec.Delete;
    DeleteTraces(st, l);
    DeleteKeeps(st, l);
  }

  /** An entry for a non-empty ID names `k`. */
  predicate Names(st: StoreState, id: string, k: MediaKey) {
    id != "" && id in st.dlIndex && st.dlIndex[id] == k
  }

  /** Of the entries that name a trace, deleting it removes the one of its latest ID and leaves the others. */
  lemma DeleteLeavesEntries(st: StoreState, k: MediaKey, id: string)
    requires k in st.traces
    ensures Names(Delete(st, k), id, k) <==> Names(st, id, k) && id != st.traces[k].downloadID
  {
    hide StoreSpec.Delete;
    DeleteKeeps(st, k);
  }

  // ---------- one step ----------

  /** The step saves another trace under the ID, or ends another one that carries it. */
  ghost predicate TakesFrom(s: State, a: Action, k: MediaKey, id: string) {
    match StepEffect(s, a)
    case Saved(l, m) => l != k && m.downloadID == id
    case Ended(keys) => exists l :: l in keys && l != k && l in s.store.traces && s.store.traces[l].downloadID == id
    case Nothing => false
  }

  /** A found trace that stays live stays found exactly when no step takes its ID from it. */
  lemma StepKeepsLookup(s: State, a: Action, k: MediaKey, id: string)
    requires Keyed(s.store.traces) && Enabled(s, a) && !a.Restart? && ByDownloadID(s.store, id) == Some(k)
    requires k in Step(s, a).store.traces
    ensures ByDownloadID(Step(s, a).store, id) == Some(k) <==> !TakesFrom(s, a, k, id)
  {
    hide Step, StepEffect, Enabled;
    StepTakes(s, a);
    var r, e := Step(s, a).store, StepEffect(s, a);
    assert r.traces.Keys == Marks(r.traces).Keys;
    if e.Ended? {
      assert k in Marks(r.traces) && k !in e.keys;
      if id in IDsOf(s.store.traces, e.keys) {
        var l :| l in e.keys && l in s.store.traces && s.store.traces[l].downloadID == id;
      }
    }
  }

  // ---------- runs: whom the index names ----------

  /** The last key of the order that carries the ID. */
  function LastWith(traces: map<MediaKey, Trace>, order: seq<MediaKey>, id: string): Option<MediaKey> {
    if order == [] then None
    else
      var k := order[|order| - 1];
      if k in traces && traces[k].downloadID == id then Some(k) else LastWith(traces, order[..|order| - 1], id)
  }

  /** The holder of an ID: the trace saved last with it, until a trace that carries it ends. */
  function HolderAfter(s: State, a: Action, id: string, holder: Option<MediaKey>): Option<MediaKey> {
    if a.Restart? then
      if LastWith(s.store.traces, a.order, id).Some? then LastWith(s.store.traces, a.order, id) else holder
    else
      match StepEffect(s, a)
      case Saved(k, m) => if m.downloadID == id then Some(k) else holder
      case Ended(keys) => if id in IDsOf(s.store.traces, keys) then None else holder
      case Nothing => holder
  }

  function Holder(s: State, acts: seq<Action>, id: string, holder: Option<MediaKey>): Option<MediaKey>
    decreases |acts|
  {
    if acts == [] then holder else Holder(Step(s, acts[0]), acts[1..], id, HolderAfter(s, acts[0], id, holder))
  }

  function EntryFor(st: StoreState, id: string): Option<MediaKey> {
    if id in st.dlIndex then Some(st.dlIndex[id]) else None
  }

  lemma {:induction false} RestoredHolder(s: State, order: seq<MediaKey>, id: string)
    requires Keyed(s.store.traces) && id != "" && forall k :: k in order ==> k in s.store.traces
    ensures EntryFor(RestoreKeys(s, order).store, id) ==
            if LastWith(s.store.traces, order, id).Some? then LastWith(s.store.traces, order, id)
            else EntryFor(s.store, id)
    decreases |order|
  {
    hide RestoreOne;
    if order != [] {
      var init, k := order[..|order| - 1], order[|order| - 1];
      assert order == init + [k];
      RestoredHolder(s, init, id);
      RestoreEffect(s, init);
      RestoreOneEffect(RestoreKeys(s, init), k);
      assert RestoreKeys(s, init).store.traces[k].downloadID == s.store.traces[k].downloadID;
    }
  }

  lemma {:induction false} MarkedLast(traces: map<MediaKey, Trace>, order: seq<MediaKey>, id: string)
    ensures LastWith(MarkResumed(traces), order, id) == LastWith(traces, order, id)
    decreases |order|
  {
    if order != [] { MarkedLast(traces, order[..|order| - 1], id); }
  }

  lemma RestartHolder(s: State, a: Action, id: string)
    requires TracesSynced(s.store) && Enabled(s, a) && a.Restart? && id != ""
    ensures EntryFor(Step(s, a).store, id) == HolderAfter(s, a, id, EntryFor(s.store, id))
  {
    hide TracesSynced, Opens, RestoreKeys, LastWith;
    RebootState(s, a.reopened);
    var s1 := Reboot(s, a.reopened);
    RestoredHolder(s1, a.order, id);
    MarkedLast(s.store.traces, a.order, id);
  }

  lemma StepHolder(s: State, a: Action, id: string)
    requires TracesSynced(s.store) && Enabled(s, a) && id != ""
    ensures EntryFor(Step(s, a).store, id) == HolderAfter(s, a, id, EntryFor(s.store, id))
  {
    hide Step, StepEffect, Enabled, TracesMirrored;
    if a.Restart? { RestartHolder(s, a, id); } else { StepTakes(s, a); }
  }

  lemma {:induction false} RunHolder(s: State, acts: seq<Action>, id: string)
    requires TracesSynced(s.store) && CanRun(s, acts) && id != ""
    ensures EntryFor(Run(s, acts).store, id) == Holder(s, acts, id, EntryFor(s.store, id))
    decreases |acts|
  {
    hide Step, HolderAfter, EntryFor, TracesMirrored;
    if acts != [] {
      StepHolder(s, acts[0], id);
      StepTracesSynced(s, acts[0]);
      RunHolder(Step(s, acts[0]), acts[1..], id);
    }
  }

  /** Over every run, shared IDs, re-grabs and restarts included, the index names exactly the holders. */
  lemma IndexNamesHolders(s: State, acts: seq<Action>, id: string)
    requires Initial(s) && CanRun(s, acts) && id != ""
    ensures EntryFor(Run(s, acts).store, id) == Holder(s, acts, id, None)
  {
    EmptySynced(s);
    RunHolder(s, acts, id);
  }
}
