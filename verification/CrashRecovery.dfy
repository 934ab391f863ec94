/**
 * The database file keeps up with the in-memory mirror, call by call, although handlers change
 * shared records before they save them; so reopening the file gives the mirror back.
 */
module CrashRecovery {
  import opened Types
  import opened MediaKeys
  import opened StoreSpec
  import opened SpanSpec
  import opened EngineSpec
  import opened StoreChanges

  // ---------- mirror and file agree ----------

  ghost predicate TracesMirrored(traces: map<MediaKey, Trace>, bucket: map<string, Trace>) {
    && Keyed(traces)
    && (forall k :: k in traces ==> Encode(k) in bucket && bucket[Encode(k)] == Persisted(traces[k]))
    && (forall e :: e in bucket ==> e == Encode(bucket[e].key) && bucket[e].key in traces)
  }

  ghost predicate ClosedMirrored(closed: map<MediaKey, ClosedTrace>, bucket: map<string, ClosedTrace>) {
    && (forall k :: k in closed ==> Encode(k) in bucket && bucket[Encode(k)] == closed[k])
    && (forall e :: e in bucket ==> Named(e, closed.Keys))
  }

  /** The trace and index buckets hold exactly the mirror. */
  ghost predicate TracesSynced(st: StoreState) {
    && Keyed(st.traces)
    && (st.kind.OnDisk? ==> TracesMirrored(st.traces, st.disk.traces) && st.dlIndex == st.disk.dlIndex)
  }

  ghost predicate ClosedSynced(st: StoreState) {
    st.kind.OnDisk? ==> ClosedMirrored(st.closed, st.disk.closed)
  }

  lemma EncodeApart(k: MediaKey)
    ensures forall l :: Encode(l) == Encode(k) ==> l == k
  {
    forall l | Encode(l) == Encode(k)
      ensures l == k
    {
      EncodeInjective(l, k);
    }
  }

  /** Every entry of a bucket comes from a key of the table. */
  ghost predicate Named(e: string, keys: set<MediaKey>) {
    exists k :: k in keys && e == Encode(k)
  }

  lemma NamedKept(e: string, keys: set<MediaKey>, k: MediaKey)
    requires Named(e, keys) && e != Encode(k)
    ensures Named(e, keys - {k}) && Named(e, keys + {k})
  {
    var l :| l in keys && e == Encode(l);
    assert l in keys - {k} && l in keys + {k};
  }

  lemma ClosedWith(closed: map<MediaKey, ClosedTrace>, bucket: map<string, ClosedTrace>, k: MediaKey, c: ClosedTrace)
    requires ClosedMirrored(closed, bucket)
    ensures ClosedMirrored(closed[k := c], bucket[Encode(k) := c])
  {
    EncodeApart(k);
    var name := Encode(k);
    var closed', bucket' := closed[k := c], bucket[name := c];
    assert closed'.Keys == closed.Keys + {k};
    forall e | e in bucket'
      ensures Named(e, closed'.Keys)
    {
      if e != name {
        NamedKept(e, closed.Keys, k);
      } else {
        assert k in closed'.Keys;
      }
    }
    forall l | l in closed'
      ensures Encode(l) in bucket' && bucket'[Encode(l)] == closed'[l]
    {
      if l != k {
        assert Encode(l) != name;
      }
    }
  }

  lemma ClosedWithout(closed: map<MediaKey, ClosedTrace>, bucket: map<string, ClosedTrace>, k: MediaKey)
    requires ClosedMirrored(closed, bucket)
    ensures ClosedMirrored(closed - {k}, bucket - {Encode(k)})
  {
    EncodeApart(k);
    assert (closed - {k}).Keys == closed.Keys - {k};
    forall e | e in bucket && e != Encode(k)
      ensures Named(e, closed.Keys - {k})
    {
      NamedKept(e, closed.Keys, k);
    }
  }

  lemma TracesWith(traces: map<MediaKey, Trace>, bucket: map<string, Trace>, t: Trace)
    requires TracesMirrored(traces, bucket)
    ensures TracesMirrored(traces[t.key := t], bucket[Encode(t.key) := Persisted(t)])
  {
    hide Encode;
    EncodeApart(t.key);
  }

  lemma TracesWithout(traces: map<MediaKey, Trace>, bucket: map<string, Trace>, k: MediaKey)
    requires TracesMirrored(traces, bucket)
    ensures TracesMirrored(traces - {k}, bucket - {Encode(k)})
  {
    EncodeApart(k);
  }

  lemma PutSynced(st: StoreState, t: Trace)
    requires TracesSynced(st)
    ensures TracesSynced(Put(st, t))
  {
    if st.kind.OnDisk? { TracesWith(st.traces, st.disk.traces, t); }
  }

  lemma DeleteSynced(st: StoreState, k: MediaKey)
    requires TracesSynced(st)
    ensures TracesSynced(Delete(st, k))
  {
    if st.kind.OnDisk? { TracesWithout(st.traces, st.disk.traces, k); }
  }

  lemma RecallSynced(st: StoreState, k: MediaKey, now: Time)
    requires ClosedSynced(st)
    ensures ClosedSynced(RecallClosed(st, k, now))
  {
    if st.kind.OnDisk? { ClosedWithout(st.closed, st.disk.closed, k); }
  }

  lemma RememberSynced(st: StoreState, k: MediaKey, c: ClosedTrace)
    requires ClosedSynced(st)
    ensures ClosedSynced(RememberClosed(st, k, c))
  {
    if st.kind.OnDisk? { ClosedWith(st.closed, st.disk.closed, k, c); }
  }

  lemma {:induction false} TracesSyncedFollows(st: StoreState, cs: seq<Change>, st': StoreState)
    requires TracesSynced(st) && Follows(st, cs, st')
    ensures TracesSynced(st')
    decreases |cs|
  {
    if cs != [] {
      match cs[0] {
        case Opened(t, now) => PutSynced(RecallClosed(st, t.key, now), t);
        case Updated(t) => PutSynced(st, t);
        case Regrabbed(t) => PutSynced(st, t);
        case Dropped(k, c) => DeleteSynced(st, k);
      }
      TracesSyncedFollows(Apply(st, cs[0]), cs[1..], st');
    }
  }

  lemma {:induction false} ClosedSyncedFollows(st: StoreState, cs: seq<Change>, st': StoreState)
    requires ClosedSynced(st) && Follows(st, cs, st')
    ensures ClosedSynced(st')
    decreases |cs|
  {
    if cs != [] {
      match cs[0] {
        case Opened(t, now) => RecallSynced(st, t.key, now);
        case Updated(t) =>
        case Regrabbed(t) =>
        case Dropped(k, c) => RememberSynced(Delete(st, k), k, c);
      }
      ClosedSyncedFollows(Apply(st, cs[0]), cs[1..], st');
    }
  }

  // ---------- reopening ----------

  function PersistedAll(traces: map<MediaKey, Trace>): map<MediaKey, Trace> {
    map k | k in traces :: Persisted(traces[k])
  }

  ghost predicate AllCodable(keys: set<MediaKey>) {
    forall k :: k in keys ==> Codable(k)
  }

  lemma ReopenedTraces(st: StoreState, loaded: map<MediaKey, Trace>)
    requires TracesMirrored(st.traces, st.disk.traces) && LoadsTraces(st.disk.traces, loaded)
    ensures loaded == PersistedAll(st.traces)
  {
    hide Encode;
    forall k
      ensures k in loaded <==> k in st.traces
      ensures k in loaded ==> loaded[k] == Persisted(st.traces[k])
    {
      if k in loaded {
        var e :| e in st.disk.traces && st.disk.traces[e].key == k && loaded[k] == st.disk.traces[e];
        assert e == Encode(k);
      }
      if k in st.traces {
        assert st.disk.traces[Encode(k)].key == k;
      }
    }
  }

  /** The names of codable keys read back as those keys. */
  lemma NamesReadBack(closed: map<MediaKey, ClosedTrace>, bucket: map<string, ClosedTrace>)
    requires ClosedMirrored(closed, bucket) && AllCodable(closed.Keys)
    ensures var readable := Readable(bucket.Keys);
            && (forall e :: e in readable ==> e in bucket && readable[e] in closed && bucket[e] == closed[readable[e]])
            && (forall k :: k in closed ==> exists e :: e in readable && readable[e] == k)
  {
    var readable := Readable(bucket.Keys);
    forall e | e in readable
      ensures readable[e] in closed && bucket[e] == closed[readable[e]]
    {
      assert Named(e, closed.Keys);
      var k :| k in closed.Keys && e == Encode(k);
      assert Codable(k);
      RoundTrip(k);
    }
    forall k | k in closed
      ensures exists e :: e in readable && readable[e] == k
    {
      assert Codable(k);
      RoundTrip(k);
      assert Encode(k) in readable;
    }
  }

  lemma LoadedExactly(closed: map<MediaKey, ClosedTrace>, bucket: map<string, ClosedTrace>,
                      readable: map<string, MediaKey>, loaded: map<MediaKey, ClosedTrace>)
    requires LoadsClosed(bucket, readable, loaded)
    requires forall e :: e in readable ==> e in bucket && readable[e] in closed && bucket[e] == closed[readable[e]]
    requires forall k :: k in closed ==> exists e :: e in readable && readable[e] == k
    ensures loaded == closed
  {
  }

  /** The closed table comes back whole exactly when every key in it is one the codec can read back. */
  lemma ReopenedClosed(closed: map<MediaKey, ClosedTrace>, bucket: map<string, ClosedTrace>,
                       loaded: map<MediaKey, ClosedTrace>)
    requires ClosedMirrored(closed, bucket) && LoadsClosed(bucket, Readable(bucket.Keys), loaded)
    ensures loaded == closed <==> AllCodable(closed.Keys)
  {
    var readable := Readable(bucket.Keys);
    if AllCodable(closed.Keys) {
      NamesReadBack(closed, bucket);
      LoadedExactly(closed, bucket, readable, loaded);
    } else {
      var k :| k in closed && !Codable(k);
      if k in loaded {
        var e :| e in readable && readable[e] == k;
        DecodedIsCodable(e);
      }
    }
  }

  /** Reopening a synced file gives back the traces with only `resumed` reset, and the index. */
  lemma Reopened(st: StoreState, st': StoreState)
    requires st.kind.OnDisk? && TracesSynced(st) && Opens(st.disk, st.dedupTTL, st.recallTTL, st')
    ensures st'.traces == PersistedAll(st.traces) && st'.dlIndex == st.dlIndex
  {
    ReopenedTraces(st, st'.traces);
  }

  // ---------- the file keeps up, in every run ----------

  lemma ResumedMirrored(traces: map<MediaKey, Trace>, bucket: map<string, Trace>)
    requires TracesMirrored(traces, bucket)
    ensures TracesMirrored(MarkResumed(PersistedAll(traces)), bucket)
  {
  }

  lemma OpenedSynced(st: StoreState, st': StoreState)
    requires st.kind.OnDisk? && TracesSynced(st) && Opens(st.disk, st.dedupTTL, st.recallTTL, st')
    ensures TracesSynced(LoadAll(st')) && Keyed(st'.traces)
  {
    Reopened(st, st');
    ResumedMirrored(st.traces, st.disk.traces);
  }

  /** Every key the store has ever seen can be read back from the file. */
  ghost predicate KeysCodable(st: StoreState) {
    AllCodable(st.traces.Keys) && AllCodable(st.closed.Keys)
  }

  /** A change brings in no key but the one of a trace it puts, and closes no key but a live one. */
  lemma AppliedKeys(st: StoreState, c: Change)
    ensures Apply(st, c).traces.Keys <= st.traces.Keys + (if c.Dropped? then {} else {c.t.key})
    ensures Apply(st, c).closed.Keys <= st.closed.Keys + (if c.Dropped? then {c.k} else {})
  {
    hide StoreSpec.Delete;
    if c.Dropped? {
      DeleteTraces(st, c.k);
      DeleteKeeps(st, c.k);
    }
  }

  lemma {:induction false} CodableFollows(st: StoreState, cs: seq<Change>, st': StoreState, k: MediaKey)
    requires KeysCodable(st) && Codable(k) && Follows(st, cs, st') && OpensOnly(cs, k)
    ensures KeysCodable(st')
    decreases |cs|
  {
    hide Apply;
    if cs != [] {
      var st1 := Apply(st, cs[0]);
      AppliedKeys(st, cs[0]);
      CodableFollows(st1, cs[1..], st', k);
    }
  }

  lemma StepChanges(s: State, a: Action) returns (st: StoreState, cs: seq<Change>)
    requires Keyed(s.store.traces) && Enabled(s, a) && (a.Restart? ==> Keyed(a.reopened.traces))
    ensures Follows(st, cs, Step(s, a).store)
    ensures match a
            case Deliver(ev) =>
              && st == SeenEvent(s.store, ev.source, ev.eventID, ev.occurredAt) && OpensOnly(cs, ev.key)
              && (!ev.phase.Grabbed? ==> NoRegrab(cs))
              && (!ev.phase.Grabbed? && !ev.phase.RequestOpened? ==> Calm(cs))
            case Restart(reopened, _) => st == LoadAll(reopened) && Calm(cs)
            case _ => st == s.store && Calm(cs)
  {
    match a
    case Deliver(ev) =>
      st := SeenEvent(s.store, ev.source, ev.eventID, ev.occurredAt);
      cs := [];
      if Accepts(s.store, ev.source, ev.eventID, ev.occurredAt) {
        cs := HandleChanges(s.(store := st), ev);
      }
    case QueueIssue(id, status, when) =>
      st := s.store;
      cs := QueueIssueChanges(s, id, status, when);
    case SweepAt(now, _, order) =>
      st := s.store;
      cs := SweepChanges(s, order, now);
    case Restart(reopened, order) =>
      st := LoadAll(reopened);
      cs := RestoreChanges(Reborn(s, reopened).(store := st), order);
  }

  predicate CodableAction(a: Action) {
    a.Deliver? ==> Codable(a.ev.key)
  }

  /** Every step, restarts included, leaves the trace and index buckets equal to the mirror. */
  lemma StepTracesSynced(s: State, a: Action)
    requires TracesSynced(s.store) && Enabled(s, a)
    ensures TracesSynced(Step(s, a).store)
  {
    if a.Restart? { OpenedSynced(s.store, a.reopened); }
    var st, cs := StepChanges(s, a);
    TracesSyncedFollows(st, cs, Step(s, a).store);
  }

  lemma StepClosedSynced(s: State, a: Action)
    requires TracesSynced(s.store) && ClosedSynced(s.store) && KeysCodable(s.store)
    requires Enabled(s, a) && CodableAction(a)
    ensures ClosedSynced(Step(s, a).store) && KeysCodable(Step(s, a).store)
  {
    hide Step, ClosedMirrored, Readable, LoadsClosed, LoadsTraces, TracesMirrored;
    if a.Restart? {
      OpenedSynced(s.store, a.reopened);
      Reopened(s.store, a.reopened);
      ReopenedClosed(s.store.closed, s.store.disk.closed, a.reopened.closed);
    }
    var st, cs := StepChanges(s, a);
    ClosedSyncedFollows(st, cs, Step(s, a).store);
    CodableFollows(st, cs, Step(s, a).store, if a.Deliver? then a.ev.key else MediaKey("", 0, 0, 0, 0));
  }

  /** Whatever happens, after every engine call the file holds exactly the live traces and their index. */
  lemma {:induction false} AlwaysTracesSynced(s: State, acts: seq<Action>)
    requires TracesSynced(s.store) && CanRun(s, acts)
    ensures TracesSynced(Run(s, acts).store)
    decreases |acts|
  {
    if acts != [] {
      StepTracesSynced(s, acts[0]);
      AlwaysTracesSynced(Step(s, acts[0]), acts[1..]);
    }
  }

  /** The same for the closed table, when every event's media key is one the codec can read back. */
  lemma {:induction false} AlwaysClosedSynced(s: State, acts: seq<Action>)
    requires TracesSynced(s.store) && ClosedSynced(s.store) && KeysCodable(s.store) && CanRun(s, acts)
    requires forall i :: 0 <= i < |acts| ==> CodableAction(acts[i])
    ensures ClosedSynced(Run(s, acts).store) && KeysCodable(Run(s, acts).store)
    decreases |acts|
  {
    if acts != [] {
      StepTracesSynced(s, acts[0]);
      StepClosedSynced(s, acts[0]);
      AlwaysClosedSynced(Step(s, acts[0]), acts[1..]);
    }
  }

  // ---------- what a restart brings back ----------

  /** Every live trace is found through its current download ID. */
  ghost predicate IndexCurrent(st: StoreState) {
    forall k :: k in st.traces && st.traces[k].downloadID != "" ==>
      st.traces[k].downloadID in st.dlIndex && st.dlIndex[st.traces[k].downloadID] == k
  }

  function ClearedIf(t: Trace, restored: bool): Trace {
    if restored then t.(hasGrab := false, hasDownload := false) else t
  }

  lemma RestoreOneEffect(s: State, k: MediaKey)
    requires Keyed(s.store.traces) && k in s.store.traces
    ensures var t := s.store.traces[k]; var r := RestoreOne(s, k);
            && r == s.(store := r.store, ctx := s.ctx[k := RemoteCtx(t.traceID, t.rootSpanID)])
            && r.store.traces == s.store.traces[k := ClearedIf(t, true)]
            && r.store.dlIndex == Indexed(s.store.dlIndex, t)
            && r.store.closed == s.store.closed && r.store.kind == s.store.kind
  {
    var u := ClearedIf(s.store.traces[k], true);
    assert s.store.traces[k := u][k := u] == s.store.traces[k := u];
  }

  /** Restoring keys clears their child flags, gives each its remote context and touches nothing else. */
  lemma {:induction false} RestoreEffect(s: State, order: seq<MediaKey>)
    requires Keyed(s.store.traces) && forall k :: k in order ==> k in s.store.traces
    ensures var r := RestoreKeys(s, order);
            && r == s.(store := r.store, ctx := r.ctx)
            && r.store.closed == s.store.closed && r.store.kind == s.store.kind
            && r.store.traces.Keys == s.store.traces.Keys
            && (forall k :: k in s.store.traces ==> r.store.traces[k] == ClearedIf(s.store.traces[k], k in order))
    decreases |order|
  {
    hide RestoreOne;
    if order != [] {
      var init, k := order[..|order| - 1], order[|order| - 1];
      assert order == init + [k];
      RestoreEffect(s, init);
      RestoreOneEffect(RestoreKeys(s, init), k);
    }
  }

  lemma {:induction false} RestoreContexts(s: State, order: seq<MediaKey>)
    requires Keyed(s.store.traces) && forall k :: k in order ==> k in s.store.traces
    ensures var r := RestoreKeys(s, order);
            && r.ctx.Keys == s.ctx.Keys + (set k | k in order)
            && (forall k :: k in order ==>
                  r.ctx[k] == RemoteCtx(s.store.traces[k].traceID, s.store.traces[k].rootSpanID))
    decreases |order|
  {
    hide RestoreOne;
    if order != [] {
      var init, k := order[..|order| - 1], order[|order| - 1];
      assert order == init + [k];
      RestoreContexts(s, init);
      RestoreEffect(s, init);
      RestoreOneEffect(RestoreKeys(s, init), k);
    }
  }

  lemma {:induction false} RestoreIndex(s: State, order: seq<MediaKey>)
    requires Keyed(s.store.traces) && forall k :: k in order ==> k in s.store.traces
    requires IndexCurrent(s.store)
    ensures RestoreKeys(s, order).store.dlIndex == s.store.dlIndex
    decreases |order|
  {
    hide RestoreOne;
    if order != [] {
      var init, k := order[..|order| - 1], order[|order| - 1];
      RestoreIndex(s, init);
      RestoreEffect(s, init);
      RestoreOneEffect(RestoreKeys(s, init), k);
      assert RestoreKeys(s, init).store.traces[k].downloadID == s.store.traces[k].downloadID;
    }
  }

  /** Restoring a trace last makes the index name it for its current ID. */
  lemma RestoredLastIndexed(s: State, order: seq<MediaKey>)
    requires Keyed(s.store.traces) && order != [] && forall k :: k in order ==> k in s.store.traces
    ensures var k := order[|order| - 1]; var id := s.store.traces[k].downloadID;
            var index := RestoreKeys(s, order).store.dlIndex;
            id != "" ==> id in index && index[id] == k
  {
    var init, k := order[..|order| - 1], order[|order| - 1];
    RestoreEffect(s, init);
    RestoreOneEffect(RestoreKeys(s, init), k);
  }

  /** Any key of a finite set can come last in an order of it. */
  lemma {:induction false} ListEndingIn(keys: set<MediaKey>, last: MediaKey) returns (order: seq<MediaKey>)
    requires last in keys
    ensures Lists(order, keys) && order != [] && order[|order| - 1] == last
    decreases keys
  {
    if keys == {last} {
      order := [last];
    } else {
      var k :| k in keys && k != last;
      var rest := ListEndingIn(keys - {k}, last);
      order := [k] + rest;
    }
  }

  /** The new process before it restores anything: the old traces, all marked resumed, and nothing else. */
  ghost predicate Rebooted(s: State, s1: State) {
    && s1.store.kind.OnDisk? && Keyed(s1.store.traces)
    && s1.store.traces == MarkResumed(s.store.traces)
    && s1.store.dlIndex == s.store.dlIndex
    && s1.ctx == map[] && s1.pending == map[] && s1.timing == map[] && s1.gauges == Gauges(0, 0, 0)
    && s1.spans == Record(s.spans, Restarted).(openSpans := {})
  }

  function Reboot(s: State, reopened: StoreState): State {
    Reborn(s, reopened).(store := LoadAll(reopened))
  }

  lemma RebootState(s: State, reopened: StoreState)
    requires TracesSynced(s.store) && s.store.kind.OnDisk?
    requires Opens(s.store.disk, s.store.dedupTTL, s.store.recallTTL, reopened)
    ensures Rebooted(s, Reboot(s, reopened)) && reopened.traces.Keys == s.store.traces.Keys
  {
    Reopened(s.store, reopened);
    MarkPersisted(s.store.traces);
  }

  lemma MarkPersisted(traces: map<MediaKey, Trace>)
    requires Keyed(traces)
    ensures MarkResumed(PersistedAll(traces)) == MarkResumed(traces) && Keyed(MarkResumed(traces))
  {
  }

  /** `r` is `s` after a crash, reopening and restoring: the live traces are the same, except that their
      child spans are forgotten and `resumed` is set, and each has a remote context. */
  ghost predicate Recovered(s: State, r: State) {
    && r.store.traces.Keys == s.store.traces.Keys == r.ctx.Keys
    && (forall k :: k in s.store.traces ==>
          var t := s.store.traces[k];
          && r.store.traces[k] == t.(resumed := true, hasGrab := false, hasDownload := false)
          && r.ctx[k] == RemoteCtx(t.traceID, t.rootSpanID))
    && r.pending == map[] && r.timing == map[] && r.gauges == Gauges(0, 0, 0)
    && r.spans == Record(s.spans, Restarted).(openSpans := {})
  }

  lemma RestoredRecords(s: State, s1: State, order: seq<MediaKey>)
    requires Keyed(s1.store.traces) && s1.store.traces == MarkResumed(s.store.traces)
    requires Lists(order, s.store.traces.Keys)
    ensures var r := RestoreKeys(s1, order);
            && r == s1.(store := r.store, ctx := r.ctx) && r.store.traces.Keys == s.store.traces.Keys
            && (forall k :: k in s.store.traces ==>
                  r.store.traces[k] == s.store.traces[k].(resumed := true, hasGrab := false, hasDownload := false))
  {
    hide RestoreKeys, Keyed;
    RestoreEffect(s1, order);
  }

  lemma RestoredContexts(s: State, s1: State, order: seq<MediaKey>)
    requires Keyed(s1.store.traces) && s1.store.traces == MarkResumed(s.store.traces) && s1.ctx == map[]
    requires Lists(order, s.store.traces.Keys)
    ensures var r := RestoreKeys(s1, order);
            && r.ctx.Keys == s.store.traces.Keys
            && (forall k :: k in s.store.traces ==>
                  r.ctx[k] == RemoteCtx(s.store.traces[k].traceID, s.store.traces[k].rootSpanID))
  {
    hide RestoreKeys, Keyed;
    RestoreContexts(s1, order);
    assert (set k | k in order) == s.store.traces.Keys;
  }

  lemma RestoreRecovers(s: State, s1: State, order: seq<MediaKey>)
    requires Rebooted(s, s1) && Lists(order, s.store.traces.Keys)
    ensures Recovered(s, RestoreKeys(s1, order))
  {
    hide RestoreKeys, Keyed, MarkResumed, Lists, Record;
    RestoredRecords(s, s1, order);
    RestoredContexts(s, s1, order);
  }

  lemma RestartRestoresTraces(s: State, reopened: StoreState, order: seq<MediaKey>)
    requires TracesSynced(s.store) && Enabled(s, Restart(reopened, order))
    ensures Recovered(s, Step(s, Restart(reopened, order)))
  {
    RebootState(s, reopened);
    RestoreRecovers(s, Reboot(s, reopened), order);
  }

  /** Restoring leaves the closed table as the file gave it. */
  lemma RestartKeepsClosed(s: State, reopened: StoreState, order: seq<MediaKey>)
    requires TracesSynced(s.store) && Enabled(s, Restart(reopened, order))
    ensures Step(s, Restart(reopened, order)).store.closed == reopened.closed
  {
    hide RestoreKeys, TracesSynced, Opens;
    RebootState(s, reopened);
    RestoreEffect(Reboot(s, reopened), order);
  }

  /** The closed table comes back whole exactly when every key in it can be read back. */
  lemma RestartRestoresClosed(s: State, reopened: StoreState, order: seq<MediaKey>)
    requires TracesSynced(s.store) && ClosedSynced(s.store) && Enabled(s, Restart(reopened, order))
    ensures Step(s, Restart(reopened, order)).store.closed == s.store.closed <==> AllCodable(s.store.closed.Keys)
  {
    hide Step, TracesSynced, AllCodable, Readable, LoadsClosed, LoadsTraces, ClosedMirrored;
    RestartKeepsClosed(s, reopened, order);
    ReopenedClosed(s.store.closed, s.store.disk.closed, reopened.closed);
  }

  lemma RestoreKeepsIndex(s: State)
    requires Keyed(s.store.traces)
    ensures IndexCurrent(s.store) <==>
            forall order :: Lists(order, s.store.traces.Keys) ==>
              RestoreKeys(s, order).store.dlIndex == s.store.dlIndex
  {
    if IndexCurrent(s.store) {
      forall order | Lists(order, s.store.traces.Keys)
        ensures RestoreKeys(s, order).store.dlIndex == s.store.dlIndex
      {
        RestoreIndex(s, order);
      }
    } else {
      var k :| k in s.store.traces && s.store.traces[k].downloadID != "" &&
               !(s.store.traces[k].downloadID in s.store.dlIndex && s.store.dlIndex[s.store.traces[k].downloadID] == k);
      var order := ListEndingIn(s.store.traces.Keys, k);
      RestoredLastIndexed(s, order);
      assert RestoreKeys(s, order).store.dlIndex != s.store.dlIndex;
    }
  }

  /** The index comes back unchanged, whatever order the map is walked in, exactly when it was current. */
  lemma RestartRestoresIndex(s: State, reopened: StoreState)
    requires TracesSynced(s.store) && s.store.kind.OnDisk?
    requires Opens(s.store.disk, s.store.dedupTTL, s.store.recallTTL, reopened)
    ensures IndexCurrent(s.store) <==>
            forall order :: Lists(order, s.store.traces.Keys) ==>
              Step(s, Restart(reopened, order)).store.dlIndex == s.store.dlIndex
  {
    RebootState(s, reopened);
    RestartIndex(s, reopened);
  }

  lemma RestartIndex(s: State, reopened: StoreState)
    requires Rebooted(s, Reboot(s, reopened))
    ensures IndexCurrent(s.store) <==>
            forall order :: Lists(order, s.store.traces.Keys) ==>
              Step(s, Restart(reopened, order)).store.dlIndex == s.store.dlIndex
  {
    var s1 := Reboot(s, reopened);
    RestoreKeepsIndex(s1);
    MarkKeepsIndex(s.store, s1.store);
    assert s1.store.traces.Keys == s.store.traces.Keys && s1.store.dlIndex == s.store.dlIndex;
    if IndexCurrent(s.store) {
      forall order | Lists(order, s.store.traces.Keys)
        ensures Step(s, Restart(reopened, order)).store.dlIndex == s.store.dlIndex
      {
        RestartIsRestore(s, reopened, order);
      }
    } else {
      var order :| Lists(order, s.store.traces.Keys) && RestoreKeys(s1, order).store.dlIndex != s.store.dlIndex;
      RestartIsRestore(s, reopened, order);
      assert Step(s, Restart(reopened, order)).store.dlIndex != s.store.dlIndex;
    }
  }

  lemma RestartIsRestore(s: State, reopened: StoreState, order: seq<MediaKey>)
    ensures Step(s, Restart(reopened, order)) == RestoreKeys(Reboot(s, reopened), order)
  {
  }

  lemma MarkKeepsIndex(st: StoreState, st': StoreState)
    requires st'.traces == MarkResumed(st.traces) && st'.dlIndex == st.dlIndex
    ensures IndexCurrent(st') <==> IndexCurrent(st)
  {
    assert forall k :: k in st.traces ==> st'.traces[k].downloadID == st.traces[k].downloadID;
  }

  /**
   * A crash after any run from an empty file: a new process has the same live traces, and the same closed
   * table if the media keys of the events are ones the codec reads back; and it has the same index, however
   * the records are walked, if every live trace was indexed under its current ID.
   */
  lemma CrashAnywhere(s: State, acts: seq<Action>, reopened: StoreState, order: seq<MediaKey>)
    requires Initial(s) && CanRun(s, acts) && Enabled(Run(s, acts), Restart(reopened, order))
    ensures var r := Run(s, acts); var r' := Step(r, Restart(reopened, order));
            && Recovered(r, r')
            && ((forall i :: 0 <= i < |acts| ==> CodableAction(acts[i])) ==> r'.store.closed == r.store.closed)
            && (IndexCurrent(r.store) ==> r'.store.dlIndex == r.store.dlIndex)
  {
    hide TracesMirrored, ClosedMirrored;
    EmptySynced(s);
    AlwaysTracesSynced(s, acts);
    var r := Run(s, acts);
    RestartRestoresTraces(r, reopened, order);
    if forall i :: 0 <= i < |acts| ==> CodableAction(acts[i]) {
      AlwaysClosedSynced(s, acts);
      RestartRestoresClosed(r, reopened, order);
    }
    if IndexCurrent(r.store) {
      RestartRestoresIndex(r, reopened);
      RebootState(r, reopened);
    }
  }

  lemma EmptySynced(s: State)
    requires Initial(s)
    ensures TracesSynced(s.store) && ClosedSynced(s.store) && KeysCodable(s.store)
  {
  }
}
