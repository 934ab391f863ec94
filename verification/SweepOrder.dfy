/** A sweep removes exactly the stale traces, and comes out the same in whatever order it meets them. */
module SweepOrder {
  import opened Types
  import opened MediaKeys
  import opened StoreSpec
  import opened SpanSpec
  import opened EngineSpec
  import opened StoreChanges
  import opened CrashRecovery
  import opened Bookkeeping
  import opened SpanMonitor
  import opened SpanDiscipline
  import opened CallLists

  function AsSet(order: seq<MediaKey>): set<MediaKey> {
    set k | k in order
  }

  /** Distinct live keys: what `Stale` returns, in some order. */
  ghost predicate Listing(s: State, order: seq<MediaKey>) {
    && (forall i, j :: 0 <= i < j < |order| ==> order[i] != order[j])
    && (forall k :: k in order ==> k in s.store.traces)
  }

  // ---------- the closed form ----------

  function TimeoutRecord(t: Trace, now: Time): ClosedTrace {
    ClosedTrace(t.traceID, t.attempt, Timeout, now)
  }

  /** The closed table: a record for every key, and in memory the expired ones collected. */
  function SweptClosed(st: StoreState, keys: set<MediaKey>, now: Time): map<MediaKey, ClosedTrace> {
    map k | k in st.closed.Keys + keys
            && ((k in keys && k in st.traces)
                || (k in st.closed
                     && (st.kind.InMemory? && keys != {} ==> st.closed[k].closedAt >= now - st.recallTTL))) ::
      if k in keys && k in st.traces then TimeoutRecord(st.traces[k], now) else st.closed[k]
  }

  function IDsOf(traces: map<MediaKey, Trace>, keys: set<MediaKey>): set<string> {
    set k | k in keys && k in traces && traces[k].downloadID != "" :: traces[k].downloadID
  }

  function ChildrenOf(traces: map<MediaKey, Trace>, keys: set<MediaKey>): set<ID> {
    (set k | k in keys && k in traces && traces[k].hasGrab && traces[k].grabSpanID != 0 :: traces[k].grabSpanID)
    + (set k | k in keys && k in traces && traces[k].hasDownload && traces[k].downloadSpanID != 0 ::
       traces[k].downloadSpanID)
  }

  /** The builder calls for one stale trace. */
  function Chunk(s: State, k: MediaKey, now: Time): seq<SpanOp>
    requires k in s.store.traces
  {
    var t, c := s.store.traces[k], CtxOf(s, k);
    DownloadEnd(t, c, now, false, "tracearr.timeout") + GrabEnd(t, c, now, false, "tracearr.timeout")
    + [RootEnd(t, c, now, false, "tracearr.timeout")]
  }

  function AllChunks(s: State, now: Time): map<MediaKey, seq<SpanOp>> {
    map k | k in s.store.traces :: Chunk(s, k, now)
  }

  /** The given chunks, one after another in the given order. */
  function Gather(chunks: map<MediaKey, seq<SpanOp>>, order: seq<MediaKey>): seq<SpanOp>
    requires forall k :: k in order ==> k in chunks
  {
    if order == [] then [] else Gather(chunks, order[..|order| - 1]) + chunks[order[|order| - 1]]
  }

  function SweptSpans(s: State, order: seq<MediaKey>, now: Time): Spans
    requires forall k :: k in order ==> k in s.store.traces
  {
    Spans(s.spans.next, s.spans.openSpans - ChildrenOf(s.store.traces, AsSet(order)),
          s.spans.log + Gather(AllChunks(s, now), order))
  }

  ghost predicate SweptTables(s: State, keys: set<MediaKey>, now: Time, r: State) {
    && r.store.traces == s.store.traces - keys
    && r.ctx == s.ctx - keys
    && r.store.dlIndex == s.store.dlIndex - IDsOf(s.store.traces, keys)
    && r.store.closed == SweptClosed(s.store, keys, now)
    && r.store.kind == s.store.kind && r.store.dedupTTL == s.store.dedupTTL && r.store.recallTTL == s.store.recallTTL
    && r.store.dedup == s.store.dedup && r.store.disk.dedup == s.store.disk.dedup
    && SameBooks(s, r)
  }

  // ---------- one stale trace ----------

  lemma SweepOneSpans(s: State, k: MediaKey, now: Time)
    requires k in s.store.traces
    ensures SweepOne(s, k, now).spans == Spans(s.spans.next, s.spans.openSpans - ChildrenOf(s.store.traces, {k}),
                                               s.spans.log + Chunk(s, k, now))
  {
    hide EndOpenDownload, EndOpenGrab, CloseTrace;
    var t, c := s.store.traces[k], CtxOf(s, k);
    DownloadEndSpans(s, k, now, false, ERR_TIMEOUT);
    var s1 := EndOpenDownload(s, k, now, false, ERR_TIMEOUT);
    GrabEndSpans(s1, k, now, false, ERR_TIMEOUT);
    var s2 := EndOpenGrab(s1, k, now, false, ERR_TIMEOUT);
    CloseTraceParts(s2, k, now, false, ERR_TIMEOUT, Timeout);
    var root := RootEnd(t, c, now, false, ERR_TIMEOUT);
    assert RootEnd(s2.store.traces[k], CtxOf(s2, k), now, false, ERR_TIMEOUT) == root;
    assert s2.spans.log + [root] == s.spans.log + Chunk(s, k, now);
    assert ChildrenOf(s.store.traces, {k})
           == Forgotten(t.hasGrab, t.grabSpanID) + Forgotten(t.hasDownload, t.downloadSpanID);
  }

  lemma DropTables(s: State, k: MediaKey, now: Time)
    requires k in s.store.traces
    ensures var r := CloseTrace(s, k, now, false, ERR_TIMEOUT, Timeout);
            && r.store.traces == s.store.traces - {k} && r.ctx == s.ctx - {k}
            && r.store.dlIndex == Unindexed(s.store.dlIndex, s.store.traces[k].downloadID)
            && r.store.closed == RememberClosed(s.store, k, TimeoutRecord(s.store.traces[k], now)).closed
            && r.store.kind == s.store.kind && r.store.dedupTTL == s.store.dedupTTL
            && r.store.recallTTL == s.store.recallTTL
            && r.store.dedup == s.store.dedup && r.store.disk.dedup == s.store.disk.dedup
            && SameBooks(s, r)
  {
    hide StoreSpec.Delete, StoreSpec.RememberClosed;
    var c := TimeoutRecord(s.store.traces[k], now);
    DeleteTraces(s.store, k);
    DeleteKeeps(s.store, k);
    RememberKeeps(Delete(s.store, k), k, c);
    RememberSame(s.store, Delete(s.store, k), k, c);
  }

  lemma SweepOneTables(s: State, k: MediaKey, now: Time)
    requires k in s.store.traces
    ensures var r := SweepOne(s, k, now);
            && r.store.traces == s.store.traces - {k} && r.ctx == s.ctx - {k}
            && r.store.dlIndex == Unindexed(s.store.dlIndex, s.store.traces[k].downloadID)
            && r.store.closed == RememberClosed(s.store, k, TimeoutRecord(s.store.traces[k], now)).closed
            && r.store.kind == s.store.kind && r.store.dedupTTL == s.store.dedupTTL
            && r.store.recallTTL == s.store.recallTTL
            && r.store.dedup == s.store.dedup && r.store.disk.dedup == s.store.disk.dedup
            && SameBooks(s, r)
  {
    hide CloseTrace;
    EndChildrenEdits(s, k, now, false, ERR_TIMEOUT);
    EndChildrenBooks(s, k, now, false, ERR_TIMEOUT);
    var s1 := EndChildren(s, k, now, false, ERR_TIMEOUT);
    EndChildrenCtx(s, k, now);
    DropTables(s1, k, now);
    assert s1.store.traces - {k} == s.store.traces - {k};
  }

  lemma EndChildrenCtx(s: State, k: MediaKey, now: Time)
    requires k in s.store.traces
    ensures EndChildren(s, k, now, false, ERR_TIMEOUT).ctx == s.ctx
  {
    assert EndOpenDownload(s, k, now, false, ERR_TIMEOUT).ctx == s.ctx;
  }

  lemma SweptClosedNext(st: StoreState, st1: StoreState, keys: set<MediaKey>, k: MediaKey, now: Time)
    requires keys <= st.traces.Keys && k in st.traces && k !in keys
    requires st1.closed == SweptClosed(st, keys, now) && st1.kind == st.kind && st1.recallTTL == st.recallTTL
    ensures RememberClosed(st1, k, TimeoutRecord(st.traces[k], now)).closed == SweptClosed(st, keys + {k}, now)
  {
  }

  // ---------- the whole sweep ----------

  lemma IDsNext(traces: map<MediaKey, Trace>, keys: set<MediaKey>, k: MediaKey)
    requires k in traces && k !in keys
    ensures IDsOf(traces, keys + {k}) ==
            IDsOf(traces, keys) + (if traces[k].downloadID == "" then {} else {traces[k].downloadID})
  {
  }

  lemma ChildrenNext(traces: map<MediaKey, Trace>, keys: set<MediaKey>, k: MediaKey)
    requires k in traces && k !in keys
    ensures ChildrenOf(traces, keys + {k}) == ChildrenOf(traces, keys) + ChildrenOf(traces - keys, {k})
  {
  }

  lemma MapWithout<K, V>(m: map<K, V>, keys: set<K>, k: K)
    ensures m - keys - {k} == m - (keys + {k})
  {
  }

  lemma UnindexedNext(index: map<string, MediaKey>, ids: set<string>, id: string)
    ensures Unindexed(index - ids, id) == index - (ids + (if id == "" then {} else {id}))
  {
  }

  lemma TablesNext(s: State, keys: set<MediaKey>, k: MediaKey, now: Time, s1: State)
    requires keys <= s.store.traces.Keys && k in s.store.traces && k !in keys && SweptTables(s, keys, now, s1)
    ensures SweptTables(s, keys + {k}, now, SweepOne(s1, k, now))
  {
    assert s1.store.traces[k] == s.store.traces[k];
    SweepOneTables(s1, k, now);
    SweptClosedNext(s.store, s1.store, keys, k, now);
    IDsNext(s.store.traces, keys, k);
    UnindexedNext(s.store.dlIndex, IDsOf(s.store.traces, keys), s.store.traces[k].downloadID);
    MapWithout(s.store.traces, keys, k);
    MapWithout(s.ctx, keys, k);
  }

  lemma SameChunk(s: State, s1: State, k: MediaKey, now: Time)
    requires k in s.store.traces && k in s1.store.traces && s1.store.traces[k] == s.store.traces[k]
    requires CtxOf(s1, k) == CtxOf(s, k)
    ensures Chunk(s1, k, now) == AllChunks(s, now)[k]
  {
  }

  lemma SpansJoined(b: Spans, kids: set<ID>, more: set<ID>, ops: seq<SpanOp>, chunk: seq<SpanOp>)
    ensures Spans(b.next, (b.openSpans - kids) - more, (b.log + ops) + chunk)
            == Spans(b.next, b.openSpans - (kids + more), b.log + (ops + chunk))
  {
    assert (b.log + ops) + chunk == b.log + (ops + chunk);
  }

  lemma GatherNext(chunks: map<MediaKey, seq<SpanOp>>, init: seq<MediaKey>, k: MediaKey)
    requires k in chunks && forall l :: l in init ==> l in chunks
    ensures Gather(chunks, init + [k]) == Gather(chunks, init) + chunks[k]
  {
    assert (init + [k])[..|init|] == init;
  }

  lemma SpansNext(s: State, init: seq<MediaKey>, k: MediaKey, now: Time, s1: State)
    requires (forall l :: l in init ==> l in s.store.traces) && k in s.store.traces && k !in AsSet(init)
    requires s1.store.traces == s.store.traces - AsSet(init) && s1.ctx == s.ctx - AsSet(init)
    requires s1.spans == SweptSpans(s, init, now)
    ensures SweepOne(s1, k, now).spans == SweptSpans(s, init + [k], now)
  {
    var keys, traces, chunks := AsSet(init), s.store.traces, AllChunks(s, now);
    SweepOneSpans(s1, k, now);
    assert AsSet(init + [k]) == keys + {k};
    ChildrenNext(traces, keys, k);
    SameChunk(s, s1, k, now);
    GatherNext(chunks, init, k);
    SpansJoined(s.spans, ChildrenOf(traces, keys), ChildrenOf(traces - keys, {k}), Gather(chunks, init), chunks[k]);
  }

  lemma {:induction false} SweepSwept(s: State, order: seq<MediaKey>, now: Time)
    requires Listing(s, order)
    ensures SweptTables(s, AsSet(order), now, Sweep(s, order, now))
    ensures Sweep(s, order, now).spans == SweptSpans(s, order, now)
    decreases |order|
  {
    if order == [] {
      assert AsSet(order) == {};
      assert SweptClosed(s.store, {}, now) == s.store.closed;
    } else {
      var init, k := order[..|order| - 1], order[|order| - 1];
      assert order == init + [k];
      SweepSwept(s, init, now);
      assert AsSet(order) == AsSet(init) + {k};
      TablesNext(s, AsSet(init), k, now, Sweep(s, init, now));
      SpansNext(s, init, k, now, Sweep(s, init, now));
    }
  }

  // ---------- the results ----------

  /**
   * A sweep removes precisely the traces last updated before `now - ttl`, leaves the others, the parked starts, the
   * timing and the gauges as they were, records each removed one as timed out now, and leaves nothing stale. The
   * builder calls are, for each removed trace in the given order, the ends of its children and of its root.
   */
  lemma SweepExact(s: State, order: seq<MediaKey>, now: Time, ttl: int)
    requires Enabled(s, SweepAt(now, ttl, order))
    ensures var r := Step(s, SweepAt(now, ttl, order)); var stale := StaleKeys(s.store, ttl, now);
            && r.store.traces == s.store.traces - stale && r.ctx == s.ctx - stale
            && (forall k :: k in s.store.traces ==> (k in r.store.traces <==> s.store.traces[k].updatedAt >= now - ttl))
            && (forall k :: k in stale ==>
                  var t := s.store.traces[k];
                  k in r.store.closed && r.store.closed[k] == ClosedTrace(t.traceID, t.attempt, Timeout, now))
            && SameBooks(s, r)
            && StaleKeys(r.store, ttl, now) == {}
    ensures forall k :: k in order ==> k in s.store.traces
    ensures Step(s, SweepAt(now, ttl, order)).spans.log == s.spans.log + Gather(AllChunks(s, now), order)
  {
    SweepSwept(s, order, now);
    assert AsSet(order) == StaleKeys(s.store, ttl, now);
  }

  /** Each removed root is completed, once. */
  lemma SweepCompletes(s: State, order: seq<MediaKey>, now: Time, ttl: int, k: MediaKey)
    requires Sound(s) && Enabled(s, SweepAt(now, ttl, order)) && k in StaleKeys(s.store, ttl, now)
    ensures var r := Step(s, SweepAt(now, ttl, order)); var m := Watch(r.spans.log);
            var id := s.store.traces[k].traceID;
            m.disciplined && id in m.roots && m.roots[id].life.Finished?
  {
    SweepSwept(s, order, now);
    SweepFine(s, order, now);
    SweepKeepsRoots(s, order, now);
    var r := Sweep(s, order, now);
    DroppedFinished(s, r, Watch(s.spans.log), Watch(r.spans.log), k);
  }

  /** Every root known to `m` is known to `m'`, under the same key. */
  ghost predicate KeepsRoots(m: Monitor, m': Monitor) {
    forall id :: id in m.roots ==> id in m'.roots && m'.roots[id].key == m.roots[id].key
  }

  lemma ChunksOpenNoRoots(s: State, now: Time)
    ensures var chunks := AllChunks(s, now);
            forall k, i :: k in chunks && 0 <= i < |chunks[k]| ==> !chunks[k][i].RootOpened?
  {
  }

  lemma SweepKeepsRoots(s: State, order: seq<MediaKey>, now: Time)
    requires Listing(s, order)
    ensures KeepsRoots(Watch(s.spans.log), Watch(Sweep(s, order, now).spans.log))
  {
    SweepSwept(s, order, now);
    ChunksOpenNoRoots(s, now);
    OpensNoRoots(AllChunks(s, now), order);
    RootsKept(s.spans.log, Gather(AllChunks(s, now), order));
  }

  /** A root whose trace is gone, and that is still known, is completed. */
  lemma DroppedFinished(s: State, r: State, m: Monitor, m': Monitor, k: MediaKey)
    requires AgreesWith(s.store.traces, s.ctx, s.spans, m) && AgreesWith(r.store.traces, r.ctx, r.spans, m')
    requires k in s.store.traces && k !in r.store.traces && KeepsRoots(m, m')
    ensures var id := s.store.traces[k].traceID; m'.disciplined && id in m'.roots && m'.roots[id].life.Finished?
  {
    var id := s.store.traces[k].traceID;
    assert Linked(k, s.store.traces[k], s.ctx, m.roots);
    assert m'.roots[id].key == m.roots[id].key == k;
    assert Claimed(id, m'.roots[id], r.store.traces);
  }

  lemma {:induction false} OpensNoRoots(chunks: map<MediaKey, seq<SpanOp>>, order: seq<MediaKey>)
    requires forall k :: k in order ==> k in chunks
    requires forall k, i :: k in chunks && 0 <= i < |chunks[k]| ==> !chunks[k][i].RootOpened?
    ensures forall i :: 0 <= i < |Gather(chunks, order)| ==> !Gather(chunks, order)[i].RootOpened?
    decreases |order|
  {
    if order != [] {
      OpensNoRoots(chunks, order[..|order| - 1]);
      assert order[|order| - 1] in chunks;
    }
  }

  /** A call that opens no root leaves every root known, under its key. */
  lemma ObserveKeepsRoots(m: Monitor, op: SpanOp)
    requires !op.RootOpened?
    ensures KeepsRoots(m, Observe(m, op))
  {
  }

  lemma {:induction false} RootsKept(log: seq<SpanOp>, ops: seq<SpanOp>)
    requires forall i :: 0 <= i < |ops| ==> !ops[i].RootOpened?
    ensures KeepsRoots(Watch(log), Watch(log + ops))
    decreases |ops|
  {
    if ops == [] {
      assert log + ops == log;
    } else {
      var init, op := ops[..|ops| - 1], ops[|ops| - 1];
      RootsKept(log, init);
      ObserveKeepsRoots(Watch(log + init), op);
      WatchNext(log + init, op);
      assert log + ops == log + init + [op];
    }
  }

  lemma {:induction false} ListsCount(order: seq<MediaKey>, keys: set<MediaKey>)
    requires Lists(order, keys)
    ensures |order| == |keys|
    decreases |order|
  {
    if order == [] {
      assert keys == {};
    } else {
      var init, k := order[..|order| - 1], order[|order| - 1];
      assert order == init + [k];
      ListsCount(init, keys - {k});
    }
  }

  /** Sweeping again with the same time changes nothing. */
  lemma SweepIdempotent(s: State, order: seq<MediaKey>, again: seq<MediaKey>, now: Time, ttl: int)
    requires Enabled(s, SweepAt(now, ttl, order))
    requires Enabled(Step(s, SweepAt(now, ttl, order)), SweepAt(now, ttl, again))
    ensures Step(Step(s, SweepAt(now, ttl, order)), SweepAt(now, ttl, again)) == Step(s, SweepAt(now, ttl, order))
  {
    SweepExact(s, order, now, ttl);
    ListsCount(again, StaleKeys(Step(s, SweepAt(now, ttl, order)).store, ttl, now));
  }

  // ---------- order independence ----------

  function Without(order: seq<MediaKey>, i: nat): seq<MediaKey>
    requires i < |order|
  {
    order[..i] + order[i + 1..]
  }

  /** Taking one element out of a sequence takes it out of the bag. */
  lemma BagWithout<T>(a: seq<T>, i: nat)
    requires i < |a|
    ensures multiset(a) == multiset(a[..i] + a[i + 1..]) + multiset{a[i]}
  {
    assert a == a[..i] + [a[i]] + a[i + 1..];
  }

  lemma GatherLast(chunks: map<MediaKey, seq<SpanOp>>, order: seq<MediaKey>)
    requires order != [] && forall k :: k in order ==> k in chunks
    ensures multiset(Gather(chunks, order))
            == multiset(Gather(chunks, order[..|order| - 1])) + multiset(chunks[order[|order| - 1]])
  {
  }

  lemma WithoutInit(order: seq<MediaKey>, i: nat)
    requires i < |order| - 1
    ensures var n := |order| - 1; var w := Without(order, i);
            |w| == n && w[..n - 1] == Without(order[..n], i) && w[n - 1] == order[n]
  {
  }

  lemma WithoutElements(order: seq<MediaKey>, i: nat)
    requires i < |order|
    ensures forall k :: k in Without(order, i) ==> k in order
  {
  }

  lemma {:induction false} GatherWithout(chunks: map<MediaKey, seq<SpanOp>>, order: seq<MediaKey>, i: nat)
    requires (forall k :: k in order ==> k in chunks) && i < |order|
    ensures forall k :: k in Without(order, i) ==> k in chunks
    ensures multiset(Gather(chunks, order)) == multiset(Gather(chunks, Without(order, i))) + multiset(chunks[order[i]])
    decreases |order|
  {
    hide Without, Gather;
    var n := |order| - 1;
    WithoutElements(order, i);
    GatherLast(chunks, order);
    if i == n {
      WithoutLast(order);
    } else {
      GatherWithout(chunks, order[..n], i);
      WithoutInit(order, i);
      GatherLast(chunks, Without(order, i));
    }
  }

  lemma WithoutLast(order: seq<MediaKey>)
    requires order != []
    ensures Without(order, |order| - 1) == order[..|order| - 1]
  {
  }

  /** Equal bags, and one element out of each. */
  lemma BagsWithout(a: seq<MediaKey>, b: seq<MediaKey>, i: nat)
    requires a != [] && multiset(a) == multiset(b) && i < |b| && b[i] == a[|a| - 1]
    ensures multiset(a[..|a| - 1]) == multiset(Without(b, i))
  {
    var n := |a| - 1;
    BagWithout(a, n);
    BagWithout(b, i);
    assert a[..n] + a[n + 1..] == a[..n];
    var x, y := multiset(a[..n]), multiset(Without(b, i));
    assert x + multiset{a[n]} == y + multiset{a[n]};
    assert x == x + multiset{a[n]} - multiset{a[n]};
    assert y == y + multiset{a[n]} - multiset{a[n]};
  }

  lemma SameElements(a: seq<MediaKey>, b: seq<MediaKey>)
    requires multiset(a) == multiset(b)
    ensures forall k :: k in a ==> k in b
  {
    forall k | k in a
      ensures k in b
    {
      assert k in multiset(a);
      assert k in multiset(b);
    }
  }

  lemma {:induction false} GatherPermuted(chunks: map<MediaKey, seq<SpanOp>>, a: seq<MediaKey>, b: seq<MediaKey>)
    requires forall k :: k in a || k in b ==> k in chunks
    requires multiset(a) == multiset(b)
    ensures multiset(Gather(chunks, a)) == multiset(Gather(chunks, b))
    decreases |a|
  {
    if a == [] {
      assert |multiset(b)| == 0;
      assert b == [];
    } else {
      SameElements(a, b);
      SameElements(b, a);
      var n := |a| - 1;
      assert a[n] in b;
      var i: nat :| i < |b| && b[i] == a[n];
      BagsWithout(a, b, i);
      GatherWithout(chunks, b, i);
      GatherLast(chunks, a);
      GatherPermuted(chunks, a[..n], Without(b, i));
    }
  }

  /** Two listings of one set are permutations of each other. */
  lemma ListsPermuted(a: seq<MediaKey>, b: seq<MediaKey>, keys: set<MediaKey>)
    requires Lists(a, keys) && Lists(b, keys)
    ensures multiset(a) == multiset(b)
  {
    OnceEach(a);
    OnceEach(b);
    assert forall k :: k in a <==> k in keys;
    assert forall k :: k in b <==> k in keys;
    assert forall k :: multiset(a)[k] == multiset(b)[k];
  }

  lemma {:induction false} OnceEach(a: seq<MediaKey>)
    requires forall i, j :: 0 <= i < j < |a| ==> a[i] != a[j]
    ensures forall k :: multiset(a)[k] == if k in a then 1 else 0
  {
    if a != [] {
      var n := |a| - 1;
      OnceEach(a[..n]);
      assert a == a[..n] + [a[n]];
      assert a[n] !in a[..n];
    }
  }

  lemma SameMirrorSameDisk(st: StoreState, st': StoreState)
    requires TracesSynced(st) && ClosedSynced(st) && TracesSynced(st') && ClosedSynced(st')
    requires st.kind.OnDisk? && st'.kind.OnDisk?
    requires PersistedAll(st.traces) == PersistedAll(st'.traces) && st.dlIndex == st'.dlIndex && st.closed == st'.closed
    requires st.disk.dedup == st'.disk.dedup
    ensures st.disk == st'.disk
  {
    TracesDetermine(st.traces, st.disk.traces, st'.traces, st'.disk.traces);
    ClosedDetermines(st.closed, st.disk.closed, st'.disk.closed);
  }

  lemma TracesDetermine(traces: map<MediaKey, Trace>, bucket: map<string, Trace>,
                        traces': map<MediaKey, Trace>, bucket': map<string, Trace>)
    requires TracesMirrored(traces, bucket) && TracesMirrored(traces', bucket')
    requires PersistedAll(traces) == PersistedAll(traces')
    ensures bucket == bucket'
  {
    forall e | e in bucket
      ensures e in bucket' && bucket'[e] == bucket[e]
    {
      var k := bucket[e].key;
      assert PersistedAll(traces)[k] == PersistedAll(traces')[k];
    }
    forall e | e in bucket'
      ensures e in bucket
    {
      assert bucket'[e].key in PersistedAll(traces');
    }
  }

  lemma ClosedDetermines(closed: map<MediaKey, ClosedTrace>, bucket: map<string, ClosedTrace>,
                         bucket': map<string, ClosedTrace>)
    requires ClosedMirrored(closed, bucket) && ClosedMirrored(closed, bucket')
    ensures bucket == bucket'
  {
    forall e
      ensures e in bucket <==> e in bucket'
      ensures e in bucket && e in bucket' ==> bucket[e] == bucket'[e]
    {
      if e in bucket {
        assert Named(e, closed.Keys);
        var k :| k in closed.Keys && e == Encode(k);
      }
      if e in bucket' {
        assert Named(e, closed.Keys);
        var k :| k in closed.Keys && e == Encode(k);
      }
    }
  }

  lemma SweepKeepsDisk(s: State, order: seq<MediaKey>, now: Time)
    requires TracesSynced(s.store) && ClosedSynced(s.store)
    ensures TracesSynced(Sweep(s, order, now).store) && ClosedSynced(Sweep(s, order, now).store)
    ensures s.store.kind.InMemory? ==> Sweep(s, order, now).store.disk == s.store.disk
  {
    var cs := SweepChanges(s, order, now);
    TracesSyncedFollows(s.store, cs, Sweep(s, order, now).store);
    ClosedSyncedFollows(s.store, cs, Sweep(s, order, now).store);
    if s.store.kind.InMemory? { MemoryHasNoDisk(s.store, cs, Sweep(s, order, now).store); }
  }

  lemma {:induction false} MemoryHasNoDisk(st: StoreState, cs: seq<Change>, st': StoreState)
    requires st.kind.InMemory? && Follows(st, cs, st')
    ensures st'.disk == st.disk
    decreases |cs|
  {
    if cs != [] {
      assert Apply(st, cs[0]).kind == st.kind && Apply(st, cs[0]).disk == st.disk;
      MemoryHasNoDisk(Apply(st, cs[0]), cs[1..], st');
    }
  }

  /**
   * The same sweep walked in two orders ends in the same state, file included; the builder calls are the
   * same ones, differently ordered.
   */
  lemma SweepOrderFree(s: State, a: seq<MediaKey>, b: seq<MediaKey>, now: Time, ttl: int)
    requires TracesSynced(s.store) && ClosedSynced(s.store)
    requires Enabled(s, SweepAt(now, ttl, a)) && Enabled(s, SweepAt(now, ttl, b))
    ensures var ra := Step(s, SweepAt(now, ttl, a)); var rb := Step(s, SweepAt(now, ttl, b));
            && ra == rb.(spans := ra.spans) && ra.spans == rb.spans.(log := ra.spans.log)
            && multiset(ra.spans.log) == multiset(rb.spans.log)
  {
    SweepSwept(s, a, now);
    SweepSwept(s, b, now);
    assert AsSet(a) == AsSet(b) == StaleKeys(s.store, ttl, now);
    ListsPermuted(a, b, StaleKeys(s.store, ttl, now));
    GatherPermuted(AllChunks(s, now), a, b);
    SweepKeepsDisk(s, a, now);
    SweepKeepsDisk(s, b, now);
    var ra, rb := Sweep(s, a, now), Sweep(s, b, now);
    if s.store.kind.OnDisk? { SameMirrorSameDisk(ra.store, rb.store); }
  }
}
