/**
 * An independent reference for the span protocol: a monitor that reads nothing but the log of builder
 * calls. It knows which children and roots are open and notices every call that breaks the rules.
 */
module SpanMonitor {
  import opened Types
  import opened SpanSpec

  /** A root is running in this process, lost with an earlier one, or completed. */
  datatype Life = Running(start: Time) | Lost(start: Time) | Finished

  datatype Root = Root(key: MediaKey, life: Life)
  datatype Kid = Kid(root: ID, start: Time)

  /**
   * `kids`: open children of this process. `roots`: every root ever opened. `local`: roots opened by
   * this process. `disciplined`: no rule was broken so far. `timely`: no span completed so far ends
   * before it starts.
   */
  datatype Monitor = Monitor(
    disciplined: bool, timely: bool, kids: map<ID, Kid>, roots: map<ID, Root>, local: set<ID>)

  const START := Monitor(true, true, map[], map[], {})

  /** `parent` is the context of a root that is not completed yet. */
  predicate Hosts(roots: map<ID, Root>, parent: RootCtx) {
    match parent
    case NoCtx => false
    case LiveCtx(id, _) => id in roots && roots[id].life.Running?
    case RemoteCtx(id, _) => id in roots && roots[id].life.Lost?
  }

  function LoseRunning(roots: map<ID, Root>): map<ID, Root> {
    map id | id in roots ::
      if roots[id].life.Running? then roots[id].(life := Lost(roots[id].life.start)) else roots[id]
  }

  predicate Unused(m: Monitor, id: ID) {
    id != 0 && id !in m.roots && id !in m.kids
  }

  /** Neither the key nor, for TV, its series key has a root that is not completed. */
  predicate Free(roots: map<ID, Root>, key: MediaKey) {
    forall id :: id in roots && !roots[id].life.Finished? ==>
      roots[id].key != key && !(key.mediaType == TYPE_TV && roots[id].key == key.SeriesKey())
  }

  function Finish(roots: map<ID, Root>, id: ID): map<ID, Root>
    requires id in roots
  {
    roots[id := roots[id].(life := Finished)]
  }

  /**
   * The rules. IDs are fresh and never 0. No root opens while its key, or its series' key, has one that
   * is not completed. A child opens and synthetic children and events land under a
   * root that is not completed. A child is closed or annotated only under its own root and only while
   * it is open in this process. A root is completed once: by ending it in the process that opened it,
   * or, when that process is gone, by a synthetic span with the original start.
   */
  function Observe(m: Monitor, op: SpanOp): Monitor {
    match op
    case RootOpened(key, id, start, _, _, _) =>
      m.(disciplined := m.disciplined && Unused(m, id) && Free(m.roots, key),
         roots := m.roots[id := Root(key, Running(start))], local := m.local + {id})
    case ChildOpened(parent, id, _, start) =>
      if Hosts(m.roots, parent) && Unused(m, id)
      then m.(kids := m.kids[id := Kid(parent.trace, start)])
      else m.(disciplined := false)
    case Closed(parent, id, end, _, _) =>
      if !Hosts(m.roots, parent) then m.(disciplined := false)
      else if id != 0 then
        if id in m.kids && m.kids[id].root == parent.trace
        then m.(timely := m.timely && m.kids[id].start <= end, kids := m.kids - {id})
        else m.(disciplined := false)
      else if parent.LiveCtx?
      then m.(timely := m.timely && m.roots[parent.trace].life.start <= end, roots := Finish(m.roots, parent.trace))
      else m.(disciplined := false)
    case Synthetic(parent, name, start, end, None, _) =>
      m.(disciplined := m.disciplined && Hosts(m.roots, parent), timely := m.timely && start <= end)
    case Synthetic(_, name, start, end, Some(id), _) =>
      if name == SPAN_REQUEST && id in m.roots && m.roots[id].life == Lost(start)
      then m.(timely := m.timely && start <= end, roots := Finish(m.roots, id))
      else m.(disciplined := false)
    case Annotated(parent, id, _, _) =>
      m.(disciplined := m.disciplined && Hosts(m.roots, parent)
                        && (id != 0 ==> id in m.kids && m.kids[id].root == parent.trace))
    case Restarted =>
      m.(kids := map[], roots := LoseRunning(m.roots), local := {})
  }

  function Watch(log: seq<SpanOp>): Monitor {
    if log == [] then START else Observe(Watch(log[..|log| - 1]), log[|log| - 1])
  }

  lemma WatchNext(log: seq<SpanOp>, op: SpanOp)
    ensures Watch(log + [op]) == Observe(Watch(log), op)
  {
    assert (log + [op])[..|log|] == log;
  }

  // ---------- what the builder makes of the calls ----------

  /** One call in the builder's own table: opened spans come in, those closed by ID go, a new process starts afresh. */
  function TableNext(table: set<ID>, op: SpanOp): set<ID> {
    match op
    case RootOpened(_, id, _, _, _, _) => table + {id}
    case ChildOpened(_, id, _, _) => table + {id}
    case Closed(_, id, _, _, _) => if id == 0 then table else table - {id}
    case Restarted => {}
    case _ => table
  }

  function TableAfter(log: seq<SpanOp>): set<ID> {
    if log == [] then {} else TableNext(TableAfter(log[..|log| - 1]), log[|log| - 1])
  }

  /** The ID of the child that a call addresses, or 0. */
  function Addressed(op: SpanOp): ID {
    if op.Closed? || op.Annotated? then op.id else 0
  }

  /** The table is the open children and the roots of this process, and these are apart. */
  ghost predicate TableIs(m: Monitor, table: set<ID>) {
    table == m.kids.Keys + m.local && m.kids.Keys !! m.roots.Keys && m.local <= m.roots.Keys
  }

  lemma TableStep(m: Monitor, table: set<ID>, op: SpanOp)
    requires TableIs(m, table) && Observe(m, op).disciplined
    ensures TableIs(Observe(m, op), TableNext(table, op))
    ensures m.disciplined && (Addressed(op) != 0 ==> Addressed(op) in table)
  {
  }

  lemma {:induction false} TableIsOpen(log: seq<SpanOp>)
    requires Watch(log).disciplined
    ensures TableIs(Watch(log), TableAfter(log))
    decreases |log|
  {
    if log != [] {
      var init, op := log[..|log| - 1], log[|log| - 1];
      NeverForgiven(Watch(init), op);
      TableIsOpen(init);
      TableStep(Watch(init), TableAfter(init), op);
    }
  }

  /** A broken rule stays noticed. */
  lemma NeverForgiven(m: Monitor, op: SpanOp)
    requires Observe(m, op).disciplined
    ensures m.disciplined
  {
  }

  lemma {:induction false} DisciplinedBefore(log: seq<SpanOp>, i: nat)
    requires i <= |log| && Watch(log).disciplined
    ensures Watch(log[..i]).disciplined
    decreases |log|
  {
    if i == |log| {
      assert log[..i] == log;
    } else {
      var init := log[..|log| - 1];
      NeverForgiven(Watch(init), log[|log| - 1]);
      DisciplinedBefore(init, i);
      assert init[..i] == log[..i];
    }
  }

  /** In a disciplined log every call that addresses a child finds it in the builder's table: none is lost. */
  lemma EveryCallFindsItsSpan(log: seq<SpanOp>, i: nat)
    requires Watch(log).disciplined && i < |log| && Addressed(log[i]) != 0
    ensures Addressed(log[i]) in TableAfter(log[..i])
  {
    hide Observe;
    DisciplinedBefore(log, i);
    DisciplinedBefore(log, i + 1);
    assert log[..i + 1] == log[..i] + [log[i]];
    WatchNext(log[..i], log[i]);
    TableIsOpen(log[..i]);
    TableStep(Watch(log[..i]), TableAfter(log[..i]), log[i]);
  }

  // ---------- counting completions ----------

  /** The call completes the root: it ends it through its live context, or is the synthetic span in its place. */
  predicate CompletesRoot(op: SpanOp, id: ID) {
    || (op.Closed? && op.id == 0 && op.parent.LiveCtx? && op.parent.trace == id)
    || (op.Synthetic? && op.about == Some(id))
  }

  function Completions(log: seq<SpanOp>, id: ID): nat {
    if log == [] then 0
    else Completions(log[..|log| - 1], id) + if CompletesRoot(log[|log| - 1], id) then 1 else 0
  }

  function FinishedCount(m: Monitor, id: ID): nat {
    if id in m.roots && m.roots[id].life.Finished? then 1 else 0
  }

  lemma CompletionStep(m: Monitor, op: SpanOp, id: ID)
    requires Observe(m, op).disciplined
    ensures FinishedCount(Observe(m, op), id) == FinishedCount(m, id) + if CompletesRoot(op, id) then 1 else 0
  {
  }

  /** In a disciplined log a root is completed by one call if it is finished, and by none if not. */
  lemma {:induction false} CompletionsCounted(log: seq<SpanOp>, id: ID)
    requires Watch(log).disciplined
    ensures Completions(log, id) == FinishedCount(Watch(log), id)
    decreases |log|
  {
    if log != [] {
      var init, op := log[..|log| - 1], log[|log| - 1];
      NeverForgiven(Watch(init), op);
      CompletionsCounted(init, id);
      CompletionStep(Watch(init), op, id);
    }
  }

  lemma KnownRootStays(m: Monitor, op: SpanOp, id: ID)
    ensures id in m.roots || (op.RootOpened? && op.id == id) ==> id in Observe(m, op).roots
  {
  }

  /** Every root opened is known from then on. */
  lemma {:induction false} OpenedIsKnown(log: seq<SpanOp>, i: nat)
    requires i < |log| && log[i].RootOpened?
    ensures log[i].id in Watch(log).roots
    decreases |log|
  {
    var init, op := log[..|log| - 1], log[|log| - 1];
    if i < |init| { OpenedIsKnown(init, i); }
    KnownRootStays(Watch(init), op, log[i].id);
  }

  // ---------- what the engine's tables must say ----------

  /** `id` is an open child of the trace. */
  predicate Owns(t: Trace, id: ID) {
    (t.hasGrab && t.grabSpanID == id) || (t.hasDownload && t.downloadSpanID == id)
  }

  function LifeOf(t: Trace): Life {
    if t.resumed then Lost(t.openedAt) else Running(t.openedAt)
  }

  function ContextOf(t: Trace): RootCtx {
    if t.resumed then RemoteCtx(t.traceID, t.rootSpanID) else LiveCtx(t.traceID, t.rootSpanID)
  }

  ghost predicate Linked(k: MediaKey, t: Trace, ctx: map<MediaKey, RootCtx>, roots: map<ID, Root>) {
    && t.key == k
    && t.traceID in roots && roots[t.traceID] == Root(k, LifeOf(t))
    && k in ctx && ctx[k] == ContextOf(t)
  }

  /** What the trace calls its open children are open children of its root, and not one twice. */
  ghost predicate Parents(t: Trace, kids: map<ID, Kid>) {
    && (t.hasGrab ==> t.grabSpanID in kids && kids[t.grabSpanID].root == t.traceID)
    && (t.hasDownload ==> t.downloadSpanID in kids && kids[t.downloadSpanID].root == t.traceID)
    && (t.hasGrab && t.hasDownload ==> t.grabSpanID != t.downloadSpanID)
  }

  /** The live trace of an unfinished root. */
  ghost predicate Claimed(id: ID, r: Root, traces: map<MediaKey, Trace>) {
    r.life.Finished? || (r.key in traces && traces[r.key].traceID == id)
  }

  /** The live trace of an open child. */
  ghost predicate Adopted(id: ID, c: Kid, roots: map<ID, Root>, traces: map<MediaKey, Trace>) {
    && c.root in roots && !roots[c.root].life.Finished?
    && roots[c.root].key in traces && Owns(traces[roots[c.root].key], id)
  }

  /** The unfinished roots are exactly those of the live traces, and the contexts point at them. */
  ghost predicate RootsAgree(traces: map<MediaKey, Trace>, ctx: map<MediaKey, RootCtx>, roots: map<ID, Root>) {
    && ctx.Keys == traces.Keys
    && (forall k :: k in traces ==> Linked(k, traces[k], ctx, roots))
    && (forall id :: id in roots ==> Claimed(id, roots[id], traces))
  }

  /** The open children are exactly those that live traces name. */
  ghost predicate ChildrenAgree(traces: map<MediaKey, Trace>, m: Monitor) {
    && (forall k :: k in traces ==> Parents(traces[k], m.kids))
    && (forall id :: id in m.kids ==> Adopted(id, m.kids[id], m.roots, traces))
  }

  /** IDs already used are non-zero and below the next fresh one; the builder's table is children plus own roots. */
  ghost predicate TableAgrees(m: Monitor, b: Spans) {
    && 0 < b.next
    && (forall id :: id in m.roots ==> 0 < id < b.next)
    && (forall id :: id in m.kids ==> 0 < id < b.next && id !in m.roots)
    && m.local <= m.roots.Keys
    && b.openSpans == m.kids.Keys + m.local
  }

  ghost predicate AgreesWith(traces: map<MediaKey, Trace>, ctx: map<MediaKey, RootCtx>, b: Spans, m: Monitor) {
    && m.disciplined
    && RootsAgree(traces, ctx, m.roots)
    && ChildrenAgree(traces, m)
    && TableAgrees(m, b)
  }

  ghost predicate Agrees(traces: map<MediaKey, Trace>, ctx: map<MediaKey, RootCtx>, b: Spans) {
    AgreesWith(traces, ctx, b, Watch(b.log))
  }

  /** No two live traces share a root or an open child. */
  lemma AgreesApart(traces: map<MediaKey, Trace>, ctx: map<MediaKey, RootCtx>, m: Monitor, k: MediaKey, l: MediaKey)
    requires RootsAgree(traces, ctx, m.roots) && ChildrenAgree(traces, m) && k in traces && l in traces && k != l
    ensures traces[k].traceID != traces[l].traceID
    ensures forall id :: !(Owns(traces[k], id) && Owns(traces[l], id))
  {
    assert Linked(k, traces[k], ctx, m.roots) && Linked(l, traces[l], ctx, m.roots);
    assert Parents(traces[k], m.kids) && Parents(traces[l], m.kids);
  }

  // ---------- the moves keep the agreement ----------

  predicate SameRoot(t: Trace, u: Trace) {
    t.key == u.key && t.traceID == u.traceID && t.rootSpanID == u.rootSpanID
    && t.openedAt == u.openedAt && t.resumed == u.resumed
  }

  predicate SameGrab(t: Trace, u: Trace) {
    t.hasGrab == u.hasGrab && t.grabSpanID == u.grabSpanID
  }

  predicate SameDownload(t: Trace, u: Trace) {
    t.hasDownload == u.hasDownload && t.downloadSpanID == u.downloadSpanID
  }

  lemma RootsAmended(traces: map<MediaKey, Trace>, ctx: map<MediaKey, RootCtx>, roots: map<ID, Root>,
                     k: MediaKey, u: Trace)
    requires RootsAgree(traces, ctx, roots) && k in traces && SameRoot(traces[k], u)
    ensures RootsAgree(traces[k := u], ctx, roots)
  {
    assert Linked(k, traces[k], ctx, roots);
    forall id | id in roots
      ensures Claimed(id, roots[id], traces[k := u])
    {
      assert Claimed(id, roots[id], traces);
    }
  }

  lemma AmendAgrees(traces: map<MediaKey, Trace>, ctx: map<MediaKey, RootCtx>, b: Spans, k: MediaKey, u: Trace)
    requires Agrees(traces, ctx, b) && k in traces && SameRoot(traces[k], u)
    requires SameGrab(traces[k], u) && SameDownload(traces[k], u)
    ensures Agrees(traces[k := u], ctx, b)
  {
    var m := Watch(b.log);
    RootsAmended(traces, ctx, m.roots, k, u);
    assert Parents(traces[k], m.kids);
    forall id | id in m.kids
      ensures Adopted(id, m.kids[id], m.roots, traces[k := u])
    {
      assert Adopted(id, m.kids[id], m.roots, traces);
    }
  }

  /** The record `u` is `t` without its open child `id`. */
  predicate Sheds(t: Trace, u: Trace, id: ID) {
    || (t.hasGrab && t.grabSpanID == id && !u.hasGrab && SameDownload(t, u))
    || (t.hasDownload && t.downloadSpanID == id && !u.hasDownload && SameGrab(t, u))
  }

  lemma ChildShed(traces: map<MediaKey, Trace>, ctx: map<MediaKey, RootCtx>, m: Monitor, k: MediaKey, u: Trace, id: ID)
    requires RootsAgree(traces, ctx, m.roots) && ChildrenAgree(traces, m)
    requires k in traces && SameRoot(traces[k], u) && Sheds(traces[k], u, id)
    ensures ChildrenAgree(traces[k := u], m.(kids := m.kids - {id}))
  {
    var t := traces[k];
    assert Parents(t, m.kids) && Linked(k, t, ctx, m.roots);
    forall l | l in traces && l != k
      ensures Parents(traces[l], m.kids - {id})
    {
      AgreesApart(traces, ctx, m, k, l);
      assert Owns(t, id) && Parents(traces[l], m.kids);
    }
    forall x | x in m.kids && x != id
      ensures Adopted(x, m.kids[x], m.roots, traces[k := u])
    {
      assert Adopted(x, m.kids[x], m.roots, traces);
    }
  }

  lemma CloseObserved(traces: map<MediaKey, Trace>, ctx: map<MediaKey, RootCtx>, m: Monitor,
                      k: MediaKey, id: ID, at: Time, ok: bool, reason: string)
    requires RootsAgree(traces, ctx, m.roots) && k in traces
    requires id != 0 && id in m.kids && m.kids[id].root == traces[k].traceID
    ensures k in ctx && Observe(m, Closed(ctx[k], id, at, ok, reason))
                        == m.(timely := m.timely && m.kids[id].start <= at, kids := m.kids - {id})
  {
    assert Linked(k, traces[k], ctx, m.roots);
  }

  lemma CloseChildStep(traces: map<MediaKey, Trace>, ctx: map<MediaKey, RootCtx>, b: Spans, m: Monitor,
                       k: MediaKey, u: Trace, id: ID, at: Time, ok: bool, reason: string)
    requires AgreesWith(traces, ctx, b, m) && k in traces && SameRoot(traces[k], u) && Sheds(traces[k], u, id)
    ensures k in ctx && AgreesWith(traces[k := u], ctx, CloseSpan(b, ctx[k], id, at, ok, reason),
                                   Observe(m, Closed(ctx[k], id, at, ok, reason)))
  {
    hide RootsAgree;
    assert Parents(traces[k], m.kids);
    CloseObserved(traces, ctx, m, k, id, at, ok, reason);
    RootsAmended(traces, ctx, m.roots, k, u);
    ChildShed(traces, ctx, m, k, u, id);
  }

  /** A child `id` of the trace at `k` is closed. */
  lemma CloseChildAgrees(traces: map<MediaKey, Trace>, ctx: map<MediaKey, RootCtx>, b: Spans,
                         k: MediaKey, u: Trace, id: ID, at: Time, ok: bool, reason: string)
    requires Agrees(traces, ctx, b) && k in traces && SameRoot(traces[k], u) && Sheds(traces[k], u, id)
    ensures k in ctx && Agrees(traces[k := u], ctx, CloseSpan(b, ctx[k], id, at, ok, reason))
  {
    CloseChildStep(traces, ctx, b, Watch(b.log), k, u, id, at, ok, reason);
    WatchNext(b.log, Closed(ctx[k], id, at, ok, reason));
  }

  /** The record `u` is `t` with a new open child `id`. */
  predicate Gains(t: Trace, u: Trace, id: ID) {
    || (!t.hasGrab && u.hasGrab && u.grabSpanID == id && SameDownload(t, u))
    || (!t.hasDownload && u.hasDownload && u.downloadSpanID == id && SameGrab(t, u))
  }

  lemma ChildGained(traces: map<MediaKey, Trace>, ctx: map<MediaKey, RootCtx>, m: Monitor,
                    k: MediaKey, u: Trace, id: ID, at: Time)
    requires RootsAgree(traces, ctx, m.roots) && ChildrenAgree(traces, m) && id !in m.kids
    requires k in traces && SameRoot(traces[k], u) && Gains(traces[k], u, id)
    ensures ChildrenAgree(traces[k := u], m.(kids := m.kids[id := Kid(u.traceID, at)]))
  {
    var t := traces[k];
    assert Parents(t, m.kids) && Linked(k, t, ctx, m.roots);
    forall l | l in traces && l != k
      ensures Parents(traces[l], m.kids[id := Kid(u.traceID, at)])
    {
      assert Parents(traces[l], m.kids);
    }
    GainedParents(t, u, m.kids, id, at);
    forall x | x in m.kids
      ensures Adopted(x, m.kids[x], m.roots, traces[k := u])
    {
      assert Adopted(x, m.kids[x], m.roots, traces);
    }
  }

  lemma GainedParents(t: Trace, u: Trace, kids: map<ID, Kid>, id: ID, at: Time)
    requires Parents(t, kids) && SameRoot(t, u) && Gains(t, u, id) && id !in kids
    ensures Parents(u, kids[id := Kid(u.traceID, at)]) && Owns(u, id)
    ensures forall x :: Owns(t, x) ==> Owns(u, x)
  {
  }

  lemma OpenObserved(traces: map<MediaKey, Trace>, ctx: map<MediaKey, RootCtx>, m: Monitor,
                     k: MediaKey, id: ID, name: string, at: Time)
    requires RootsAgree(traces, ctx, m.roots) && k in traces && Unused(m, id)
    ensures k in ctx && Observe(m, ChildOpened(ctx[k], id, name, at))
                        == m.(kids := m.kids[id := Kid(traces[k].traceID, at)])
  {
    assert Linked(k, traces[k], ctx, m.roots);
  }

  lemma OpenChildStep(traces: map<MediaKey, Trace>, ctx: map<MediaKey, RootCtx>, b: Spans, m: Monitor,
                      k: MediaKey, u: Trace, name: string, at: Time)
    requires AgreesWith(traces, ctx, b, m)
    requires k in traces && SameRoot(traces[k], u) && Gains(traces[k], u, b.next)
    ensures k in ctx && AgreesWith(traces[k := u], ctx, OpenChild(b, ctx[k], name, at),
                                   Observe(m, ChildOpened(ctx[k], b.next, name, at)))
  {
    OpenObserved(traces, ctx, m, k, b.next, name, at);
    RootsAmended(traces, ctx, m.roots, k, u);
    ChildGained(traces, ctx, m, k, u, b.next, at);
  }

  /** A child with the next fresh ID is opened for the trace at `k`. */
  lemma OpenChildAgrees(traces: map<MediaKey, Trace>, ctx: map<MediaKey, RootCtx>, b: Spans,
                        k: MediaKey, u: Trace, name: string, at: Time)
    requires Agrees(traces, ctx, b) && k in traces && SameRoot(traces[k], u) && Gains(traces[k], u, b.next)
    ensures k in ctx && Agrees(traces[k := u], ctx, OpenChild(b, ctx[k], name, at))
  {
    OpenChildStep(traces, ctx, b, Watch(b.log), k, u, name, at);
    WatchNext(b.log, ChildOpened(ctx[k], b.next, name, at));
  }

  lemma SyntheticAgrees(traces: map<MediaKey, Trace>, ctx: map<MediaKey, RootCtx>, b: Spans,
                        k: MediaKey, name: string, start: Time, end: Time)
    requires Agrees(traces, ctx, b) && k in traces
    ensures k in ctx && Agrees(traces, ctx, SyntheticSpan(b, ctx[k], name, start, end, None, ""))
  {
    assert Linked(k, traces[k], ctx, Watch(b.log).roots);
    WatchNext(b.log, Synthetic(ctx[k], name, start, end, None, ""));
  }

  lemma AnnotateAgrees(traces: map<MediaKey, Trace>, ctx: map<MediaKey, RootCtx>, b: Spans,
                       k: MediaKey, id: ID, name: string, when: Time)
    requires Agrees(traces, ctx, b) && k in traces && (id == 0 || Owns(traces[k], id))
    ensures k in ctx && Agrees(traces, ctx, AddSpanEvent(b, ctx[k], id, name, when))
  {
    assert Linked(k, traces[k], ctx, Watch(b.log).roots) && Parents(traces[k], Watch(b.log).kids);
    WatchNext(b.log, Annotated(ctx[k], id, name, when));
  }

  predicate SeriesFree(traces: map<MediaKey, Trace>, key: MediaKey) {
    key.mediaType == TYPE_TV ==> key.SeriesKey() !in traces
  }

  /** A root with the next fresh ID is opened for a new trace. */
  lemma OpenRootAgrees(traces: map<MediaKey, Trace>, ctx: map<MediaKey, RootCtx>, b: Spans,
                       t: Trace, attempt: int, link: Option<ID>, reason: string)
    requires Agrees(traces, ctx, b) && t.key !in traces && SeriesFree(traces, t.key)
    requires t.traceID == b.next && t.rootSpanID == b.next && !t.hasGrab && !t.hasDownload && !t.resumed
    ensures Agrees(traces[t.key := t], ctx[t.key := LiveCtx(b.next, b.next)],
                   OpenRoot(b, t.key, t.openedAt, attempt, link, reason))
  {
    OpenRootStep(traces, ctx, b, Watch(b.log), t, attempt, link, reason);
    WatchNext(b.log, RootOpened(t.key, b.next, t.openedAt, attempt, link, reason));
  }

  /** Where the key and its series have no live trace, no root of theirs is unfinished. */
  lemma FreeForNew(traces: map<MediaKey, Trace>, roots: map<ID, Root>, key: MediaKey)
    requires key !in traces && SeriesFree(traces, key) && forall id :: id in roots ==> Claimed(id, roots[id], traces)
    ensures Free(roots, key)
  {
    assert forall id :: id in roots ==> Claimed(id, roots[id], traces);
  }

  lemma RootsClaimed(traces: map<MediaKey, Trace>, ctx: map<MediaKey, RootCtx>, roots: map<ID, Root>)
    requires RootsAgree(traces, ctx, roots)
    ensures forall id :: id in roots ==> Claimed(id, roots[id], traces)
  {
  }

  lemma RootsWithNew(traces: map<MediaKey, Trace>, ctx: map<MediaKey, RootCtx>, roots: map<ID, Root>, t: Trace)
    requires RootsAgree(traces, ctx, roots) && t.key !in traces && t.traceID !in roots
    requires t.rootSpanID == t.traceID && !t.resumed
    ensures RootsAgree(traces[t.key := t], ctx[t.key := LiveCtx(t.traceID, t.traceID)], WithRoot(roots, t))
  {
    var traces', ctx' := traces[t.key := t], ctx[t.key := LiveCtx(t.traceID, t.traceID)];
    forall k | k in traces
      ensures Linked(k, traces[k], ctx', WithRoot(roots, t))
    {
      assert Linked(k, traces[k], ctx, roots);
    }
    forall id | id in roots
      ensures Claimed(id, roots[id], traces')
    {
      assert Claimed(id, roots[id], traces);
    }
  }

  lemma ChildrenWithRoot(traces: map<MediaKey, Trace>, m: Monitor, t: Trace)
    requires ChildrenAgree(traces, m) && t.key !in traces && t.traceID !in m.roots && !t.hasGrab && !t.hasDownload
    ensures ChildrenAgree(traces[t.key := t], m.(roots := WithRoot(m.roots, t), local := m.local + {t.traceID}))
  {
    forall id | id in m.kids
      ensures Adopted(id, m.kids[id], WithRoot(m.roots, t), traces[t.key := t])
    {
      assert Adopted(id, m.kids[id], m.roots, traces);
    }
  }

  /** The roots with that of a trace just opened. */
  function WithRoot(roots: map<ID, Root>, t: Trace): map<ID, Root> {
    roots[t.traceID := Root(t.key, Running(t.openedAt))]
  }

  lemma OpenRootStep(traces: map<MediaKey, Trace>, ctx: map<MediaKey, RootCtx>, b: Spans, m: Monitor,
                     t: Trace, attempt: int, link: Option<ID>, reason: string)
    requires AgreesWith(traces, ctx, b, m) && t.key !in traces && SeriesFree(traces, t.key)
    requires t.traceID == b.next && t.rootSpanID == b.next && !t.hasGrab && !t.hasDownload && !t.resumed
    ensures AgreesWith(traces[t.key := t], ctx[t.key := LiveCtx(b.next, b.next)],
                       OpenRoot(b, t.key, t.openedAt, attempt, link, reason),
                       Observe(m, RootOpened(t.key, b.next, t.openedAt, attempt, link, reason)))
  {
    hide Free, SeriesFree, RootsAgree, ChildrenAgree;
    assert b.next !in m.roots;
    assert forall id :: id in m.roots ==> Claimed(id, m.roots[id], traces) by { RootsClaimed(traces, ctx, m.roots); }
    FreeForNew(traces, m.roots, t.key);
    RootsWithNew(traces, ctx, m.roots, t);
    ChildrenWithRoot(traces, m, t);
  }

  /** `op` completes the root of the trace: by ending it, or synthetically if it was lost. */
  predicate Completes(op: SpanOp, t: Trace, c: RootCtx) {
    if t.resumed
    then op.Synthetic? && op.name == SPAN_REQUEST && op.about == Some(t.traceID) && op.start == t.openedAt
    else op.Closed? && op.parent == c && op.id == 0
  }

  /** A trace without open children is completed and dropped. */
  lemma FinishAgrees(traces: map<MediaKey, Trace>, ctx: map<MediaKey, RootCtx>, b: Spans, op: SpanOp, k: MediaKey)
    requires Agrees(traces, ctx, b) && k in traces && k in ctx && !traces[k].hasGrab && !traces[k].hasDownload
    requires Completes(op, traces[k], ctx[k])
    ensures Agrees(traces - {k}, ctx - {k}, Record(b, op))
  {
    FinishStep(traces, ctx, b, Watch(b.log), op, k);
    WatchNext(b.log, op);
  }

  lemma FinishStep(traces: map<MediaKey, Trace>, ctx: map<MediaKey, RootCtx>, b: Spans, m: Monitor,
                   op: SpanOp, k: MediaKey)
    requires AgreesWith(traces, ctx, b, m)
    requires k in traces && k in ctx && !traces[k].hasGrab && !traces[k].hasDownload
    requires Completes(op, traces[k], ctx[k])
    ensures AgreesWith(traces - {k}, ctx - {k}, Record(b, op), Observe(m, op))
  {
    var t := traces[k];
    assert Linked(k, t, ctx, m.roots);
    var m' := Observe(m, op);
    assert m'.roots == Finish(m.roots, t.traceID) && m'.kids == m.kids && m'.disciplined;
    forall l | l in traces && l != k
      ensures Linked(l, traces[l], ctx - {k}, m'.roots)
    {
      AgreesApart(traces, ctx, m, k, l);
      assert Linked(l, traces[l], ctx, m.roots);
    }
    forall id | id in m'.roots
      ensures Claimed(id, m'.roots[id], traces - {k})
    {
      assert Claimed(id, m.roots[id], traces);
    }
    forall id | id in m.kids
      ensures Adopted(id, m.kids[id], m'.roots, traces - {k})
    {
      assert Adopted(id, m.kids[id], m.roots, traces);
    }
  }

  /** After a restart every live trace is resumed and childless. */
  function Resumed(t: Trace): Trace {
    t.(resumed := true, hasGrab := false, hasDownload := false)
  }

  lemma RestartAgrees(traces: map<MediaKey, Trace>, ctx: map<MediaKey, RootCtx>, b: Spans,
                      traces': map<MediaKey, Trace>, ctx': map<MediaKey, RootCtx>)
    requires Agrees(traces, ctx, b)
    requires traces'.Keys == traces.Keys == ctx'.Keys
    requires forall k :: k in traces ==>
               traces'[k] == Resumed(traces[k]) && ctx'[k] == RemoteCtx(traces[k].traceID, traces[k].rootSpanID)
    ensures Agrees(traces', ctx', Record(b, Restarted).(openSpans := {}))
  {
    WatchNext(b.log, Restarted);
    RestartStep(traces, ctx, b, Watch(b.log), traces', ctx');
  }

  /** The records and contexts a restart leaves. */
  ghost predicate CarriedOver(traces: map<MediaKey, Trace>, traces': map<MediaKey, Trace>,
                              ctx': map<MediaKey, RootCtx>) {
    && traces'.Keys == traces.Keys == ctx'.Keys
    && forall k :: k in traces ==>
         traces'[k] == Resumed(traces[k]) && ctx'[k] == RemoteCtx(traces[k].traceID, traces[k].rootSpanID)
  }

  lemma RootsLost(traces: map<MediaKey, Trace>, ctx: map<MediaKey, RootCtx>, roots: map<ID, Root>,
                  traces': map<MediaKey, Trace>, ctx': map<MediaKey, RootCtx>)
    requires RootsAgree(traces, ctx, roots) && CarriedOver(traces, traces', ctx')
    ensures RootsAgree(traces', ctx', LoseRunning(roots))
  {
    forall k | k in traces'
      ensures Linked(k, traces'[k], ctx', LoseRunning(roots))
    {
      assert Linked(k, traces[k], ctx, roots);
    }
    forall id | id in LoseRunning(roots)
      ensures Claimed(id, LoseRunning(roots)[id], traces')
    {
      assert Claimed(id, roots[id], traces);
    }
  }

  lemma RestartStep(traces: map<MediaKey, Trace>, ctx: map<MediaKey, RootCtx>, b: Spans, m: Monitor,
                    traces': map<MediaKey, Trace>, ctx': map<MediaKey, RootCtx>)
    requires AgreesWith(traces, ctx, b, m) && CarriedOver(traces, traces', ctx')
    ensures AgreesWith(traces', ctx', Record(b, Restarted).(openSpans := {}), Observe(m, Restarted))
  {
    hide RootsAgree;
    RootsLost(traces, ctx, m.roots, traces', ctx');
  }

  // ---------- times ----------

  /** Nothing completed so far ended before it started, and nothing unfinished starts after `now`. */
  ghost predicate OnTime(m: Monitor, now: Time) {
    && m.timely
    && (forall id :: id in m.kids ==> m.kids[id].start <= now)
    && (forall id :: id in m.roots ==> m.roots[id].life.Finished? || m.roots[id].life.start <= now)
  }

  /** A call that is in order at time `now`: it opens no later, ends now, and rebuilds no negative span. */
  predicate Punctual(op: SpanOp, now: Time) {
    match op
    case RootOpened(_, _, start, _, _, _) => start <= now
    case ChildOpened(_, _, _, start) => start <= now
    case Closed(_, _, end, _, _) => end == now
    case Synthetic(_, _, start, end, _, _) => start <= end
    case _ => true
  }

  lemma ObserveOnTime(m: Monitor, op: SpanOp, now: Time)
    requires OnTime(m, now) && Punctual(op, now)
    ensures OnTime(Observe(m, op), now)
  {
  }

  lemma RecordOnTime(log: seq<SpanOp>, op: SpanOp, now: Time)
    requires OnTime(Watch(log), now) && Punctual(op, now)
    ensures OnTime(Watch(log + [op]), now)
  {
    WatchNext(log, op);
    ObserveOnTime(Watch(log), op, now);
  }
}
