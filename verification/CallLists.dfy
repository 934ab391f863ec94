/** The builder calls that end a trace or its children, as lists read off the trace's record. */
module CallLists {
  import opened Types
  import opened StoreSpec
  import opened SpanSpec
  import opened EngineSpec

  /** The call, if it is made at all. */
  function If(made: bool, op: SpanOp): seq<SpanOp> {
    if made then [op] else []
  }

  function DownloadEnd(t: Trace, ctx: RootCtx, at: Time, ok: bool, reason: string): seq<SpanOp> {
    If(t.hasDownload, Closed(ctx, t.downloadSpanID, at, ok, reason))
  }

  function GrabEnd(t: Trace, ctx: RootCtx, at: Time, ok: bool, reason: string): seq<SpanOp> {
    If(t.hasGrab, Closed(ctx, t.grabSpanID, at, ok, reason))
  }

  /** The one call that completes the root: it ends the live one, or rebuilds the one lost with its process. */
  function RootEnd(t: Trace, ctx: RootCtx, at: Time, ok: bool, reason: string): SpanOp {
    if t.resumed then Synthetic(NoCtx, "media.request", t.openedAt, at, Some(t.traceID), if ok then "" else reason)
    else Closed(ctx, 0, at, ok, reason)
  }

  /** The ID that a flag makes the builder forget; the root's ID 0 is never in its table. */
  function Forgotten(has: bool, id: ID): set<ID> {
    if has && id != 0 then {id} else {}
  }

  lemma DownloadEndSpans(s: State, k: MediaKey, at: Time, ok: bool, reason: string)
    requires k in s.store.traces
    ensures var r := EndOpenDownload(s, k, at, ok, reason); var t := s.store.traces[k];
            && r.spans == Spans(s.spans.next, s.spans.openSpans - Forgotten(t.hasDownload, t.downloadSpanID),
                                s.spans.log + DownloadEnd(t, CtxOf(s, k), at, ok, reason))
            && r == s.(store := SetTrace(s.store, k, t.(hasDownload := false)), spans := r.spans)
  {
    assert s.spans.log + [] == s.spans.log;
    assert s.store.traces[k := s.store.traces[k]] == s.store.traces;
    assert !s.store.traces[k].hasDownload ==> s.store.traces[k].(hasDownload := false) == s.store.traces[k];
  }

  lemma GrabEndSpans(s: State, k: MediaKey, at: Time, ok: bool, reason: string)
    requires k in s.store.traces
    ensures var r := EndOpenGrab(s, k, at, ok, reason); var t := s.store.traces[k];
            && r.spans == Spans(s.spans.next, s.spans.openSpans - Forgotten(t.hasGrab, t.grabSpanID),
                                s.spans.log + GrabEnd(t, CtxOf(s, k), at, ok, reason))
            && r == s.(store := SetTrace(s.store, k, t.(hasGrab := false)), spans := r.spans)
  {
    assert s.spans.log + [] == s.spans.log;
    assert s.store.traces[k := s.store.traces[k]] == s.store.traces;
    assert !s.store.traces[k].hasGrab ==> s.store.traces[k].(hasGrab := false) == s.store.traces[k];
  }

  lemma ChildrenEndSpans(s: State, k: MediaKey, at: Time, ok: bool, reason: string)
    requires k in s.store.traces
    ensures var r := EndChildren(s, k, at, ok, reason); var t := s.store.traces[k]; var c := CtxOf(s, k);
            && r.spans.next == s.spans.next
            && r.spans.log == s.spans.log + DownloadEnd(t, c, at, ok, reason) + GrabEnd(t, c, at, ok, reason)
            && r == s.(store := SetTrace(s.store, k, t.(hasGrab := false, hasDownload := false)), spans := r.spans)
  {
    hide EndOpenDownload, EndOpenGrab;
    DownloadEndSpans(s, k, at, ok, reason);
    var s1 := EndOpenDownload(s, k, at, ok, reason);
    GrabEndSpans(s1, k, at, ok, reason);
    var u := s.store.traces[k].(hasGrab := false, hasDownload := false);
    assert s1.store.traces[k := u] == s.store.traces[k := u];
  }
}
