/** The span builder as an object over a tracer that outlives it. */
module Builders {
  import opened Types
  import opened SpanSpec

  /** The tracer hands out fresh IDs. `calls` is the log of builder calls, over all processes. */
  class Tracer {
    var next: ID
    var calls: seq<SpanOp>

    constructor ()
      ensures next == 1 && calls == []
    {
      next, calls := 1, [];
    }

    method Start() returns (id: ID)
      modifies this`next
      ensures id == old(next) && next == old(next) + 1
    {
      id := next;
      next := next + 1;
    }
  }

  class OTelBuilder {
    const tracer: Tracer
    var openSpans: set<ID>

    ghost function View(): Spans
      reads this, tracer
    {
      Spans(tracer.next, openSpans, tracer.calls)
    }

    /** The builder of the first process. */
    constructor (tracer: Tracer)
      ensures this.tracer == tracer && View() == Spans(tracer.next, {}, tracer.calls)
      ensures tracer.next == old(tracer.next) && tracer.calls == old(tracer.calls)
    {
      this.tracer, openSpans := tracer, {};
    }

    /** The builder of a process that takes over. */
    constructor TakeOver(earlier: OTelBuilder)
      modifies earlier.tracer
      ensures tracer == earlier.tracer
      ensures View() == Record(old(earlier.View()), Restarted).(openSpans := {})
    {
      tracer, openSpans := earlier.tracer, {};
      new;
      tracer.calls := tracer.calls + [Restarted];
    }

    method OpenRoot(key: MediaKey, start: Time, attempt: int, link: Option<ID>, reason: string)
      returns (rootCtx: RootCtx, traceID: ID, spanID: ID)
      modifies this, tracer
      ensures View() == SpanSpec.OpenRoot(old(View()), key, start, attempt, link, reason)
      ensures traceID == spanID == old(tracer.next) && rootCtx == LiveCtx(traceID, spanID)
    {
      var id := tracer.Start();
      tracer.calls := tracer.calls + [RootOpened(key, id, start, attempt, link, reason)];
      openSpans := openSpans + {id};
      return LiveCtx(id, id), id, id;
    }

    method OpenChild(rootCtx: RootCtx, name: string, start: Time) returns (spanID: ID)
      modifies this, tracer
      ensures View() == SpanSpec.OpenChild(old(View()), rootCtx, name, start) && spanID == old(tracer.next)
    {
      spanID := tracer.Start();
      tracer.calls := tracer.calls + [ChildOpened(rootCtx, spanID, name, start)];
      openSpans := openSpans + {spanID};
    }

    /** Span ID 0 stands for the root that `rootCtx` carries. */
    method CloseSpan(rootCtx: RootCtx, spanID: ID, end: Time, ok: bool, reason: string)
      modifies this, tracer
      ensures View() == SpanSpec.CloseSpan(old(View()), rootCtx, spanID, end, ok, reason)
    {
      tracer.calls := tracer.calls + [Closed(rootCtx, spanID, end, ok, reason)];
      if spanID != 0 {
        openSpans := openSpans - {spanID};
      }
    }

    method SyntheticSpan(rootCtx: RootCtx, name: string, start: Time, end: Time, about: Option<ID>, error: string)
      modifies this, tracer
      ensures View() == SpanSpec.SyntheticSpan(old(View()), rootCtx, name, start, end, about, error)
    {
      tracer.calls := tracer.calls + [Synthetic(rootCtx, name, start, end, about, error)];
    }

    method AddSpanEvent(rootCtx: RootCtx, spanID: ID, name: string, when: Time)
      modifies this, tracer
      ensures View() == SpanSpec.AddSpanEvent(old(View()), rootCtx, spanID, name, when)
    {
      tracer.calls := tracer.calls + [Annotated(rootCtx, spanID, name, when)];
    }
  }
}
