/** The span builder as a value, and the calls it records. */
module SpanSpec {
  import opened Types

  const SPAN_REQUEST := "media.request"
  const SPAN_SEARCH := "prowlarr.search"
  const SPAN_SONARR_GRAB := "sonarr.grab"
  const SPAN_RADARR_GRAB := "radarr.grab"
  const SPAN_DOWNLOAD := "download.transfer"
  const SPAN_SONARR_IMPORT := "sonarr.import"
  const SPAN_RADARR_IMPORT := "radarr.import"

  const ERR_TIMEOUT := "tracearr.timeout"
  const ERR_MANUAL := "arr.manual_interaction_required"
  const ERR_SUPERSEDED := "arr.grab_superseded"

  const UPGRADE_QUALITY := "quality_upgrade"
  const UPGRADE_RETRY := "failed_retry"
  const UPGRADE_MANUAL := "manual"

  /** The context a root span travels in: absent, the live span itself, or only its remote identity. */
  datatype RootCtx = NoCtx | LiveCtx(trace: ID, span: ID) | RemoteCtx(trace: ID, span: ID)

  /**
   * One call on the builder. `Closed` and `Annotated` with id 0 address the root carried by `parent`.
   * `about` names the trace whose stored record a synthetic root span is rebuilt from: a note, not an argument.
   * `Restarted` marks the point where a new process with a new builder takes over.
   */
  datatype SpanOp =
    | RootOpened(key: MediaKey, id: ID, start: Time, attempt: int, link: Option<ID>, reason: string)
    | ChildOpened(parent: RootCtx, id: ID, name: string, start: Time)
    | Closed(parent: RootCtx, id: ID, end: Time, ok: bool, reason: string)
    | Synthetic(parent: RootCtx, name: string, start: Time, end: Time, about: Option<ID>, error: string)
    | Annotated(parent: RootCtx, id: ID, name: string, when: Time)
    | Restarted

  /** `next` is the next fresh ID of the tracer; `openSpans` the builder's own table. */
  datatype Spans = Spans(next: ID, openSpans: set<ID>, log: seq<SpanOp>)

  function Record(b: Spans, op: SpanOp): Spans {
    b.(log := b.log + [op])
  }

  function OpenRoot(b: Spans, key: MediaKey, start: Time, attempt: int, link: Option<ID>, reason: string): Spans {
    Record(b, RootOpened(key, b.next, start, attempt, link, reason))
      .(next := b.next + 1, openSpans := b.openSpans + {b.next})
  }

  function OpenChild(b: Spans, parent: RootCtx, name: string, start: Time): Spans {
    Record(b, ChildOpened(parent, b.next, name, start))
      .(next := b.next + 1, openSpans := b.openSpans + {b.next})
  }

  /** Ending the root through its context leaves its table entry behind. */
  function CloseSpan(b: Spans, parent: RootCtx, id: ID, end: Time, ok: bool, reason: string): Spans {
    Record(b, Closed(parent, id, end, ok, reason))
      .(openSpans := if id == 0 then b.openSpans else b.openSpans - {id})
  }

  function SyntheticSpan(b: Spans, parent: RootCtx, name: string, start: Time, end: Time,
                         about: Option<ID>, error: string): Spans {
    Record(b, Synthetic(parent, name, start, end, about, error))
  }

  function AddSpanEvent(b: Spans, parent: RootCtx, id: ID, name: string, when: Time): Spans {
    Record(b, Annotated(parent, id, name, when))
  }
}
