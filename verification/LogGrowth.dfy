/**
 * What each step adds to the log of builder calls: at most one call that opens a root or leaves a note, first of
 * all, and then only calls that do neither.
 */
module LogGrowth {
  import opened Types
  import opened StoreSpec
  import opened SpanSpec
  import opened EngineSpec
  import opened StoreChanges

  /** The call neither opens a root nor leaves a note on a span. */
  predicate Plain(op: SpanOp) {
    !op.RootOpened? && !op.Annotated?
  }

  /** `log'` is `log` with plain calls after it. */
  ghost predicate AddsPlain(log: seq<SpanOp>, log': seq<SpanOp>) {
    && |log| <= |log'| && log'[..|log|] == log
    && forall i :: |log| <= i < |log'| ==> Plain(log'[i])
  }

  ghost predicate Plainly(s: State, r: State) {
    AddsPlain(s.spans.log, r.spans.log)
  }

  lemma PlainRecord(b: Spans, op: SpanOp)
    requires Plain(op)
    ensures AddsPlain(b.log, Record(b, op).log)
  {
  }

  lemma PlainDownload(s: State, k: MediaKey, at: Time, ok: bool, reason: string)
    requires k in s.store.traces
    ensures Plainly(s, EndOpenDownload(s, k, at, ok, reason)) && k in EndOpenDownload(s, k, at, ok, reason).store.traces
  {
    hide AddsPlain;
    PlainRecord(s.spans, Closed(CtxOf(s, k), s.store.traces[k].downloadSpanID, at, ok, reason));
    PlainSame(s);
  }

  lemma PlainGrabEnd(s: State, k: MediaKey, at: Time, ok: bool, reason: string)
    requires k in s.store.traces
    ensures Plainly(s, EndOpenGrab(s, k, at, ok, reason)) && k in EndOpenGrab(s, k, at, ok, reason).store.traces
  {
    hide AddsPlain;
    PlainRecord(s.spans, Closed(CtxOf(s, k), s.store.traces[k].grabSpanID, at, ok, reason));
    PlainSame(s);
  }

  lemma PlainSame(s: State)
    ensures Plainly(s, s)
  {
  }

  lemma PlainThen(s: State, s1: State, s2: State)
    requires Plainly(s, s1) && Plainly(s1, s2)
    ensures Plainly(s, s2)
  {
  }

  lemma PlainChildren(s: State, k: MediaKey, at: Time, ok: bool, reason: string)
    requires k in s.store.traces
    ensures Plainly(s, EndChildren(s, k, at, ok, reason)) && k in EndChildren(s, k, at, ok, reason).store.traces
  {
    hide Plainly, EndOpenDownload, EndOpenGrab;
    PlainDownload(s, k, at, ok, reason);
    var s1 := EndOpenDownload(s, k, at, ok, reason);
    PlainGrabEnd(s1, k, at, ok, reason);
    PlainThen(s, s1, EndOpenGrab(s1, k, at, ok, reason));
  }

  lemma PlainClose(s: State, k: MediaKey, at: Time, ok: bool, reason: string, outcome: Outcome)
    requires k in s.store.traces
    ensures Plainly(s, CloseTrace(s, k, at, ok, reason, outcome))
  {
    hide AddsPlain, StoreSpec.Delete, StoreSpec.RememberClosed;
    var t := s.store.traces[k];
    PlainRecord(s.spans, if t.resumed then Synthetic(NoCtx, SPAN_REQUEST, t.openedAt, at, Some(t.traceID),
                                                      if ok then "" else reason)
                         else Closed(CtxOf(s, k), 0, at, ok, reason));
  }

  lemma PlainEmit(s: State, k: MediaKey, name: string, start: Time, end: Time)
    ensures Plainly(s, EmitUnder(s, k, name, start, end))
  {
    hide AddsPlain;
    PlainRecord(s.spans, Synthetic(CtxOf(s, k), name, start, end, None, ""));
  }

  lemma PlainGrab(s: State, k: MediaKey, ev: Event)
    requires k in s.store.traces
    ensures Plainly(s, Grab(s, k, ev))
  {
    hide AddsPlain, EndOpenGrab, Put;
    var at := ev.occurredAt;
    PlainEmit(s, k, SPAN_SEARCH, s.store.traces[k].searchStart, at);
    PlainSame(s);
    var s1 := EmitSearch(s, k, at);
    PlainGrabEnd(s1, k, at, false, ERR_SUPERSEDED);
    var s2 := EndOpenGrab(s1, k, at, false, ERR_SUPERSEDED);
    PlainThen(s, s1, s2);
    PlainRecord(s2.spans, ChildOpened(CtxOf(s2, k), s2.spans.next, GrabSpanName(ev.source), at));
    PlainThen(s, s2, Grab(s, k, ev));
  }

  lemma PlainStart(s: State, k: MediaKey, ev: Event)
    requires k in s.store.traces
    ensures Plainly(s, HandleDownloadStart(s, k, ev))
  {
    hide AddsPlain, Put;
    PlainRecord(s.spans, ChildOpened(CtxOf(s, k), s.spans.next, SPAN_DOWNLOAD, ev.occurredAt));
    PlainSame(s);
  }

  lemma PlainReplay(s: State, k: MediaKey, id: string)
    requires k in s.store.traces
    ensures Plainly(s, Replay(s, k, id))
  {
    hide AddsPlain, HandleDownloadStart;
    PlainSame(s);
    if id != "" && id in s.pending { PlainStart(s.(pending := s.pending - {id}), k, s.pending[id].event); }
  }

  lemma PlainImport(s: State, k: MediaKey, ev: Event)
    requires k in s.store.traces
    ensures Plainly(s, Import(s, k, ev))
  {
    hide AddsPlain, EndOpenDownload, EndOpenGrab, Put;
    var at := ev.occurredAt;
    PlainDownload(s, k, at, true, "");
    var s1 := EndOpenDownload(s, k, at, true, "");
    var start := Earlier(s1.store.traces[k].updatedAt, at);
    PlainEmit(s1, k, ImportSpanName(ev.source), start, at);
    var s2 := EmitUnder(s1, k, ImportSpanName(ev.source), start, at);
    PlainThen(s, s1, s2);
    PlainGrabEnd(s2, k, at, true, "");
    PlainThen(s, s2, EndOpenGrab(s2, k, at, true, ""));
  }

  lemma PlainImported(s: State, ev: Event)
    ensures Plainly(s, OnImported(s, ev))
  {
    hide AddsPlain, Import, CloseTrace;
    PlainSame(s);
    if Resolve(s.store.traces, ev.key).Some? {
      var k := Resolve(s.store.traces, ev.key).value;
      PlainImport(s, k, ev);
      var s1 := Import(s, k, ev);
      ImportLive(s, k, ev);
      PlainClose(s1, k, ev.occurredAt, true, "", Available);
      PlainThen(s, s1, CloseTrace(s1, k, ev.occurredAt, true, "", Available));
    }
  }

  lemma ImportLive(s: State, k: MediaKey, ev: Event)
    requires k in s.store.traces
    ensures k in Import(s, k, ev).store.traces
  {
  }

  lemma PlainRequestClosed(s: State, ev: Event)
    ensures Plainly(s, OnRequestClosed(s, ev))
  {
    hide AddsPlain, EndChildren, CloseTrace;
    PlainSame(s);
    if Resolve(s.store.traces, ev.key).Some? {
      var k := Resolve(s.store.traces, ev.key).value;
      PlainChildren(s, k, ev.occurredAt, true, "");
      var s1 := EndChildren(s, k, ev.occurredAt, true, "");
      PlainClose(s1, k, ev.occurredAt, ev.outcome.Available?, ev.errorReason, ev.outcome);
      PlainThen(s, s1, CloseTrace(s1, k, ev.occurredAt, ev.outcome.Available?, ev.errorReason, ev.outcome));
    }
  }

  lemma PlainDownloadDone(s: State, ev: Event)
    ensures Plainly(s, OnDownloadDone(s, ev))
  {
    hide AddsPlain, Put;
    PlainSame(s);
    if ByDownloadID(s.store, ev.release.downloadID).Some? {
      var k, at := ByDownloadID(s.store, ev.release.downloadID).value, ev.occurredAt;
      PlainRecord(s.spans, Closed(CtxOf(s, k), s.store.traces[k].downloadSpanID, at,
                                  ev.errorReason == "", ev.errorReason));
      PlainEmit(s, k, SPAN_DOWNLOAD, at, at);
    }
  }

  lemma PlainDownloadStart(s: State, ev: Event)
    ensures Plainly(s, OnDownloadStart(s, ev))
  {
    hide AddsPlain, HandleDownloadStart;
    PlainSame(s);
    if ByDownloadID(s.store, ev.release.downloadID).Some? {
      PlainStart(s, ByDownloadID(s.store, ev.release.downloadID).value, ev);
    }
  }

  lemma {:induction false} PlainSweep(s: State, order: seq<MediaKey>, now: Time)
    ensures Plainly(s, Sweep(s, order, now))
    decreases |order|
  {
    hide Plainly, EndChildren, CloseTrace;
    PlainSame(s);
    if order != [] {
      var init, k := order[..|order| - 1], order[|order| - 1];
      PlainSweep(s, init, now);
      var s1 := Sweep(s, init, now);
      if k in s1.store.traces {
        PlainChildren(s1, k, now, false, ERR_TIMEOUT);
        var s2 := EndChildren(s1, k, now, false, ERR_TIMEOUT);
        PlainClose(s2, k, now, false, ERR_TIMEOUT, Timeout);
        PlainThen(s1, s2, SweepOne(s1, k, now));
        PlainThen(s, s1, SweepOne(s1, k, now));
      }
    }
  }

  lemma {:induction false} RestoreSpans(s: State, order: seq<MediaKey>)
    ensures RestoreKeys(s, order).spans == s.spans
    decreases |order|
  {
    if order != [] { RestoreSpans(s, order[..|order| - 1]); }
  }

  lemma PlainRestart(s: State, reopened: StoreState, order: seq<MediaKey>)
    ensures Plainly(s, Step(s, Restart(reopened, order)))
  {
    hide AddsPlain;
    RestoreSpans(Reborn(s, reopened).(store := LoadAll(reopened)), order);
    PlainRecord(s.spans, Restarted);
  }

  // ---------- the leading call of a step ----------

  function NewRoot(s: State, ev: Event, reason: string): SpanOp {
    var prior := Recalled(s.store, ev.key, ev.occurredAt);
    RootOpened(ev.key, s.spans.next, ev.occurredAt, AttemptAfter(prior), LinkTo(prior), reason)
  }

  /** The root that an event opens, or the note that it leaves. */
  function LeadingOf(s: State, ev: Event): Option<SpanOp> {
    var prior := Recalled(s.store, ev.key, ev.occurredAt);
    match Resolve(s.store.traces, ev.key)
    case None =>
      if ev.phase.RequestOpened? then Some(NewRoot(s, ev, RequestReason(prior)))
      else if ev.phase.Grabbed? then Some(NewRoot(s, ev, OrphanReason(prior, ev.release.isUpgrade)))
      else None
    case Some(k) =>
      if ev.phase.RequestApproved? then Some(Annotated(CtxOf(s, k), 0, "request.approved", ev.occurredAt))
      else if ev.phase.ManualNeeded? then
        Some(Annotated(CtxOf(s, k), NoticeTarget(s.store.traces[k]), "manual_interaction_required", ev.occurredAt))
      else None
  }

  function Leading(s: State, a: Action): Option<SpanOp> {
    match a
    case Deliver(ev) =>
      if Accepts(s.store, ev.source, ev.eventID, ev.occurredAt) then LeadingOf(s, ev) else None
    case QueueIssue(id, _, when) =>
      (match ByDownloadID(s.store, id)
       case None => None
       case Some(k) => Some(Annotated(CtxOf(s, k), NoticeTarget(s.store.traces[k]), "queue.stalled", when)))
    case _ => None
  }

  function Led(log: seq<SpanOp>, leading: Option<SpanOp>): seq<SpanOp> {
    match leading case None => log case Some(op) => log + [op]
  }

  lemma TargetLog(s: State, ev: Event)
    requires ev.phase.Grabbed?
    ensures var (k, s1) := GrabTarget(s, ev); k in s1.store.traces && s1.spans.log == Led(s.spans.log, LeadingOf(s, ev))
  {
    hide StoreSpec.RecallClosed;
  }

  lemma GrabbedGrows(s: State, ev: Event)
    requires ev.phase.Grabbed?
    ensures AddsPlain(Led(s.spans.log, LeadingOf(s, ev)), OnGrabbed(s, ev).spans.log)
  {
    hide GrabTarget, Grab, Replay, LeadingOf, AddsPlain;
    TargetLog(s, ev);
    var (k, s1) := GrabTarget(s, ev);
    PlainGrab(s1, k, ev);
    GrabLive(s1, k, ev);
    var s2 := Grab(s1, k, ev);
    PlainReplay(s2, k, ev.release.downloadID);
    PlainThen(s1, s2, OnGrabbed(s, ev));
  }

  lemma RequestLog(s: State, ev: Event)
    requires ev.phase.RequestOpened?
    ensures OnRequestOpened(s, ev).spans.log == Led(s.spans.log, LeadingOf(s, ev))
  {
    hide Put, StoreSpec.RecallClosed;
  }

  lemma NoticeLog(s: State, ev: Event)
    ensures ev.phase.RequestApproved? ==> OnRequestApproved(s, ev).spans.log == Led(s.spans.log, LeadingOf(s, ev))
    ensures ev.phase.ManualNeeded? ==> OnManualNeeded(s, ev).spans.log == Led(s.spans.log, LeadingOf(s, ev))
  {
    hide Put;
  }

  lemma QueueLog(s: State, id: string, status: string, when: Time)
    ensures NoteQueueIssue(s, id, status, when).spans.log == Led(s.spans.log, Leading(s, QueueIssue(id, status, when)))
  {
    hide Put;
  }

  lemma HandleGrows(s: State, ev: Event)
    ensures AddsPlain(Led(s.spans.log, LeadingOf(s, ev)), Handle(s, ev).spans.log)
  {
    hide AddsPlain, OnRequestOpened, OnRequestApproved, OnRequestClosed, OnGrabbed, OnDownloadStart, OnDownloadDone,
      OnImported, OnManualNeeded;
    PlainSame(s);
    SameLog(Led(s.spans.log, LeadingOf(s, ev)));
    match ev.phase
    case RequestOpened => RequestLog(s, ev);
    case RequestApproved => NoticeLog(s, ev);
    case RequestClosed => PlainRequestClosed(s, ev);
    case Grabbed => GrabbedGrows(s, ev);
    case DownloadStart => PlainDownloadStart(s, ev);
    case DownloadDone => PlainDownloadDone(s, ev);
    case Imported => PlainImported(s, ev);
    case ManualNeeded => NoticeLog(s, ev);
    case OtherPhase(_) =>
  }

  lemma SameLog(log: seq<SpanOp>)
    ensures AddsPlain(log, log)
  {
  }

  /** Every step adds its leading call, if it has one, and then plain calls. */
  lemma StepGrows(s: State, a: Action)
    ensures AddsPlain(Led(s.spans.log, Leading(s, a)), Step(s, a).spans.log)
  {
    hide AddsPlain, Handle, NoteQueueIssue, Sweep, LeadingOf;
    PlainSame(s);
    match a
    case Deliver(ev) =>
      var s1 := s.(store := SeenEvent(s.store, ev.source, ev.eventID, ev.occurredAt));
      SeenLeading(s, ev);
      HandleGrows(s1, ev);
    case QueueIssue(id, status, when) =>
      QueueLog(s, id, status, when);
      SameLog(Led(s.spans.log, Leading(s, a)));
    case SweepAt(now, _, order) => PlainSweep(s, order, now);
    case Restart(reopened, order) => PlainRestart(s, reopened, order);
  }

  lemma SeenLeading(s: State, ev: Event)
    ensures LeadingOf(s.(store := SeenEvent(s.store, ev.source, ev.eventID, ev.occurredAt)), ev) == LeadingOf(s, ev)
  {
    hide SeenEvent;
    SeenKeeps(s.store, ev);
  }
}
