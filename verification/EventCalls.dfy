/**
 * What an accepted event does, read off the tables before it: every builder call it adds, in order, and the record,
 * context, closed record and timing entry it leaves.
 */
module EventCalls {
  import opened Types
  import opened StoreSpec
  import opened SpanSpec
  import opened EngineSpec
  import opened StoreChanges
  import opened Bookkeeping
  import opened SpanDiscipline
  import opened CallLists
  import opened LogGrowth

  /** The store accepts the event, and it resolves to the live trace at `k`. */
  predicate Meets(s: State, ev: Event, k: MediaKey) {
    && Accepts(s.store, ev.source, ev.eventID, ev.occurredAt)
    && Resolve(s.store.traces, ev.key) == Some(k)
  }

  /** The store accepts the event, and its download ID is found on the live trace at `k`. */
  predicate Finds(s: State, ev: Event, k: MediaKey) {
    && Accepts(s.store, ev.source, ev.eventID, ev.occurredAt)
    && ByDownloadID(s.store, ev.release.downloadID) == Some(k)
  }

  /** The trace at `k` now has the record `t`; no other trace, no context and no closed record has changed. */
  ghost predicate Leaves(s: State, r: State, k: MediaKey, t: Trace) {
    && r.store.traces == s.store.traces[k := t] && r.ctx == s.ctx && r.store.closed == s.store.closed
  }

  /** The timing entry of `k`, if there is one, is now `t`; the others are as they were. */
  ghost predicate Times(s: State, r: State, k: MediaKey, t: Timing) {
    r.timing == if k in s.timing then s.timing[k := t] else s.timing
  }

  /** The timing entry, or any value where there is none. */
  function TimingOf(s: State, k: MediaKey): Timing {
    if k in s.timing then s.timing[k] else Timing(0, 0, 0, 0, 0, "", "", "", "", "")
  }

  /** The trace at `k` is gone and remembered so; in memory the expired records are collected. */
  ghost predicate Retires(s: State, r: State, k: MediaKey, outcome: Outcome, at: Time)
    requires k in s.store.traces
  {
    var t, closed := s.store.traces[k], s.store.closed;
    && r.store.traces == s.store.traces - {k} && r.ctx == s.ctx - {k} && r.timing == s.timing - {k}
    && k in r.store.closed && r.store.closed[k] == ClosedTrace(t.traceID, t.attempt, outcome, at)
    && (forall l :: l != k ==>
          (l in r.store.closed <==>
           l in closed && (s.store.kind.InMemory? ==> closed[l].closedAt >= at - s.store.recallTTL)))
    && (forall l :: l != k && l in r.store.closed ==> r.store.closed[l] == closed[l])
  }

  /** What these statements speak of is not the dedup memory. */
  lemma Seen(s: State, ev: Event) returns (s1: State)
    requires Accepts(s.store, ev.source, ev.eventID, ev.occurredAt)
    ensures s1 == s.(store := s1.store) && Process(s, ev) == Handle(s1, ev)
    ensures s1.store.kind == s.store.kind && s1.store.recallTTL == s.store.recallTTL
    ensures s1.store.traces == s.store.traces && s1.store.dlIndex == s.store.dlIndex
    ensures s1.store.closed == s.store.closed
  {
    hide SeenEvent, Handle;
    SeenKeeps(s.store, ev);
    s1 := s.(store := SeenEvent(s.store, ev.source, ev.eventID, ev.occurredAt));
  }

  // ---------- endings ----------

  lemma ClosedBy(st: StoreState, k: MediaKey, c: ClosedTrace)
    ensures var r := RememberClosed(st, k, c).closed;
            && k in r && r[k] == c
            && (forall l :: l != k ==>
                  (l in r <==>
                   l in st.closed && (st.kind.InMemory? ==> st.closed[l].closedAt >= c.closedAt - st.recallTTL)))
            && (forall l :: l != k && l in r ==> r[l] == st.closed[l])
  {
  }

  lemma TraceEnds(s: State, k: MediaKey, at: Time, ok: bool, reason: string, outcome: Outcome, hadGrab: bool)
    requires k in s.store.traces
    ensures var r := Settle(CloseTrace(s, k, at, ok, reason, outcome), k, hadGrab);
            && r.spans.log == s.spans.log + [RootEnd(s.store.traces[k], CtxOf(s, k), at, ok, reason)]
            && Retires(s, r, k, outcome, at)
  {
    hide StoreSpec.Delete, StoreSpec.RememberClosed;
    var t := s.store.traces[k];
    var c := ClosedTrace(t.traceID, t.attempt, outcome, at);
    CloseTraceParts(s, k, at, ok, reason, outcome);
    DeleteKeeps(s.store, k);
    RememberKeeps(Delete(s.store, k), k, c);
    ClosedBy(Delete(s.store, k), k, c);
    CloseTraceBooks(s, k, at, ok, reason, outcome);
    SettleBooks(CloseTrace(s, k, at, ok, reason, outcome), k, hadGrab);
  }

  /** A closed request ends its open children ok, then its root, ok iff it is available, and is remembered so. */
  lemma RequestCloses(s: State, ev: Event, k: MediaKey)
    requires Meets(s, ev, k) && ev.phase.RequestClosed?
    ensures var r := Process(s, ev); var at := ev.occurredAt;
            var t, c := s.store.traces[k], CtxOf(s, k);
            && r.spans.log == s.spans.log + DownloadEnd(t, c, at, true, "") + GrabEnd(t, c, at, true, "")
                              + [RootEnd(t, c, at, ev.outcome == Available, ev.errorReason)]
            && Retires(s, r, k, ev.outcome, at)
  {
    hide EndChildren, CloseTrace, Settle, Process;
    var s1 := Seen(s, ev);
    var at := ev.occurredAt;
    ChildrenEndSpans(s1, k, at, true, "");
    var s2 := EndChildren(s1, k, at, true, "");
    TraceEnds(s2, k, at, ev.outcome.Available?, ev.errorReason, ev.outcome, s2.store.traces[k].hasGrab);
    assert s2.store.traces - {k} == s1.store.traces - {k};
  }

  // ---------- imports ----------

  /** The import span: from the last update, or from now if that is later, to now. */
  function ImportSpan(t: Trace, ctx: RootCtx, source: string, at: Time): SpanOp {
    Synthetic(ctx, if source == "radarr" then "radarr.import" else "sonarr.import",
              if t.updatedAt < at then t.updatedAt else at, at, None, "")
  }

  function ImportCalls(t: Trace, ctx: RootCtx, source: string, at: Time): seq<SpanOp> {
    DownloadEnd(t, ctx, at, true, "") + [ImportSpan(t, ctx, source, at)] + GrabEnd(t, ctx, at, true, "")
  }

  lemma ImportDone(s: State, k: MediaKey, ev: Event)
    requires Keyed(s.store.traces) && k in s.store.traces
    ensures var r := Import(s, k, ev); var at := ev.occurredAt; var t := s.store.traces[k];
            && r.spans.log == s.spans.log + ImportCalls(t, CtxOf(s, k), ev.source, at)
            && Leaves(s, r, k, t.(hasDownload := false, hasGrab := false, updatedAt := at))
            && r.timing == s.timing && r.store.kind == s.store.kind && r.store.recallTTL == s.store.recallTTL
  {
    hide Put, ImportCalls, ImportUnsaved, Import;
    ImportIs(s, k, ev);
    ImportMade(s, k, ev);
    SavedLeaves(s, ImportUnsaved(s, k, ev), k,
                s.store.traces[k].(hasDownload := false, hasGrab := false, updatedAt := ev.occurredAt));
  }

  /** The state before the record is saved. */
  function ImportUnsaved(s: State, k: MediaKey, ev: Event): (r: State)
    requires k in s.store.traces
    ensures k in r.store.traces
  {
    var at := ev.occurredAt;
    var s1 := EndOpenDownload(s, k, at, true, "");
    var s2 := EmitUnder(s1, k, ImportSpanName(ev.source), Earlier(s1.store.traces[k].updatedAt, at), at);
    Touch(EndOpenGrab(s2, k, at, true, ""), k, at)
  }

  lemma ImportIs(s: State, k: MediaKey, ev: Event)
    requires k in s.store.traces
    ensures Import(s, k, ev) == Save(ImportUnsaved(s, k, ev), k)
  {
    hide Put;
  }

  lemma ImportMade(s: State, k: MediaKey, ev: Event)
    requires k in s.store.traces
    ensures var r := ImportUnsaved(s, k, ev); var t, at := s.store.traces[k], ev.occurredAt;
            && r.spans.log == s.spans.log + ImportCalls(t, CtxOf(s, k), ev.source, at)
            && r == s.(store := SetTrace(s.store, k, t.(hasDownload := false, hasGrab := false, updatedAt := at)),
                       spans := r.spans)
  {
    hide EndOpenDownload, EndOpenGrab;
    var at := ev.occurredAt;
    var t := s.store.traces[k];
    DownloadEndSpans(s, k, at, true, "");
    var s1 := EndOpenDownload(s, k, at, true, "");
    var s2 := EmitUnder(s1, k, ImportSpanName(ev.source), Earlier(s1.store.traces[k].updatedAt, at), at);
    GrabEndSpans(s2, k, at, true, "");
    var u := t.(hasDownload := false, hasGrab := false, updatedAt := at);
    assert ImportUnsaved(s, k, ev).store.traces == s.store.traces[k := u];
  }

  /** Saving a changed record. */
  lemma SavedLeaves(s: State, s1: State, k: MediaKey, u: Trace)
    requires u.key == k && k in s1.store.traces && s1.store.traces[k] == u
    requires s1.store.traces == s.store.traces[k := u] && s1.ctx == s.ctx && s1.store.closed == s.store.closed
    ensures Leaves(s, Save(s1, k), k, u)
    ensures Save(s1, k).store.kind == s1.store.kind && Save(s1, k).store.recallTTL == s1.store.recallTTL
  {
  }

  /** An import ends the open children ok around a span for the import itself. */
  lemma Imports(s: State, ev: Event, k: MediaKey)
    requires Keyed(s.store.traces) && Meets(s, ev, k) && ev.phase.Imported?
    requires s.store.traces[k].source != "sonarr" && s.store.traces[k].source != "radarr"
    ensures var r := Process(s, ev); var t := s.store.traces[k];
            && r.spans.log == s.spans.log + ImportCalls(t, CtxOf(s, k), ev.source, ev.occurredAt)
            && Leaves(s, r, k, t.(hasDownload := false, hasGrab := false, updatedAt := ev.occurredAt))
            && r.timing == s.timing
  {
    hide Import, CloseTrace, Settle, Process;
    var s1 := Seen(s, ev);
    ImportDone(s1, k, ev);
  }

  /** On a trace that no request opened it completes the root as well: ok, and remembered as available. */
  lemma ImportCompletes(s: State, ev: Event, k: MediaKey)
    requires Keyed(s.store.traces) && Meets(s, ev, k) && ev.phase.Imported?
    requires s.store.traces[k].source == "sonarr" || s.store.traces[k].source == "radarr"
    ensures var r := Process(s, ev); var at := ev.occurredAt;
            var t, c := s.store.traces[k], CtxOf(s, k);
            && r.spans.log == s.spans.log + ImportCalls(t, c, ev.source, at) + [RootEnd(t, c, at, true, "")]
            && Retires(s, r, k, Available, at)
  {
    hide Import, CloseTrace, Settle, Process;
    var s1 := Seen(s, ev);
    var at := ev.occurredAt;
    ImportDone(s1, k, ev);
    var s2 := Import(s1, k, ev);
    assert CtxOf(s2, k) == CtxOf(s, k);
    TraceEnds(s2, k, at, true, "", Available, s2.store.traces[k].hasGrab);
    assert s2.store.traces - {k} == s1.store.traces - {k};
  }

  // ---------- downloads ----------

  /** The end of a download closes the open one, ok iff there is no error reason, or else leaves a span of no length. */
  lemma DownloadEnds(s: State, ev: Event, k: MediaKey)
    requires Keyed(s.store.traces) && Finds(s, ev, k) && ev.phase.DownloadDone?
    ensures var r := Process(s, ev); var at := ev.occurredAt;
            var t, c := s.store.traces[k], CtxOf(s, k);
            && r.spans.log == s.spans.log
               + [if t.hasDownload then Closed(c, t.downloadSpanID, at, ev.errorReason == "", ev.errorReason)
                  else Synthetic(c, "download.transfer", at, at, None, "")]
            && Leaves(s, r, k, t.(hasDownload := false, updatedAt := at))
            && Times(s, r, k, TimingOf(s, k).(downloadEndedAt := at))
  {
    hide OnDownloadDone, Process;
    var s1 := Seen(s, ev);
    DownloadDone(s1, k, ev);
  }

  lemma DownloadDone(s: State, k: MediaKey, ev: Event)
    requires Keyed(s.store.traces) && ByDownloadID(s.store, ev.release.downloadID) == Some(k)
    ensures var r := OnDownloadDone(s, ev); var at := ev.occurredAt;
            var t, c := s.store.traces[k], CtxOf(s, k);
            && r.spans.log == s.spans.log
               + [if t.hasDownload then Closed(c, t.downloadSpanID, at, ev.errorReason == "", ev.errorReason)
                  else Synthetic(c, "download.transfer", at, at, None, "")]
            && Leaves(s, r, k, t.(hasDownload := false, updatedAt := at))
            && Times(s, r, k, TimingOf(s, k).(downloadEndedAt := at))
  {
    hide OnDownloadDone, Put, TimeDownloadEnd, DoneUnsaved;
    var at := ev.occurredAt;
    DownloadDoneIs(s, k, ev);
    TransferDone(s, k, ev);
    var s1 := DoneUnsaved(s, k, ev);
    SavedLeaves(s, s1, k, s.store.traces[k].(hasDownload := false, updatedAt := at));
    EndTimed(Save(s1, k), k, at);
  }

  /** The state before the record is saved. */
  function DoneUnsaved(s: State, k: MediaKey, ev: Event): (r: State)
    requires k in s.store.traces
    ensures k in r.store.traces
  {
    var at := ev.occurredAt;
    Touch(if s.store.traces[k].hasDownload then EndDownload(s, k, at, ev.errorReason == "", ev.errorReason)
          else EmitUnder(s, k, SPAN_DOWNLOAD, at, at), k, at)
  }

  lemma DownloadDoneIs(s: State, k: MediaKey, ev: Event)
    requires ByDownloadID(s.store, ev.release.downloadID) == Some(k)
    ensures OnDownloadDone(s, ev) == TimeDownloadEnd(Save(DoneUnsaved(s, k, ev), k), k, ev.occurredAt)
  {
    hide Put, TimeDownloadEnd, EndDownload, EmitUnder;
  }

  lemma TransferDone(s: State, k: MediaKey, ev: Event)
    requires k in s.store.traces
    ensures var r := DoneUnsaved(s, k, ev); var t, c, at := s.store.traces[k], CtxOf(s, k), ev.occurredAt;
            && r.spans.log == s.spans.log
               + [if t.hasDownload then Closed(c, t.downloadSpanID, at, ev.errorReason == "", ev.errorReason)
                  else Synthetic(c, "download.transfer", at, at, None, "")]
            && r == s.(store := SetTrace(s.store, k, t.(hasDownload := false, updatedAt := at)), spans := r.spans)
  {
    DownloadDoneEdits(s, k, ev.occurredAt, ev.errorReason == "", ev.errorReason);
  }

  lemma EndTimed(s: State, k: MediaKey, at: Time)
    ensures var r := TimeDownloadEnd(s, k, at);
            && r == s.(timing := r.timing, gauges := r.gauges) && Times(s, r, k, TimingOf(s, k).(downloadEndedAt := at))
  {
  }

  lemma EndRecorded(s: State, k: MediaKey, at: Time, ok: bool, reason: string)
    requires k in s.store.traces
    ensures var t, c := s.store.traces[k], CtxOf(s, k);
            var s1 := if t.hasDownload then EndDownload(s, k, at, ok, reason)
                      else EmitUnder(s, k, SPAN_DOWNLOAD, at, at);
            && k in s1.store.traces
            && Touch(s1, k, at).spans.log == s.spans.log
               + [if t.hasDownload then Closed(c, t.downloadSpanID, at, ok, reason)
                  else Synthetic(c, "download.transfer", at, at, None, "")]
            && Touch(s1, k, at).ctx == s.ctx && Touch(s1, k, at).timing == s.timing
  {
  }

  /** The record of a trace whose download has started. */
  function Started(t: Trace, id: ID, start: Time): Trace {
    t.(downloadSpanID := id, hasDownload := true, downloadStartedAt := start, updatedAt := start)
  }

  lemma StartDone(s: State, k: MediaKey, ev: Event)
    requires Keyed(s.store.traces) && k in s.store.traces && !s.store.traces[k].hasDownload
    ensures var r := HandleDownloadStart(s, k, ev); var start := ev.occurredAt; var n := s.spans.next;
            && r.spans.log == s.spans.log + [ChildOpened(CtxOf(s, k), n, "download.transfer", start)]
            && Leaves(s, r, k, Started(s.store.traces[k], n, start))
            && Times(s, r, k, TimingOf(s, k).(downloadStartedAt := start))
  {
    hide Put;
    SavedLeaves(s, BeginDownload(s, k, ev.occurredAt), k, Started(s.store.traces[k], s.spans.next, ev.occurredAt));
  }

  /** A start opens the download, unless one is open: then nothing but the dedup memory changes. */
  lemma DownloadStarts(s: State, ev: Event, k: MediaKey)
    requires Keyed(s.store.traces) && Finds(s, ev, k) && ev.phase.DownloadStart?
    ensures var r := Process(s, ev); var t := s.store.traces[k]; var n := s.spans.next;
            if t.hasDownload then r == s.(store := r.store) && Leaves(s, r, k, t)
            else
              && r.spans.log == s.spans.log + [ChildOpened(CtxOf(s, k), n, "download.transfer", ev.occurredAt)]
              && Leaves(s, r, k, Started(t, n, ev.occurredAt))
              && Times(s, r, k, TimingOf(s, k).(downloadStartedAt := ev.occurredAt))
  {
    hide HandleDownloadStart, Process;
    var s1 := Seen(s, ev);
    if s.store.traces[k].hasDownload {
      OpenAlready(s1, k, ev);
      assert s.store.traces[k := s.store.traces[k]] == s.store.traces;
    } else {
      StartDone(s1, k, ev);
    }
  }

  lemma OpenAlready(s: State, k: MediaKey, ev: Event)
    requires k in s.store.traces && s.store.traces[k].hasDownload
    ensures HandleDownloadStart(s, k, ev) == s
  {
  }

  // ---------- notices ----------

  /** An approval starts the search anew and leaves a note on the root. */
  lemma Approves(s: State, ev: Event, k: MediaKey)
    requires Keyed(s.store.traces) && Meets(s, ev, k) && ev.phase.RequestApproved?
    ensures var r := Process(s, ev); var at := ev.occurredAt;
            && r.spans.log == s.spans.log + [Annotated(CtxOf(s, k), 0, "request.approved", at)]
            && Leaves(s, r, k, s.store.traces[k].(searchStart := at, updatedAt := at))
            && Times(s, r, k, TimingOf(s, k).(approvedAt := at))
  {
    hide Put, Process;
    var s1 := Seen(s, ev);
    var u := s.store.traces[k].(searchStart := ev.occurredAt, updatedAt := ev.occurredAt);
    SavedLeaves(s1, Amend(s1, k, u), k, u);
  }

  /** A manual notice goes to the open grab, or else to the root, and is the record's last error. */
  lemma NeedsManual(s: State, ev: Event, k: MediaKey)
    requires Keyed(s.store.traces) && Meets(s, ev, k) && ev.phase.ManualNeeded?
    ensures var r := Process(s, ev); var at := ev.occurredAt; var t := s.store.traces[k];
            && r.spans.log == s.spans.log + [Annotated(CtxOf(s, k), if t.hasGrab then t.grabSpanID else 0,
                                                       "manual_interaction_required", at)]
            && Leaves(s, r, k, t.(lastError := "arr.manual_interaction_required", updatedAt := at))
            && r.timing == s.timing
  {
    hide Put, Process;
    var s1 := Seen(s, ev);
    var u := s.store.traces[k].(lastError := ERR_MANUAL, updatedAt := ev.occurredAt);
    SavedLeaves(s1, Amend(s1, k, u), k, u);
  }

  /** And so does a stalled queue item that is found by its download ID. */
  lemma QueueNoted(s: State, id: string, status: string, when: Time, k: MediaKey)
    requires Keyed(s.store.traces) && ByDownloadID(s.store, id) == Some(k)
    ensures var r := Step(s, QueueIssue(id, status, when)); var t := s.store.traces[k];
            && r.spans.log == s.spans.log + [Annotated(CtxOf(s, k), if t.hasGrab then t.grabSpanID else 0,
                                                       "queue.stalled", when)]
            && Leaves(s, r, k, t.(lastError := "arr.queue_" + status, updatedAt := when))
            && r.timing == s.timing
  {
    hide Put;
    var u := s.store.traces[k].(lastError := "arr.queue_" + status, updatedAt := when);
    SavedLeaves(s, Amend(s, k, u), k, u);
  }

  // ---------- openings ----------

  /** The record of a trace just opened. */
  function NewTrace(ev: Event, id: ID, attempt: int, requestID: string, requestedBy: string): Trace {
    Trace(ev.key, id, id, attempt, ev.source, ev.occurredAt, ev.occurredAt, 0, false, 0, false, ev.occurredAt, 0,
          "", "", ev.title, requestID, requestedBy, false)
  }

  function NextNumber(prior: Option<ClosedTrace>): int {
    if prior.Some? then prior.value.attempt + 1 else 1
  }

  /** A first attempt has no link; a later one links to the recalled trace and says why there is another. */
  predicate OpensRequest(op: SpanOp, ev: Event, id: ID, prior: Option<ClosedTrace>) {
    match prior
    case None => op == RootOpened(ev.key, id, ev.occurredAt, 1, None, "")
    case Some(c) =>
      op == RootOpened(ev.key, id, ev.occurredAt, c.attempt + 1, Some(c.traceID),
                       match c.outcome
                       case Failed => "failed_retry"
                       case Timeout => "failed_retry"
                       case Available => "quality_upgrade"
                       case _ => "manual")
  }

  /** For a grab that nothing was requested for, the upgrade flag comes before the recalled outcome. */
  predicate OpensOrphan(op: SpanOp, ev: Event, id: ID, prior: Option<ClosedTrace>) {
    match prior
    case None =>
      op == RootOpened(ev.key, id, ev.occurredAt, 1, None, if ev.release.isUpgrade then "quality_upgrade" else "")
    case Some(c) =>
      op == RootOpened(ev.key, id, ev.occurredAt, c.attempt + 1, Some(c.traceID),
                       if ev.release.isUpgrade then "quality_upgrade"
                       else if c.outcome == Failed || c.outcome == Timeout then "failed_retry"
                       else "manual")
  }

  /** What recall leaves of the closed table: an expired record it looked at is dropped, if it is the key's own. */
  ghost predicate AfterRecall(s: State, r: State, key: MediaKey, at: Time) {
    forall l :: (l in r.store.closed <==>
                 l in s.store.closed && (l == key ==> s.store.closed[l].closedAt >= at - s.store.recallTTL))
                && (l in r.store.closed ==> r.store.closed[l] == s.store.closed[l])
  }

  /** The trace is opened, and nothing else is changed. */
  ghost predicate OpensWith(s: State, r: State, t: Trace, at: Time) {
    && r.store.traces == s.store.traces[t.key := t] && r.ctx == s.ctx[t.key := LiveCtx(t.traceID, t.rootSpanID)]
    && AfterRecall(s, r, t.key, at)
  }

  lemma OpenDone(s: State, ev: Event, reason: string, requestID: string, requestedBy: string)
    requires Resolve(s.store.traces, ev.key).None?
    ensures var prior := Recalled(s.store, ev.key, ev.occurredAt); var n := s.spans.next;
            var r := OpenTrace(Recall(s, ev.key, ev.occurredAt), ev, AttemptAfter(prior), LinkTo(prior), reason,
                               requestID, requestedBy);
            && r.spans.log == s.spans.log + [RootOpened(ev.key, n, ev.occurredAt, NextNumber(prior), LinkTo(prior),
                                                        reason)]
            && r.spans.next == n + 1
            && OpensWith(s, r, NewTrace(ev, n, NextNumber(prior), requestID, requestedBy), ev.occurredAt)
            && r.timing == s.timing && r.pending == s.pending
  {
    hide Put;
    PutTraces(Recall(s, ev.key, ev.occurredAt).store,
              NewTrace(ev, s.spans.next, NextNumber(Recalled(s.store, ev.key, ev.occurredAt)), requestID, requestedBy));
  }

  /** A request that no live trace takes opens one. */
  lemma RequestOpens(s: State, ev: Event)
    requires Accepts(s.store, ev.source, ev.eventID, ev.occurredAt) && Resolve(s.store.traces, ev.key).None?
    requires ev.phase.RequestOpened?
    ensures var r := Process(s, ev); var n := s.spans.next; var prior := Recalled(s.store, ev.key, ev.occurredAt);
            && |r.spans.log| == |s.spans.log| + 1 && r.spans.log[..|s.spans.log|] == s.spans.log
            && OpensRequest(r.spans.log[|s.spans.log|], ev, n, prior)
            && OpensWith(s, r, NewTrace(ev, n, NextNumber(prior), ev.requestID, ev.requestedBy), ev.occurredAt)
            && r.timing == s.timing[ev.key := Timing(ev.occurredAt, 0, 0, 0, 0, "", "", "",
                                                     ev.key.mediaType, ev.source)]
  {
    hide OpenTrace, Process;
    var s1 := Seen(s, ev);
    OpenDone(s1, ev, RequestReason(Recalled(s.store, ev.key, ev.occurredAt)), ev.requestID, ev.requestedBy);
  }

  // ---------- grabs ----------

  /** The start that a grab with the ID replays into the trace. */
  function Replayed(s: State, t: Trace, id: string): Option<Event> {
    if id != "" && id in s.pending && !t.hasDownload then Some(s.pending[id].event) else None
  }

  /** The search until now if it began before, the end of an open grab, the grab, and the replayed start. */
  function GrabCalls(t: Trace, ctx: RootCtx, id: ID, ev: Event, replayed: Option<Event>): seq<SpanOp> {
    If(t.searchStart != 0 && t.searchStart < ev.occurredAt,
       Synthetic(ctx, "prowlarr.search", t.searchStart, ev.occurredAt, None, ""))
    + GrabEnd(t, ctx, ev.occurredAt, false, "arr.grab_superseded")
    + [ChildOpened(ctx, id, if ev.source == "radarr" then "radarr.grab" else "sonarr.grab", ev.occurredAt)]
    + match replayed
      case None => []
      case Some(start) => [ChildOpened(ctx, id + 1, "download.transfer", start.occurredAt)]
  }

  function GrabRecord(t: Trace, id: ID, ev: Event, replayed: Option<Event>): Trace {
    var u := t.(grabSpanID := id, hasGrab := true, updatedAt := ev.occurredAt,
                downloadID := if ev.release.downloadID == "" then t.downloadID else ev.release.downloadID);
    match replayed case None => u case Some(start) => Started(u, id + 1, start.occurredAt)
  }

  function GrabTiming(t: Timing, ev: Event, replayed: Option<Event>): Timing {
    var u := t.(grabbedAt := ev.occurredAt, indexer := ev.release.indexer,
                downloadClient := ev.release.downloadClient, protocol := ev.release.protocol);
    match replayed case None => u case Some(start) => u.(downloadStartedAt := start.occurredAt)
  }

  lemma SearchDone(s: State, k: MediaKey, at: Time)
    requires k in s.store.traces
    ensures var r := EmitSearch(s, k, at); var start := s.store.traces[k].searchStart;
            && r == s.(spans := r.spans) && r.spans.next == s.spans.next
            && r.spans.log == s.spans.log + If(start != 0 && start < at,
                                               Synthetic(CtxOf(s, k), "prowlarr.search", start, at, None, ""))
  {
    assert s.spans.log + [] == s.spans.log;
  }

  /** The grab itself, up to saving. */
  lemma GrabBegun(s: State, k: MediaKey, ev: Event)
    requires k in s.store.traces
    ensures var r := Regrabbing(s, k, ev); var u := GrabRecord(s.store.traces[k], s.spans.next, ev, None);
            && r.spans.log == s.spans.log + GrabCalls(s.store.traces[k], CtxOf(s, k), s.spans.next, ev, None)
            && r.spans.next == s.spans.next + 1
            && r == s.(store := SetTrace(s.store, k, u), spans := r.spans)
  {
    hide EmitSearch, EndOpenGrab;
    var t, c, at := s.store.traces[k], CtxOf(s, k), ev.occurredAt;
    SearchDone(s, k, at);
    var s1 := EmitSearch(s, k, at);
    GrabEndSpans(s1, k, at, false, ERR_SUPERSEDED);
    var s2 := EndOpenGrab(s1, k, at, false, ERR_SUPERSEDED);
    var u := GrabRecord(t, s.spans.next, ev, None);
    assert s2.store.traces[k := u] == s.store.traces[k := u];
    assert GrabCalls(t, c, s.spans.next, ev, None) + [] == GrabCalls(t, c, s.spans.next, ev, None);
  }

  lemma GrabDone(s: State, k: MediaKey, ev: Event)
    requires Keyed(s.store.traces) && k in s.store.traces
    ensures var r := Grab(s, k, ev);
            && r.spans.log == s.spans.log + GrabCalls(s.store.traces[k], CtxOf(s, k), s.spans.next, ev, None)
            && r.spans.next == s.spans.next + 1
            && Leaves(s, r, k, GrabRecord(s.store.traces[k], s.spans.next, ev, None))
            && Times(s, r, k, GrabTiming(TimingOf(s, k), ev, None)) && r.pending == s.pending
  {
    hide EmitSearch, EndOpenGrab, BeginGrab, Put, GrabCalls, GrabRecord;
    GrabBegun(s, k, ev);
    var u := GrabRecord(s.store.traces[k], s.spans.next, ev, None);
    RecordKeyed(s.store.traces[k], s.spans.next, ev);
    SavedLeaves(s, Regrabbing(s, k, ev), k, u);
  }

  lemma RecordKeyed(t: Trace, id: ID, ev: Event)
    ensures GrabRecord(t, id, ev, None).key == t.key && GrabRecord(t, id, ev, None).hasDownload == t.hasDownload
  {
  }

  /** A grab on its trace, with the start that waited for it. */
  lemma GrabReplayed(s: State, k: MediaKey, ev: Event)
    requires Keyed(s.store.traces) && k in s.store.traces
    ensures var r := Replay(Grab(s, k, ev), k, ev.release.downloadID); var t, n := s.store.traces[k], s.spans.next;
            var replayed := Replayed(s, t, ev.release.downloadID);
            && r.spans.log == s.spans.log + GrabCalls(t, CtxOf(s, k), n, ev, replayed)
            && Leaves(s, r, k, GrabRecord(t, n, ev, replayed))
            && Times(s, r, k, GrabTiming(TimingOf(s, k), ev, replayed))
  {
    hide Grab, HandleDownloadStart;
    var t, n, id := s.store.traces[k], s.spans.next, ev.release.downloadID;
    GrabDone(s, k, ev);
    var s2 := Grab(s, k, ev);
    var u := GrabRecord(t, n, ev, None);
    if id != "" && id in s.pending {
      var s3, start := s2.(pending := s2.pending - {id}), s.pending[id].event;
      if t.hasDownload {
        OpenAlready(s3, k, start);
      } else {
        StartDone(s3, k, start);
        var v := Started(u, n + 1, start.occurredAt);
        assert s.store.traces[k := u][k := v] == s.store.traces[k := v];
      }
    }
  }

  /** A grab on the live trace it resolves to. */
  lemma GrabLands(s: State, ev: Event, k: MediaKey)
    requires Keyed(s.store.traces) && Meets(s, ev, k) && ev.phase.Grabbed?
    ensures var r := Process(s, ev); var t, n := s.store.traces[k], s.spans.next;
            var replayed := Replayed(s, t, ev.release.downloadID);
            && r.spans.log == s.spans.log + GrabCalls(t, CtxOf(s, k), n, ev, replayed)
            && Leaves(s, r, k, GrabRecord(t, n, ev, replayed))
            && Times(s, r, k, GrabTiming(TimingOf(s, k), ev, replayed))
  {
    hide Grab, Replay, Process, GrabCalls, GrabRecord, GrabTiming;
    var s1 := Seen(s, ev);
    GrabReplayed(s1, k, ev);
  }

  /** A grab that no live trace takes opens one for itself. */
  lemma OrphanGrabLands(s: State, ev: Event)
    requires Keyed(s.store.traces) && Accepts(s.store, ev.source, ev.eventID, ev.occurredAt)
    requires Resolve(s.store.traces, ev.key).None? && ev.phase.Grabbed?
    ensures var r := Process(s, ev); var n := s.spans.next; var prior := Recalled(s.store, ev.key, ev.occurredAt);
            var t := NewTrace(ev, n, NextNumber(prior), "", "");
            var replayed := Replayed(s, t, ev.release.downloadID);
            && |r.spans.log| > |s.spans.log| && r.spans.log[..|s.spans.log|] == s.spans.log
            && OpensOrphan(r.spans.log[|s.spans.log|], ev, n, prior)
            && r.spans.log[|s.spans.log| + 1..] == GrabCalls(t, LiveCtx(n, n), n + 1, ev, replayed)
            && OpensWith(s, r, GrabRecord(t, n + 1, ev, replayed), ev.occurredAt)
            && Times(s, r, ev.key, GrabTiming(TimingOf(s, ev.key), ev, replayed))
  {
    hide OnGrabbed, Process, GrabCalls, GrabRecord, GrabTiming;
    var s1 := Seen(s, ev);
    OrphanGrabDone(s1, ev);
    assert Process(s, ev) == OnGrabbed(s1, ev);
  }

  lemma OrphanOpened(s: State, ev: Event)
    requires Keyed(s.store.traces) && Resolve(s.store.traces, ev.key).None?
    ensures var r, n := OpenOrphanRoot(s, ev), s.spans.next;
            var prior := Recalled(s.store, ev.key, ev.occurredAt);
            var op := RootOpened(ev.key, n, ev.occurredAt, NextNumber(prior), LinkTo(prior),
                                 OrphanReason(prior, ev.release.isUpgrade));
            && r.spans.log == s.spans.log + [op] && OpensOrphan(op, ev, n, prior) && r.spans.next == n + 1
            && OpensWith(s, r, NewTrace(ev, n, NextNumber(prior), "", ""), ev.occurredAt)
            && r.timing == s.timing && r.pending == s.pending && Keyed(r.store.traces)
  {
    hide OpenTrace;
    OpenDone(s, ev, OrphanReason(Recalled(s.store, ev.key, ev.occurredAt), ev.release.isUpgrade), "", "");
  }

  lemma OrphanGrabDone(s: State, ev: Event)
    requires Keyed(s.store.traces) && Resolve(s.store.traces, ev.key).None?
    ensures var r := OnGrabbed(s, ev); var n := s.spans.next; var prior := Recalled(s.store, ev.key, ev.occurredAt);
            var t := NewTrace(ev, n, NextNumber(prior), "", "");
            var replayed := Replayed(s, t, ev.release.downloadID);
            && |r.spans.log| > |s.spans.log| && r.spans.log[..|s.spans.log|] == s.spans.log
            && OpensOrphan(r.spans.log[|s.spans.log|], ev, n, prior)
            && r.spans.log[|s.spans.log| + 1..] == GrabCalls(t, LiveCtx(n, n), n + 1, ev, replayed)
            && OpensWith(s, r, GrabRecord(t, n + 1, ev, replayed), ev.occurredAt)
            && Times(s, r, ev.key, GrabTiming(TimingOf(s, ev.key), ev, replayed))
  {
    hide Grab, Replay, OpenOrphanRoot, GrabCalls, GrabRecord, GrabTiming, Recalled, AfterRecall, OpensOrphan, Keyed;
    OrphanOpened(s, ev);
    var s2, n, prior := OpenOrphanRoot(s, ev), s.spans.next, Recalled(s.store, ev.key, ev.occurredAt);
    var t := NewTrace(ev, n, NextNumber(prior), "", "");
    GrabReplayed(s2, ev.key, ev);
    var replayed := Replayed(s, t, ev.release.downloadID);
    GrabIdentity(t, n + 1, ev, replayed);
    OpenedGrab(s, s2, OnGrabbed(s, ev), t, GrabRecord(t, n + 1, ev, replayed), ev.occurredAt);
  }

  /** Opening a trace and then changing its record. */
  lemma OpenedGrab(s: State, s1: State, r: State, t: Trace, u: Trace, at: Time)
    requires OpensWith(s, s1, t, at) && Leaves(s1, r, t.key, u)
    requires u.key == t.key && u.traceID == t.traceID && u.rootSpanID == t.rootSpanID
    ensures OpensWith(s, r, u, at)
  {
    assert s.store.traces[t.key := t][t.key := u] == s.store.traces[t.key := u];
  }

  lemma GrabIdentity(t: Trace, id: ID, ev: Event, replayed: Option<Event>)
    ensures var u := GrabRecord(t, id, ev, replayed);
            u.key == t.key && u.traceID == t.traceID && u.rootSpanID == t.rootSpanID
  {
  }

  // ---------- events that meet nothing ----------

  /** Nothing but the dedup memory has changed. */
  ghost predicate OnlySeen(s: State, r: State) {
    && r == s.(store := r.store)
    && r.store.traces == s.store.traces && r.store.dlIndex == s.store.dlIndex && r.store.closed == s.store.closed
  }

  /** The event is about a trace that is not live, or opens one that is. */
  predicate MeetsNothing(s: State, ev: Event) {
    var live, found := Resolve(s.store.traces, ev.key).Some?, ByDownloadID(s.store, ev.release.downloadID).Some?;
    match ev.phase
    case RequestOpened => live
    case Grabbed => false
    case DownloadStart => false
    case DownloadDone => !found
    case OtherPhase(_) => true
    case _ => !live
  }

  /** Such an event, and a duplicate, changes nothing else. */
  lemma Unmatched(s: State, ev: Event)
    requires Accepts(s.store, ev.source, ev.eventID, ev.occurredAt) ==> MeetsNothing(s, ev)
    ensures OnlySeen(s, Process(s, ev))
  {
    if Accepts(s.store, ev.source, ev.eventID, ev.occurredAt) {
      hide Process;
      var s1 := Seen(s, ev);
    } else {
      hide SeenEvent;
      SeenKeeps(s.store, ev);
    }
  }

  /** A start whose download is not found waits for its grab, and collects the ones that have waited too long. */
  lemma StartWaits(s: State, ev: Event)
    requires Accepts(s.store, ev.source, ev.eventID, ev.occurredAt) && ev.phase.DownloadStart?
    requires ByDownloadID(s.store, ev.release.downloadID).None?
    ensures var r, id := Process(s, ev), ev.release.downloadID;
            && OnlySeen(s, r.(pending := s.pending))
            && id in r.pending && r.pending[id] == Parked(ev, ev.occurredAt)
            && (forall l :: l != id ==>
                  (l in r.pending <==> l in s.pending && s.pending[l].addedAt >= ev.occurredAt - s.pendingTTL))
            && (forall l :: l != id && l in r.pending ==> r.pending[l] == s.pending[l])
  {
    hide Process;
    var s1 := Seen(s, ev);
  }
}
