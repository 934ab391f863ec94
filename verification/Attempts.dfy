/** Attempt numbers follow the record of the previous attempt, whatever the clocks, collections and restarts. */
module Attempts {
  import opened Types
  import opened StoreSpec
  import opened SpanSpec
  import opened EngineSpec
  import opened StoreChanges
  import opened CrashRecovery

  /** A live trace is the attempt after the one its key's closed record tells of. */
  ghost predicate Numbered(st: StoreState) {
    forall k :: k in st.traces && k in st.closed ==> st.traces[k].attempt == st.closed[k].attempt + 1
  }

  lemma NumberedOpened(st: StoreState, t: Trace, now: Time)
    requires Numbered(st) && Allowed(st, Opened(t, now))
    ensures Numbered(Apply(st, Opened(t, now)))
  {
    hide Put;
    var st1 := RecallClosed(st, t.key, now);
    assert st1.traces == st.traces;
    PutTraces(st1, t);
    assert t.key in st1.closed ==> Recalled(st, t.key, now) == Some(st1.closed[t.key]);
  }

  lemma NumberedApply(st: StoreState, c: Change)
    requires Keyed(st.traces) && Numbered(st) && Allowed(st, c)
    ensures Numbered(Apply(st, c))
  {
    var st' := Apply(st, c);
    match c
    case Opened(t, now) => NumberedOpened(st, t, now);
    case Updated(t) => assert st'.traces == st.traces[t.key := t];
    case Regrabbed(t) => assert st'.traces == st.traces[t.key := t];
    case Dropped(k, closed) => assert st'.traces == st.traces - {k};
  }

  lemma {:induction false} NumberedFollows(st: StoreState, cs: seq<Change>, st': StoreState)
    requires Keyed(st.traces) && Numbered(st) && Follows(st, cs, st')
    ensures Numbered(st')
    decreases |cs|
  {
    if cs != [] {
      NumberedApply(st, cs[0]);
      KeyedApply(st, cs[0]);
      NumberedFollows(Apply(st, cs[0]), cs[1..], st');
    }
  }

  lemma StepNumbered(s: State, a: Action)
    requires TracesSynced(s.store) && ClosedSynced(s.store) && KeysCodable(s.store) && Enabled(s, a)
    requires Numbered(s.store)
    ensures Numbered(Step(s, a).store)
  {
    hide TracesMirrored, ClosedMirrored;
    var st, cs;
    if a.Restart? {
      OpenedSynced(s.store, a.reopened);
      Reopened(s.store, a.reopened);
      ReopenedClosed(s.store.closed, s.store.disk.closed, a.reopened.closed);
    }
    st, cs := StepChanges(s, a);
    NumberedFollows(st, cs, Step(s, a).store);
  }

  /** In every reachable state each live key with a closed record carries the next attempt number. */
  lemma {:induction false} AlwaysNumbered(s: State, acts: seq<Action>)
    requires TracesSynced(s.store) && ClosedSynced(s.store) && KeysCodable(s.store) && Numbered(s.store)
    requires CanRun(s, acts) && forall i :: 0 <= i < |acts| ==> CodableAction(acts[i])
    ensures Numbered(Run(s, acts).store)
    decreases |acts|
  {
    if acts != [] {
      StepNumbered(s, acts[0]);
      StepTracesSynced(s, acts[0]);
      StepClosedSynced(s, acts[0]);
      AlwaysNumbered(Step(s, acts[0]), acts[1..]);
    }
  }

  /** So from the first process on, however many restarts later. */
  lemma AttemptsFollow(s: State, acts: seq<Action>, k: MediaKey)
    requires Initial(s) && CanRun(s, acts) && forall i :: 0 <= i < |acts| ==> CodableAction(acts[i])
    ensures var st := Run(s, acts).store;
            k in st.traces && k in st.closed ==> st.traces[k].attempt == st.closed[k].attempt + 1
  {
    assert TracesSynced(s.store) && ClosedSynced(s.store) && KeysCodable(s.store) && Numbered(s.store);
    AlwaysNumbered(s, acts);
  }

  /**
   * What is opened while a record is recalled is numbered one higher, linked to the record's trace, and says why: for
   * a request by the recalled outcome, for a stray grab by its upgrade flag or else by the outcome.
   */
  lemma RecalledAttempt(s: State, ev: Event, c: ClosedTrace)
    requires Resolve(s.store.traces, ev.key).None? && ev.key in s.store.closed && s.store.closed[ev.key] == c
    requires c.closedAt >= ev.occurredAt - s.store.recallTTL
    ensures var r := OnRequestOpened(s, ev);
            && ev.key in r.store.traces && r.store.traces[ev.key].attempt == c.attempt + 1
            && r.spans.log == s.spans.log + [RootOpened(ev.key, s.spans.next, ev.occurredAt, c.attempt + 1,
                                                        Some(c.traceID),
                                                        match c.outcome
                                                        case Failed => "failed_retry"
                                                        case Timeout => "failed_retry"
                                                        case Available => "quality_upgrade"
                                                        case _ => "manual")]
    ensures var (k, r) := GrabTarget(s, ev);
            && k == ev.key && k in r.store.traces && r.store.traces[k].attempt == c.attempt + 1
            && r.spans.log == s.spans.log + [RootOpened(ev.key, s.spans.next, ev.occurredAt, c.attempt + 1,
                                                        Some(c.traceID),
                                                        if ev.release.isUpgrade then "quality_upgrade"
                                                        else if c.outcome == Failed || c.outcome == Timeout
                                                        then "failed_retry" else "manual")]
    ensures OnRequestOpened(s, ev).store.closed == s.store.closed == GrabTarget(s, ev).1.store.closed
  {
  }
}
