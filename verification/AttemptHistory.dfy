/**
 * Attempts over the log of builder calls: every root opened either starts afresh, or continues the last
 * root that was opened for its key or, for TV, for its series.
 */
module AttemptHistory {
  import opened Types
  import opened StoreSpec
  import opened SpanSpec
  import opened EngineSpec
  import opened StoreChanges
  import opened CrashRecovery
  import opened Attempts
  import opened LogGrowth

  datatype Opening = Opening(id: ID, attempt: int)

  /** The last root opened for the key. */
  function LastOpening(log: seq<SpanOp>, key: MediaKey): Option<Opening> {
    if log == [] then None
    else
      var op := log[|log| - 1];
      if op.RootOpened? && op.key == key then Some(Opening(op.id, op.attempt))
      else LastOpening(log[..|log| - 1], key)
  }

  /** The call opens the attempt after `prior`, and links to it. */
  predicate Succeeds(prior: Option<Opening>, op: SpanOp)
    requires op.RootOpened?
  {
    prior.Some? && op.attempt == prior.value.attempt + 1 && op.link == Some(prior.value.id)
  }

  /** A first attempt without a link, or the successor of the last one of the key or of its series. */
  predicate InSequence(before: seq<SpanOp>, op: SpanOp)
    requires op.RootOpened?
  {
    || (op.attempt == 1 && op.link == None)
    || Succeeds(LastOpening(before, op.key), op)
    || (op.key.mediaType == TYPE_TV && Succeeds(LastOpening(before, op.key.SeriesKey()), op))
  }

  ghost predicate AllInSequence(log: seq<SpanOp>) {
    forall i :: 0 <= i < |log| && log[i].RootOpened? ==> InSequence(log[..i], log[i])
  }

  // ---------- calls that open no root ----------

  /** `log'` opens no root beyond those of `log`, and none out of sequence. */
  ghost predicate NothingOpened(log: seq<SpanOp>, log': seq<SpanOp>) {
    && (AllInSequence(log) ==> AllInSequence(log'))
    && (forall key :: LastOpening(log', key) == LastOpening(log, key))
  }

  ghost predicate Quiet(s: State, r: State) {
    NothingOpened(s.spans.log, r.spans.log)
  }

  lemma QuietRecord(b: Spans, op: SpanOp)
    requires !op.RootOpened?
    ensures NothingOpened(b.log, Record(b, op).log)
  {
    var log' := Record(b, op).log;
    assert log'[..|b.log|] == b.log;
    forall i | 0 <= i < |log'| && log'[i].RootOpened? && AllInSequence(b.log)
      ensures InSequence(log'[..i], log'[i])
    {
      assert log'[..i] == b.log[..i];
    }
  }

  lemma QuietThen(log: seq<SpanOp>, log1: seq<SpanOp>, log2: seq<SpanOp>)
    requires NothingOpened(log, log1) && NothingOpened(log1, log2)
    ensures NothingOpened(log, log2)
  {
  }

  /** Calls that open no root leave nothing opened. */
  lemma {:induction false} PlainQuiet(log: seq<SpanOp>, log': seq<SpanOp>)
    requires AddsPlain(log, log')
    ensures NothingOpened(log, log')
    decreases |log'|
  {
    if |log'| == |log| {
      assert log' == log'[..|log|];
    } else {
      hide NothingOpened;
      var n := |log'| - 1;
      var log1, op := log'[..n], log'[n];
      assert log1[..|log|] == log && log' == log1 + [op];
      PlainQuiet(log, log1);
      QuietRecord(Spans(0, {}, log1), op);
      QuietThen(log, log1, log');
    }
  }

  lemma LedQuiet(log: seq<SpanOp>, leading: Option<SpanOp>, log': seq<SpanOp>)
    requires AddsPlain(Led(log, leading), log') && (leading.Some? ==> !leading.value.RootOpened?)
    ensures NothingOpened(log, log')
  {
    hide AddsPlain, NothingOpened;
    PlainQuiet(Led(log, leading), log');
    if leading.Some? {
      QuietRecord(Spans(0, {}, log), leading.value);
      QuietThen(log, log + [leading.value], log');
    }
  }

  lemma QuietHandle(s: State, ev: Event)
    requires !ev.phase.RequestOpened? && !ev.phase.Grabbed?
    ensures Quiet(s, Handle(s, ev))
  {
    hide Handle, AddsPlain, NothingOpened;
    HandleGrows(s, ev);
    LedQuiet(s.spans.log, LeadingOf(s, ev), Handle(s, ev).spans.log);
  }

  lemma QuietStep(s: State, a: Action)
    requires !a.Deliver?
    ensures Quiet(s, Step(s, a))
  {
    hide Step, AddsPlain, NothingOpened;
    StepGrows(s, a);
    LedQuiet(s.spans.log, Leading(s, a), Step(s, a).spans.log);
  }

  // ---------- the store knows the last openings ----------

  predicate Is(o: Option<Opening>, id: ID, attempt: int) {
    o == Some(Opening(id, attempt))
  }

  /**
   * The live trace of a key is the one opened last for it; and so is, where there is none, the trace its closed
   * record tells of.
   */
  ghost predicate Known(st: StoreState, log: seq<SpanOp>) {
    && (forall k :: k in st.traces ==> Is(LastOpening(log, k), st.traces[k].traceID, st.traces[k].attempt))
    && (forall k :: k in st.closed && k !in st.traces ==>
          Is(LastOpening(log, k), st.closed[k].traceID, st.closed[k].attempt))
  }

  lemma KnownQuiet(st: StoreState, log: seq<SpanOp>, log': seq<SpanOp>)
    requires Known(st, log) && NothingOpened(log, log')
    ensures Known(st, log')
  {
  }

  predicate OpensNothing(cs: seq<Change>) {
    forall i :: 0 <= i < |cs| ==> !cs[i].Opened?
  }

  /** What a change that opens nothing does to identities. */
  lemma AppliedIdentity(st: StoreState, c: Change)
    requires Keyed(st.traces) && Allowed(st, c) && !c.Opened?
    ensures var r := Apply(st, c);
            && (forall k :: k in r.traces ==> k in st.traces && r.traces[k].traceID == st.traces[k].traceID
                                              && r.traces[k].attempt == st.traces[k].attempt)
            && (forall k :: k in r.closed && k !in r.traces ==>
                  if k in st.traces
                  then r.closed[k].traceID == st.traces[k].traceID && r.closed[k].attempt == st.traces[k].attempt
                  else k in st.closed && r.closed[k] == st.closed[k])
  {
    hide StoreSpec.Delete;
    if c.Dropped? {
      DeleteTraces(st, c.k);
      DeleteKeeps(st, c.k);
    }
  }

  lemma {:induction false} KnownFollows(st: StoreState, cs: seq<Change>, st': StoreState, log: seq<SpanOp>)
    requires Keyed(st.traces) && Known(st, log) && Follows(st, cs, st') && OpensNothing(cs)
    ensures Known(st', log)
    decreases |cs|
  {
    hide Apply, Allowed;
    if cs != [] {
      AppliedIdentity(st, cs[0]);
      KeyedApply(st, cs[0]);
      KnownFollows(Apply(st, cs[0]), cs[1..], st', log);
    }
  }

  // ---------- opening ----------

  /** Everything that holds of attempts in each reachable state. */
  ghost predicate Historical(s: State) {
    Known(s.store, s.spans.log) && AllInSequence(s.spans.log)
  }

  /** The record that recall finds tells of the last root opened for the key, or for its series. */
  lemma RecalledIsLast(s: State, key: MediaKey, now: Time)
    requires Known(s.store, s.spans.log) && Resolve(s.store.traces, key).None? && Recalled(s.store, key, now).Some?
    ensures var c := Recalled(s.store, key, now).value;
            if key in s.store.closed then Is(LastOpening(s.spans.log, key), c.traceID, c.attempt)
            else key.mediaType == TYPE_TV && Is(LastOpening(s.spans.log, key.SeriesKey()), c.traceID, c.attempt)
  {
  }

  /** A trace opened after recall. */
  function OpenNext(s: State, ev: Event, reason: string, requestID: string, requestedBy: string): State {
    var prior := Recalled(s.store, ev.key, ev.occurredAt);
    OpenTrace(Recall(s, ev.key, ev.occurredAt), ev, AttemptAfter(prior), LinkTo(prior), reason, requestID, requestedBy)
  }

  lemma LastOpeningNext(log: seq<SpanOp>, op: SpanOp, key: MediaKey)
    ensures LastOpening(log + [op], key)
            == if op.RootOpened? && op.key == key then Some(Opening(op.id, op.attempt)) else LastOpening(log, key)
  {
    assert (log + [op])[..|log|] == log;
  }

  lemma SequenceNext(log: seq<SpanOp>, op: SpanOp)
    requires AllInSequence(log) && op.RootOpened? && InSequence(log, op)
    ensures AllInSequence(log + [op])
  {
    var log' := log + [op];
    forall i | 0 <= i < |log'| && log'[i].RootOpened?
      ensures InSequence(log'[..i], log'[i])
    {
      assert log'[..i] == if i < |log| then log[..i] else log;
    }
  }

  lemma OpenedStore(s: State, ev: Event, reason: string, requestID: string, requestedBy: string)
    ensures var r := OpenNext(s, ev, reason, requestID, requestedBy).store;
            && r.traces.Keys == s.store.traces.Keys + {ev.key}
            && (forall k :: k in s.store.traces && k != ev.key ==> r.traces[k] == s.store.traces[k])
            && r.traces[ev.key].traceID == s.spans.next
            && r.traces[ev.key].attempt == AttemptAfter(Recalled(s.store, ev.key, ev.occurredAt))
            && (forall k :: k in r.closed ==> k in s.store.closed && r.closed[k] == s.store.closed[k])
  {
    hide Put;
    PutTraces(Recall(s, ev.key, ev.occurredAt).store,
              Trace(ev.key, s.spans.next, s.spans.next,
                    AttemptAfter(Recalled(s.store, ev.key, ev.occurredAt)), ev.source,
                    ev.occurredAt, ev.occurredAt, 0, false, 0, false, ev.occurredAt, ZERO_TIME, "", "",
                    ev.title, requestID, requestedBy, false));
  }

  /** The store after an opening, against the log after it. */
  lemma OpenedKnown(st: StoreState, st': StoreState, log: seq<SpanOp>, op: SpanOp)
    requires Known(st, log) && op.RootOpened?
    requires st'.traces.Keys == st.traces.Keys + {op.key}
    requires forall k :: k in st.traces && k != op.key ==> st'.traces[k] == st.traces[k]
    requires st'.traces[op.key].traceID == op.id && st'.traces[op.key].attempt == op.attempt
    requires forall k :: k in st'.closed ==> k in st.closed && st'.closed[k] == st.closed[k]
    ensures Known(st', log + [op])
  {
    hide LastOpening;
    forall k
      ensures LastOpening(log + [op], k)
              == if k == op.key then Some(Opening(op.id, op.attempt)) else LastOpening(log, k)
    {
      LastOpeningNext(log, op, k);
    }
  }

  lemma OpensHistorical(s: State, ev: Event, reason: string, requestID: string, requestedBy: string)
    requires Historical(s) && Resolve(s.store.traces, ev.key).None?
    ensures Historical(OpenNext(s, ev, reason, requestID, requestedBy))
  {
    hide OpenNext, AllInSequence, Known, Recalled, Resolve;
    var prior := Recalled(s.store, ev.key, ev.occurredAt);
    var op := NewRoot(s, ev, reason);
    OpenedLog(s, ev, reason, requestID, requestedBy);
    if prior.Some? { RecalledIsLast(s, ev.key, ev.occurredAt); }
    SequenceNext(s.spans.log, op);
    OpenedStore(s, ev, reason, requestID, requestedBy);
    OpenedKnown(s.store, OpenNext(s, ev, reason, requestID, requestedBy).store, s.spans.log, op);
  }

  lemma OpenedLog(s: State, ev: Event, reason: string, requestID: string, requestedBy: string)
    ensures OpenNext(s, ev, reason, requestID, requestedBy).spans.log == s.spans.log + [NewRoot(s, ev, reason)]
  {
  }

  // ---------- steps and runs ----------

  /** A call that opens nothing, seen from store and log. */
  lemma QuietHistorical(s: State, st: StoreState, cs: seq<Change>, r: State)
    requires Keyed(st.traces) && Known(st, s.spans.log) && AllInSequence(s.spans.log)
    requires Follows(st, cs, r.store) && OpensNothing(cs) && Quiet(s, r)
    ensures Historical(r)
  {
    KnownFollows(st, cs, r.store, s.spans.log);
    KnownQuiet(r.store, s.spans.log, r.spans.log);
  }

  lemma GrabbedHistorical(s: State, ev: Event)
    requires Keyed(s.store.traces) && Historical(s)
    ensures Historical(OnGrabbed(s, ev))
  {
    hide Grab, Replay, Historical, Quiet;
    var (k, s1) := GrabTarget(s, ev);
    if Resolve(s.store.traces, ev.key).None? {
      OpensHistorical(s, ev, OrphanReason(Recalled(s.store, ev.key, ev.occurredAt), ev.release.isUpgrade), "", "");
    }
    var begun := GrabTargetChanges(s, ev);
    KeyedFollows(s.store, begun, s1.store);
    GrabOnHistorical(s1, k, ev);
    var s2 := Grab(s1, k, ev);
    ReplayHistorical(s2, k, ev.release.downloadID);
  }

  lemma GrabOnHistorical(s: State, k: MediaKey, ev: Event)
    requires Keyed(s.store.traces) && Historical(s) && k in s.store.traces
    ensures Historical(Grab(s, k, ev)) && Keyed(Grab(s, k, ev).store.traces) && k in Grab(s, k, ev).store.traces
  {
    hide Grab, Apply, Quiet;
    var c := GrabChanges(s, k, ev);
    One(s.store, c);
    KeyedFollows(s.store, [c], Grab(s, k, ev).store);
    PlainGrab(s, k, ev);
    PlainQuiet(s.spans.log, Grab(s, k, ev).spans.log);
    QuietHistorical(s, s.store, [c], Grab(s, k, ev));
    GrabLive(s, k, ev);
  }

  lemma ReplayHistorical(s: State, k: MediaKey, id: string)
    requires Keyed(s.store.traces) && Historical(s) && k in s.store.traces
    ensures Historical(Replay(s, k, id))
  {
    hide Replay, Quiet;
    var cs := ReplayChanges(s, k, id);
    PlainReplay(s, k, id);
    PlainQuiet(s.spans.log, Replay(s, k, id).spans.log);
    QuietHistorical(s, s.store, cs, Replay(s, k, id));
  }

  lemma HandleHistorical(s: State, ev: Event)
    requires Keyed(s.store.traces) && Historical(s)
    ensures Historical(Handle(s, ev))
  {
    hide Historical, OnGrabbed, Quiet;
    if ev.phase.Grabbed? {
      GrabbedHistorical(s, ev);
    } else if ev.phase.RequestOpened? {
      RequestHistorical(s, ev);
    } else {
      OtherHistorical(s, ev);
    }
  }

  lemma RequestHistorical(s: State, ev: Event)
    requires Historical(s)
    ensures Historical(OnRequestOpened(s, ev))
  {
    if Resolve(s.store.traces, ev.key).None? {
      var reason := RequestReason(Recalled(s.store, ev.key, ev.occurredAt));
      OpensHistorical(s, ev, reason, ev.requestID, ev.requestedBy);
      var r := OpenNext(s, ev, reason, ev.requestID, ev.requestedBy);
      assert OnRequestOpened(s, ev).store == r.store && OnRequestOpened(s, ev).spans == r.spans;
    }
  }

  lemma OtherHistorical(s: State, ev: Event)
    requires Keyed(s.store.traces) && Historical(s) && !ev.phase.Grabbed? && !ev.phase.RequestOpened?
    ensures Historical(Handle(s, ev))
  {
    hide Handle, Quiet;
    var cs := HandleChanges(s, ev);
    QuietHandle(s, ev);
    QuietHistorical(s, s.store, cs, Handle(s, ev));
  }

  lemma ReopenedKnown(st: StoreState, reopened: StoreState, log: seq<SpanOp>)
    requires TracesSynced(st) && ClosedSynced(st) && KeysCodable(st) && Known(st, log) && st.kind.OnDisk?
    requires StoreSpec.Opens(st.disk, st.dedupTTL, st.recallTTL, reopened)
    ensures Known(LoadAll(reopened), log) && Keyed(reopened.traces) && Keyed(LoadAll(reopened).traces)
  {
    hide LastOpening;
    OpenedSynced(st, reopened);
    Reopened(st, reopened);
    ReopenedClosed(st.closed, st.disk.closed, reopened.closed);
  }

  lemma RestartHistorical(s: State, reopened: StoreState, order: seq<MediaKey>)
    requires TracesSynced(s.store) && ClosedSynced(s.store) && KeysCodable(s.store) && Historical(s)
    requires Enabled(s, Restart(reopened, order))
    ensures Historical(Step(s, Restart(reopened, order)))
  {
    hide TracesMirrored, ClosedSynced, Quiet, Known, Step, StoreSpec.LoadAll;
    ReopenedKnown(s.store, reopened, s.spans.log);
    var st, cs := StepChanges(s, Restart(reopened, order));
    QuietStep(s, Restart(reopened, order));
    QuietHistorical(s, st, cs, Step(s, Restart(reopened, order)));
  }

  lemma StepHistorical(s: State, a: Action)
    requires TracesSynced(s.store) && ClosedSynced(s.store) && KeysCodable(s.store) && Historical(s) && Enabled(s, a)
    ensures Historical(Step(s, a))
  {
    hide TracesMirrored, ClosedMirrored, Handle, Quiet;
    match a {
      case Deliver(ev) =>
        var s1 := s.(store := SeenEvent(s.store, ev.source, ev.eventID, ev.occurredAt));
        assert s1.store.traces == s.store.traces && s1.store.closed == s.store.closed;
        assert Historical(s1);
        HandleHistorical(s1, ev);
      case QueueIssue(id, status, when) =>
        var cs := QueueIssueChanges(s, id, status, when);
        QuietStep(s, a);
        QuietHistorical(s, s.store, cs, NoteQueueIssue(s, id, status, when));
      case SweepAt(now, _, order) =>
        var cs := SweepChanges(s, order, now);
        QuietStep(s, a);
        QuietHistorical(s, s.store, cs, Sweep(s, order, now));
      case Restart(reopened, order) => RestartHistorical(s, reopened, order);
    }
  }

  lemma {:induction false} RunHistorical(s: State, acts: seq<Action>)
    requires TracesSynced(s.store) && ClosedSynced(s.store) && KeysCodable(s.store) && Historical(s)
    requires CanRun(s, acts) && forall i :: 0 <= i < |acts| ==> CodableAction(acts[i])
    ensures Historical(Run(s, acts))
    decreases |acts|
  {
    hide Historical, TracesMirrored, ClosedMirrored;
    if acts != [] {
      StepHistorical(s, acts[0]);
      StepTracesSynced(s, acts[0]);
      StepClosedSynced(s, acts[0]);
      RunHistorical(Step(s, acts[0]), acts[1..]);
    }
  }

  // ---------- the results ----------

  lemma ReachableHistorical(s: State, acts: seq<Action>)
    requires Initial(s) && CanRun(s, acts) && forall i :: 0 <= i < |acts| ==> CodableAction(acts[i])
    ensures Historical(Run(s, acts))
  {
    EmptySynced(s);
    assert Historical(s);
    RunHistorical(s, acts);
  }

  /**
   * In every run, restarts included, each root opened is a first attempt without a link, or the attempt after
   * the last root opened for its key, or for TV its series, and then links to that very root.
   */
  lemma AttemptsInSequence(s: State, acts: seq<Action>, i: nat)
    requires Initial(s) && CanRun(s, acts) && forall j :: 0 <= j < |acts| ==> CodableAction(acts[j])
    requires i < |Run(s, acts).spans.log| && Run(s, acts).spans.log[i].RootOpened?
    ensures var log := Run(s, acts).spans.log; InSequence(log[..i], log[i])
  {
    ReachableHistorical(s, acts);
  }

  /** The step is an accepted request or grab that no live trace takes. */
  predicate OpensRoot(r: State, a: Action) {
    && a.Deliver? && (a.ev.phase.RequestOpened? || a.ev.phase.Grabbed?)
    && Accepts(r.store, a.ev.source, a.ev.eventID, a.ev.occurredAt) && Resolve(r.store.traces, a.ev.key).None?
  }

  /** Whose closed record recall looks at. */
  function RecalledKey(st: StoreState, key: MediaKey): MediaKey {
    if key in st.closed then key else key.SeriesKey()
  }

  /** A first attempt without a link if nothing is recalled, else the successor of the last one of the recalled key. */
  predicate OpensNext(r: State, ev: Event, op: SpanOp) {
    && op.RootOpened? && op.key == ev.key
    && if Recalled(r.store, ev.key, ev.occurredAt).None? then op.attempt == 1 && op.link == None
       else Succeeds(LastOpening(r.spans.log, RecalledKey(r.store, ev.key)), op)
  }

  /**
   * After any run, restarts included, a step opens a root if and only if it is an accepted request or grab that no
   * live trace takes, and then just one. That is a first attempt if and only if no closed record is recalled;
   * otherwise it is numbered one above the last root opened for the recalled key, its own or its series', and
   * links to it.
   */
  lemma NextAttempt(s: State, acts: seq<Action>, a: Action)
    requires Initial(s) && CanRun(s, acts) && forall j :: 0 <= j < |acts| ==> CodableAction(acts[j])
    ensures var r := Run(s, acts); var log := Step(r, a).spans.log; var n := |r.spans.log|;
            && n <= |log| && log[..n] == r.spans.log
            && (OpensRoot(r, a) ==> n < |log| && OpensNext(r, a.ev, log[n]))
            && (forall i :: n <= i < |log| && log[i].RootOpened? ==> OpensRoot(r, a) && i == n)
  {
    hide Step, Historical;
    ReachableHistorical(s, acts);
    StepOpensNext(Run(s, acts), a);
  }

  lemma StepOpensNext(r: State, a: Action)
    requires Historical(r)
    ensures var log := Step(r, a).spans.log; var n := |r.spans.log|;
            && n <= |log| && log[..n] == r.spans.log
            && (OpensRoot(r, a) ==> n < |log| && OpensNext(r, a.ev, log[n]))
            && (forall i :: n <= i < |log| && log[i].RootOpened? ==> OpensRoot(r, a) && i == n)
  {
    hide Step, AllInSequence, Accepts, Resolve, Known, Recalled;
    StepGrows(r, a);
    var led, log := Led(r.spans.log, Leading(r, a)), Step(r, a).spans.log;
    assert log[..|r.spans.log|] == led[..|r.spans.log|] == r.spans.log;
    if OpensRoot(r, a) {
      assert log[|r.spans.log|] == led[|r.spans.log|];
      if Recalled(r.store, a.ev.key, a.ev.occurredAt).Some? { RecalledIsLast(r, a.ev.key, a.ev.occurredAt); }
    }
    assert forall i :: 0 <= i < |led| ==> log[i] == led[i];
  }
}
