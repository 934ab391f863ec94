/**
 * Notes on the root of a trace that an earlier process opened go nowhere: its context names the root but does
 * not record. Exactly which steps lose a note, and that nothing else does.
 */
module LostNotes {
  import opened Types
  import opened StoreSpec
  import opened SpanSpec
  import opened EngineSpec
  import opened CrashRecovery
  import opened SpanMonitor
  import opened SpanDiscipline
  import opened LogGrowth

  /** The call is a note for the root of `parent`, and `parent` does not record. */
  predicate Lost(op: SpanOp) {
    op.Annotated? && op.id == 0 && !op.parent.LiveCtx?
  }

  function LostIn(log: seq<SpanOp>): nat {
    if log == [] then 0 else LostIn(log[..|log| - 1]) + if Lost(log[|log| - 1]) then 1 else 0
  }

  /** The trace a step leaves a note about, if it does, and whether the note is for the root whatever is open. */
  function Noted(s: State, a: Action): Option<(MediaKey, bool)> {
    match a
    case Deliver(ev) =>
      if !Accepts(s.store, ev.source, ev.eventID, ev.occurredAt) || Resolve(s.store.traces, ev.key).None? then None
      else if ev.phase.RequestApproved? then Some((Resolve(s.store.traces, ev.key).value, true))
      else if ev.phase.ManualNeeded? then Some((Resolve(s.store.traces, ev.key).value, false))
      else None
    case QueueIssue(id, _, _) =>
      (match ByDownloadID(s.store, id) case None => None case Some(k) => Some((k, false)))
    case _ => None
  }

  /** The trace is resumed, and the note is an approval or no grab is open. */
  predicate LosesNote(s: State, a: Action) {
    match Noted(s, a)
    case None => false
    case Some((k, onRoot)) =>
      k in s.store.traces && s.store.traces[k].resumed && (onRoot || !s.store.traces[k].hasGrab)
  }

  lemma LostNext(log: seq<SpanOp>, op: SpanOp)
    ensures LostIn(log + [op]) == LostIn(log) + if Lost(op) then 1 else 0
  {
    assert (log + [op])[..|log|] == log;
  }

  lemma {:induction false} PlainLosesNone(log: seq<SpanOp>, log': seq<SpanOp>)
    requires AddsPlain(log, log')
    ensures LostIn(log') == LostIn(log)
    decreases |log'|
  {
    if |log'| == |log| {
      assert log' == log'[..|log|];
    } else {
      assert log'[..|log'| - 1][..|log|] == log;
      PlainLosesNone(log, log'[..|log'| - 1]);
    }
  }

  /** The context of a live trace records iff the trace is not resumed; an open grab has an ID. */
  lemma ContextRecords(s: State, k: MediaKey)
    requires Sound(s) && k in s.store.traces
    ensures CtxOf(s, k).LiveCtx? <==> !s.store.traces[k].resumed
    ensures NoticeTarget(s.store.traces[k]) == 0 <==> !s.store.traces[k].hasGrab
  {
    SoundLinked(s, k);
    assert Linked(k, s.store.traces[k], s.ctx, Watch(s.spans.log).roots);
  }

  /** The leading call of a step is a lost note iff the step loses one. */
  lemma LeadingLost(s: State, a: Action)
    requires Sound(s)
    ensures Leading(s, a).Some? && Lost(Leading(s, a).value) <==> LosesNote(s, a)
  {
    hide Sound, Accepts, CtxOf, NoticeTarget;
    if Noted(s, a).Some? { ContextRecords(s, Noted(s, a).value.0); }
  }

  /** One step loses a note, and then one, exactly when it leaves one for a root that is not of this process. */
  lemma StepLosesNote(s: State, a: Action)
    requires Sound(s)
    ensures LostIn(Step(s, a).spans.log) == LostIn(s.spans.log) + if LosesNote(s, a) then 1 else 0
  {
    hide Step, Sound, LosesNote, Leading, Lost;
    StepGrows(s, a);
    PlainLosesNone(Led(s.spans.log, Leading(s, a)), Step(s, a).spans.log);
    LeadingLost(s, a);
    if Leading(s, a).Some? { LostNext(s.spans.log, Leading(s, a).value); }
  }

  function NotesLost(s: State, acts: seq<Action>): nat
    decreases |acts|
  {
    if acts == [] then 0
    else (if LosesNote(s, acts[0]) then 1 else 0) + NotesLost(Step(s, acts[0]), acts[1..])
  }

  lemma {:induction false} RunLosesNotes(s: State, acts: seq<Action>)
    requires Reachable(s) && CanRun(s, acts)
    ensures LostIn(Run(s, acts).spans.log) == LostIn(s.spans.log) + NotesLost(s, acts)
    decreases |acts|
  {
    hide Step, LosesNote, LostIn, Sound;
    if acts != [] {
      StepFine(s, acts[0], 0);
      StepTracesSynced(s, acts[0]);
      StepLosesNote(s, acts[0]);
      RunLosesNotes(Step(s, acts[0]), acts[1..]);
    }
  }

  /** Over every run the notes lost are those of these steps, one each. */
  lemma NotesLostExactly(s: State, acts: seq<Action>)
    requires Initial(s) && CanRun(s, acts)
    ensures LostIn(Run(s, acts).spans.log) == NotesLost(s, acts)
  {
    InitialReachable(s);
    RunLosesNotes(s, acts);
  }
}
