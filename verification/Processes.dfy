/**
 * The objects over whole runs: an engine that serves a list of commands, dying and reopening its file
 * among them, ends in the state that a run of the specification reaches.
 */
module Processes {
  import opened Types
  import opened EngineSpec
  import opened Engines

  /** What reaches the engine from outside, and the death of its process. */
  datatype Command =
    | Receive(ev: Event)
    | Stalled(id: string, status: string, when: Time)
    | SweepDue(now: Time, ttl: int)
    | Crash

  /** The action takes the command; which order a map is walked in is the action's own. */
  predicate Takes(a: Action, c: Command) {
    match c
    case Receive(ev) => a == Deliver(ev)
    case Stalled(id, status, when) => a == QueueIssue(id, status, when)
    case SweepDue(now, ttl) => a.SweepAt? && a.now == now && a.ttl == ttl
    case Crash => a.Restart?
  }

  /** The actions take the commands, one by one and in order. */
  predicate TakesAll(acts: seq<Action>, commands: seq<Command>) {
    |acts| == |commands| && forall i :: 0 <= i < |acts| ==> Takes(acts[i], commands[i])
  }

  lemma NotYetRun(s: State)
    ensures CanRun(s, []) && Run(s, []) == s
  {
  }

  /** One more action at the end of a run. */
  lemma {:induction false} RunOneMore(s: State, acts: seq<Action>, a: Action)
    requires CanRun(s, acts) && Enabled(Run(s, acts), a)
    ensures CanRun(s, acts + [a]) && Run(s, acts + [a]) == Step(Run(s, acts), a)
    decreases |acts|
  {
    hide Step, Enabled;
    if acts == [] {
      assert [a][1..] == [];
      assert CanRun(Step(s, a), []);
    } else {
      assert (acts + [a])[1..] == acts[1..] + [a];
      RunOneMore(Step(s, acts[0]), acts[1..], a);
    }
  }

  /** One command. A crash leaves the file and the tracer to a new engine. */
  method Obey(e: Engine, c: Command) returns (e': Engine, ghost a: Action)
    requires e.Valid() && (c.Crash? ==> e.store.Bolt?)
    modifies e.Repr()
    ensures e'.Valid() && e'.store.Bolt? == e.store.Bolt?
    ensures forall x | x in e'.Repr() :: x in old(e.Repr()) || fresh(x)
    ensures Takes(a, c) && Enabled(old(e.Abs()), a) && e'.Abs() == Step(old(e.Abs()), a)
  {
    hide Step;
    e' := e;
    match c
    case Receive(ev) =>
      e.Process(ev);
      a := Deliver(ev);
    case Stalled(id, status, when) =>
      e.NoteQueueIssue(id, status, when);
      a := QueueIssue(id, status, when);
    case SweepDue(now, ttl) =>
      ghost var order := e.Sweep(now, ttl);
      a := SweepAt(now, ttl, order);
    case Crash =>
      ghost var reopened, order;
      e', reopened, order := Reopen(e);
      a := Restart(reopened, order);
  }

  /**
   * Serve the commands from a first process on. The engine at the end is in the state that a run from an
   * initial state reaches, by actions that take these commands.
   */
  method Serve(onDisk: bool, dedupTTL: nat, recallTTL: nat, pendingDLTTL: nat, commands: seq<Command>)
    returns (e: Engine, ghost s: State, ghost acts: seq<Action>)
    requires Crash in commands ==> onDisk
    ensures e.Valid() && Initial(s) && CanRun(s, acts) && TakesAll(acts, commands)
    ensures e.Abs() == Run(s, acts)
  {
    hide Initial, CanRun, Run, Step, Enabled, Engine.Repr, Engine.Valid, Engine.Abs, Takes;
    e := Begin(onDisk, dedupTTL, recallTTL, pendingDLTTL);
    s, acts := e.Abs(), [];
    NotYetRun(s);
    for i := 0 to |commands|
      invariant e.Valid() && e.store.Bolt? == onDisk && fresh(e.Repr())
      invariant Initial(s) && CanRun(s, acts) && TakesAll(acts, commands[..i])
      invariant e.Abs() == Run(s, acts)
    {
      ghost var a;
      e, a := Obey(e, commands[i]);
      RunOneMore(s, acts, a);
      acts := acts + [a];
    }
    assert commands[..|commands|] == commands;
  }
}
