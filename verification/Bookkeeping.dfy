/**
 * Parked download starts, per-trace timing and the request gauge: what each handler does to them,
 * and what holds of them in every run.
 */
module Bookkeeping {
  import opened Types
  import opened StoreSpec
  import opened SpanSpec
  import opened EngineSpec
  import opened StoreChanges

  predicate SameBooks(s: State, s': State) {
    && s'.pending == s.pending && s'.pendingTTL == s.pendingTTL
    && s'.timing == s.timing && s'.gauges == s.gauges
  }

  /** Timing entries are at most rewritten in place, and the request gauge stands still. */
  predicate SameEntries(s: State, s': State) {
    && s'.pendingTTL == s.pendingTTL
    && s'.timing.Keys == s.timing.Keys && s'.gauges.request == s.gauges.request
  }

  lemma EndChildrenBooks(s: State, k: MediaKey, at: Time, ok: bool, reason: string)
    requires k in s.store.traces
    ensures SameBooks(s, EndChildren(s, k, at, ok, reason))
  {
    var s1 := EndOpenDownload(s, k, at, ok, reason);
    assert SameBooks(s, s1);
    assert SameBooks(s1, EndOpenGrab(s1, k, at, ok, reason));
  }

  lemma CloseTraceBooks(s: State, k: MediaKey, at: Time, ok: bool, reason: string, outcome: Outcome)
    requires k in s.store.traces
    ensures SameBooks(s, CloseTrace(s, k, at, ok, reason, outcome))
  {
  }

  lemma GrabBooks(s: State, k: MediaKey, ev: Event)
    requires k in s.store.traces
    ensures SameEntries(s, Grab(s, k, ev)) && Grab(s, k, ev).pending == s.pending
  {
    var s1 := EmitSearch(s, k, ev.occurredAt);
    assert SameBooks(s, s1);
    var s2 := EndOpenGrab(s1, k, ev.occurredAt, false, ERR_SUPERSEDED);
    assert SameBooks(s1, s2);
    var s3 := BeginGrab(s2, k, GrabSpanName(ev.source), ev.occurredAt, ev.release.downloadID);
    assert SameBooks(s2, Save(s3, k));
    assert SameEntries(Save(s3, k), TimeGrab(Save(s3, k), k, ev));
  }

  lemma DownloadStartBooks(s: State, k: MediaKey, ev: Event)
    requires k in s.store.traces
    ensures SameEntries(s, HandleDownloadStart(s, k, ev)) && HandleDownloadStart(s, k, ev).pending == s.pending
  {
  }

  lemma ReplayBooks(s: State, k: MediaKey, id: string)
    requires k in s.store.traces
    ensures SameEntries(s, Replay(s, k, id))
    ensures Replay(s, k, id).pending == if id == "" then s.pending else s.pending - {id}
  {
    if id != "" && id in s.pending {
      DownloadStartBooks(s.(pending := s.pending - {id}), k, s.pending[id].event);
    } else if id != "" {
      assert s.pending - {id} == s.pending;
    }
  }

  lemma GrabbedBooks(s: State, ev: Event)
    ensures SameEntries(s, OnGrabbed(s, ev))
    ensures var id := ev.release.downloadID;
            OnGrabbed(s, ev).pending == if id == "" then s.pending else s.pending - {id}
  {
    var (k, s1) := GrabTarget(s, ev);
    assert SameBooks(s, s1);
    GrabBooks(s1, k, ev);
    ReplayBooks(Grab(s1, k, ev), k, ev.release.downloadID);
  }

  lemma ImportBooks(s: State, k: MediaKey, ev: Event)
    requires k in s.store.traces
    ensures SameBooks(s, Import(s, k, ev))
  {
    var at := ev.occurredAt;
    var s1 := EndOpenDownload(s, k, at, true, "");
    assert SameBooks(s, s1);
    var s2 := EmitUnder(s1, k, ImportSpanName(ev.source), Earlier(s1.store.traces[k].updatedAt, at), at);
    var s3 := EndOpenGrab(s2, k, at, true, "");
    assert SameBooks(s2, s3);
    assert SameBooks(s3, Save(Touch(s3, k, at), k));
  }

  /** Dropping the timing entry of `k`, if any, takes one off the request gauge. */
  predicate Settles(s: State, k: MediaKey, s': State) {
    && s'.pending == s.pending && s'.pendingTTL == s.pendingTTL
    && s'.timing == s.timing - {k}
    && s'.gauges.request == s.gauges.request - (if k in s.timing then 1 else 0)
  }

  lemma SettleBooks(s: State, k: MediaKey, hadGrab: bool)
    ensures Settles(s, k, Settle(s, k, hadGrab))
  {
    if k !in s.timing { assert s.timing - {k} == s.timing; }
  }

  lemma RequestClosedBooks(s: State, ev: Event)
    ensures match Resolve(s.store.traces, ev.key)
            case None => OnRequestClosed(s, ev) == s
            case Some(k) => Settles(s, k, OnRequestClosed(s, ev))
  {
    if Resolve(s.store.traces, ev.key).Some? {
      var k := Resolve(s.store.traces, ev.key).value;
      EndChildrenBooks(s, k, ev.occurredAt, true, "");
      var s1 := EndChildren(s, k, ev.occurredAt, true, "");
      CloseTraceBooks(s1, k, ev.occurredAt, ev.outcome.Available?, ev.errorReason, ev.outcome);
      SettleBooks(CloseTrace(s1, k, ev.occurredAt, ev.outcome.Available?, ev.errorReason, ev.outcome), k,
                  s1.store.traces[k].hasGrab);
    }
  }

  lemma ImportedBooks(s: State, ev: Event)
    ensures match Resolve(s.store.traces, ev.key)
            case None => OnImported(s, ev) == s
            case Some(k) =>
              if s.store.traces[k].source == SOURCE_SONARR || s.store.traces[k].source == SOURCE_RADARR
              then Settles(s, k, OnImported(s, ev)) else SameBooks(s, OnImported(s, ev))
  {
    if Resolve(s.store.traces, ev.key).Some? {
      var k := Resolve(s.store.traces, ev.key).value;
      ImportBooks(s, k, ev);
      ImportSource(s, k, ev);
      var s1 := Import(s, k, ev);
      CloseTraceBooks(s1, k, ev.occurredAt, true, "", Available);
      SettleBooks(CloseTrace(s1, k, ev.occurredAt, true, "", Available), k, s1.store.traces[k].hasGrab);
    }
  }

  lemma ImportSource(s: State, k: MediaKey, ev: Event)
    requires k in s.store.traces
    ensures Import(s, k, ev).store.traces[k].source == s.store.traces[k].source
  {
    hide EndOpenDownload, EndOpenGrab;
    var at := ev.occurredAt;
    EndDownloadEdits(s, k, at, true, "");
    var s1 := EndOpenDownload(s, k, at, true, "");
    var s2 := EmitUnder(s1, k, ImportSpanName(ev.source), Earlier(s1.store.traces[k].updatedAt, at), at);
    EndGrabEdits(s2, k, at, true, "");
  }

  lemma DownloadDoneBooks(s: State, ev: Event)
    ensures SameEntries(s, OnDownloadDone(s, ev)) && OnDownloadDone(s, ev).pending == s.pending
  {
    hide Put, CloseSpan, SyntheticSpan, Record, ByDownloadID;
  }

  lemma {:induction false} SweepBooks(s: State, order: seq<MediaKey>, now: Time)
    ensures SameBooks(s, Sweep(s, order, now))
    decreases |order|
  {
    if order != [] {
      var s1 := Sweep(s, order[..|order| - 1], now);
      var k := order[|order| - 1];
      SweepBooks(s, order[..|order| - 1], now);
      if k in s1.store.traces {
        EndChildrenBooks(s1, k, now, false, ERR_TIMEOUT);
        CloseTraceBooks(EndChildren(s1, k, now, false, ERR_TIMEOUT), k, now, false, ERR_TIMEOUT, Timeout);
      }
    }
  }

  lemma {:induction false} RestoreBooks(s: State, order: seq<MediaKey>)
    ensures SameBooks(s, RestoreKeys(s, order))
    decreases |order|
  {
    if order != [] { RestoreBooks(s, order[..|order| - 1]); }
  }

  // ---------- parked download starts ----------

  /** What a step leaves parked. */
  function ParkedAfter(s: State, a: Action): map<string, Parked> {
    match a
    case Restart(_, _) => map[]
    case Deliver(ev) =>
      if !Accepts(s.store, ev.source, ev.eventID, ev.occurredAt) then s.pending
      else if ev.phase.Grabbed? && ev.release.downloadID != "" then s.pending - {ev.release.downloadID}
      else if ev.phase.DownloadStart? && ByDownloadID(s.store, ev.release.downloadID).None? then
        EngineSpec.Unexpired(s.pending, ev.occurredAt - s.pendingTTL)
          [ev.release.downloadID := Parked(ev, ev.occurredAt)]
      else s.pending
    case _ => s.pending
  }

  lemma HandleParked(s: State, ev: Event)
    ensures Handle(s, ev).pendingTTL == s.pendingTTL
    ensures Handle(s, ev).pending ==
            if ev.phase.Grabbed? && ev.release.downloadID != "" then s.pending - {ev.release.downloadID}
            else if ev.phase.DownloadStart? && ByDownloadID(s.store, ev.release.downloadID).None?
            then Park(s, ev).pending
            else s.pending
  {
    match ev.phase
    case Grabbed => GrabbedBooks(s, ev);
    case DownloadStart =>
      if ByDownloadID(s.store, ev.release.downloadID).Some? {
        DownloadStartBooks(s, ByDownloadID(s.store, ev.release.downloadID).value, ev);
      }
    case RequestClosed => RequestClosedBooks(s, ev);
    case Imported => ImportedBooks(s, ev);
    case DownloadDone => DownloadDoneBooks(s, ev);
    case _ =>
  }

  lemma StepParked(s: State, a: Action)
    ensures Step(s, a).pending == ParkedAfter(s, a) && Step(s, a).pendingTTL == s.pendingTTL
  {
    match a
    case Deliver(ev) => HandleParked(s.(store := SeenEvent(s.store, ev.source, ev.eventID, ev.occurredAt)), ev);
    case QueueIssue(_, _, _) =>
    case SweepAt(now, _, order) => SweepBooks(s, order, now);
    case Restart(reopened, order) => RestoreBooks(Reborn(s, reopened).(store := LoadAll(reopened)), order);
  }

  lemma HandleTiming(s: State, ev: Event)
    ensures var r := Handle(s, ev);
            if ev.phase.RequestOpened? && Resolve(s.store.traces, ev.key).None? then
              r.timing.Keys == s.timing.Keys + {ev.key} && r.gauges.request == s.gauges.request + 1
            else match Settled(s, ev)
              case Some(k) => Settles(s, k, r)
              case None => SameEntries(s, r)
  {
    match ev.phase
    case Grabbed => GrabbedBooks(s, ev);
    case DownloadStart =>
      if ByDownloadID(s.store, ev.release.downloadID).Some? {
        DownloadStartBooks(s, ByDownloadID(s.store, ev.release.downloadID).value, ev);
      }
    case RequestClosed => RequestClosedBooks(s, ev);
    case Imported => ImportedBooks(s, ev);
    case DownloadDone => DownloadDoneBooks(s, ev);
    case _ =>
  }

  /** The trace an event completes: a closed request's, or an imported one that no request opened. */
  function Settled(s: State, ev: Event): Option<MediaKey> {
    match Resolve(s.store.traces, ev.key)
    case None => None
    case Some(k) =>
      if ev.phase.RequestClosed? then Some(k)
      else if ev.phase.Imported? &&
              (s.store.traces[k].source == SOURCE_SONARR || s.store.traces[k].source == SOURCE_RADARR) then Some(k)
      else None
  }

  // ---------- each parked start is replayed at most once ----------

  /** The step parks a start under `id`. */
  predicate Parks(s: State, a: Action, id: string) {
    && a.Deliver? && a.ev.phase.DownloadStart? && a.ev.release.downloadID == id
    && Accepts(s.store, a.ev.source, a.ev.eventID, a.ev.occurredAt) && ByDownloadID(s.store, id).None?
  }

  /** The step replays the start parked under `id`, into the trace of its grab. */
  predicate Replays(s: State, a: Action, id: string) {
    && a.Deliver? && a.ev.phase.Grabbed? && a.ev.release.downloadID == id && id != "" && id in s.pending
    && Accepts(s.store, a.ev.source, a.ev.eventID, a.ev.occurredAt)
  }

  function ParkCount(s: State, acts: seq<Action>, id: string): nat
    decreases |acts|
  {
    if acts == [] then 0
    else (if Parks(s, acts[0], id) then 1 else 0) + ParkCount(Step(s, acts[0]), acts[1..], id)
  }

  function ReplayCount(s: State, acts: seq<Action>, id: string): nat
    decreases |acts|
  {
    if acts == [] then 0
    else (if Replays(s, acts[0], id) then 1 else 0) + ReplayCount(Step(s, acts[0]), acts[1..], id)
  }

  function Held(s: State, id: string): nat {
    if id in s.pending then 1 else 0
  }

  /** Over any run, replays of an ID never outnumber its parkings: what is replayed is gone. */
  lemma {:induction false} ReplayedAtMostOnce(s: State, acts: seq<Action>, id: string)
    ensures ReplayCount(s, acts, id) + Held(Run(s, acts), id) <= ParkCount(s, acts, id) + Held(s, id)
    decreases |acts|
  {
    if acts != [] {
      StepParked(s, acts[0]);
      ReplayedAtMostOnce(Step(s, acts[0]), acts[1..], id);
    }
  }

  /** After a start is parked at time `now`, every parked entry is at most `pendingTTL` old. */
  lemma ParkedRecently(s: State, ev: Event)
    requires Parks(s, Deliver(ev), ev.release.downloadID)
    ensures var r := Process(s, ev);
            && ev.release.downloadID in r.pending && r.pending[ev.release.downloadID] == Parked(ev, ev.occurredAt)
            && forall id :: id in r.pending ==> r.pending[id].addedAt >= ev.occurredAt - s.pendingTTL
  {
    StepParked(s, Deliver(ev));
  }

  /** Parked entries carry the ID they are parked under, so a replay lands in the trace of a grab with that ID. */
  ghost predicate ParkedUnderOwnID(s: State) {
    forall id :: id in s.pending ==>
      s.pending[id].event.release.downloadID == id && s.pending[id].event.phase.DownloadStart?
  }

  lemma {:induction false} AlwaysParkedUnderOwnID(s: State, acts: seq<Action>)
    requires ParkedUnderOwnID(s)
    ensures ParkedUnderOwnID(Run(s, acts))
    decreases |acts|
  {
    if acts != [] {
      StepParked(s, acts[0]);
      AlwaysParkedUnderOwnID(Step(s, acts[0]), acts[1..]);
    }
  }
}
