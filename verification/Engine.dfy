/**
 * The correlation engine as the program has it: handlers that change shared trace records in place and
 * then save them. Each method takes the engine from one state of the specification to the next.
 */
module Engines {
  import opened Types
  import opened StoreSpec
  import opened SpanSpec
  import opened EngineSpec
  import opened TraceRecords
  import opened MemoryStores
  import opened BoltStores
  import opened Stores
  import opened Builders

  class Engine {
    const store: Store
    const builder: OTelBuilder
    const pendingDLTTL: nat
    var ctxByKey: map<MediaKey, RootCtx>
    var pendingDL: map<string, Parked>
    var timing: map<MediaKey, Timing>
    var gauges: Gauges

    ghost function Repr(): set<object>
      reads store.Base()
    {
      {this, builder, builder.tracer} + store.Repr()
    }

    ghost predicate Valid()
      reads store.Base()
    {
      && store.Valid()
      && {this, builder, builder.tracer} !! store.Repr() && store.Base() !! Objects(store.Table())
      && builder.tracer != builder as object
    }

    /** The state of the specification that the engine is in. */
    ghost function Abs(): State
      reads this, builder, builder.tracer, store.Repr()
    {
      State(store.View(), ctxByKey, pendingDL, pendingDLTTL, timing, gauges, builder.View())
    }

    /** `state` is the live record of `key`. */
    ghost predicate Holds(key: MediaKey, state: TraceState)
      reads store.Base()
    {
      key in store.Table() && store.Table()[key] == state
    }

    lemma Held(key: MediaKey, state: TraceState)
      requires Holds(key, state)
      ensures key in Abs().store.traces && Abs().store.traces[key] == state.Snap()
    {
      store.ViewTraces();
    }

    function RootCtxOf(key: MediaKey): (c: RootCtx)
      reads this
    {
      if key in ctxByKey then ctxByKey[key] else NoCtx
    }

    constructor (store: Store, builder: OTelBuilder, pendingDLTTL: nat)
      requires store.Valid()
      ensures this.store == store && this.builder == builder
      ensures Valid() && Abs() == NewState(store.View(), pendingDLTTL, builder.View())
      ensures store.View() == old(store.View()) && builder.View() == old(builder.View())
    {
      this.store, this.builder, this.pendingDLTTL := store, builder, pendingDLTTL;
      ctxByKey, pendingDL, timing, gauges := map[], map[], map[], Gauges(0, 0, 0);
      new;
      store.Framed();
    }

    /** Only this live record has changed. */
    twostate lemma Amended(state: TraceState)
      requires Valid() && Holds(state.key, state) && unchanged(this) && unchanged(builder) && unchanged(builder.tracer)
      requires unchanged(store.Base()) && unchanged(Objects(store.Table()) - {state})
      ensures Abs() == Amend(old(Abs()), state.key, state.Snap())
    {
      store.Amended(state);
    }

    /** Only the builder and the engine's own fields have changed. */
    twostate lemma Called()
      requires unchanged(store.Base()) && unchanged(Objects(store.Table()))
      ensures Abs() == old(Abs()).(spans := builder.View(), ctx := ctxByKey, pending := pendingDL,
                                   timing := timing, gauges := gauges)
    {
      store.Framed();
    }

    // ---------- looking up ----------

    method ResolveTrace(k: MediaKey) returns (state: TraceState?, key: MediaKey)
      requires Valid()
      ensures Valid() && store.Table() == old(store.Table()) && Abs() == old(Abs())
      ensures var r := Resolve(Abs().store.traces, k);
              if r.None? then state == null else key == r.value && state != null && Holds(key, state)
    {
      store.ViewTraces();
      state := store.Get(k);
      Called();
      if state != null {
        return state, k;
      }
      if k.mediaType == TYPE_TV {
        var sk := k.SeriesKey();
        state := store.Get(sk);
        Called();
        if state != null {
          return state, sk;
        }
      }
      return null, k;
    }

    method TraceOfDownload(id: string) returns (state: TraceState?)
      requires Valid()
      ensures Valid() && store.Table() == old(store.Table()) && Abs() == old(Abs())
      ensures var r := ByDownloadID(Abs().store, id);
              if r.None? then state == null else state != null && state.key == r.value && Holds(r.value, state)
    {
      state := store.GetByDownloadID(id);
      Called();
    }

    method Lookup(k: MediaKey) returns (state: TraceState?)
      requires Valid()
      ensures Valid() && store.Table() == old(store.Table()) && Abs() == old(Abs())
      ensures if k in Abs().store.traces then state != null && Holds(k, state) else state == null
    {
      store.ViewTraces();
      state := store.Get(k);
      Called();
    }

    method Stale(ttl: int, now: Time) returns (keys: seq<MediaKey>)
      requires Valid()
      ensures Valid() && store.Table() == old(store.Table()) && Abs() == old(Abs())
      ensures Lists(keys, StaleKeys(Abs().store, ttl, now))
    {
      keys := store.Stale(ttl, now);
      Called();
    }

    // ---------- store calls ----------

    method Put(state: TraceState, key: MediaKey)
      requires Valid() && Holds(key, state)
      modifies Repr()
      ensures Valid() && store.Table() == old(store.Table())
      ensures old(key in Abs().store.traces) && Abs() == Save(old(Abs()), key)
    {
      Held(key, state);
      store.Put(state);
    }

    method SeenEvent(ev: Event) returns (first: bool)
      requires Valid()
      modifies Repr()
      ensures Valid() && store.Table() == old(store.Table())
      ensures first == Accepts(old(Abs()).store, ev.source, ev.eventID, ev.occurredAt)
      ensures Abs() == old(Abs()).(store := StoreSpec.SeenEvent(old(Abs()).store, ev.source, ev.eventID, ev.occurredAt))
    {
      first := store.SeenEvent(ev.source, ev.eventID, ev.occurredAt);
    }

    method RecallClosed(k: MediaKey, now: Time) returns (prior: Option<ClosedTrace>)
      requires Valid()
      modifies Repr()
      ensures Valid() && store.Table() == old(store.Table())
      ensures prior == Recalled(old(Abs()).store, k, now) && Abs() == Recall(old(Abs()), k, now)
    {
      prior := store.RecallClosed(k, now);
    }

    /** Drop the live trace and remember how it ended. */
    method Retire(state: TraceState, key: MediaKey, outcome: Outcome, at: Time)
      requires Valid() && Holds(key, state)
      modifies Repr()
      ensures Valid() && store.Table() == old(store.Table()) - {key} && state.Snap() == old(state.Snap())
      ensures old(key in Abs().store.traces) && Abs() == EngineSpec.Retire(old(Abs()), key, outcome, at)
    {
      Held(key, state);
      ctxByKey := ctxByKey - {key};
      Called();
      store.Delete(key);
      store.RememberClosed(key, state.traceID, state.attempt, outcome, at);
    }

    // ---------- builder calls ----------

    method CloseSpan(key: MediaKey, id: ID, end: Time, ok: bool, reason: string)
      requires Valid()
      modifies Repr()
      ensures Valid() && store.Table() == old(store.Table())
      ensures Abs() == old(Abs()).(
                spans := SpanSpec.CloseSpan(old(Abs()).spans, CtxOf(old(Abs()), key), id, end, ok, reason))
    {
      builder.CloseSpan(RootCtxOf(key), id, end, ok, reason);
      Called();
    }

    method SyntheticSpan(key: MediaKey, name: string, start: Time, end: Time)
      requires Valid()
      modifies Repr()
      ensures Valid() && store.Table() == old(store.Table())
      ensures Abs() == EmitUnder(old(Abs()), key, name, start, end)
    {
      builder.SyntheticSpan(RootCtxOf(key), name, start, end, None, "");
      Called();
    }

    /** The root of a resumed trace, rebuilt from its record. */
    method SyntheticRoot(state: TraceState, end: Time, error: string)
      requires Valid()
      modifies Repr()
      ensures Valid() && store.Table() == old(store.Table())
      ensures Abs() == old(Abs()).(
                spans := SpanSpec.SyntheticSpan(old(Abs()).spans, NoCtx, SPAN_REQUEST, state.openedAt,
                                                end, Some(state.traceID), error))
    {
      builder.SyntheticSpan(NoCtx, SPAN_REQUEST, state.openedAt, end, Some(state.traceID), error);
      Called();
    }

    method AddSpanEvent(key: MediaKey, id: ID, name: string, when: Time)
      requires Valid()
      modifies Repr()
      ensures Valid() && store.Table() == old(store.Table())
      ensures Abs() == AnnotateUnder(old(Abs()), key, id, name, when)
    {
      builder.AddSpanEvent(RootCtxOf(key), id, name, when);
      Called();
    }

    method OpenChild(key: MediaKey, name: string, start: Time) returns (sid: ID)
      requires Valid()
      modifies Repr()
      ensures Valid() && store.Table() == old(store.Table()) && sid == old(Abs()).spans.next
      ensures Abs() == old(Abs()).(spans := SpanSpec.OpenChild(old(Abs()).spans, CtxOf(old(Abs()), key), name, start))
    {
      sid := builder.OpenChild(RootCtxOf(key), name, start);
      Called();
    }

    // ---------- in-place changes of a record ----------

    method ClearDownload(state: TraceState, key: MediaKey)
      requires Valid() && Holds(key, state)
      modifies Repr()
      ensures Valid() && store.Table() == old(store.Table())
      ensures Abs() == Amend(old(Abs()), key, old(state.Snap()).(hasDownload := false))
    {
      state.hasDownload := false;
      Amended(state);
    }

    method ClearGrab(state: TraceState, key: MediaKey)
      requires Valid() && Holds(key, state)
      modifies Repr()
      ensures Valid() && store.Table() == old(store.Table())
      ensures Abs() == Amend(old(Abs()), key, old(state.Snap()).(hasGrab := false))
    {
      state.hasGrab := false;
      Amended(state);
    }

    method SetGrab(state: TraceState, key: MediaKey, sid: ID, at: Time, downloadID: string)
      requires Valid() && Holds(key, state)
      modifies Repr()
      ensures Valid() && store.Table() == old(store.Table())
      ensures Abs() == Amend(old(Abs()), key, old(state.Snap()).(
                             grabSpanID := sid, hasGrab := true, updatedAt := at,
                             downloadID := if downloadID != "" then downloadID else old(state.downloadID)))
    {
      state.grabSpanID := sid;
      state.hasGrab := true;
      state.updatedAt := at;
      if downloadID != "" {
        state.downloadID := downloadID;
      }
      Amended(state);
    }

    method SetDownload(state: TraceState, key: MediaKey, sid: ID, at: Time)
      requires Valid() && Holds(key, state)
      modifies Repr()
      ensures Valid() && store.Table() == old(store.Table())
      ensures Abs() == Amend(old(Abs()), key, old(state.Snap()).(
                             downloadSpanID := sid, hasDownload := true, downloadStartedAt := at, updatedAt := at))
    {
      state.downloadSpanID := sid;
      state.hasDownload := true;
      state.downloadStartedAt := at;
      state.updatedAt := at;
      Amended(state);
    }

    method SetUpdated(state: TraceState, key: MediaKey, at: Time)
      requires Valid() && Holds(key, state)
      modifies Repr()
      ensures Valid() && store.Table() == old(store.Table())
      ensures Abs() == Amend(old(Abs()), key, old(state.Snap()).(updatedAt := at))
    {
      state.updatedAt := at;
      Amended(state);
    }

    method SetSearch(state: TraceState, key: MediaKey, at: Time)
      requires Valid() && Holds(key, state)
      modifies Repr()
      ensures Valid() && store.Table() == old(store.Table())
      ensures Abs() == Amend(old(Abs()), key, old(state.Snap()).(searchStart := at, updatedAt := at))
    {
      state.searchStart := at;
      state.updatedAt := at;
      Amended(state);
    }

    method SetError(state: TraceState, key: MediaKey, error: string, at: Time)
      requires Valid() && Holds(key, state)
      modifies Repr()
      ensures Valid() && store.Table() == old(store.Table())
      ensures Abs() == Amend(old(Abs()), key, old(state.Snap()).(lastError := error, updatedAt := at))
    {
      state.lastError := error;
      state.updatedAt := at;
      Amended(state);
    }

    // ---------- children and roots ----------

    method CloseOpenDownload(state: TraceState, key: MediaKey, at: Time, ok: bool, reason: string)
      requires Valid() && Holds(key, state)
      modifies Repr()
      ensures Valid() && store.Table() == old(store.Table())
      ensures old(key in Abs().store.traces) && Abs() == EndOpenDownload(old(Abs()), key, at, ok, reason)
    {
      Held(key, state);
      if state.hasDownload {
        CloseSpan(key, state.downloadSpanID, at, ok, reason);
        Held(key, state);
        ClearDownload(state, key);
      }
    }

    method CloseOpenGrab(state: TraceState, key: MediaKey, at: Time, ok: bool, reason: string)
      requires Valid() && Holds(key, state)
      modifies Repr()
      ensures Valid() && store.Table() == old(store.Table())
      ensures old(key in Abs().store.traces) && Abs() == EndOpenGrab(old(Abs()), key, at, ok, reason)
    {
      Held(key, state);
      if state.hasGrab {
        CloseSpan(key, state.grabSpanID, at, ok, reason);
        Held(key, state);
        ClearGrab(state, key);
      }
    }

    method CloseChildren(state: TraceState, key: MediaKey, at: Time, ok: bool, reason: string)
      requires Valid() && Holds(key, state)
      modifies Repr()
      ensures Valid() && store.Table() == old(store.Table())
      ensures old(key in Abs().store.traces) && Abs() == EndChildren(old(Abs()), key, at, ok, reason)
    {
      CloseOpenDownload(state, key, at, ok, reason);
      CloseOpenGrab(state, key, at, ok, reason);
    }

    /** End the live root span, or rebuild the one lost with an earlier process. */
    method CompleteRoot(state: TraceState, key: MediaKey, at: Time, ok: bool, reason: string)
      requires Valid() && Holds(key, state)
      modifies Repr()
      ensures Valid() && store.Table() == old(store.Table())
      ensures old(key in Abs().store.traces) && Abs() == EngineSpec.CompleteRoot(old(Abs()), key, at, ok, reason)
    {
      Held(key, state);
      if state.resumed {
        var error := "";
        if !ok && reason != "" {
          error := reason;
        }
        SyntheticRoot(state, at, error);
      } else {
        CloseSpan(key, 0, at, ok, reason);
      }
    }

    /** Complete the root, then drop the live trace and remember how it ended. */
    method CloseTrace(state: TraceState, key: MediaKey, at: Time, ok: bool, reason: string, outcome: Outcome)
      requires Valid() && Holds(key, state)
      modifies Repr()
      ensures Valid() && store.Table() == old(store.Table()) - {key} && state.Snap() == old(state.Snap())
      ensures old(key in Abs().store.traces) && Abs() == EngineSpec.CloseTrace(old(Abs()), key, at, ok, reason, outcome)
    {
      Held(key, state);
      CompleteRoot(state, key, at, ok, reason);
      Held(key, state);
      Retire(state, key, outcome, at);
    }

    method OpenRoot(ev: Event, attempt: int, link: Option<ID>, reason: string) returns (tid: ID, sid: ID)
      requires Valid()
      modifies Repr()
      ensures Valid() && store.Table() == old(store.Table()) && tid == sid == old(Abs()).spans.next
      ensures Abs() == old(Abs()).(
                spans := SpanSpec.OpenRoot(old(Abs()).spans, ev.key, ev.occurredAt, attempt, link, reason),
                ctx := old(ctxByKey)[ev.key := LiveCtx(tid, sid)])
    {
      var rootCtx;
      rootCtx, tid, sid := builder.OpenRoot(ev.key, ev.occurredAt, attempt, link, reason);
      ctxByKey := ctxByKey[ev.key := rootCtx];
      Called();
    }

    method PutNew(t: Trace) returns (state: TraceState)
      requires Valid()
      modifies Repr()
      ensures Valid() && fresh(state) && state.Snap() == t && store.Table() == old(store.Table())[t.key := state]
      ensures Abs() == old(Abs()).(store := StoreSpec.Put(old(Abs()).store, t))
    {
      state := new TraceState(t);
      Called();
      store.Put(state);
    }

    method OpenTrace(ev: Event, attempt: int, link: Option<ID>, reason: string, requestID: string, requestedBy: string)
      returns (state: TraceState)
      requires Valid()
      modifies Repr()
      ensures Valid() && fresh(state) && store.Table() == old(store.Table())[ev.key := state]
      ensures Abs() == EngineSpec.OpenTrace(old(Abs()), ev, attempt, link, reason, requestID, requestedBy)
    {
      var tid, sid := OpenRoot(ev, attempt, link, reason);
      state := PutNew(Trace(ev.key, tid, sid, attempt, ev.source, ev.occurredAt, ev.occurredAt, 0, false, 0, false,
                            ev.occurredAt, ZERO_TIME, "", "", ev.title, requestID, requestedBy, false));
    }

    // ---------- timing and gauges ----------

    method StartTiming(ev: Event)
      requires Valid()
      modifies Repr()
      ensures Valid() && store.Table() == old(store.Table())
      ensures Abs() == old(Abs()).(timing := old(timing)[ev.key := NewTiming(ev)],
                                   gauges := old(gauges).(request := old(gauges).request + 1))
    {
      timing := timing[ev.key := Timing(ev.occurredAt, ZERO_TIME, ZERO_TIME, ZERO_TIME, ZERO_TIME, "", "", "",
                                        ev.key.mediaType, ev.source)];
      gauges := gauges.(request := gauges.request + 1);
      Called();
    }

    method ApproveTiming(key: MediaKey, at: Time)
      requires Valid()
      modifies Repr()
      ensures Valid() && store.Table() == old(store.Table())
      ensures Abs() == if key in old(timing) then
                old(Abs()).(timing := old(timing)[key := old(timing)[key].(approvedAt := at)])
                       else old(Abs())
    {
      if key in timing {
        timing := timing[key := timing[key].(approvedAt := at)];
      }
      Called();
    }

    method TimeGrab(key: MediaKey, ev: Event)
      requires Valid()
      modifies Repr()
      ensures Valid() && store.Table() == old(store.Table()) && Abs() == EngineSpec.TimeGrab(old(Abs()), key, ev)
    {
      if key in timing {
        timing := timing[key := timing[key].(grabbedAt := ev.occurredAt, indexer := ev.release.indexer,
                                             downloadClient := ev.release.downloadClient,
                                             protocol := ev.release.protocol)];
        gauges := gauges.(grab := gauges.grab + 1);
      }
      Called();
    }

    method TimeDownloadStart(key: MediaKey, at: Time)
      requires Valid()
      modifies Repr()
      ensures Valid() && store.Table() == old(store.Table())
      ensures Abs() == if key !in old(timing) then old(Abs())
                       else old(Abs()).(timing := old(timing)[key := old(timing)[key].(downloadStartedAt := at)],
                                        gauges := old(gauges).(download := old(gauges).download + 1))
    {
      if key in timing {
        timing := timing[key := timing[key].(downloadStartedAt := at)];
        gauges := gauges.(download := gauges.download + 1);
      }
      Called();
    }

    method TimeDownloadEnd(key: MediaKey, at: Time)
      requires Valid()
      modifies Repr()
      ensures Valid() && store.Table() == old(store.Table()) && Abs() == EngineSpec.TimeDownloadEnd(old(Abs()), key, at)
    {
      if key in timing {
        timing := timing[key := timing[key].(downloadEndedAt := at)];
        if timing[key].downloadStartedAt != ZERO_TIME {
          gauges := gauges.(download := gauges.download - 1);
        }
      }
      Called();
    }

    method Settle(key: MediaKey, hasGrab: bool)
      requires Valid()
      modifies Repr()
      ensures Valid() && store.Table() == old(store.Table()) && Abs() == EngineSpec.Settle(old(Abs()), key, hasGrab)
    {
      if key in timing {
        gauges := gauges.(request := gauges.request - 1);
        if hasGrab {
          gauges := gauges.(grab := gauges.grab - 1);
        }
        timing := timing - {key};
      }
      Called();
    }

    // ---------- parked download starts ----------

    /** Park a start whose grab has not been seen, and collect the expired ones. */
    method Park(ev: Event)
      requires Valid()
      modifies Repr()
      ensures Valid() && store.Table() == old(store.Table()) && Abs() == EngineSpec.Park(old(Abs()), ev)
    {
      var cutoff := ev.occurredAt - pendingDLTTL;
      var ids := pendingDL.Keys;
      while ids != {}
        modifies this`pendingDL
        invariant ids <= old(pendingDL.Keys)
        invariant pendingDL == map id | id in old(pendingDL) && (id in ids || old(pendingDL)[id].addedAt >= cutoff) ::
                                 old(pendingDL)[id]
      {
        var id :| id in ids;
        if pendingDL[id].addedAt < cutoff {
          pendingDL := pendingDL - {id};
        }
        ids := ids - {id};
      }
      assert pendingDL == EngineSpec.Unexpired(old(pendingDL), cutoff);
      pendingDL := pendingDL[ev.release.downloadID := Parked(ev, ev.occurredAt)];
      Called();
    }

    method Unpark(id: string)
      requires Valid()
      modifies Repr()
      ensures Valid() && store.Table() == old(store.Table()) && Abs() == old(Abs()).(pending := old(pendingDL) - {id})
    {
      pendingDL := pendingDL - {id};
      Called();
    }

    // ---------- handlers ----------

    method OnRequestOpened(ev: Event)
      requires Valid()
      modifies Repr()
      ensures Valid() && fresh(Repr() - old(Repr())) && Abs() == EngineSpec.OnRequestOpened(old(Abs()), ev)
    {
      var live, _ := ResolveTrace(ev.key);
      if live != null {
        return;
      }
      var attempt, link, reason := LinkToPrior(ev);
      var state := OpenTrace(ev, attempt, link, reason, ev.requestID, ev.requestedBy);
      StartTiming(ev);
    }

    /** The attempt number and the link of a requested trace; the reason comes from a second recall. */
    method LinkToPrior(ev: Event) returns (attempt: int, link: Option<ID>, reason: string)
      requires Valid()
      modifies Repr()
      ensures Valid() && store.Table() == old(store.Table()) && Abs() == Recall(old(Abs()), ev.key, ev.occurredAt)
      ensures var prior := Recalled(old(Abs()).store, ev.key, ev.occurredAt);
              attempt == AttemptAfter(prior) && link == LinkTo(prior) && reason == RequestReason(prior)
      ensures var prior := Recalled(old(Abs()).store, ev.key, ev.occurredAt);
              reason == match prior
                        case None => ""
                        case Some(c) => if c.outcome == Failed || c.outcome == Timeout then "failed_retry"
                                        else if c.outcome == Available then "quality_upgrade" else "manual"
    {
      attempt, link, reason := 1, None, "";
      var prior := RecallClosed(ev.key, ev.occurredAt);
      if prior.Some? {
        attempt := prior.value.attempt + 1;
        link := Some(prior.value.traceID);
        var outcome := MustRecallOutcome(ev.key, ev.occurredAt);
        reason := UpgradeReasonForOutcome(outcome);
      }
    }

    /** A second recall right after one that found a record finds it again. */
    method MustRecallOutcome(k: MediaKey, now: Time) returns (outcome: Outcome)
      requires Valid()
      modifies Repr()
      ensures Valid() && store.Table() == old(store.Table()) && Abs() == Recall(old(Abs()), k, now)
      ensures var prior := Recalled(old(Abs()).store, k, now);
              outcome == if prior.Some? then prior.value.outcome else Failed
    {
      var c := RecallClosed(k, now);
      if c.Some? {
        return c.value.outcome;
      }
      return Failed;
    }

    method OnRequestApproved(ev: Event)
      requires Valid()
      modifies Repr()
      ensures Valid() && fresh(Repr() - old(Repr())) && Abs() == EngineSpec.OnRequestApproved(old(Abs()), ev)
    {
      var state, key := ResolveTrace(ev.key);
      if state == null {
        return;
      }
      Held(key, state);
      SetSearch(state, key, ev.occurredAt);
      Put(state, key);
      ApproveTiming(key, ev.occurredAt);
      AddSpanEvent(key, 0, "request.approved", ev.occurredAt);
    }

    method OnRequestClosed(ev: Event)
      requires Valid()
      modifies Repr()
      ensures Valid() && fresh(Repr() - old(Repr())) && Abs() == EngineSpec.OnRequestClosed(old(Abs()), ev)
    {
      var state, key := ResolveTrace(ev.key);
      if state == null {
        return;
      }
      CloseChildren(state, key, ev.occurredAt, true, "");
      Held(key, state);
      CloseTrace(state, key, ev.occurredAt, ev.outcome == Available, ev.errorReason, ev.outcome);
      Settle(key, state.hasGrab);
    }

    /** The trace of a grab that nothing was requested for. */
    method OpenOrphanRoot(ev: Event) returns (state: TraceState)
      requires Valid()
      modifies Repr()
      ensures Valid() && fresh(state) && store.Table() == old(store.Table())[ev.key := state]
      ensures Abs() == EngineSpec.OpenOrphanRoot(old(Abs()), ev)
    {
      hide EngineSpec.OpenTrace;
      var attempt, link, reason := 1, None, "";
      var prior := RecallClosed(ev.key, ev.occurredAt);
      if prior.Some? {
        attempt := prior.value.attempt + 1;
        if ev.release.isUpgrade {
          reason := UPGRADE_QUALITY;
        } else if prior.value.outcome == Failed || prior.value.outcome == Timeout {
          reason := UPGRADE_RETRY;
        } else {
          reason := UPGRADE_MANUAL;
        }
        link := Some(prior.value.traceID);
      } else if ev.release.isUpgrade {
        reason := UPGRADE_QUALITY;
      }
      state := OpenTrace(ev, attempt, link, reason, "", "");
    }

    method OnGrabbed(ev: Event)
      requires Valid()
      modifies Repr()
      ensures Valid() && fresh(Repr() - old(Repr())) && Abs() == EngineSpec.OnGrabbed(old(Abs()), ev)
    {
      hide Grab, EngineSpec.HandleDownloadStart, EngineSpec.OpenOrphanRoot;
      var found, key := ResolveTrace(ev.key);
      var state: TraceState;
      if found == null {
        state := OpenOrphanRoot(ev);
        key := ev.key;
      } else {
        state := found;
      }
      GrabOn(state, key, ev);
      var id := ev.release.downloadID;
      if id in pendingDL && id != "" {
        var start := pendingDL[id].event;
        Unpark(id);
        HandleDownloadStart(state, key, start);
      }
    }

    method GrabOn(state: TraceState, key: MediaKey, ev: Event)
      requires Valid() && Holds(key, state)
      modifies Repr()
      ensures Valid() && store.Table() == old(store.Table())
      ensures old(key in Abs().store.traces) && Abs() == Grab(old(Abs()), key, ev)
    {
      hide Save, EndOpenGrab, EngineSpec.TimeGrab;
      Held(key, state);
      if state.searchStart != ZERO_TIME && state.searchStart < ev.occurredAt {
        SyntheticSpan(key, SPAN_SEARCH, state.searchStart, ev.occurredAt);
      }
      CloseOpenGrab(state, key, ev.occurredAt, false, ERR_SUPERSEDED);
      Held(key, state);
      var spanName := SPAN_SONARR_GRAB;
      if ev.source == SOURCE_RADARR {
        spanName := SPAN_RADARR_GRAB;
      }
      var sid := OpenChild(key, spanName, ev.occurredAt);
      Held(key, state);
      SetGrab(state, key, sid, ev.occurredAt, ev.release.downloadID);
      Put(state, key);
      TimeGrab(key, ev);
    }

    method OnDownloadStart(ev: Event)
      requires Valid()
      modifies Repr()
      ensures Valid() && fresh(Repr() - old(Repr())) && Abs() == EngineSpec.OnDownloadStart(old(Abs()), ev)
    {
      var state := TraceOfDownload(ev.release.downloadID);
      if state == null {
        Park(ev);
        return;
      }
      HandleDownloadStart(state, state.key, ev);
    }

    method HandleDownloadStart(state: TraceState, key: MediaKey, ev: Event)
      requires Valid() && Holds(key, state)
      modifies Repr()
      ensures Valid() && store.Table() == old(store.Table())
      ensures old(key in Abs().store.traces) && Abs() == EngineSpec.HandleDownloadStart(old(Abs()), key, ev)
    {
      Held(key, state);
      if state.hasDownload {
        return;
      }
      var sid := OpenChild(key, SPAN_DOWNLOAD, ev.occurredAt);
      Held(key, state);
      SetDownload(state, key, sid, ev.occurredAt);
      Put(state, key);
      TimeDownloadStart(key, ev.occurredAt);
    }

    method OnDownloadDone(ev: Event)
      requires Valid()
      modifies Repr()
      ensures Valid() && fresh(Repr() - old(Repr())) && Abs() == EngineSpec.OnDownloadDone(old(Abs()), ev)
    {
      var state := TraceOfDownload(ev.release.downloadID);
      if state == null {
        return;
      }
      var key := state.key;
      Held(key, state);
      if state.hasDownload {
        CloseSpan(key, state.downloadSpanID, ev.occurredAt, ev.errorReason == "", ev.errorReason);
        Held(key, state);
        ClearDownload(state, key);
      } else {
        SyntheticSpan(key, SPAN_DOWNLOAD, ev.occurredAt, ev.occurredAt);
      }
      Held(key, state);
      SetUpdated(state, key, ev.occurredAt);
      Put(state, key);
      TimeDownloadEnd(key, ev.occurredAt);
    }

    method ImportOn(state: TraceState, key: MediaKey, ev: Event)
      requires Valid() && Holds(key, state)
      modifies Repr()
      ensures Valid() && store.Table() == old(store.Table())
      ensures old(key in Abs().store.traces) && Abs() == Import(old(Abs()), key, ev)
    {
      CloseOpenDownload(state, key, ev.occurredAt, true, "");
      Held(key, state);
      var spanName := SPAN_SONARR_IMPORT;
      if ev.source == SOURCE_RADARR {
        spanName := SPAN_RADARR_IMPORT;
      }
      var start := state.updatedAt;
      if !(start < ev.occurredAt) {
        start := ev.occurredAt;
      }
      SyntheticSpan(key, spanName, start, ev.occurredAt);
      CloseOpenGrab(state, key, ev.occurredAt, true, "");
      Held(key, state);
      SetUpdated(state, key, ev.occurredAt);
      Put(state, key);
    }

    method OnImported(ev: Event)
      requires Valid()
      modifies Repr()
      ensures Valid() && fresh(Repr() - old(Repr())) && Abs() == EngineSpec.OnImported(old(Abs()), ev)
    {
      var state, key := ResolveTrace(ev.key);
      if state == null {
        return;
      }
      ImportOn(state, key, ev);
      Held(key, state);
      if state.source == SOURCE_SONARR || state.source == SOURCE_RADARR {
        CloseTrace(state, key, ev.occurredAt, true, "", Available);
        Settle(key, state.hasGrab);
      }
    }

    method OnManualNeeded(ev: Event)
      requires Valid()
      modifies Repr()
      ensures Valid() && fresh(Repr() - old(Repr())) && Abs() == EngineSpec.OnManualNeeded(old(Abs()), ev)
    {
      var state, key := ResolveTrace(ev.key);
      if state == null {
        return;
      }
      Note(state, key, "manual_interaction_required", ERR_MANUAL, ev.occurredAt);
    }

    /** An event on the open grab, else on the root, and the error on the record. */
    method Note(state: TraceState, key: MediaKey, name: string, error: string, when: Time)
      requires Valid() && Holds(key, state)
      modifies Repr()
      ensures Valid() && store.Table() == old(store.Table())
      ensures old(key in Abs().store.traces)
      ensures var s := old(Abs()); var t := s.store.traces[key];
              Abs() == Save(Amend(AnnotateUnder(s, key, NoticeTarget(t), name, when), key,
                                  t.(lastError := error, updatedAt := when)), key)
    {
      Held(key, state);
      var target := state.grabSpanID;
      if !state.hasGrab {
        target := 0;
      }
      AddSpanEvent(key, target, name, when);
      Held(key, state);
      SetError(state, key, error, when);
      Put(state, key);
    }

    /** A stalled queue item, from the queue poller. */
    method NoteQueueIssue(id: string, status: string, when: Time)
      requires Valid()
      modifies Repr()
      ensures Valid() && fresh(Repr() - old(Repr())) && Abs() == Step(old(Abs()), QueueIssue(id, status, when))
    {
      var state := TraceOfDownload(id);
      if state == null {
        return;
      }
      Note(state, state.key, "queue.stalled", "arr.queue_" + status, when);
    }

    method Handle(ev: Event)
      requires Valid()
      modifies Repr()
      ensures Valid() && fresh(Repr() - old(Repr())) && Abs() == EngineSpec.Handle(old(Abs()), ev)
    {
      match ev.phase
      case RequestOpened => OnRequestOpened(ev);
      case RequestApproved => OnRequestApproved(ev);
      case RequestClosed => OnRequestClosed(ev);
      case Grabbed => OnGrabbed(ev);
      case DownloadStart => OnDownloadStart(ev);
      case DownloadDone => OnDownloadDone(ev);
      case Imported => OnImported(ev);
      case ManualNeeded => OnManualNeeded(ev);
      case OtherPhase(_) =>
    }

    /** One event. A duplicate is dropped. */
    method Process(ev: Event)
      requires Valid()
      modifies Repr()
      ensures Valid() && fresh(Repr() - old(Repr())) && Abs() == Step(old(Abs()), Deliver(ev))
    {
      var first := SeenEvent(ev);
      if !first {
        return;
      }
      Handle(ev);
    }

    // ---------- sweep ----------

    /** The flags of a record about to be dropped are left as they are. */
    method SweepOn(state: TraceState, key: MediaKey, now: Time)
      requires Valid() && Holds(key, state)
      modifies Repr()
      ensures Valid() && store.Table() == old(store.Table()) - {key}
      ensures old(key in Abs().store.traces) && Abs() == SweepOne(old(Abs()), key, now)
    {
      Held(key, state);
      SweepUncleared(Abs(), key, now);
      if state.hasDownload {
        CloseSpan(key, state.downloadSpanID, now, false, ERR_TIMEOUT);
      }
      Held(key, state);
      if state.hasGrab {
        CloseSpan(key, state.grabSpanID, now, false, ERR_TIMEOUT);
      }
      CloseTrace(state, key, now, false, ERR_TIMEOUT, Timeout);
    }

    /** `order` is the order in which the stale keys happened to come. */
    method Sweep(now: Time, ttl: int) returns (ghost order: seq<MediaKey>)
      requires Valid()
      modifies Repr()
      ensures Valid() && fresh(Repr() - old(Repr()))
      ensures Enabled(old(Abs()), SweepAt(now, ttl, order)) && Abs() == Step(old(Abs()), SweepAt(now, ttl, order))
    {
      var keys := Stale(ttl, now);
      order := keys;
      for i := 0 to |keys|
        invariant Valid() && Repr() <= old(Repr())
        invariant Abs() == EngineSpec.Sweep(old(Abs()), keys[..i], now)
      {
        assert keys[..i + 1][..i] == keys[..i];
        var state := Lookup(keys[i]);
        if state != null {
          SweepOn(state, keys[i], now);
        }
      }
      assert keys[..|keys|] == keys;
    }

    // ---------- restore ----------

    method LoadAll() returns (loaded: seq<TraceState>)
      requires Valid()
      modifies Repr()
      ensures Valid() && store.Table() == old(store.Table())
      ensures Abs() == old(Abs()).(store := StoreSpec.LoadAll(old(Abs()).store))
      ensures Entries(store.Table(), loaded) && Lists(KeysOf(loaded), old(Abs()).store.traces.Keys)
    {
      store.ViewTraces();
      loaded := store.LoadAll();
    }

    method RestoreOn(ts: TraceState, key: MediaKey)
      requires Valid() && Holds(key, ts)
      modifies Repr()
      ensures Valid() && store.Table() == old(store.Table())
      ensures old(key in Abs().store.traces) && Abs() == RestoreOne(old(Abs()), key)
    {
      Held(key, ts);
      SetRemote(ts, key);
      Held(key, ts);
      ClearChildren(ts, key);
      Put(ts, key);
    }

    method ClearChildren(state: TraceState, key: MediaKey)
      requires Valid() && Holds(key, state)
      modifies Repr()
      ensures Valid() && store.Table() == old(store.Table())
      ensures Abs() == Amend(old(Abs()), key, old(state.Snap()).(hasGrab := false, hasDownload := false))
    {
      state.hasGrab := false;
      state.hasDownload := false;
      Amended(state);
    }

    method SetRemote(ts: TraceState, key: MediaKey)
      requires Valid()
      modifies Repr()
      ensures Valid() && store.Table() == old(store.Table())
      ensures Abs() == old(Abs()).(ctx := old(ctxByKey)[key := RemoteCtx(ts.traceID, ts.rootSpanID)])
    {
      ctxByKey := ctxByKey[key := RemoteCtx(ts.traceID, ts.rootSpanID)];
      Called();
    }

    /** Rehydrate the live traces. `order` is the order in which the records happened to come. */
    method Restore() returns (ghost order: seq<MediaKey>)
      requires Valid()
      modifies Repr()
      ensures Valid() && store.Table() == old(store.Table())
      ensures Lists(order, old(Abs()).store.traces.Keys) && Abs() == EngineSpec.Restore(old(Abs()), order)
    {
      hide StoreSpec.LoadAll, RestoreOne, KeysOf, Engine.Abs;
      var loaded := LoadAll();
      var keys := KeysOf(loaded);
      order := keys;
      ghost var s := Abs();
      for i := 0 to |loaded|
        invariant Valid() && store.Table() == old(store.Table())
        invariant Abs() == RestoreKeys(s, keys[..i])
      {
        assert keys[..i + 1][..i] == keys[..i];
        Held(keys[i], loaded[i]);
        RestoreOn(loaded[i], keys[i]);
      }
      assert keys[..|loaded|] == keys;
    }
  }

  /** Dropping a trace does not look at its child flags. */
  lemma FlagsIgnored(s: State, k: MediaKey, u: Trace, now: Time)
    requires k in s.store.traces && u == s.store.traces[k].(hasGrab := u.hasGrab, hasDownload := u.hasDownload)
    ensures EngineSpec.CloseTrace(Amend(s, k, u), k, now, false, ERR_TIMEOUT, Timeout)
            == EngineSpec.CloseTrace(s, k, now, false, ERR_TIMEOUT, Timeout)
  {
    hide StoreSpec.RememberClosed;
    assert StoreSpec.Delete(Amend(s, k, u).store, k) == StoreSpec.Delete(s.store, k) by {
      assert s.store.traces[k := u] - {k} == s.store.traces - {k};
    }
  }

  /** A swept trace may as well keep its flags until it is dropped. */
  lemma SweepUncleared(s: State, k: MediaKey, now: Time)
    requires k in s.store.traces
    ensures var t := s.store.traces[k];
            var b := if t.hasDownload then
                     SpanSpec.CloseSpan(s.spans, CtxOf(s, k), t.downloadSpanID, now, false, ERR_TIMEOUT)
                     else s.spans;
            var b' := if t.hasGrab then SpanSpec.CloseSpan(b, CtxOf(s, k), t.grabSpanID, now, false, ERR_TIMEOUT)
                      else b;
            SweepOne(s, k, now) == EngineSpec.CloseTrace(s.(spans := b'), k, now, false, ERR_TIMEOUT, Timeout)
  {
    hide EngineSpec.CloseTrace;
    var t := s.store.traces[k];
    var u := t.(hasGrab := false, hasDownload := false);
    var s1 := EndChildren(s, k, now, false, ERR_TIMEOUT);
    var s2 := s.(spans := s1.spans);
    assert s1 == Amend(s2, k, u) by { ChildrenAmended(s, k, now); }
    FlagsIgnored(s2, k, u, now);
  }

  lemma DownloadAmended(s: State, k: MediaKey, now: Time)
    requires k in s.store.traces
    ensures var s1 := EndOpenDownload(s, k, now, false, ERR_TIMEOUT);
            s1 == Amend(s, k, s.store.traces[k].(hasDownload := false)).(spans := s1.spans)
  {
    var t := s.store.traces[k];
    assert !t.hasDownload ==> s.store.traces[k := t.(hasDownload := false)] == s.store.traces;
  }

  lemma GrabAmended(s: State, k: MediaKey, now: Time)
    requires k in s.store.traces
    ensures var s1 := EndOpenGrab(s, k, now, false, ERR_TIMEOUT);
            s1 == Amend(s, k, s.store.traces[k].(hasGrab := false)).(spans := s1.spans)
  {
    var t := s.store.traces[k];
    assert !t.hasGrab ==> s.store.traces[k := t.(hasGrab := false)] == s.store.traces;
  }

  lemma ChildrenAmended(s: State, k: MediaKey, now: Time)
    requires k in s.store.traces
    ensures var s1 := EndChildren(s, k, now, false, ERR_TIMEOUT);
            s1 == Amend(s, k, s.store.traces[k].(hasGrab := false, hasDownload := false)).(spans := s1.spans)
  {
    hide EndOpenDownload, EndOpenGrab;
    DownloadAmended(s, k, now);
    GrabAmended(EndOpenDownload(s, k, now, false, ERR_TIMEOUT), k, now);
    assert s.store.traces[k := s.store.traces[k].(hasDownload := false)]
                          [k := s.store.traces[k].(hasGrab := false, hasDownload := false)]
           == s.store.traces[k := s.store.traces[k].(hasGrab := false, hasDownload := false)];
  }

  // ---------- processes ----------

  /** A first process: an empty store, a new tracer. */
  method Begin(onDisk: bool, dedupTTL: nat, recallTTL: nat, pendingDLTTL: nat) returns (e: Engine)
    ensures e.Valid() && Initial(e.Abs()) && fresh(e.Repr()) && e.store.Bolt? == onDisk
    ensures e.Abs().store == EmptyStore(if onDisk then OnDisk else InMemory, dedupTTL, recallTTL)
  {
    var tracer := new Tracer();
    var builder := new OTelBuilder(tracer);
    if onDisk {
      var db := new BoltFile();
      var b := new BoltStore(db, dedupTTL, recallTTL);
      EmptyOpens(dedupTTL, recallTTL, b.View());
      e := new Engine(Bolt(b), builder, pendingDLTTL);
    } else {
      var m := new MemoryStore(dedupTTL, recallTTL);
      e := new Engine(Memory(m), builder, pendingDLTTL);
    }
  }

  lemma EmptyOpens(dedupTTL: nat, recallTTL: nat, st: StoreState)
    requires Opens(EMPTY_DISK, dedupTTL, recallTTL, st)
    ensures st == EmptyStore(OnDisk, dedupTTL, recallTTL)
  {
    assert st.traces == map[];
    assert st.closed == map[];
  }

  /** The process dies between two engine calls and a new one opens the same file. */
  method Reopen(e: Engine) returns (e': Engine, ghost reopened: StoreState, ghost order: seq<MediaKey>)
    requires e.Valid() && e.store.Bolt?
    modifies e.store.bolt.db, e.builder.tracer
    ensures e'.Valid() && e'.store.Bolt? && fresh(e'.Repr() - {e.store.bolt.db, e.builder.tracer})
    ensures Enabled(old(e.Abs()), Restart(reopened, order)) && e'.Abs() == Step(old(e.Abs()), Restart(reopened, order))
  {
    var bolt := e.store.bolt;
    var b := new BoltStore(bolt.db, bolt.dedupTTL, bolt.recallTTL);
    reopened := b.View();
    label Opened:
    var builder := new OTelBuilder.TakeOver(e.builder);
    Bolt(b).Framed@Opened();
    e' := new Engine(Bolt(b), builder, e.pendingDLTTL);
    order := e'.Restore();
  }
}
