/**
 * Seen from the store, every engine call is a short sequence of four kinds of change. What holds
 * of a store through each kind holds through every call.
 */
module StoreChanges {
  import opened Types
  import opened StoreSpec
  import opened SpanSpec
  import opened EngineSpec

  /** A trace is opened, updated in place and saved, given a download ID by a grab, or dropped with a
      record of how it ended. */
  datatype Change =
    | Opened(t: Trace, now: Time)
    | Updated(t: Trace)
    | Regrabbed(t: Trace)
    | Dropped(k: MediaKey, c: ClosedTrace)

  function Apply(st: StoreState, c: Change): StoreState {
    match c
    case Opened(t, now) => Put(RecallClosed(st, t.key, now), t)
    case Updated(t) => Put(st, t)
    case Regrabbed(t) => Put(st, t)
    case Dropped(k, closed) => RememberClosed(Delete(st, k), k, closed)
  }

  lemma PutTraces(st: StoreState, t: Trace)
    ensures Put(st, t).traces == st.traces[t.key := t] && Put(st, t).closed == st.closed
  {
  }

  lemma DeleteTraces(st: StoreState, k: MediaKey)
    ensures Delete(st, k).traces == st.traces - {k}
  {
  }

  /** Deleting a trace touches traces and index only. */
  lemma DeleteKeeps(st: StoreState, k: MediaKey)
    ensures var r := Delete(st, k);
            && r.kind == st.kind && r.dedupTTL == st.dedupTTL && r.recallTTL == st.recallTTL
            && r.dedup == st.dedup && r.closed == st.closed && r.disk.dedup == st.disk.dedup
            && r.disk.closed == st.disk.closed
            && r.dlIndex == if k in st.traces then Unindexed(st.dlIndex, st.traces[k].downloadID) else st.dlIndex
  {
  }

  /** The closed table after remembering depends on the closed table alone. */
  lemma RememberSame(st: StoreState, st': StoreState, k: MediaKey, c: ClosedTrace)
    requires st'.kind == st.kind && st'.recallTTL == st.recallTTL && st'.closed == st.closed
    ensures RememberClosed(st', k, c).closed == RememberClosed(st, k, c).closed
  {
  }

  /** Remembering a closed trace leaves everything else in memory. */
  lemma RememberKeeps(st: StoreState, k: MediaKey, c: ClosedTrace)
    ensures var r := RememberClosed(st, k, c);
            && r.kind == st.kind && r.dedupTTL == st.dedupTTL && r.recallTTL == st.recallTTL
            && r.traces == st.traces && r.dlIndex == st.dlIndex
            && r.dedup == st.dedup && r.disk.dedup == st.disk.dedup
  {
  }

  /** Seeing an event leaves all but the dedup memory. */
  lemma SeenKeeps(st: StoreState, ev: Event)
    ensures var r := SeenEvent(st, ev.source, ev.eventID, ev.occurredAt);
            && r.kind == st.kind && r.dedupTTL == st.dedupTTL && r.recallTTL == st.recallTTL
            && r.traces == st.traces && r.dlIndex == st.dlIndex && r.closed == st.closed
  {
    hide Accepts, Fresh, DedupKey, WholeSecond;
  }

  /** `u` is a later record of the same attempt as `t`. */
  predicate Continues(t: Trace, u: Trace) {
    && u.key == t.key && u.traceID == t.traceID && u.rootSpanID == t.rootSpanID
    && u.attempt == t.attempt && u.source == t.source && u.openedAt == t.openedAt
    && u.title == t.title && u.requestID == t.requestID && u.requestedBy == t.requestedBy
    && u.resumed == t.resumed
  }

  predicate Allowed(st: StoreState, c: Change) {
    match c
    case Opened(t, now) =>
      && t.key !in st.traces && t.downloadID == "" && !t.resumed
      && t.attempt == AttemptAfter(Recalled(st, t.key, now))
    case Updated(t) =>
      t.key in st.traces && Continues(st.traces[t.key], t) && t.downloadID == st.traces[t.key].downloadID
    case Regrabbed(t) => t.key in st.traces && Continues(st.traces[t.key], t) && t.downloadID != ""
    case Dropped(k, closed) =>
      && k in st.traces
      && closed.traceID == st.traces[k].traceID && closed.attempt == st.traces[k].attempt
  }

  predicate Follows(st: StoreState, cs: seq<Change>, st': StoreState)
    decreases |cs|
  {
    if cs == [] then st' == st
    else Allowed(st, cs[0]) && Follows(Apply(st, cs[0]), cs[1..], st')
  }

  /** The only trace these changes may open is one for `k`. */
  predicate OpensOnly(cs: seq<Change>, k: MediaKey) {
    forall i :: 0 <= i < |cs| && cs[i].Opened? ==> cs[i].t.key == k
  }

  /** These changes open nothing and change no download ID. */
  predicate Calm(cs: seq<Change>) {
    forall i :: 0 <= i < |cs| ==> cs[i].Updated? || cs[i].Dropped?
  }

  /** These changes only update the trace at `k`. */
  predicate UpdatesOnly(cs: seq<Change>, k: MediaKey) {
    forall i :: 0 <= i < |cs| ==> cs[i].Updated? && cs[i].t.key == k
  }

  /** These changes change no download ID. */
  predicate NoRegrab(cs: seq<Change>) {
    forall i :: 0 <= i < |cs| ==> !cs[i].Regrabbed?
  }

  lemma {:induction false} FollowsThen(st: StoreState, cs: seq<Change>, st1: StoreState,
                                    ds: seq<Change>, st2: StoreState)
    requires Follows(st, cs, st1) && Follows(st1, ds, st2)
    ensures Follows(st, cs + ds, st2)
    decreases |cs|
  {
    hide Apply, Allowed;
    if cs == [] {
      assert cs + ds == ds;
    } else {
      FollowsThen(Apply(st, cs[0]), cs[1..], st1, ds, st2);
      assert (cs + ds)[0] == cs[0] && (cs + ds)[1..] == cs[1..] + ds;
    }
  }

  lemma One(st: StoreState, c: Change)
    requires Allowed(st, c)
    ensures Follows(st, [c], Apply(st, c))
  {
    assert Follows(Apply(st, c), [c][1..], Apply(st, c));
  }

  // ---------- what the handlers rest on ----------

  /** Every live trace sits under its own key. */
  ghost predicate Keyed(traces: map<MediaKey, Trace>) {
    forall k :: k in traces ==> traces[k].key == k
  }

  lemma AppliedTraces(st: StoreState, c: Change)
    ensures Apply(st, c).traces == if c.Dropped? then st.traces - {c.k} else st.traces[c.t.key := c.t]
  {
    hide Recalled, Indexed;
  }

  lemma KeyedApply(st: StoreState, c: Change)
    requires Keyed(st.traces)
    ensures Keyed(Apply(st, c).traces)
  {
    hide Apply;
    AppliedTraces(st, c);
  }

  /** `s1` differs from `s` by an unsaved change of the record at `k`. */
  predicate Edited(s: State, k: MediaKey, s1: State) {
    && k in s.store.traces && k in s1.store.traces
    && s1.store == SetTrace(s.store, k, s1.store.traces[k])
    && Continues(s.store.traces[k], s1.store.traces[k])
  }

  lemma SaveEdited(s: State, k: MediaKey, s1: State) returns (cs: seq<Change>)
    requires Keyed(s.store.traces) && Edited(s, k, s1)
    requires s1.store.traces[k].downloadID == s.store.traces[k].downloadID
    ensures Follows(s.store, cs, Save(s1, k).store)
    ensures UpdatesOnly(cs, k)
  {
    var u := s1.store.traces[k];
    assert s1.store.traces[k := u] == s.store.traces[k := u];
    assert Save(s1, k).store == Apply(s.store, Updated(u));
    One(s.store, Updated(u));
    cs := [Updated(u)];
  }

  lemma DropEdited(s: State, k: MediaKey, s1: State, at: Time, ok: bool, reason: string, outcome: Outcome)
    returns (cs: seq<Change>)
    requires Keyed(s.store.traces) && Edited(s, k, s1)
    requires s1.store.traces[k].downloadID == s.store.traces[k].downloadID
    ensures Follows(s.store, cs, CloseTrace(s1, k, at, ok, reason, outcome).store)
    ensures Calm(cs)
  {
    var t := s.store.traces[k];
    var c := Dropped(k, ClosedTrace(t.traceID, t.attempt, outcome, at));
    assert s1.store.traces - {k} == s.store.traces - {k};
    assert Delete(s1.store, k) == Delete(s.store, k);
    One(s.store, c);
    cs := [c];
  }

  lemma DropUnedited(s: State, k: MediaKey, at: Time, ok: bool, reason: string, outcome: Outcome, hadGrab: bool)
    returns (cs: seq<Change>)
    requires Keyed(s.store.traces) && k in s.store.traces
    ensures Follows(s.store, cs, Settle(CloseTrace(s, k, at, ok, reason, outcome), k, hadGrab).store)
    ensures Calm(cs)
  {
    assert s.store.traces[k := s.store.traces[k]] == s.store.traces;
    cs := DropEdited(s, k, s, at, ok, reason, outcome);
  }

  lemma OpenedChange(s: State, ev: Event, reason: string, requestID: string, requestedBy: string)
    returns (cs: seq<Change>)
    requires ev.key !in s.store.traces
    ensures var prior := Recalled(s.store, ev.key, ev.occurredAt);
            Follows(s.store, cs, OpenTrace(Recall(s, ev.key, ev.occurredAt), ev, AttemptAfter(prior), LinkTo(prior),
                                           reason, requestID, requestedBy).store)
    ensures OpensOnly(cs, ev.key) && NoRegrab(cs)
  {
    var id := s.spans.next;
    var prior := Recalled(s.store, ev.key, ev.occurredAt);
    var t := Trace(ev.key, id, id, AttemptAfter(prior), ev.source, ev.occurredAt, ev.occurredAt,
                   0, false, 0, false, ev.occurredAt, ZERO_TIME, "", "",
                   ev.title, requestID, requestedBy, false);
    One(s.store, Opened(t, ev.occurredAt));
    cs := [Opened(t, ev.occurredAt)];
  }

  // ---------- one lemma a handler ----------

  lemma EndDownloadEdits(s: State, k: MediaKey, at: Time, ok: bool, reason: string)
    requires k in s.store.traces
    ensures EndOpenDownload(s, k, at, ok, reason).store
            == SetTrace(s.store, k, s.store.traces[k].(hasDownload := false))
  {
    assert s.store.traces[k := s.store.traces[k]] == s.store.traces;
  }

  lemma EndGrabEdits(s: State, k: MediaKey, at: Time, ok: bool, reason: string)
    requires k in s.store.traces
    ensures EndOpenGrab(s, k, at, ok, reason).store
            == SetTrace(s.store, k, s.store.traces[k].(hasGrab := false))
  {
    assert s.store.traces[k := s.store.traces[k]] == s.store.traces;
  }

  lemma EndChildrenEdits(s: State, k: MediaKey, at: Time, ok: bool, reason: string)
    requires k in s.store.traces
    ensures EndChildren(s, k, at, ok, reason).store
            == SetTrace(s.store, k, s.store.traces[k].(hasGrab := false, hasDownload := false))
  {
    EndDownloadEdits(s, k, at, ok, reason);
    var s1 := EndOpenDownload(s, k, at, ok, reason);
    EndGrabEdits(s1, k, at, ok, reason);
    var u := s.store.traces[k].(hasGrab := false, hasDownload := false);
    assert s1.store.traces[k := u] == s.store.traces[k := u];
  }

  /** The record after a grab, before it is saved. */
  function Regrabbing(s: State, k: MediaKey, ev: Event): State
    requires k in s.store.traces
  {
    BeginGrab(EndOpenGrab(EmitSearch(s, k, ev.occurredAt), k, ev.occurredAt, false, ERR_SUPERSEDED), k,
              GrabSpanName(ev.source), ev.occurredAt, ev.release.downloadID)
  }

  lemma SearchKeeps(s: State, k: MediaKey, at: Time)
    requires k in s.store.traces
    ensures EmitSearch(s, k, at) == s.(spans := EmitSearch(s, k, at).spans)
  {
  }

  lemma GrabLive(s: State, k: MediaKey, ev: Event)
    requires k in s.store.traces
    ensures k in Grab(s, k, ev).store.traces
  {
  }

  lemma GrabEdits(s: State, k: MediaKey, ev: Event)
    requires Keyed(s.store.traces) && k in s.store.traces
    ensures var s3 := Regrabbing(s, k, ev);
            && Edited(s, k, s3)
            && s3.store.traces[k].downloadID
               == (if ev.release.downloadID != "" then ev.release.downloadID else s.store.traces[k].downloadID)
  {
    hide EndOpenGrab;
    var s1 := EmitSearch(s, k, ev.occurredAt);
    var s2 := EndOpenGrab(s1, k, ev.occurredAt, false, ERR_SUPERSEDED);
    EndGrabEdits(s1, k, ev.occurredAt, false, ERR_SUPERSEDED);
    var s3 := BeginGrab(s2, k, GrabSpanName(ev.source), ev.occurredAt, ev.release.downloadID);
    assert s3.store.traces == s.store.traces[k := s3.store.traces[k]];
  }

  /** A grab is one change, and the only kind that gives a trace a download ID. */
  lemma GrabChanges(s: State, k: MediaKey, ev: Event) returns (c: Change)
    requires Keyed(s.store.traces) && k in s.store.traces
    ensures Allowed(s.store, c) && Apply(s.store, c) == Grab(s, k, ev).store
    ensures if ev.release.downloadID == "" then c.Updated?
            else c.Regrabbed? && c.t.key == k && c.t.downloadID == ev.release.downloadID
  {
    hide EndOpenGrab, EmitSearch, BeginGrab;
    GrabEdits(s, k, ev);
    var s3 := Regrabbing(s, k, ev);
    var u := s3.store.traces[k];
    assert s3.store.traces[k := u] == s.store.traces[k := u];
    c := if ev.release.downloadID == "" then Updated(u) else Regrabbed(u);
  }

  lemma DownloadStartChanges(s: State, k: MediaKey, ev: Event) returns (cs: seq<Change>)
    requires Keyed(s.store.traces) && k in s.store.traces
    ensures Follows(s.store, cs, HandleDownloadStart(s, k, ev).store)
    ensures UpdatesOnly(cs, k)
  {
    if s.store.traces[k].hasDownload {
      cs := [];
    } else {
      cs := SaveEdited(s, k, BeginDownload(s, k, ev.occurredAt));
    }
  }

  lemma KeyedFollows(st: StoreState, cs: seq<Change>, st': StoreState)
    requires Keyed(st.traces) && Follows(st, cs, st')
    ensures Keyed(st'.traces)
    decreases |cs|
  {
    if cs != [] {
      KeyedApply(st, cs[0]);
      KeyedFollows(Apply(st, cs[0]), cs[1..], st');
    }
  }

  lemma GrabTargetChanges(s: State, ev: Event) returns (cs: seq<Change>)
    ensures Follows(s.store, cs, GrabTarget(s, ev).1.store)
    ensures OpensOnly(cs, ev.key) && NoRegrab(cs)
  {
    cs := [];
    if Resolve(s.store.traces, ev.key).None? {
      cs := OpenedChange(s, ev, OrphanReason(Recalled(s.store, ev.key, ev.occurredAt), ev.release.isUpgrade), "", "");
    }
  }

  lemma ReplayChanges(s: State, k: MediaKey, id: string) returns (cs: seq<Change>)
    requires Keyed(s.store.traces) && k in s.store.traces
    ensures Follows(s.store, cs, Replay(s, k, id).store)
    ensures UpdatesOnly(cs, k)
  {
    cs := [];
    if id != "" && id in s.pending {
      cs := DownloadStartChanges(s.(pending := s.pending - {id}), k, s.pending[id].event);
    }
  }

  lemma GrabbedChanges(s: State, ev: Event) returns (cs: seq<Change>)
    requires Keyed(s.store.traces)
    ensures Follows(s.store, cs, OnGrabbed(s, ev).store)
    ensures OpensOnly(cs, ev.key)
  {
    hide Apply, Allowed;
    var (k, s1) := GrabTarget(s, ev);
    var begun := GrabTargetChanges(s, ev);
    KeyedFollows(s.store, begun, s1.store);
    var s2 := Grab(s1, k, ev);
    var c := GrabChanges(s1, k, ev);
    var grabbed := [c];
    One(s1.store, c);
    KeyedFollows(s1.store, grabbed, s2.store);
    var replayed := ReplayChanges(s2, k, ev.release.downloadID);
    FollowsThen(s1.store, grabbed, s2.store, replayed, OnGrabbed(s, ev).store);
    FollowsThen(s.store, begun, s1.store, grabbed + replayed, OnGrabbed(s, ev).store);
    cs := begun + (grabbed + replayed);
  }

  lemma RequestClosedChanges(s: State, ev: Event) returns (cs: seq<Change>)
    requires Keyed(s.store.traces)
    ensures Follows(s.store, cs, OnRequestClosed(s, ev).store)
    ensures Calm(cs)
  {
    cs := [];
    if Resolve(s.store.traces, ev.key).Some? {
      var k := Resolve(s.store.traces, ev.key).value;
      EndChildrenEdits(s, k, ev.occurredAt, true, "");
      var s1 := EndChildren(s, k, ev.occurredAt, true, "");
      cs := DropEdited(s, k, s1, ev.occurredAt, ev.outcome.Available?, ev.errorReason, ev.outcome);
    }
  }

  lemma ImportChanges(s: State, k: MediaKey, ev: Event) returns (cs: seq<Change>)
    requires Keyed(s.store.traces) && k in s.store.traces
    ensures Follows(s.store, cs, Import(s, k, ev).store) && k in Import(s, k, ev).store.traces
    ensures Calm(cs)
  {
    var at := ev.occurredAt;
    var s1 := EndOpenDownload(s, k, at, true, "");
    EndDownloadEdits(s, k, at, true, "");
    var s2 := EmitUnder(s1, k, ImportSpanName(ev.source), Earlier(s1.store.traces[k].updatedAt, at), at);
    EndGrabEdits(s2, k, at, true, "");
    var s4 := Touch(EndOpenGrab(s2, k, at, true, ""), k, at);
    assert s4.store.traces == s.store.traces[k := s4.store.traces[k]];
    cs := SaveEdited(s, k, s4);
  }

  lemma ImportedChanges(s: State, ev: Event) returns (cs: seq<Change>)
    requires Keyed(s.store.traces)
    ensures Follows(s.store, cs, OnImported(s, ev).store)
    ensures Calm(cs)
  {
    hide Import, CloseTrace;
    cs := [];
    if Resolve(s.store.traces, ev.key).Some? {
      var k := Resolve(s.store.traces, ev.key).value;
      var s1 := Import(s, k, ev);
      cs := ImportChanges(s, k, ev);
      KeyedFollows(s.store, cs, s1.store);
      var t := s1.store.traces[k];
      if t.source == SOURCE_SONARR || t.source == SOURCE_RADARR {
        var ds := DropUnedited(s1, k, ev.occurredAt, true, "", Available, t.hasGrab);
        FollowsThen(s.store, cs, s1.store, ds, OnImported(s, ev).store);
        cs := cs + ds;
      }
    }
  }

  /** The record after a finished download, before it is saved. */
  lemma DownloadDoneEdits(s: State, k: MediaKey, at: Time, ok: bool, reason: string)
    requires k in s.store.traces
    ensures var s1 := if s.store.traces[k].hasDownload then EndDownload(s, k, at, ok, reason)
                      else EmitUnder(s, k, SPAN_DOWNLOAD, at, at);
            && k in s1.store.traces
            && Touch(s1, k, at).store == SetTrace(s.store, k, s.store.traces[k].(hasDownload := false, updatedAt := at))
  {
    var t := s.store.traces[k];
    assert s.store.traces[k := t.(hasDownload := false)][k := t.(hasDownload := false, updatedAt := at)]
           == s.store.traces[k := t.(hasDownload := false, updatedAt := at)];
  }

  lemma DownloadDoneChanges(s: State, ev: Event) returns (cs: seq<Change>)
    requires Keyed(s.store.traces)
    ensures Follows(s.store, cs, OnDownloadDone(s, ev).store)
    ensures Calm(cs)
  {
    hide EndDownload, EmitUnder, Touch;
    cs := [];
    if ByDownloadID(s.store, ev.release.downloadID).Some? {
      var k := ByDownloadID(s.store, ev.release.downloadID).value;
      var s1 := if s.store.traces[k].hasDownload
                then EndDownload(s, k, ev.occurredAt, ev.errorReason == "", ev.errorReason)
                else EmitUnder(s, k, SPAN_DOWNLOAD, ev.occurredAt, ev.occurredAt);
      DownloadDoneEdits(s, k, ev.occurredAt, ev.errorReason == "", ev.errorReason);
      cs := SaveEdited(s, k, Touch(s1, k, ev.occurredAt));
    }
  }

  lemma AmendSaveChanges(s: State, k: MediaKey, u: Trace) returns (cs: seq<Change>)
    requires Keyed(s.store.traces) && k in s.store.traces && Continues(s.store.traces[k], u)
    requires u.downloadID == s.store.traces[k].downloadID
    ensures Follows(s.store, cs, Save(Amend(s, k, u), k).store)
    ensures Calm(cs)
  {
    cs := SaveEdited(s, k, Amend(s, k, u));
  }

  lemma RequestOpenedChanges(s: State, ev: Event) returns (cs: seq<Change>)
    ensures Follows(s.store, cs, OnRequestOpened(s, ev).store)
    ensures OpensOnly(cs, ev.key) && NoRegrab(cs)
  {
    cs := [];
    if Resolve(s.store.traces, ev.key).None? {
      cs := OpenedChange(s, ev, RequestReason(Recalled(s.store, ev.key, ev.occurredAt)), ev.requestID, ev.requestedBy);
    }
  }

  lemma RequestApprovedChanges(s: State, ev: Event) returns (cs: seq<Change>)
    requires Keyed(s.store.traces)
    ensures Follows(s.store, cs, OnRequestApproved(s, ev).store)
    ensures Calm(cs)
  {
    cs := [];
    if Resolve(s.store.traces, ev.key).Some? {
      var k := Resolve(s.store.traces, ev.key).value;
      cs := AmendSaveChanges(s, k, s.store.traces[k].(searchStart := ev.occurredAt, updatedAt := ev.occurredAt));
    }
  }

  lemma ManualNeededChanges(s: State, ev: Event) returns (cs: seq<Change>)
    requires Keyed(s.store.traces)
    ensures Follows(s.store, cs, OnManualNeeded(s, ev).store)
    ensures Calm(cs)
  {
    cs := [];
    if Resolve(s.store.traces, ev.key).Some? {
      var k := Resolve(s.store.traces, ev.key).value;
      cs := AmendSaveChanges(s, k, s.store.traces[k].(lastError := ERR_MANUAL, updatedAt := ev.occurredAt));
    }
  }

  lemma DownloadStartedChanges(s: State, ev: Event) returns (cs: seq<Change>)
    requires Keyed(s.store.traces)
    ensures Follows(s.store, cs, OnDownloadStart(s, ev).store)
    ensures Calm(cs)
  {
    cs := [];
    if ByDownloadID(s.store, ev.release.downloadID).Some? {
      cs := DownloadStartChanges(s, ByDownloadID(s.store, ev.release.downloadID).value, ev);
    }
  }

  lemma HandleChanges(s: State, ev: Event) returns (cs: seq<Change>)
    requires Keyed(s.store.traces)
    ensures Follows(s.store, cs, Handle(s, ev).store)
    ensures OpensOnly(cs, ev.key) && (!ev.phase.Grabbed? ==> NoRegrab(cs))
    ensures !ev.phase.Grabbed? && !ev.phase.RequestOpened? ==> Calm(cs)
  {
    hide OnRequestOpened, OnRequestApproved, OnRequestClosed, OnGrabbed, OnDownloadStart, OnDownloadDone,
      OnImported, OnManualNeeded;
    cs := [];
    match ev.phase
    case RequestOpened => cs := RequestOpenedChanges(s, ev);
    case RequestApproved => cs := RequestApprovedChanges(s, ev);
    case RequestClosed => cs := RequestClosedChanges(s, ev);
    case Grabbed => cs := GrabbedChanges(s, ev);
    case DownloadStart => cs := DownloadStartedChanges(s, ev);
    case DownloadDone => cs := DownloadDoneChanges(s, ev);
    case Imported => cs := ImportedChanges(s, ev);
    case ManualNeeded => cs := ManualNeededChanges(s, ev);
    case OtherPhase(_) =>
  }

  lemma QueueIssueChanges(s: State, id: string, status: string, when: Time) returns (cs: seq<Change>)
    requires Keyed(s.store.traces)
    ensures Follows(s.store, cs, NoteQueueIssue(s, id, status, when).store)
    ensures Calm(cs)
  {
    cs := [];
    if ByDownloadID(s.store, id).Some? {
      var k := ByDownloadID(s.store, id).value;
      cs := AmendSaveChanges(s, k, s.store.traces[k].(lastError := "arr.queue_" + status, updatedAt := when));
    }
  }

  lemma SweepChanges(s: State, order: seq<MediaKey>, now: Time) returns (cs: seq<Change>)
    requires Keyed(s.store.traces)
    ensures Follows(s.store, cs, Sweep(s, order, now).store)
    ensures Calm(cs)
    decreases |order|
  {
    cs := [];
    if order != [] {
      var s1 := Sweep(s, order[..|order| - 1], now);
      var k := order[|order| - 1];
      cs := SweepChanges(s, order[..|order| - 1], now);
      KeyedFollows(s.store, cs, s1.store);
      if k in s1.store.traces {
        EndChildrenEdits(s1, k, now, false, ERR_TIMEOUT);
        var ds := DropEdited(s1, k, EndChildren(s1, k, now, false, ERR_TIMEOUT), now, false, ERR_TIMEOUT, Timeout);
        FollowsThen(s.store, cs, s1.store, ds, SweepOne(s1, k, now).store);
        cs := cs + ds;
      }
    }
  }

  lemma RestoreChanges(s: State, order: seq<MediaKey>) returns (cs: seq<Change>)
    requires Keyed(s.store.traces)
    ensures Follows(s.store, cs, RestoreKeys(s, order).store)
    ensures Calm(cs)
    decreases |order|
  {
    cs := [];
    if order != [] {
      var s1 := RestoreKeys(s, order[..|order| - 1]);
      var k := order[|order| - 1];
      cs := RestoreChanges(s, order[..|order| - 1]);
      KeyedFollows(s.store, cs, s1.store);
      if k in s1.store.traces {
        var t := s1.store.traces[k];
        var ds := AmendSaveChanges(s1, k, t.(hasGrab := false, hasDownload := false));
        FollowsThen(s.store, cs, s1.store, ds, RestoreOne(s1, k).store);
        cs := cs + ds;
      }
    }
  }
}
