/**
 * The two implementations of the store against each other. The in-memory one collects expired dedup
 * and closed entries, the on-disk one keeps them and stores dedup times as whole seconds; callers
 * can tell them apart in exactly two situations.
 */
module StoreSimulation {
  import opened Types
  import opened StoreSpec

  datatype Call =
    | Get(k: MediaKey)
    | GetByDownloadID(id: string)
    | PutTrace(t: Trace)
    | DeleteTrace(k: MediaKey)
    | Stale(ttl: int, now: Time)
    | Seen(source: string, eventID: string, now: Time)
    | Remember(k: MediaKey, c: ClosedTrace)
    | Recall(k: MediaKey, now: Time)

  datatype Reply =
    | Nothing
    | Found(trace: Option<Trace>)
    | Keys(keys: set<MediaKey>)
    | IsNew(answer: bool)
    | Prior(closed: Option<ClosedTrace>)

  function Answer(st: StoreState, call: Call): Reply {
    match call
    case Get(k) => Found(if k in st.traces then Some(st.traces[k]) else None)
    case GetByDownloadID(id) =>
      Found(match ByDownloadID(st, id) case None => None case Some(k) => Some(st.traces[k]))
    case PutTrace(_) => Nothing
    case DeleteTrace(_) => Nothing
    case Stale(ttl, now) => Keys(StaleKeys(st, ttl, now))
    case Seen(source, id, now) => IsNew(Accepts(st, source, id, now))
    case Remember(_, _) => Nothing
    case Recall(k, now) => Prior(Recalled(st, k, now))
  }

  function After(st: StoreState, call: Call): StoreState {
    match call
    case PutTrace(t) => Put(st, t)
    case DeleteTrace(k) => Delete(st, k)
    case Seen(source, id, now) => SeenEvent(st, source, id, now)
    case Remember(k, c) => RememberClosed(st, k, c)
    case Recall(k, now) => RecallClosed(st, k, now)
    case _ => st
  }

  /** The clock after a call: the calls whose time matters for expiry move it. */
  function Clock(clock: Time, call: Call): Time {
    match call
    case Seen(_, _, now) => now
    case Remember(_, c) => c.closedAt
    case Recall(_, now) => now
    case _ => clock
  }

  predicate TimesRise(clock: Time, calls: seq<Call>)
    decreases |calls|
  {
    calls == [] || (clock <= Clock(clock, calls[0]) && TimesRise(Clock(clock, calls[0]), calls[1..]))
  }

  /** What the on-disk store has beyond the in-memory one is expired. */
  ghost predicate ClosedSimilar(m: StoreState, b: StoreState, clock: Time) {
    && (forall k :: k in m.closed ==> k in b.closed && b.closed[k] == m.closed[k])
    && (forall k :: k in b.closed ==> k in m.closed || b.closed[k].closedAt < clock - b.recallTTL)
  }

  /** The same for dedup entries, except under the keys that are out of step. */
  ghost predicate DedupSimilar(m: StoreState, b: StoreState, clock: Time, out: set<string>) {
    && (forall x :: x in m.dedup && x !in out ==> x in b.disk.dedup && b.disk.dedup[x] == WholeSecond(m.dedup[x]))
    && (forall x :: x in b.disk.dedup && x !in out ==> x in m.dedup || b.disk.dedup[x] < clock - b.dedupTTL)
  }

  ghost predicate Similar(m: StoreState, b: StoreState, clock: Time, out: set<string>) {
    && m.kind.InMemory? && b.kind.OnDisk?
    && m.dedupTTL == b.dedupTTL && m.recallTTL == b.recallTTL
    && m.traces == b.traces && m.dlIndex == b.dlIndex
    && ClosedSimilar(m, b, clock) && DedupSimilar(m, b, clock, out)
  }

  /** The disk accepts again what memory holds: the truncation to seconds, or the strict comparison, expires it. */
  predicate DedupTie(m: StoreState, source: string, id: string, now: Time) {
    var x := DedupKey(source, id);
    id != "" && x in m.dedup && WholeSecond(m.dedup[x]) <= now - m.dedupTTL <= m.dedup[x]
  }

  /** An episode's expired record, kept on disk only, hides the series' record that is still good. */
  predicate Shadowed(m: StoreState, b: StoreState, k: MediaKey, now: Time) {
    && k in b.closed && k !in m.closed && k.mediaType == TYPE_TV
    && k.SeriesKey() in m.closed && m.closed[k.SeriesKey()].closedAt >= now - m.recallTTL
  }

  predicate TellsApart(m: StoreState, b: StoreState, call: Call) {
    match call
    case Seen(source, id, now) => DedupTie(m, source, id, now)
    case Recall(k, now) => Shadowed(m, b, k, now)
    case _ => false
  }

  lemma WholeSecondBounds(t: Time)
    ensures t - SECOND < WholeSecond(t) <= t
  {
  }

  /**
   * The dedup keys that are out of step after a call: a key gets there by a tie, and stays until both stores
   * accept it at the same time.
   */
  function OutAfter(m: StoreState, b: StoreState, call: Call, out: set<string>): set<string> {
    match call
    case Seen(source, id, now) =>
      if id == "" then out
      else if Accepts(m, source, id, now) && Accepts(b, source, id, now) then out - {DedupKey(source, id)}
      else if DedupTie(m, source, id, now) then out + {DedupKey(source, id)}
      else out
    case _ => out
  }

  predicate InStep(call: Call, out: set<string>) {
    call.Seen? ==> DedupKey(call.source, call.eventID) !in out || call.eventID == ""
  }

  lemma SeenAnswers(m: StoreState, b: StoreState, clock: Time, source: string, id: string, now: Time, out: set<string>)
    requires Similar(m, b, clock, out) && clock <= now && InStep(Seen(source, id, now), out)
    ensures Accepts(m, source, id, now) == Accepts(b, source, id, now) <==> !DedupTie(m, source, id, now)
  {
    var x := DedupKey(source, id);
    if x in m.dedup { WholeSecondBounds(m.dedup[x]); }
  }

  lemma SeenSimilar(m: StoreState, b: StoreState, clock: Time, source: string, id: string, now: Time, out: set<string>)
    requires Similar(m, b, clock, out) && clock <= now
    ensures Similar(SeenEvent(m, source, id, now), SeenEvent(b, source, id, now), now,
                    OutAfter(m, b, Seen(source, id, now), out))
  {
    if id != "" {
      var x, out' := DedupKey(source, id), OutAfter(m, b, Seen(source, id, now), out);
      var m', b' := SeenEvent(m, source, id, now), SeenEvent(b, source, id, now);
      if x !in out { SeenAnswers(m, b, clock, source, id, now, out); }
      forall y | y in b'.disk.dedup && y !in out'
        ensures y in m'.dedup || b'.disk.dedup[y] < now - b.dedupTTL
      {
        if y in m.dedup { WholeSecondBounds(m.dedup[y]); }
      }
    }
  }

  lemma RecallSimilar(m: StoreState, b: StoreState, clock: Time, k: MediaKey, now: Time, out: set<string>)
    requires Similar(m, b, clock, out) && clock <= now
    ensures Recalled(m, k, now) == Recalled(b, k, now) <==> !Shadowed(m, b, k, now)
    ensures Similar(RecallClosed(m, k, now), RecallClosed(b, k, now), now, out)
  {
  }

  lemma RememberSimilar(m: StoreState, b: StoreState, clock: Time, k: MediaKey, c: ClosedTrace, out: set<string>)
    requires Similar(m, b, clock, out) && clock <= c.closedAt
    ensures Similar(RememberClosed(m, k, c), RememberClosed(b, k, c), c.closedAt, out)
  {
  }

  /**
   * One call. Whatever it is, the stores stay similar, but for the dedup keys out of step; and unless it is about
   * one of these, the answers differ exactly in the two situations.
   */
  lemma CallSimilar(m: StoreState, b: StoreState, clock: Time, call: Call, out: set<string>)
    requires Similar(m, b, clock, out) && clock <= Clock(clock, call)
    ensures InStep(call, out) ==> (Answer(m, call) == Answer(b, call) <==> !TellsApart(m, b, call))
    ensures Similar(After(m, call), After(b, call), Clock(clock, call), OutAfter(m, b, call, out))
  {
    match call
    case Seen(source, id, now) =>
      if InStep(call, out) { SeenAnswers(m, b, clock, source, id, now, out); }
      SeenSimilar(m, b, clock, source, id, now, out);
    case Recall(k, now) => RecallSimilar(m, b, clock, k, now, out);
    case Remember(k, c) => RememberSimilar(m, b, clock, k, c, out);
    case _ =>
  }

  // ---------- sequences of calls ----------

  function Answers(st: StoreState, calls: seq<Call>): (replies: seq<Reply>)
    ensures |replies| == |calls|
    decreases |calls|
  {
    if calls == [] then [] else [Answer(st, calls[0])] + Answers(After(st, calls[0]), calls[1..])
  }

  /** The store before call `i`. */
  function Before(st: StoreState, calls: seq<Call>, i: nat): StoreState
    requires i <= |calls|
    decreases i
  {
    if i == 0 then st else Before(After(st, calls[0]), calls[1..], i - 1)
  }

  /** The dedup keys out of step before call `i`. */
  function OutBefore(m: StoreState, b: StoreState, calls: seq<Call>, i: nat, out: set<string>): set<string>
    requires i <= |calls|
    decreases i
  {
    if i == 0 then out
    else OutBefore(After(m, calls[0]), After(b, calls[0]), calls[1..], i - 1, OutAfter(m, b, calls[0], out))
  }

  /**
   * For any call sequence with nondecreasing times, and each call of it that is not about a dedup key out of
   * step: the two stores give the same answer if and only if the call is neither a tie nor a shadowed recall.
   */
  lemma {:induction false} AnswersPointwise(m: StoreState, b: StoreState, clock: Time, calls: seq<Call>, i: nat,
                                            out: set<string>)
    requires Similar(m, b, clock, out) && TimesRise(clock, calls) && i < |calls|
    ensures InStep(calls[i], OutBefore(m, b, calls, i, out)) ==>
              (Answers(m, calls)[i] == Answers(b, calls)[i]
               <==> !TellsApart(Before(m, calls, i), Before(b, calls, i), calls[i]))
    decreases |calls|
  {
    hide Similar, Answer, After, OutAfter, TellsApart, Clock;
    var c := calls[0];
    CallSimilar(m, b, clock, c, out);
    if i > 0 {
      AnswersPointwise(After(m, c), After(b, c), Clock(clock, c), calls[1..], i - 1, OutAfter(m, b, c, out));
    }
  }

  /** No call of the sequence is a tie. */
  predicate TieFree(m: StoreState, calls: seq<Call>)
    decreases |calls|
  {
    calls == []
    || (!(calls[0].Seen? && DedupTie(m, calls[0].source, calls[0].eventID, calls[0].now))
        && TieFree(After(m, calls[0]), calls[1..]))
  }

  lemma {:induction false} TieFreeInStep(m: StoreState, b: StoreState, calls: seq<Call>, i: nat)
    requires TieFree(m, calls) && i <= |calls|
    ensures OutBefore(m, b, calls, i, {}) == {}
    ensures i < |calls| && calls[i].Seen? ==>
              !DedupTie(Before(m, calls, i), calls[i].source, calls[i].eventID, calls[i].now)
    decreases |calls|
  {
    hide DedupTie, Accepts, After;
    if i > 0 {
      TieFreeInStep(After(m, calls[0]), After(b, calls[0]), calls[1..], i - 1);
      assert OutAfter(m, b, calls[0], {}) == {};
    }
  }

  /** Without ties, the answers differ at the shadowed recalls and nowhere else. */
  lemma OnlyShadowsDiffer(m: StoreState, b: StoreState, clock: Time, calls: seq<Call>, i: nat)
    requires Similar(m, b, clock, {}) && TimesRise(clock, calls) && TieFree(m, calls) && i < |calls|
    ensures Answers(m, calls)[i] == Answers(b, calls)[i]
            <==> !(calls[i].Recall? && Shadowed(Before(m, calls, i), Before(b, calls, i), calls[i].k, calls[i].now))
  {
    hide Similar, DedupTie, Shadowed, Answers;
    AnswersPointwise(m, b, clock, calls, i, {});
    TieFreeInStep(m, b, calls, i);
  }

  /** No call of the sequence meets one of the two situations. */
  predicate NeverToldApart(m: StoreState, b: StoreState, calls: seq<Call>)
    decreases |calls|
  {
    calls == [] ||
    (!TellsApart(m, b, calls[0]) && NeverToldApart(After(m, calls[0]), After(b, calls[0]), calls[1..]))
  }

  /** All answers are the same if and only if no call meets one of the two situations. */
  lemma {:induction false} StoresSimulate(m: StoreState, b: StoreState, clock: Time, calls: seq<Call>)
    requires Similar(m, b, clock, {}) && TimesRise(clock, calls)
    ensures Answers(m, calls) == Answers(b, calls) <==> NeverToldApart(m, b, calls)
    decreases |calls|
  {
    hide Similar, Answer, After, TellsApart, Clock;
    if calls != [] {
      var c := calls[0];
      CallSimilar(m, b, clock, c, {});
      var m', b' := After(m, c), After(b, c);
      assert Answers(m, calls)[0] == Answer(m, c) && Answers(b, calls)[0] == Answer(b, c);
      assert Answers(m, calls)[1..] == Answers(m', calls[1..]);
      assert Answers(b, calls)[1..] == Answers(b', calls[1..]);
      if !TellsApart(m, b, c) {
        StillInStep(m, b, c);
        StoresSimulate(m', b', Clock(clock, c), calls[1..]);
      }
    }
  }

  lemma StillInStep(m: StoreState, b: StoreState, call: Call)
    requires !TellsApart(m, b, call)
    ensures OutAfter(m, b, call, {}) == {}
  {
  }

  lemma EmptySimilar(dedupTTL: nat, recallTTL: nat, clock: Time)
    ensures Similar(EmptyStore(InMemory, dedupTTL, recallTTL), EmptyStore(OnDisk, dedupTTL, recallTTL), clock, {})
  {
  }

  /** With whole-second acceptance times the first situation is the instant `now - dedupTTL` itself. */
  lemma WholeSecondTie(m: StoreState, source: string, id: string, now: Time)
    requires forall x :: x in m.dedup ==> m.dedup[x] % SECOND == 0
    ensures DedupTie(m, source, id, now) <==>
            id != "" && DedupKey(source, id) in m.dedup && m.dedup[DedupKey(source, id)] == now - m.dedupTTL
  {
  }

  /** Both situations do occur: a tie after two calls, a shadow after three. */
  lemma BothOccur(dedupTTL: nat, recallTTL: nat, tv: MediaKey)
    requires tv.mediaType == TYPE_TV && tv != tv.SeriesKey()
    ensures var m := EmptyStore(InMemory, dedupTTL, recallTTL); var b := EmptyStore(OnDisk, dedupTTL, recallTTL);
            var ties := [Seen("radarr", "d1:grab", 0), Seen("radarr", "d1:grab", dedupTTL)];
            TimesRise(0, ties) && Answers(m, ties) != Answers(b, ties)
    ensures var m := EmptyStore(InMemory, dedupTTL, recallTTL); var b := EmptyStore(OnDisk, dedupTTL, recallTTL);
            var later := recallTTL + 1;
            var shadow := [Remember(tv, ClosedTrace(1, 1, Failed, 0)),
                           Remember(tv.SeriesKey(), ClosedTrace(2, 1, Failed, later)), Recall(tv, later)];
            TimesRise(0, shadow) && Answers(m, shadow) != Answers(b, shadow)
  {
    TieOccurs(dedupTTL, recallTTL);
    ShadowOccurs(dedupTTL, recallTTL, tv);
  }

  lemma TieOccurs(dedupTTL: nat, recallTTL: nat)
    ensures var m := EmptyStore(InMemory, dedupTTL, recallTTL); var b := EmptyStore(OnDisk, dedupTTL, recallTTL);
            var ties := [Seen("radarr", "d1:grab", 0), Seen("radarr", "d1:grab", dedupTTL)];
            TimesRise(0, ties) && Answers(m, ties) != Answers(b, ties)
  {
    var m := EmptyStore(InMemory, dedupTTL, recallTTL);
    var b := EmptyStore(OnDisk, dedupTTL, recallTTL);
    var first, again := Seen("radarr", "d1:grab", 0), Seen("radarr", "d1:grab", dedupTTL);
    var ties := [first, again];
    assert ties[1..] == [again] && [again][1..] == [];
    var m1, b1 := After(m, first), After(b, first);
    assert Answers(m, ties) == [Answer(m, first)] + Answers(m1, [again]);
    assert Answers(b, ties) == [Answer(b, first)] + Answers(b1, [again]);
    assert Answers(m, ties)[1] == Answer(m1, again) && Answers(b, ties)[1] == Answer(b1, again);
  }

  lemma ShadowOccurs(dedupTTL: nat, recallTTL: nat, tv: MediaKey)
    requires tv.mediaType == TYPE_TV && tv != tv.SeriesKey()
    ensures var m := EmptyStore(InMemory, dedupTTL, recallTTL); var b := EmptyStore(OnDisk, dedupTTL, recallTTL);
            var later := recallTTL + 1;
            var shadow := [Remember(tv, ClosedTrace(1, 1, Failed, 0)),
                           Remember(tv.SeriesKey(), ClosedTrace(2, 1, Failed, later)), Recall(tv, later)];
            TimesRise(0, shadow) && Answers(m, shadow) != Answers(b, shadow)
  {
    var m := EmptyStore(InMemory, dedupTTL, recallTTL);
    var b := EmptyStore(OnDisk, dedupTTL, recallTTL);
    var later := recallTTL + 1;
    var c1 := Remember(tv, ClosedTrace(1, 1, Failed, 0));
    var c2 := Remember(tv.SeriesKey(), ClosedTrace(2, 1, Failed, later));
    var c3 := Recall(tv, later);
    var shadow := [c1, c2, c3];
    assert shadow[1..] == [c2, c3] && [c2, c3][1..] == [c3] && [c3][1..] == [];
    EmptySimilar(dedupTTL, recallTTL, 0);
    var m1, b1 := After(m, c1), After(b, c1);
    var m2, b2 := After(m1, c2), After(b1, c2);
    assert tv !in m2.closed && tv.SeriesKey() in m2.closed && tv in b2.closed;
    assert TellsApart(m2, b2, c3);
    assert !NeverToldApart(m2, b2, [c3]);
    assert !NeverToldApart(m1, b1, [c2, c3]);
    assert !NeverToldApart(m, b, shadow);
    assert TimesRise(later, [c3]) && TimesRise(0, [c2, c3]);
    StoresSimulate(m, b, 0, shadow);
  }
}
