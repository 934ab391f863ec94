/**
 * Duplicate suppression as a window over the times of earlier acceptances, for either store and whatever calls
 * come in between: exact times in memory, despite the collection, and whole seconds on disk.
 */
module DedupWindow {
  import opened Types
  import opened StoreSpec
  import opened StoreChanges
  import opened StoreSimulation
  import opened Dedup

  /** Call `j` was an acceptance of a non-empty ID under the key `x`. */
  predicate Took(st: StoreState, calls: seq<Call>, j: nat, x: string)
    requires j < |calls|
  {
    && calls[j].Seen? && calls[j].eventID != "" && DedupKey(calls[j].source, calls[j].eventID) == x
    && Accepts(Before(st, calls, j), calls[j].source, calls[j].eventID, calls[j].now)
  }

  ghost predicate InTimeOrder(calls: seq<Call>) {
    forall i, j :: 0 <= i < j < |calls| && calls[i].Seen? && calls[j].Seen? ==> calls[i].now <= calls[j].now
  }

  /** Every entry is the stamp of an acceptance. */
  ghost predicate Explained(st: StoreState, calls: seq<Call>, n: nat, entries: map<string, Time>)
    requires n <= |calls|
  {
    forall x :: x in entries ==>
      exists j: nat :: j < n && Took(st, calls, j, x) && Stamp(st, calls[j].now) == entries[x]
  }

  /** No call from `n` on falls into the window of the stamp `t`. */
  ghost predicate Past(st: StoreState, calls: seq<Call>, n: nat, t: Time) {
    forall m :: n <= m < |calls| && calls[m].Seen? ==> !Holds(st, t, calls[m].now)
  }

  /** Of every acceptance there is an entry no older, or no later call can tell. */
  ghost predicate Kept(st: StoreState, calls: seq<Call>, n: nat, entries: map<string, Time>)
    requires n <= |calls|
  {
    forall j: nat, x :: j < n && Took(st, calls, j, x) ==>
      (x in entries && entries[x] >= Stamp(st, calls[j].now)) || Past(st, calls, n, Stamp(st, calls[j].now))
  }

  ghost predicate Remembers(st: StoreState, calls: seq<Call>, n: nat, after: StoreState)
    requires n <= |calls|
  {
    && after.kind == st.kind && after.dedupTTL == st.dedupTTL
    && Explained(st, calls, n, Entries(after)) && Kept(st, calls, n, Entries(after))
  }

  lemma {:induction false} BeforeNext(st: StoreState, calls: seq<Call>, i: nat)
    requires i < |calls|
    ensures Before(st, calls, i + 1) == After(Before(st, calls, i), calls[i])
    decreases i
  {
    hide After;
    if i > 0 {
      assert calls[1..][i - 1] == calls[i];
      BeforeNext(After(st, calls[0]), calls[1..], i - 1);
    }
  }

  /** The other calls leave the dedup entries alone. */
  lemma OtherCalls(st: StoreState, call: Call)
    requires !call.Seen?
    ensures SameDedup(st, After(st, call))
  {
    hide StoreSpec.Delete, StoreSpec.RememberClosed;
    match call
    case DeleteTrace(k) => DeleteKeeps(st, k);
    case Remember(k, c) => RememberKeeps(st, k, c);
    case _ =>
  }

  /** What seeing an event makes of the entries. */
  lemma SeenEntries(st: StoreState, call: Call)
    requires call.Seen?
    ensures var r := After(st, call); var x := DedupKey(call.source, call.eventID);
            && r.kind == st.kind && r.dedupTTL == st.dedupTTL
            && (forall y :: y in Entries(r) && (y != x || !Accepts(st, call.source, call.eventID, call.now)) ==>
                  y in Entries(st) && Entries(r)[y] == Entries(st)[y])
            && (forall y :: y in Entries(st) && Holds(st, Entries(st)[y], call.now) ==> y in Entries(r))
            && (st.kind.OnDisk? ==> Entries(st).Keys <= Entries(r).Keys)
            && (call.eventID != "" && Accepts(st, call.source, call.eventID, call.now) ==>
                  x in Entries(r) && Entries(r)[x] == Stamp(st, call.now))
            && (call.eventID == "" ==> Entries(r) == Entries(st))
  {
    hide DedupKey, WholeSecond;
  }

  lemma StampRises(st: StoreState, t: Time, u: Time)
    requires t <= u
    ensures Stamp(st, t) <= Stamp(st, u)
  {
  }

  lemma ExplainedNext(st: StoreState, calls: seq<Call>, n: nat, before: StoreState)
    requires n < |calls| && before == Before(st, calls, n) && Remembers(st, calls, n, before)
    ensures Explained(st, calls, n + 1, Entries(After(before, calls[n])))
  {
    hide Accepts, After, Stamp, Entries, Before;
    var entries, c := Entries(After(before, calls[n])), calls[n];
    forall x | x in entries
      ensures exists j: nat :: j < n + 1 && Took(st, calls, j, x) && Stamp(st, calls[j].now) == entries[x]
    {
      if Took(st, calls, n, x) {
        SeenEntries(before, c);
        SameStamp(before, st, c.now);
      } else {
        if c.Seen? { SeenEntries(before, c); } else { OtherCalls(before, c); SameEntries(before, After(before, c)); }
        var j: nat :| j < n && Took(st, calls, j, x) && Stamp(st, calls[j].now) == Entries(before)[x];
        assert Took(st, calls, j, x);
      }
    }
  }

  lemma SameStamp(st: StoreState, st': StoreState, t: Time)
    requires st.kind == st'.kind
    ensures Stamp(st, t) == Stamp(st', t)
  {
  }

  lemma SameEntries(st: StoreState, st': StoreState)
    requires SameDedup(st, st')
    ensures Entries(st') == Entries(st)
  {
  }

  lemma KeptNext(st: StoreState, calls: seq<Call>, n: nat, before: StoreState)
    requires n < |calls| && InTimeOrder(calls) && before == Before(st, calls, n) && Remembers(st, calls, n, before)
    ensures Kept(st, calls, n + 1, Entries(After(before, calls[n])))
  {
    hide Accepts, After, Before;
    var entries, c := Entries(After(before, calls[n])), calls[n];
    forall j: nat, x | j < n + 1 && Took(st, calls, j, x)
      ensures (x in entries && entries[x] >= Stamp(st, calls[j].now)) || Past(st, calls, n + 1, Stamp(st, calls[j].now))
    {
      if !c.Seen? {
        OtherCalls(before, c);
      } else {
        SeenEntries(before, c);
        StampRises(st, calls[j].now, c.now);
      }
    }
  }

  lemma {:induction false} AlwaysRemembers(st: StoreState, calls: seq<Call>, n: nat)
    requires Entries(st) == map[] && InTimeOrder(calls) && n <= |calls|
    ensures Remembers(st, calls, n, Before(st, calls, n))
  {
    hide After, Before, Explained, Kept;
    if n > 0 {
      AlwaysRemembers(st, calls, n - 1);
      var before := Before(st, calls, n - 1);
      BeforeNext(st, calls, n - 1);
      ExplainedNext(st, calls, n - 1, before);
      KeptNext(st, calls, n - 1, before);
      KindNext(before, calls[n - 1]);
    } else {
      NothingYet(st, calls);
    }
  }

  lemma KindNext(st: StoreState, call: Call)
    ensures After(st, call).kind == st.kind && After(st, call).dedupTTL == st.dedupTTL
  {
    if call.Seen? { SeenEntries(st, call); } else { OtherCalls(st, call); }
  }

  lemma NothingYet(st: StoreState, calls: seq<Call>)
    requires Entries(st) == map[]
    ensures Remembers(st, calls, 0, Before(st, calls, 0))
  {
  }

  /** In memory an acceptance counts from its own time, on disk from the start of its second, and there exclusively. */
  predicate Reaches(st: StoreState, t: Time, now: Time) {
    if st.kind.InMemory? then t >= now - st.dedupTTL else t / 1_000_000_000 * 1_000_000_000 > now - st.dedupTTL
  }

  lemma ReachesInWindow(st: StoreState, t: Time, now: Time)
    ensures Reaches(st, t, now) <==> InWindow(st, t, now)
  {
  }

  /** An earlier call took the key of call `i`, and its window reaches to call `i`. */
  ghost predicate Suppressed(st: StoreState, calls: seq<Call>, i: nat)
    requires i < |calls| && calls[i].Seen?
  {
    exists j: nat :: j < i && Took(st, calls, j, DedupKey(calls[i].source, calls[i].eventID))
                     && Reaches(st, calls[j].now, calls[i].now)
  }

  /**
   * For nondecreasing times, and with any other calls in between, a store accepts a non-empty ID exactly when no
   * earlier acceptance of it is in the window: at or after `now - dedupTTL` in memory, in a second that starts
   * after it on disk.
   */
  lemma SlidingWindow(st: StoreState, calls: seq<Call>, i: nat)
    requires Entries(st) == map[] && InTimeOrder(calls) && i < |calls| && calls[i].Seen? && calls[i].eventID != ""
    ensures Accepts(Before(st, calls, i), calls[i].source, calls[i].eventID, calls[i].now)
            <==> !Suppressed(st, calls, i)
  {
    hide Before;
    AlwaysRemembers(st, calls, i);
    var entries, x := Entries(Before(st, calls, i)), DedupKey(calls[i].source, calls[i].eventID);
    forall j: nat | j < i && calls[j].Seen?
      ensures Reaches(st, calls[j].now, calls[i].now) <==> InWindow(st, calls[j].now, calls[i].now)
    {
      ReachesInWindow(st, calls[j].now, calls[i].now);
    }
    if x in entries {
      var j: nat :| j < i && Took(st, calls, j, x) && Stamp(st, calls[j].now) == entries[x];
    }
  }

  lemma {:induction false} AnswersAt(st: StoreState, calls: seq<Call>, i: nat)
    requires i < |calls|
    ensures Answers(st, calls)[i] == Answer(Before(st, calls, i), calls[i])
    decreases |calls|
  {
    hide Answer, After;
    if i > 0 { AnswersAt(After(st, calls[0]), calls[1..], i - 1); }
  }

  /** So from empty entries on, ties or not, the two stores answer alike exactly when both windows say so. */
  lemma AnswersByWindow(m: StoreState, b: StoreState, calls: seq<Call>, i: nat)
    requires Entries(m) == map[] == Entries(b) && InTimeOrder(calls)
    requires i < |calls| && calls[i].Seen? && calls[i].eventID != ""
    ensures Answers(m, calls)[i] == Answers(b, calls)[i] <==> (Suppressed(m, calls, i) <==> Suppressed(b, calls, i))
  {
    hide Before, Answers, Suppressed, Accepts;
    AnswersAt(m, calls, i);
    AnswersAt(b, calls, i);
    SlidingWindow(m, calls, i);
    SlidingWindow(b, calls, i);
  }

  /** An event without an ID is always accepted and never remembered. */
  lemma NoIDNoMemory(st: StoreState, source: string, now: Time)
    ensures Accepts(st, source, "", now) && SeenEvent(st, source, "", now) == st
  {
  }

  /** In memory each event with an ID collects exactly the entries from before the window. */
  lemma SeenCollects(st: StoreState, source: string, id: string, now: Time, x: string)
    requires st.kind.InMemory? && id != "" && x != DedupKey(source, id)
    ensures var r := SeenEvent(st, source, id, now);
            && (x in r.dedup <==> x in st.dedup && st.dedup[x] >= now - st.dedupTTL)
            && (x in r.dedup ==> r.dedup[x] == st.dedup[x])
  {
  }
}
