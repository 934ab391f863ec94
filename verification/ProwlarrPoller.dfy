/** The search-history poller: a cursor over record dates, each record emitted in at most one tick. */
module ProwlarrPolling {
  import opened Types

  /** One history record. `elapsedMs` is the parsed elapsed time, 0 where the text does not parse. */
  datatype Record = Record(date: Time, query: string, indexer: string, elapsedMs: int)

  datatype Search = Search(query: string, indexer: string, when: Time, elapsedMs: int)

  datatype Poll = Unavailable | Fetched(records: seq<Record>)

  function SearchOf(r: Record): Search {
    Search(r.query, r.indexer, r.date, r.elapsedMs)
  }

  /** The searches for the records dated after `cursor`, in the order of the response. */
  function Newer(cursor: Time, records: seq<Record>): seq<Search> {
    if records == [] then []
    else
      var r := records[|records| - 1];
      Newer(cursor, records[..|records| - 1]) + if r.date > cursor then [SearchOf(r)] else []
  }

  /** `m` is the greatest of `start` and the dates of the records. */
  ghost predicate IsMax(m: Time, start: Time, records: seq<Record>) {
    && m >= start && (forall r :: r in records ==> r.date <= m)
    && (m == start || exists r :: r in records && r.date == m)
  }

  /** The greatest of `start` and the dates of the records. */
  function MaxDate(start: Time, records: seq<Record>): (m: Time)
    ensures IsMax(m, start, records)
  {
    if records == [] then start
    else
      var m, r := MaxDate(start, records[..|records| - 1]), records[|records| - 1];
      assert forall x :: x in records ==> x in records[..|records| - 1] || x == r;
      assert forall x :: x in records[..|records| - 1] ==> x in records;
      assert r in records;
      if r.date > m then r.date else m
  }

  class ProwlarrPoller {
    var cursor: Time

    constructor ()
      ensures cursor == ZERO_TIME
    {
      cursor := ZERO_TIME;
    }

    /** The start of `Run`: history before startup is not replayed. */
    method Anchor(now: Time)
      modifies this
      ensures cursor == now
    {
      cursor := now;
    }

    /**
     * A failed request changes nothing. Otherwise the records newer than the old cursor are emitted and the
     * cursor moves to the newest date, except that no date up to the zero instant can move it.
     */
    method Tick(poll: Poll) returns (ok: bool, searches: seq<Search>)
      modifies this
      ensures ok == poll.Fetched?
      ensures !ok ==> cursor == old(cursor) && searches == []
      ensures ok ==> searches == Newer(old(cursor), poll.records)
      ensures ok ==> var m := MaxDate(old(cursor), poll.records); cursor == if m > ZERO_TIME then m else old(cursor)
    {
      searches := [];
      if poll.Unavailable? {
        return false, searches;
      }
      var prev := cursor;
      var newest := ZERO_TIME;
      for n := 0 to |poll.records|
        invariant searches == Newer(prev, poll.records[..n])
        invariant newest >= ZERO_TIME
        invariant var m := MaxDate(prev, poll.records[..n]);
                  newest == if m > prev && m > ZERO_TIME then m else ZERO_TIME
      {
        var r := poll.records[n];
        assert poll.records[..n + 1][..n] == poll.records[..n];
        if r.date > prev {
          if r.date > newest {
            newest := r.date;
          }
          searches := searches + [Search(r.query, r.indexer, r.date, r.elapsedMs)];
        }
      }
      assert poll.records[..|poll.records|] == poll.records;
      if newest != ZERO_TIME {
        cursor := newest;
      }
      return true, searches;
    }
  }

  // ---------- one tick ----------

  function CursorNext(cursor: Time, poll: Poll): Time {
    if poll.Unavailable? then cursor
    else
      var m := MaxDate(cursor, poll.records);
      if m > ZERO_TIME then m else cursor
  }

  /**
   * A successful tick ends with the cursor at the maximum of its old value and all returned dates, exactly
   * when not every date after the old cursor is one up to the zero instant, or there is none.
   */
  lemma CursorIsMax(cursor: Time, records: seq<Record>)
    ensures IsMax(CursorNext(cursor, Fetched(records)), cursor, records)
            <==> (forall r :: r in records ==> r.date <= cursor) || (exists r :: r in records && r.date > ZERO_TIME)
                 || cursor >= ZERO_TIME
  {
    var m := MaxDate(cursor, records);
    if m <= ZERO_TIME && m > cursor {
      var r :| r in records && r.date == m;
      assert forall x :: x in records ==> x.date <= ZERO_TIME;
    }
  }

  // ---------- over any sequence of ticks ----------

  function CursorAfter(cursor: Time, polls: seq<Poll>): Time {
    if polls == [] then cursor else CursorNext(CursorAfter(cursor, polls[..|polls| - 1]), polls[|polls| - 1])
  }

  lemma CursorAfterNext(cursor: Time, polls: seq<Poll>, n: nat)
    requires n < |polls|
    ensures CursorAfter(cursor, polls[..n + 1]) == CursorNext(CursorAfter(cursor, polls[..n]), polls[n])
  {
    assert polls[..n + 1][..n] == polls[..n];
  }

  /** The cursor never decreases. */
  lemma {:induction false} CursorRises(cursor: Time, polls: seq<Poll>, i: nat, j: nat)
    requires i <= j <= |polls|
    ensures CursorAfter(cursor, polls[..i]) <= CursorAfter(cursor, polls[..j])
    decreases j
  {
    if i < j {
      CursorRises(cursor, polls, i, j - 1);
      CursorAfterNext(cursor, polls, j - 1);
    }
  }

  /** `m` is the greatest of `start` and every date returned so far. */
  ghost predicate IsHighest(m: Time, start: Time, polls: seq<Poll>) {
    && m >= start
    && (forall i, r :: 0 <= i < |polls| && polls[i].Fetched? && r in polls[i].records ==> r.date <= m)
    && (m == start || exists i, r :: 0 <= i < |polls| && polls[i].Fetched? && r in polls[i].records && r.date == m)
  }

  /** From a cursor not before the zero instant, it is always the greatest date seen or its first value. */
  lemma {:induction false} CursorIsHighest(cursor: Time, polls: seq<Poll>)
    requires cursor >= ZERO_TIME
    ensures IsHighest(CursorAfter(cursor, polls), cursor, polls)
    decreases |polls|
  {
    if polls != [] {
      var n := |polls| - 1;
      CursorIsHighest(cursor, polls[..n]);
      var m, m' := CursorAfter(cursor, polls[..n]), CursorAfter(cursor, polls);
      if m' == m && m != cursor {
        var i, r :| 0 <= i < |polls[..n]| && polls[..n][i].Fetched? && r in polls[..n][i].records && r.date == m;
        assert polls[i].Fetched? && r in polls[i].records;
      }
      if m' != m {
        var r :| r in polls[n].records && r.date == m';
        assert polls[n].Fetched? && r in polls[n].records;
      }
      forall i, r | 0 <= i < |polls| && polls[i].Fetched? && r in polls[i].records
        ensures r.date <= m'
      {
        assert i < n ==> polls[..n][i] == polls[i];
      }
    }
  }

  /** Tick `i` emits the record. */
  predicate Emits(cursor: Time, polls: seq<Poll>, i: nat, r: Record)
    requires i < |polls|
  {
    polls[i].Fetched? && r in polls[i].records && r.date > CursorAfter(cursor, polls[..i])
  }

  /** The searches of a response in two parts are those of the parts in order; and one record's are as the code says. */
  lemma {:induction false} NewerInOrder(cursor: Time, first: seq<Record>, second: seq<Record>, r: Record)
    ensures Newer(cursor, first + second) == Newer(cursor, first) + Newer(cursor, second)
    ensures Newer(cursor, [r]) == if r.date > cursor then [Search(r.query, r.indexer, r.date, r.elapsedMs)] else []
    decreases |second|
  {
    assert [r][..0] == [];
    if second == [] {
      assert first + second == first;
    } else {
      var n := |second| - 1;
      assert (first + second)[..|first + second| - 1] == first + second[..n];
      NewerInOrder(cursor, first, second[..n], r);
    }
  }

  /** What `Newer` lists are the searches of exactly the emitted records. */
  lemma {:induction false} NewerEmits(cursor: Time, records: seq<Record>, s: Search)
    ensures s in Newer(cursor, records) <==>
            exists r :: r in records && r.date > cursor && s == Search(r.query, r.indexer, r.date, r.elapsedMs)
    decreases |records|
  {
    if records != [] {
      var init, last := records[..|records| - 1], records[|records| - 1];
      NewerEmits(cursor, init, s);
      assert records == init + [last];
      if s in Newer(cursor, records) {
        if s in Newer(cursor, init) {
          var r :| r in init && r.date > cursor && s == Search(r.query, r.indexer, r.date, r.elapsedMs);
          assert r in records;
        } else {
          assert last in records && SearchOf(last) == s;
        }
      }
    }
  }

  /** No record is emitted in two ticks. */
  lemma EmittedAtMostOnce(cursor: Time, polls: seq<Poll>, i: nat, j: nat, r: Record)
    requires cursor >= ZERO_TIME && i < |polls| && j < |polls|
    requires Emits(cursor, polls, i, r) && Emits(cursor, polls, j, r)
    ensures i == j
  {
    if i != j {
      var a, b := if i < j then i else j, if i < j then j else i;
      CursorRises(cursor, polls, 0, a);
      assert polls[..0] == [];
      CursorAfterNext(cursor, polls, a);
      CursorRises(cursor, polls, a + 1, b);
    }
  }

  /** A tick emits a record iff it is dated after the start and after everything returned before. */
  lemma EmitsIffNewest(cursor: Time, polls: seq<Poll>, i: nat, r: Record)
    requires cursor >= ZERO_TIME && i < |polls| && polls[i].Fetched? && r in polls[i].records
    ensures Emits(cursor, polls, i, r)
            <==> r.date > cursor
                 && forall j, x :: 0 <= j < i && polls[j].Fetched? && x in polls[j].records ==> x.date < r.date
  {
    CursorIsHighest(cursor, polls[..i]);
    var m := CursorAfter(cursor, polls[..i]);
    if m != cursor {
      var j, x :| 0 <= j < |polls[..i]| && polls[..i][j].Fetched? && x in polls[..i][j].records && x.date == m;
      assert polls[j].Fetched? && x in polls[j].records;
    }
    forall j, x | 0 <= j < i && polls[j].Fetched? && x in polls[j].records
      ensures x.date <= m
    {
      assert polls[..i][j] == polls[j];
    }
  }

  /** The first tick of a cursor before the zero instant can be stuck, and then repeats itself. */
  lemma StuckBeforeZero()
    ensures var r := Record(ZERO_TIME, "q", "i", 0); var polls := [Fetched([r]), Fetched([r])];
            Emits(-1, polls, 0, r) && Emits(-1, polls, 1, r)
  {
    var r := Record(ZERO_TIME, "q", "i", 0);
    var polls := [Fetched([r]), Fetched([r])];
    assert polls[..0] == [] && [r][..0] == [];
    assert MaxDate(-1, [r]) <= 0;
    CursorAfterNext(-1, polls, 0);
  }
}
