/** The on-disk store: an in-memory mirror of a database file that every write path updates too. */
module BoltStores {
  import opened Types
  import opened MediaKeys
  import opened StoreSpec
  import opened TraceRecords
  import E = EngineSpec

  /** The database handle. Each assignment to `disk` is one committed transaction. */
  class BoltFile {
    var disk: Disk

    constructor ()
      ensures disk == EMPTY_DISK
    {
      disk := EMPTY_DISK;
    }
  }

  /** One more record of the bucket read. */
  lemma LoadsMoreTraces(bucket: map<string, Trace>, traces: map<MediaKey, Trace>, e: string, t: Trace)
    requires LoadsTraces(bucket, traces) && e !in bucket
    ensures LoadsTraces(bucket[e := t], traces[t.key := t])
  {
    var bucket', traces' := bucket[e := t], traces[t.key := t];
    forall k | k in traces'
      ensures exists x :: x in bucket' && bucket'[x].key == k && traces'[k] == bucket'[x]
    {
      if k == t.key {
        assert bucket'[e] == t;
      } else {
        var x :| x in bucket && bucket[x].key == k && traces[k] == bucket[x];
        assert bucket'[x] == bucket[x];
      }
    }
  }

  /** The part of a bucket that is read when `names` are left. */
  function Read(bucket: map<string, Trace>, names: set<string>): map<string, Trace> {
    map e | e in bucket && e !in names :: bucket[e]
  }

  lemma NothingRead(bucket: map<string, Trace>)
    ensures LoadsTraces(Read(bucket, bucket.Keys), map[])
  {
  }

  lemma ReadNext(bucket: map<string, Trace>, names: set<string>, traces: map<MediaKey, Trace>, e: string)
    requires e in names && e in bucket && LoadsTraces(Read(bucket, names), traces)
    ensures LoadsTraces(Read(bucket, names - {e}), traces[bucket[e].key := bucket[e]])
  {
    LoadsMoreTraces(Read(bucket, names), traces, e, bucket[e]);
    assert Read(bucket, names - {e}) == Read(bucket, names)[e := bucket[e]];
  }

  lemma ReadsMore(names: set<string>, e: string)
    ensures Readable(names + {e}) == if Decode(e).Some? then Readable(names)[e := Decode(e).value] else Readable(names)
  {
    hide Decode;
  }

  /** One more readable name of the bucket read. */
  lemma LoadsMoreClosed(bucket: map<string, ClosedTrace>, readable: map<string, MediaKey>,
                        closed: map<MediaKey, ClosedTrace>, e: string, k: MediaKey)
    requires LoadsClosed(bucket, readable, closed) && e in bucket && e !in readable
    ensures LoadsClosed(bucket, readable[e := k], closed[k := bucket[e]])
  {
    var readable', closed' := readable[e := k], closed[k := bucket[e]];
    forall l | l in closed'
      ensures exists x :: x in readable' && x in bucket && readable'[x] == l && closed'[l] == bucket[x]
    {
      if l == k {
        assert readable'[e] == k;
      } else {
        var x :| x in readable && x in bucket && readable[x] == l && closed[l] == bucket[x];
        assert readable'[x] == readable[x];
      }
    }
  }

  /** The records of which those under `keys` are not marked yet. */
  function MarkAllBut(traces: map<MediaKey, Trace>, keys: set<MediaKey>): map<MediaKey, Trace> {
    map k | k in traces :: if k in keys then traces[k] else traces[k].(resumed := true)
  }

  lemma MarkNext(traces: map<MediaKey, Trace>, keys: set<MediaKey>, k: MediaKey)
    requires k in traces && k in keys
    ensures MarkAllBut(traces, keys)[k := traces[k].(resumed := true)] == MarkAllBut(traces, keys - {k})
  {
  }

  /** The view after a put, field by field. */
  lemma PutView(table: map<MediaKey, TraceState>, s: TraceState, before: StoreState, after: StoreState)
    requires before.kind.OnDisk? && before.traces == Snaps(table) && after.traces == Snaps(table[s.key := s])
    requires after == before.(traces := after.traces, dlIndex := Indexed(before.dlIndex, s.Snap()),
                              disk := before.disk.(traces := before.disk.traces[Encode(s.key) := Persisted(s.Snap())],
                                                   dlIndex := Indexed(before.disk.dlIndex, s.Snap())))
    ensures after == StoreSpec.Put(before, s.Snap())
  {
    SnapsPut(table, s);
  }

  class BoltStore {
    const db: BoltFile
    const dedupTTL: nat
    const recallTTL: nat
    var byKey: map<MediaKey, TraceState>
    var byDLID: map<string, MediaKey>
    var closed: map<MediaKey, ClosedTrace>

    ghost predicate Valid()
      reads this
    {
      Sorted(byKey)
    }

    ghost function View(): StoreState
      reads this, db, Objects(byKey)
    {
      StoreState(OnDisk, dedupTTL, recallTTL, Snaps(byKey), byDLID, map[], closed, db.disk)
    }

    /** Opens the file and rehydrates the mirror from it. */
    constructor (db: BoltFile, dedupTTL: nat, recallTTL: nat)
      ensures Valid() && this.db == db && fresh(Objects(byKey))
      ensures db.disk == old(db.disk) && Opens(db.disk, dedupTTL, recallTTL, View())
    {
      this.db, this.dedupTTL, this.recallTTL := db, dedupTTL, recallTTL;
      byKey, byDLID, closed := map[], map[], map[];
      new;
      LoadTraces();
      label Loaded:
      byDLID := db.disk.dlIndex;
      LoadClosed();
      SnapsFramed@Loaded(byKey);
    }

    method LoadTraces()
      requires byKey == map[]
      modifies this`byKey
      ensures Valid() && fresh(Objects(byKey)) && LoadsTraces(db.disk.traces, Snaps(byKey))
    {
      var bucket, names := db.disk.traces, db.disk.traces.Keys;
      NothingRead(bucket);
      while names != {}
        invariant names <= bucket.Keys && Valid() && fresh(Objects(byKey))
        invariant LoadsTraces(Read(bucket, names), Snaps(byKey))
      {
        var e :| e in names;
        ReadNext(bucket, names, Snaps(byKey), e);
        Cache(bucket[e]);
        names := names - {e};
      }
      assert Read(bucket, {}) == bucket;
    }

    /** A decoded record joins the mirror. */
    method Cache(t: Trace)
      requires Valid()
      modifies this`byKey
      ensures Valid() && Snaps(byKey) == old(Snaps(byKey))[t.key := t]
      ensures fresh(Objects(byKey) - old(Objects(byKey)))
    {
      var ts := new TraceState(t);
      byKey := byKey[ts.key := ts];
      SnapsFramed(old(byKey));
      SnapsPut(old(byKey), ts);
    }

    /** Names that do not read back as a media key are passed over. */
    method LoadClosed()
      requires closed == map[]
      modifies this`closed
      ensures LoadsClosed(db.disk.closed, Readable(db.disk.closed.Keys), closed)
    {
      var bucket, names := db.disk.closed, db.disk.closed.Keys;
      assert Readable({}) == map[];
      while names != {}
        invariant names <= bucket.Keys
        invariant LoadsClosed(bucket, Readable(bucket.Keys - names), closed)
      {
        var e :| e in names;
        var mk := Decode(e);
        ReadsMore(bucket.Keys - names, e);
        assert bucket.Keys - names + {e} == bucket.Keys - (names - {e});
        if mk.Some? {
          LoadsMoreClosed(bucket, Readable(bucket.Keys - names), closed, e, mk.value);
          closed := closed[mk.value := bucket[e]];
        }
        names := names - {e};
      }
      assert bucket.Keys - {} == bucket.Keys;
    }

    method Get(k: MediaKey) returns (s: TraceState?)
      ensures k in byKey ==> s == byKey[k]
      ensures k !in byKey ==> s == null
    {
      s := if k in byKey then byKey[k] else null;
    }

    method GetByDownloadID(id: string) returns (s: TraceState?)
      ensures var k := ByDownloadID(View(), id); if k.None? then s == null else k.value in byKey && s == byKey[k.value]
    {
      if id == "" || id !in byDLID {
        return null;
      }
      var k := byDLID[id];
      s := if k in byKey then byKey[k] else null;
    }

    method Put(s: TraceState)
      requires Valid()
      modifies this`byKey, this`byDLID, db
      ensures Valid() && View() == StoreSpec.Put(old(View()), s.Snap())
      ensures byKey == old(byKey)[s.key := s]
    {
      byKey := byKey[s.key := s];
      if s.downloadID != "" {
        byDLID := byDLID[s.downloadID := s.key];
      }
      var val, index := Persisted(s.Snap()), db.disk.dlIndex;
      if s.downloadID != "" {
        index := index[s.downloadID := s.key];
      }
      db.disk := db.disk.(traces := db.disk.traces[Encode(s.key) := val], dlIndex := index);
      SnapsFramed(old(byKey));
      PutView(old(byKey), s, old(View()), View());
    }

    method Delete(k: MediaKey)
      requires Valid()
      modifies this`byKey, this`byDLID, db
      ensures Valid() && View() == StoreSpec.Delete(old(View()), k)
      ensures byKey == old(byKey) - {k}
    {
      var dlid := "";
      if k in byKey {
        dlid := byKey[k].downloadID;
      }
      byKey := byKey - {k};
      if dlid != "" {
        byDLID := byDLID - {dlid};
      }
      var index := db.disk.dlIndex;
      if dlid != "" {
        index := index - {dlid};
      }
      db.disk := db.disk.(traces := db.disk.traces - {Encode(k)}, dlIndex := index);
      SnapsFramed(old(byKey));
      SnapsDrop(old(byKey), k);
    }

    method Stale(ttl: int, now: Time) returns (out: seq<MediaKey>)
      ensures E.Lists(out, StaleKeys(View(), ttl, now))
    {
      var cutoff := now - ttl;
      out := [];
      var keys := byKey.Keys;
      while keys != {}
        invariant keys <= byKey.Keys
        invariant E.Lists(out, set k | k in byKey && k !in keys && byKey[k].updatedAt < cutoff)
      {
        var k :| k in keys;
        ListsMore(out, (set l | l in byKey && l !in keys && byKey[l].updatedAt < cutoff), k);
        if byKey[k].updatedAt < cutoff {
          out := out + [k];
        }
        keys := keys - {k};
      }
    }

    method SeenEvent(source: string, id: string, now: Time) returns (first: bool)
      requires Valid()
      modifies db
      ensures View() == StoreSpec.SeenEvent(old(View()), source, id, now)
      ensures first == Accepts(old(View()), source, id, now)
    {
      if id == "" {
        return true;
      }
      var x := source + "|" + id;
      var seen := false;
      var cutoff := now - dedupTTL;
      if x in db.disk.dedup {
        var t := db.disk.dedup[x];
        if t > cutoff {
          seen := true;
        }
      }
      if !seen {
        db.disk := db.disk.(dedup := db.disk.dedup[x := WholeSecond(now)]);
      }
      return !seen;
    }

    method RememberClosed(k: MediaKey, tid: ID, attempt: int, outcome: Outcome, when: Time)
      requires Valid()
      modifies this`closed, db
      ensures View() == StoreSpec.RememberClosed(old(View()), k, ClosedTrace(tid, attempt, outcome, when))
    {
      var ct := ClosedTrace(tid, attempt, outcome, when);
      closed := closed[k := ct];
      db.disk := db.disk.(closed := db.disk.closed[Encode(k) := ct]);
      SnapsFramed(byKey);
    }

    method RecallClosed(k: MediaKey, now: Time) returns (c: Option<ClosedTrace>)
      requires Valid()
      modifies this`closed, db
      ensures View() == StoreSpec.RecallClosed(old(View()), k, now)
      ensures c == Recalled(old(View()), k, now)
    {
      c := if k in closed then Some(closed[k]) else None;
      if c.None? && k.mediaType == TYPE_TV {
        if k.SeriesKey() in closed {
          c := Some(closed[k.SeriesKey()]);
        }
      }
      if c.None? {
        return;
      }
      if c.value.closedAt < now - recallTTL {
        closed := closed - {k};
        db.disk := db.disk.(closed := db.disk.closed - {Encode(k)});
        SnapsFramed(byKey);
        return None;
      }
    }

    method Mark(k: MediaKey)
      requires Valid() && k in byKey
      modifies byKey[k]
      ensures Snaps(byKey) == old(Snaps(byKey))[k := old(Snaps(byKey))[k].(resumed := true)]
    {
      var ts := byKey[k];
      ts.resumed := true;
      SnapsAmended(old(Snaps(byKey)), byKey, k);
    }

    /** Every record, each marked as resumed. */
    method LoadAll() returns (out: seq<TraceState>)
      requires Valid()
      modifies Objects(byKey)
      ensures View() == StoreSpec.LoadAll(old(View()))
      ensures Entries(byKey, out) && E.Lists(KeysOf(out), byKey.Keys)
    {
      out := [];
      var keys := byKey.Keys;
      while keys != {}
        invariant keys <= byKey.Keys
        invariant Entries(byKey, out) && E.Lists(KeysOf(out), byKey.Keys - keys)
        invariant Snaps(byKey) == MarkAllBut(old(Snaps(byKey)), keys)
      {
        var k :| k in keys;
        EntriesMore(byKey, out, keys, k);
        MarkNext(old(Snaps(byKey)), keys, k);
        Mark(k);
        out := out + [byKey[k]];
        keys := keys - {k};
      }
      assert MarkAllBut(old(Snaps(byKey)), {}) == MarkResumed(old(Snaps(byKey)));
    }
  }
}
