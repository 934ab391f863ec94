/** The in-memory store, with its opportunistic collections. */
module MemoryStores {
  import opened Types
  import opened StoreSpec
  import opened TraceRecords
  import E = EngineSpec

  class MemoryStore {
    const dedupTTL: nat
    const recallTTL: nat
    var byKey: map<MediaKey, TraceState>
    var byDLID: map<string, MediaKey>
    var dedup: map<string, Time>
    var closed: map<MediaKey, ClosedTrace>

    ghost predicate Valid()
      reads this
    {
      Sorted(byKey)
    }

    ghost function View(): StoreState
      reads this, Objects(byKey)
    {
      StoreState(InMemory, dedupTTL, recallTTL, Snaps(byKey), byDLID, dedup, closed, EMPTY_DISK)
    }

    constructor (dedupTTL: nat, recallTTL: nat)
      ensures Valid() && byKey == map[] && View() == EmptyStore(InMemory, dedupTTL, recallTTL)
    {
      this.dedupTTL, this.recallTTL := dedupTTL, recallTTL;
      byKey, byDLID, dedup, closed := map[], map[], map[], map[];
    }

    method Get(k: MediaKey) returns (s: TraceState?)
      ensures k in byKey ==> s == byKey[k]
      ensures k !in byKey ==> s == null
    {
      s := if k in byKey then byKey[k] else null;
    }

    method GetByDownloadID(id: string) returns (s: TraceState?)
      ensures var k := ByDownloadID(View(), id); if k.None? then s == null else k.value in byKey && s == byKey[k.value]
    {
      if id == "" || id !in byDLID {
        return null;
      }
      var k := byDLID[id];
      s := if k in byKey then byKey[k] else null;
    }

    method Put(s: TraceState)
      requires Valid()
      modifies this`byKey, this`byDLID
      ensures Valid() && View() == StoreSpec.Put(old(View()), s.Snap())
      ensures byKey == old(byKey)[s.key := s]
    {
      byKey := byKey[s.key := s];
      if s.downloadID != "" {
        byDLID := byDLID[s.downloadID := s.key];
      }
      SnapsFramed(old(byKey));
      SnapsPut(old(byKey), s);
    }

    method Delete(k: MediaKey)
      requires Valid()
      modifies this`byKey, this`byDLID
      ensures Valid() && View() == StoreSpec.Delete(old(View()), k)
      ensures byKey == old(byKey) - {k}
    {
      if k in byKey && byKey[k].downloadID != "" {
        byDLID := byDLID - {byKey[k].downloadID};
      }
      byKey := byKey - {k};
      SnapsFramed(old(byKey));
      SnapsDrop(old(byKey), k);
    }

    method Stale(ttl: int, now: Time) returns (out: seq<MediaKey>)
      ensures E.Lists(out, StaleKeys(View(), ttl, now))
    {
      var cutoff := now - ttl;
      out := [];
      var keys := byKey.Keys;
      while keys != {}
        invariant keys <= byKey.Keys
        invariant E.Lists(out, set k | k in byKey && k !in keys && byKey[k].updatedAt < cutoff)
      {
        var k :| k in keys;
        ListsMore(out, (set l | l in byKey && l !in keys && byKey[l].updatedAt < cutoff), k);
        if byKey[k].updatedAt < cutoff {
          out := out + [k];
        }
        keys := keys - {k};
      }
    }

    method RememberClosed(k: MediaKey, tid: ID, attempt: int, outcome: Outcome, when: Time)
      requires Valid()
      modifies this`closed
      ensures View() == StoreSpec.RememberClosed(old(View()), k, ClosedTrace(tid, attempt, outcome, when))
    {
      var cutoff := when - recallTTL;
      var keys := closed.Keys;
      while keys != {}
        invariant keys <= old(closed.Keys)
        invariant closed == map l | l in old(closed) && (l in keys || old(closed)[l].closedAt >= cutoff) ::
                            old(closed)[l]
      {
        var l :| l in keys;
        if closed[l].closedAt < cutoff {
          closed := closed - {l};
        }
        keys := keys - {l};
      }
      closed := closed[k := ClosedTrace(tid, attempt, outcome, when)];
      SnapsFramed(byKey);
    }

    method RecallClosed(k: MediaKey, now: Time) returns (c: Option<ClosedTrace>)
      requires Valid()
      modifies this`closed
      ensures View() == StoreSpec.RecallClosed(old(View()), k, now)
      ensures c == Recalled(old(View()), k, now)
    {
      c := if k in closed then Some(closed[k]) else None;
      if c.None? {
        if k.mediaType == TYPE_TV {
          if k.SeriesKey() in closed {
            c := Some(closed[k.SeriesKey()]);
          }
        }
      }
      if c.None? {
        return;
      }
      if c.value.closedAt < now - recallTTL {
        closed := closed - {k};
        SnapsFramed(byKey);
        return None;
      }
    }

    method SeenEvent(source: string, id: string, now: Time) returns (first: bool)
      requires Valid()
      modifies this`dedup
      ensures View() == StoreSpec.SeenEvent(old(View()), source, id, now)
      ensures first == Accepts(old(View()), source, id, now)
    {
      if id == "" {
        return true;
      }
      var cutoff := now - dedupTTL;
      var xs := dedup.Keys;
      while xs != {}
        invariant xs <= old(dedup.Keys)
        invariant dedup == map x | x in old(dedup) && (x in xs || old(dedup)[x] >= cutoff) :: old(dedup)[x]
      {
        var x :| x in xs;
        if dedup[x] < cutoff {
          dedup := dedup - {x};
        }
        xs := xs - {x};
      }
      var x := source + "|" + id;
      assert dedup == Fresh(old(dedup), cutoff);
      SnapsFramed(byKey);
      if x in dedup {
        return false;
      }
      dedup := dedup[x := now];
      SnapsFramed(byKey);
      return true;
    }

    method LoadAll() returns (out: seq<TraceState>)
      requires Valid()
      ensures Entries(byKey, out) && E.Lists(KeysOf(out), byKey.Keys)
    {
      out := [];
      var keys := byKey.Keys;
      while keys != {}
        invariant keys <= byKey.Keys
        invariant Entries(byKey, out) && E.Lists(KeysOf(out), byKey.Keys - keys)
      {
        var k :| k in keys;
        EntriesMore(byKey, out, keys, k);
        out := out + [byKey[k]];
        keys := keys - {k};
      }
    }
  }
}
