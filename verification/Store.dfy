/** The store interface: either implementation behind the same operations. */
module Stores {
  import opened Types
  import opened StoreSpec
  import opened TraceRecords
  import opened MemoryStores
  import opened BoltStores
  import E = EngineSpec

  datatype Store = Memory(memory: MemoryStore) | Bolt(bolt: BoltStore) {

    /** The store's own objects, without the records. */
    ghost function Base(): set<object> {
      match this
      case Memory(m) => {m}
      case Bolt(b) => {b, b.db}
    }

    function Table(): map<MediaKey, TraceState>
      reads Base()
    {
      match this
      case Memory(m) => m.byKey
      case Bolt(b) => b.byKey
    }

    ghost function Repr(): set<object>
      reads Base()
    {
      Base() + Objects(Table())
    }

    ghost predicate Valid()
      reads Base()
    {
      Sorted(Table())
    }

    ghost function View(): StoreState
      reads Repr()
    {
      match this
      case Memory(m) => m.View()
      case Bolt(b) => b.View()
    }

    lemma ViewTraces()
      ensures View().traces == Snaps(Table())
    {
    }

    /** Changing nothing of the store leaves its view. */
    twostate lemma Framed()
      requires unchanged(Base()) && unchanged(Objects(Table()))
      ensures View() == old(View())
    {
      SnapsFramed(Table());
    }

    /** An in-place change of one record. */
    twostate lemma Amended(t: TraceState)
      requires Valid() && t.key in Table() && Table()[t.key] == t
      requires unchanged(Base()) && unchanged(Objects(Table()) - {t})
      ensures View() == SetTrace(old(View()), t.key, t.Snap())
    {
      SnapsAmended(old(Snaps(Table())), Table(), t.key);
    }

    method Get(k: MediaKey) returns (s: TraceState?)
      ensures k in Table() ==> s == Table()[k]
      ensures k !in Table() ==> s == null
    {
      match this
      case Memory(m) => s := m.Get(k);
      case Bolt(b) => s := b.Get(k);
    }

    method GetByDownloadID(id: string) returns (s: TraceState?)
      ensures var k := ByDownloadID(View(), id);
              if k.None? then s == null else k.value in Table() && s == Table()[k.value]
    {
      match this
      case Memory(m) => s := m.GetByDownloadID(id);
      case Bolt(b) => s := b.GetByDownloadID(id);
    }

    method Put(s: TraceState)
      requires Valid()
      modifies Base()
      ensures Valid() && View() == StoreSpec.Put(old(View()), s.Snap())
      ensures Table() == old(Table())[s.key := s]
    {
      match this
      case Memory(m) => m.Put(s);
      case Bolt(b) => b.Put(s);
    }

    method Delete(k: MediaKey)
      requires Valid()
      modifies Base()
      ensures Valid() && View() == StoreSpec.Delete(old(View()), k)
      ensures Table() == old(Table()) - {k}
    {
      match this
      case Memory(m) => m.Delete(k);
      case Bolt(b) => b.Delete(k);
    }

    method Stale(ttl: int, now: Time) returns (out: seq<MediaKey>)
      ensures E.Lists(out, StaleKeys(View(), ttl, now))
    {
      match this
      case Memory(m) => out := m.Stale(ttl, now);
      case Bolt(b) => out := b.Stale(ttl, now);
    }

    method SeenEvent(source: string, id: string, now: Time) returns (first: bool)
      requires Valid()
      modifies Base()
      ensures Valid() && View() == StoreSpec.SeenEvent(old(View()), source, id, now)
      ensures first == Accepts(old(View()), source, id, now)
      ensures Table() == old(Table())
    {
      match this
      case Memory(m) => first := m.SeenEvent(source, id, now);
      case Bolt(b) => first := b.SeenEvent(source, id, now);
    }

    method RememberClosed(k: MediaKey, tid: ID, attempt: int, outcome: Outcome, when: Time)
      requires Valid()
      modifies Base()
      ensures Valid() && View() == StoreSpec.RememberClosed(old(View()), k, ClosedTrace(tid, attempt, outcome, when))
      ensures Table() == old(Table())
    {
      match this
      case Memory(m) => m.RememberClosed(k, tid, attempt, outcome, when);
      case Bolt(b) => b.RememberClosed(k, tid, attempt, outcome, when);
    }

    method RecallClosed(k: MediaKey, now: Time) returns (c: Option<ClosedTrace>)
      requires Valid()
      modifies Base()
      ensures Valid() && View() == StoreSpec.RecallClosed(old(View()), k, now)
      ensures c == Recalled(old(View()), k, now)
      ensures Table() == old(Table())
    {
      match this
      case Memory(m) => c := m.RecallClosed(k, now);
      case Bolt(b) => c := b.RecallClosed(k, now);
    }

    method LoadAll() returns (out: seq<TraceState>)
      requires Valid()
      modifies Objects(Table())
      ensures View() == StoreSpec.LoadAll(old(View()))
      ensures Entries(Table(), out) && E.Lists(KeysOf(out), Table().Keys)
    {
      match this
      case Memory(m) => out := m.LoadAll();
      case Bolt(b) => out := b.LoadAll();
    }
  }
}
