/** The per-trace record as an object: the store holds it, the engine changes it in place. */
module TraceRecords {
  import opened Types
  import E = EngineSpec

  class TraceState {
    // Set when the trace is opened and never assigned again.
    const key: MediaKey
    const traceID: ID
    const rootSpanID: ID
    const attempt: int
    const source: string
    const openedAt: Time
    const title: string
    const requestID: string
    const requestedBy: string

    var updatedAt: Time
    var grabSpanID: ID
    var hasGrab: bool
    var downloadSpanID: ID
    var hasDownload: bool
    var searchStart: Time
    var downloadStartedAt: Time
    var downloadID: string
    var lastError: string
    var resumed: bool

    constructor (t: Trace)
      ensures Snap() == t
    {
      key, traceID, rootSpanID, attempt := t.key, t.traceID, t.rootSpanID, t.attempt;
      source, openedAt, updatedAt, searchStart := t.source, t.openedAt, t.updatedAt, t.searchStart;
      title, requestID, requestedBy := t.title, t.requestID, t.requestedBy;
      grabSpanID, hasGrab, downloadSpanID, hasDownload := t.grabSpanID, t.hasGrab, t.downloadSpanID, t.hasDownload;
      downloadStartedAt, downloadID, lastError, resumed := t.downloadStartedAt, t.downloadID, t.lastError, t.resumed;
    }

    /** The value of the record now. */
    function Snap(): Trace
      reads this
    {
      Trace(key, traceID, rootSpanID, attempt, source, openedAt, updatedAt, grabSpanID, hasGrab,
            downloadSpanID, hasDownload, searchStart, downloadStartedAt, downloadID, lastError,
            title, requestID, requestedBy, resumed)
    }
  }

  /** A table of records, each under its own key: so no two keys share an object. */
  predicate Sorted(table: map<MediaKey, TraceState>) {
    forall k :: k in table ==> table[k].key == k
  }

  function Objects(table: map<MediaKey, TraceState>): set<TraceState> {
    set k | k in table :: table[k]
  }

  /** The values of all records. */
  function Snaps(table: map<MediaKey, TraceState>): map<MediaKey, Trace>
    reads Objects(table)
  {
    map k | k in table :: table[k].Snap()
  }

  lemma SnapsPut(table: map<MediaKey, TraceState>, t: TraceState)
    ensures Snaps(table[t.key := t]) == Snaps(table)[t.key := t.Snap()]
  {
  }

  lemma SnapsDrop(table: map<MediaKey, TraceState>, k: MediaKey)
    ensures Snaps(table - {k}) == Snaps(table) - {k}
  {
  }

  /** The keys of a list of records, in order. */
  function KeysOf(records: seq<TraceState>): (keys: seq<MediaKey>)
    ensures |keys| == |records| && forall i :: 0 <= i < |keys| ==> keys[i] == records[i].key
  {
    if records == [] then [] else KeysOf(records[..|records| - 1]) + [records[|records| - 1].key]
  }

  /** A listing with one more element. */
  lemma ListsMore(order: seq<MediaKey>, keys: set<MediaKey>, k: MediaKey)
    requires E.Lists(order, keys) && k !in keys
    ensures E.Lists(order + [k], keys + {k})
  {
  }

  /** Every listed record is the table's entry for its key. */
  predicate Entries(table: map<MediaKey, TraceState>, records: seq<TraceState>) {
    forall i :: 0 <= i < |records| ==> records[i].key in table && table[records[i].key] == records[i]
  }

  /** A listing of the entries outside `keys`, with one of `keys` more. */
  lemma EntriesMore(table: map<MediaKey, TraceState>, records: seq<TraceState>, keys: set<MediaKey>, k: MediaKey)
    requires Sorted(table) && k in table && k in keys && keys <= table.Keys
    requires Entries(table, records) && E.Lists(KeysOf(records), table.Keys - keys)
    ensures Entries(table, records + [table[k]])
    ensures E.Lists(KeysOf(records + [table[k]]), table.Keys - (keys - {k}))
  {
    ListsMore(KeysOf(records), table.Keys - keys, k);
    assert KeysOf(records + [table[k]]) == KeysOf(records) + [k];
    assert table.Keys - (keys - {k}) == table.Keys - keys + {k};
  }

  /** Leaving the objects alone leaves their values. */
  twostate lemma SnapsFramed(table: map<MediaKey, TraceState>)
    requires unchanged(Objects(table))
    ensures Snaps(table) == old(Snaps(table))
  {
  }

  /** Values that agree with the table but for one key: an object changed in place. */
  lemma SnapsAmended(before: map<MediaKey, Trace>, table: map<MediaKey, TraceState>, k: MediaKey)
    requires k in table && before.Keys == table.Keys
    requires forall l :: l in table && l != k ==> before[l] == table[l].Snap()
    ensures Snaps(table) == before[k := table[k].Snap()]
  {
  }
}
