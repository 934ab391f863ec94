/** What each Store operation does, as functions on the value of a store. */
module StoreSpec {
  import opened Types
  import opened MediaKeys

  datatype StoreKind = InMemory | OnDisk

  /** The four buckets of the database file. Dedup times are whole Unix seconds, kept here as instants. */
  datatype Disk = Disk(
    traces: map<string, Trace>, dlIndex: map<string, MediaKey>,
    dedup: map<string, Time>, closed: map<string, ClosedTrace>)

  const EMPTY_DISK := Disk(map[], map[], map[], map[])

  /** `dedup` is used by the in-memory store only, `disk` by the on-disk store only. */
  datatype StoreState = StoreState(
    kind: StoreKind, dedupTTL: nat, recallTTL: nat,
    traces: map<MediaKey, Trace>, dlIndex: map<string, MediaKey>,
    dedup: map<string, Time>, closed: map<MediaKey, ClosedTrace>, disk: Disk)

  function EmptyStore(kind: StoreKind, dedupTTL: nat, recallTTL: nat): StoreState {
    StoreState(kind, dedupTTL, recallTTL, map[], map[], map[], map[], EMPTY_DISK)
  }

  /** What survives the JSON round trip of a trace record. */
  function Persisted(t: Trace): Trace {
    t.(resumed := false)
  }

  function Indexed(index: map<string, MediaKey>, t: Trace): map<string, MediaKey> {
    if t.downloadID == "" then index else index[t.downloadID := t.key]
  }

  function Unindexed(index: map<string, MediaKey>, id: string): map<string, MediaKey> {
    if id == "" then index else index - {id}
  }

  /** The record of the trace at `k` after an in-place change of the shared object. */
  function SetTrace(st: StoreState, k: MediaKey, t: Trace): StoreState {
    st.(traces := st.traces[k := t])
  }

  function Put(st: StoreState, t: Trace): StoreState {
    var st1 := st.(traces := st.traces[t.key := t], dlIndex := Indexed(st.dlIndex, t));
    if st.kind.InMemory? then st1
    else st1.(disk := st.disk.(traces := st.disk.traces[Encode(t.key) := Persisted(t)],
                               dlIndex := Indexed(st.disk.dlIndex, t)))
  }

  function Delete(st: StoreState, k: MediaKey): StoreState {
    var id := if k in st.traces then st.traces[k].downloadID else "";
    var st1 := st.(traces := st.traces - {k}, dlIndex := Unindexed(st.dlIndex, id));
    if st.kind.InMemory? then st1
    else st1.(disk := st.disk.(traces := st.disk.traces - {Encode(k)},
                               dlIndex := Unindexed(st.disk.dlIndex, id)))
  }

  /** The key of the live trace that the download index names for `id`. */
  function ByDownloadID(st: StoreState, id: string): Option<MediaKey> {
    if id != "" && id in st.dlIndex && st.dlIndex[id] in st.traces then Some(st.dlIndex[id]) else None
  }

  function StaleKeys(st: StoreState, ttl: int, now: Time): set<MediaKey> {
    set k | k in st.traces && st.traces[k].updatedAt < now - ttl
  }

  function DedupKey(source: string, id: string): string {
    source + "|" + id
  }

  /** The entries that survive the opportunistic garbage collection at `cutoff`. */
  function Fresh(dedup: map<string, Time>, cutoff: Time): map<string, Time> {
    map x | x in dedup && dedup[x] >= cutoff :: dedup[x]
  }

  predicate Accepts(st: StoreState, source: string, id: string, now: Time) {
    var x := DedupKey(source, id);
    if id == "" then true
    else if st.kind.InMemory? then !(x in st.dedup && st.dedup[x] >= now - st.dedupTTL)
    else !(x in st.disk.dedup && st.disk.dedup[x] > now - st.dedupTTL)
  }

  function SeenEvent(st: StoreState, source: string, id: string, now: Time): StoreState {
    var x := DedupKey(source, id);
    var accepted := Accepts(st, source, id, now);
    if id == "" then st
    else if st.kind.InMemory? then
      var kept := Fresh(st.dedup, now - st.dedupTTL);
      st.(dedup := if accepted then kept[x := now] else kept)
    else if accepted then st.(disk := st.disk.(dedup := st.disk.dedup[x := WholeSecond(now)]))
    else st
  }

  function Unexpired(closed: map<MediaKey, ClosedTrace>, cutoff: Time): map<MediaKey, ClosedTrace> {
    map k | k in closed && closed[k].closedAt >= cutoff :: closed[k]
  }

  function RememberClosed(st: StoreState, k: MediaKey, c: ClosedTrace): StoreState {
    if st.kind.InMemory? then
      st.(closed := Unexpired(st.closed, c.closedAt - st.recallTTL)[k := c])
    else
      st.(closed := st.closed[k := c], disk := st.disk.(closed := st.disk.closed[Encode(k) := c]))
  }

  /** The record that recall looks at: the key's own, else for TV the series' one. */
  function ClosedRecord(closed: map<MediaKey, ClosedTrace>, k: MediaKey): Option<ClosedTrace> {
    if k in closed then Some(closed[k])
    else if k.mediaType == TYPE_TV && k.SeriesKey() in closed then Some(closed[k.SeriesKey()])
    else None
  }

  function Recalled(st: StoreState, k: MediaKey, now: Time): Option<ClosedTrace> {
    match ClosedRecord(st.closed, k)
    case None => None
    case Some(c) => if c.closedAt < now - st.recallTTL then None else Some(c)
  }

  /** Recall drops the entry at `k`, and only that one, when the record it looked at has expired. */
  function RecallClosed(st: StoreState, k: MediaKey, now: Time): StoreState {
    if ClosedRecord(st.closed, k).None? || Recalled(st, k, now).Some? then st
    else
      var st1 := st.(closed := st.closed - {k});
      if st.kind.InMemory? then st1
      else st1.(disk := st.disk.(closed := st.disk.closed - {Encode(k)}))
  }

  function MarkResumed(traces: map<MediaKey, Trace>): map<MediaKey, Trace> {
    map k | k in traces :: traces[k].(resumed := true)
  }

  /** LoadAll of the on-disk store marks every record; that of the in-memory store does not. */
  function LoadAll(st: StoreState): StoreState {
    if st.kind.InMemory? then st else st.(traces := MarkResumed(st.traces))
  }

  // ---------- opening a database file ----------

  /** The traces `load` ends up with: for every record on disk, one under its own key. */
  ghost predicate LoadsTraces(bucket: map<string, Trace>, traces: map<MediaKey, Trace>) {
    && (forall e :: e in bucket ==> bucket[e].key in traces)
    && (forall k :: k in traces ==> exists e :: e in bucket && bucket[e].key == k && traces[k] == bucket[e])
  }

  /** The names in a bucket that read back as media keys, and the keys they read back as. */
  ghost function Readable(names: set<string>): map<string, MediaKey> {
    map e | e in names && Decode(e).Some? :: Decode(e).value
  }

  /** The closed table `load` ends up with: for every readable name on disk, one under the key it reads as. */
  ghost predicate LoadsClosed(bucket: map<string, ClosedTrace>, readable: map<string, MediaKey>,
                              closed: map<MediaKey, ClosedTrace>) {
    && (forall e :: e in readable ==> readable[e] in closed)
    && (forall k :: k in closed ==>
          exists e :: e in readable && e in bucket && readable[e] == k && closed[k] == bucket[e])
  }

  /** `st` is what opening the file `disk` gives. */
  ghost predicate Opens(disk: Disk, dedupTTL: nat, recallTTL: nat, st: StoreState) {
    && st.kind.OnDisk? && st.dedupTTL == dedupTTL && st.recallTTL == recallTTL
    && st.disk == disk && st.dedup == map[]
    && LoadsTraces(disk.traces, st.traces)
    && st.dlIndex == disk.dlIndex
    && LoadsClosed(disk.closed, Readable(disk.closed.Keys), st.closed)
  }
}
