/**
 * What one Sonarr delivery becomes: an event per episode, all carrying the same release. Delivered to
 * the live trace of the series, a season pack supersedes its own grabs down to the last one.
 */
module Sonarr {
  import opened Types
  import opened MediaKeys
  import opened StoreSpec
  import opened SpanSpec
  import opened EngineSpec
  import opened StoreChanges
  import opened CrashRecovery
  import opened SpanMonitor
  import opened SpanDiscipline
  import opened Dedup

  datatype Episode = Episode(number: int, season: int, title: string)

  datatype Payload = Payload(
    eventType: string, seriesTitle: string, tvdbID: int, tmdbID: int, episodes: seq<Episode>,
    quality: string, releaseGroup: string, releaseTitle: string, indexer: string, size: int, customFormatScore: int,
    relativePath: string, path: string, fileSize: int, videoCodec: string, resolution: string,
    downloadClient: string, downloadClientType: string, downloadID: string, isUpgrade: bool)

  datatype Parse = MissingEventType | Events(events: seq<Event>)

  // ---------- the protocol of a download client ----------

  /** Go's ToLower, as far as it can produce an ASCII letter: beside A to Z, two letters lower to `i` and `k`. */
  function LowerChar(c: char): char {
    if 'A' <= c <= 'Z' then 'a' + (c - 'A')
    else if c == '\U{0130}' then 'i'
    else if c == '\U{212A}' then 'k'
    else c
  }

  function ToLower(s: string): string {
    seq(|s|, i requires 0 <= i < |s| => LowerChar(s[i]))
  }

  function ArrProtocol(clientType: string): string {
    var c := ToLower(clientType);
    if c in ["nzbget", "sabnzbd", "usenet", "nzbvortex"] then "usenet"
    else if c in ["qbittorrent", "deluge", "transmission", "rtorrent", "torrent"] then "torrent"
    else ""
  }

  // ---------- event IDs ----------

  /** `n` is the season and episode, or None on the movie path. */
  function EventID(downloadID: string, kind: string, n: Option<(int, int)>): string {
    match n
    case None => downloadID + ":" + kind
    case Some((season, episode)) => downloadID + ":" + kind + ":" + IntText(season) + ":" + IntText(episode)
  }

  predicate Kind(kind: string) {
    kind == "grab" || kind == "import" || kind == "manual"
  }

  lemma KindNotNumeral(kind: string, n: int)
    requires Kind(kind)
    ensures kind != IntText(n) && ':' !in kind
  {
    if n < 0 {
      assert IntText(n)[0] == '-';
    } else {
      NatTextValue(n);
      assert !IsDigit(kind[0]);
      assert IsDigit(IntText(n)[0]);
    }
  }

  /** The ID tells download, kind, season and episode apart, whatever the download ID contains. */
  lemma EventIDInjective(d: string, kind: string, n: Option<(int, int)>,
                         d': string, kind': string, n': Option<(int, int)>)
    requires Kind(kind) && Kind(kind') && EventID(d, kind, n) == EventID(d', kind', n')
    ensures d == d' && kind == kind' && n == n'
  {
    match (n, n') {
      case (None, None) =>
        LastFieldUnique(d, d', kind, kind', ':');
      case (Some((s, e)), Some((s', e'))) =>
        NumberedUnique(d + ":" + kind, s, e, d' + ":" + kind', s', e');
        LastFieldUnique(d, d', kind, kind', ':');
      case (None, Some((s, e))) =>
        NumberedApart(d, kind, d' + ":" + kind', s, e);
      case (Some((s, e)), None) =>
        NumberedApart(d', kind', d + ":" + kind, s, e);
    }
  }

  lemma NumberedUnique(a: string, s: int, e: int, a': string, s': int, e': int)
    requires a + ":" + IntText(s) + ":" + IntText(e) == a' + ":" + IntText(s') + ":" + IntText(e')
    ensures a == a' && s == s' && e == e'
  {
    IntTextShape(s); IntTextShape(e); IntTextShape(s'); IntTextShape(e');
    LastFieldUnique(a + ":" + IntText(s), a' + ":" + IntText(s'), IntText(e), IntText(e'), ':');
    LastFieldUnique(a, a', IntText(s), IntText(s'), ':');
    IntTextInjective(s, s');
    IntTextInjective(e, e');
  }

  lemma NumberedApart(d: string, kind: string, a: string, s: int, e: int)
    requires Kind(kind)
    ensures d + ":" + kind != a + ":" + IntText(s) + ":" + IntText(e)
  {
    IntTextShape(e);
    KindNotNumeral(kind, e);
    if d + ":" + kind == a + ":" + IntText(s) + ":" + IntText(e) {
      LastFieldUnique(d, a + ":" + IntText(s), kind, IntText(e), ':');
    }
  }

  // ---------- what a payload stands for ----------

  function MovieKey(p: Payload): MediaKey {
    MediaKey(TYPE_MOVIE, p.tmdbID, 0, 0, 0)
  }

  function EpisodeKey(p: Payload, ep: Episode): MediaKey {
    MediaKey(TYPE_TV, p.tmdbID, p.tvdbID, ep.season, ep.number)
  }

  function SeriesKeyOf(p: Payload): MediaKey {
    MediaKey(TYPE_TV, p.tmdbID, p.tvdbID, 0, 0)
  }

  function RefOf(ep: Episode): EpisodeRef {
    EpisodeRef(0, ep.season, ep.number, ep.title)
  }

  function ReleaseOf(p: Payload): Release {
    Release(p.releaseTitle, p.indexer, p.releaseGroup, p.quality, "", p.size, p.customFormatScore,
            p.downloadClient, p.downloadID, ArrProtocol(p.downloadClientType),
            seq(|p.episodes|, i requires 0 <= i < |p.episodes| => RefOf(p.episodes[i])), p.isUpgrade)
  }

  function ImportPath(p: Payload): string {
    if p.path == "" then p.relativePath else p.path
  }

  function GrabEvent(p: Payload, source: string, now: Time, key: MediaKey, n: Option<(int, int)>): Event {
    Event(source, Grabbed, now, key, p.seriesTitle, OtherOutcome(""), ReleaseOf(p), "", "", "", 0, "", "", "",
          EventID(p.downloadID, "grab", n))
  }

  function ImportEvent(p: Payload, source: string, now: Time, key: MediaKey, n: Option<(int, int)>): Event {
    Event(source, Imported, now, key, p.seriesTitle, OtherOutcome(""), NO_RELEASE, "", "",
          ImportPath(p), p.fileSize, p.videoCodec, p.resolution, "", EventID(p.downloadID, "import", n))
  }

  function ManualEvent(p: Payload, source: string, now: Time, key: MediaKey, n: Option<(int, int)>): Event {
    Event(source, ManualNeeded, now, key, p.seriesTitle, OtherOutcome(""), NO_RELEASE, "", "", "", 0, "", "", "",
          EventID(p.downloadID, "manual", n))
  }

  /** One event per episode, in order; without episodes, one event for the movie. */
  ghost predicate OnePerEpisode(p: Payload, make: (MediaKey, Option<(int, int)>) -> Event, out: seq<Event>) {
    if p.episodes == [] then out == [make(MovieKey(p), None)]
    else
      && |out| == |p.episodes|
      && forall i :: 0 <= i < |out| ==>
           out[i] == make(EpisodeKey(p, p.episodes[i]), Some((p.episodes[i].season, p.episodes[i].number)))
  }

  // ---------- and field by field ----------

  /** The event is for this season and episode of the payload's series, or for the movie if there is none. */
  predicate IsFor(ev: Event, p: Payload, n: Option<(int, int)>, suffix: string) {
    && ev.key.tmdb == p.tmdbID && ev.title == p.seriesTitle
    && match n
       case None =>
         && ev.key.mediaType == "movie" && ev.key.tvdb == 0 && ev.key.season == 0 && ev.key.episode == 0
         && ev.eventID == p.downloadID + suffix
       case Some((season, episode)) =>
         && ev.key.mediaType == "tv" && ev.key.tvdb == p.tvdbID && ev.key.season == season && ev.key.episode == episode
         && ev.eventID == p.downloadID + suffix + ":" + IntText(season) + ":" + IntText(episode)
  }

  /** The release is the payload's, and lists all its episodes. */
  predicate IsRelease(r: Release, p: Payload) {
    && r.title == p.releaseTitle && r.indexer == p.indexer && r.group == p.releaseGroup && r.quality == p.quality
    && r.sizeBytes == p.size && r.customFormatScore == p.customFormatScore && r.downloadClient == p.downloadClient
    && r.downloadID == p.downloadID && r.isUpgrade == p.isUpgrade && |r.episodes| == |p.episodes|
    && forall i :: 0 <= i < |p.episodes| ==>
         && r.episodes[i].season == p.episodes[i].season && r.episodes[i].episode == p.episodes[i].number
         && r.episodes[i].title == p.episodes[i].title
  }

  predicate IsGrab(ev: Event, p: Payload, source: string, now: Time) {
    ev.phase == Grabbed && ev.source == source && ev.occurredAt == now && IsRelease(ev.release, p)
  }

  predicate IsImport(ev: Event, p: Payload, source: string, now: Time) {
    && ev.phase == Imported && ev.source == source && ev.occurredAt == now
    && ev.fileSizeBytes == p.fileSize && ev.codec == p.videoCodec && ev.resolution == p.resolution
    && (p.path != "" ==> ev.importPath == p.path) && (p.path == "" ==> ev.importPath == p.relativePath)
  }

  predicate IsManual(ev: Event, source: string, now: Time) {
    ev.phase == ManualNeeded && ev.source == source && ev.occurredAt == now
  }

  /** One event for each episode, in order; without episodes one for the movie. */
  predicate ForEach(p: Payload, suffix: string, out: seq<Event>) {
    if |p.episodes| == 0 then |out| == 1 && IsFor(out[0], p, None, suffix)
    else
      && |out| == |p.episodes|
      && forall i :: 0 <= i < |out| ==>
           IsFor(out[i], p, Some((p.episodes[i].season, p.episodes[i].number)), suffix)
  }

  predicate AreGrabs(p: Payload, source: string, now: Time, out: seq<Event>) {
    ForEach(p, ":grab", out) && forall i :: 0 <= i < |out| ==> IsGrab(out[i], p, source, now)
  }

  predicate AreImports(p: Payload, source: string, now: Time, out: seq<Event>) {
    ForEach(p, ":import", out) && forall i :: 0 <= i < |out| ==> IsImport(out[i], p, source, now)
  }

  predicate AreManual(p: Payload, source: string, now: Time, out: seq<Event>) {
    ForEach(p, ":manual", out) && forall i :: 0 <= i < |out| ==> IsManual(out[i], source, now)
  }

  lemma ReleaseFields(p: Payload)
    ensures IsRelease(ReleaseOf(p), p)
  {
  }

  lemma EpisodeFields(ev: Event, p: Payload, ep: Episode, kind: string, suffix: string)
    requires ev.key == EpisodeKey(p, ep) && ev.title == p.seriesTitle && suffix == ":" + kind
    requires ev.eventID == EventID(p.downloadID, kind, Some((ep.season, ep.number)))
    ensures IsFor(ev, p, Some((ep.season, ep.number)), suffix)
  {
    hide IntText;
    assert p.downloadID + ":" + kind == p.downloadID + suffix;
  }

  lemma MovieFields(ev: Event, p: Payload, kind: string, suffix: string)
    requires ev.key == MovieKey(p) && ev.title == p.seriesTitle && suffix == ":" + kind
    requires ev.eventID == EventID(p.downloadID, kind, None)
    ensures IsFor(ev, p, None, suffix)
  {
    assert p.downloadID + ":" + kind == p.downloadID + suffix;
  }

  lemma GrabFields(p: Payload, source: string, now: Time, out: seq<Event>)
    requires OnePerEpisode(p, (k, n) => GrabEvent(p, source, now, k, n), out)
    ensures AreGrabs(p, source, now, out)
  {
    hide EventID, IsFor, EpisodeKey, MovieKey, ReleaseOf, IsRelease;
    ReleaseFields(p);
    assert ":grab" == ":" + "grab";
    if p.episodes == [] {
      MovieFields(out[0], p, "grab", ":grab");
    } else {
      forall i | 0 <= i < |p.episodes|
        ensures IsFor(out[i], p, Some((p.episodes[i].season, p.episodes[i].number)), ":grab")
      {
        EpisodeFields(out[i], p, p.episodes[i], "grab", ":grab");
      }
    }
  }

  lemma ImportFields(p: Payload, source: string, now: Time, out: seq<Event>)
    requires OnePerEpisode(p, (k, n) => ImportEvent(p, source, now, k, n), out)
    ensures AreImports(p, source, now, out)
  {
    hide EventID, IsFor, EpisodeKey, MovieKey;
    assert ":import" == ":" + "import";
    if p.episodes == [] {
      MovieFields(out[0], p, "import", ":import");
    } else {
      forall i | 0 <= i < |p.episodes|
        ensures IsFor(out[i], p, Some((p.episodes[i].season, p.episodes[i].number)), ":import")
      {
        EpisodeFields(out[i], p, p.episodes[i], "import", ":import");
      }
    }
  }

  lemma ManualFields(p: Payload, source: string, now: Time, out: seq<Event>)
    requires OnePerEpisode(p, (k, n) => ManualEvent(p, source, now, k, n), out)
    ensures AreManual(p, source, now, out)
  {
    hide EventID, IsFor, EpisodeKey, MovieKey;
    assert ":manual" == ":" + "manual";
    if p.episodes == [] {
      MovieFields(out[0], p, "manual", ":manual");
    } else {
      forall i | 0 <= i < |p.episodes|
        ensures IsFor(out[i], p, Some((p.episodes[i].season, p.episodes[i].number)), ":manual")
      {
        EpisodeFields(out[i], p, p.episodes[i], "manual", ":manual");
      }
    }
  }

  /** Usenet and torrent clients by name, in whatever case; any other name has no protocol. */
  lemma Protocols(clientType: string)
    ensures ToLower(clientType) in ["nzbget", "sabnzbd", "usenet", "nzbvortex"] ==> ArrProtocol(clientType) == "usenet"
    ensures ToLower(clientType) in ["qbittorrent", "deluge", "transmission", "rtorrent", "torrent"] ==>
              ArrProtocol(clientType) == "torrent"
    ensures ArrProtocol(clientType) != "" ==>
              ToLower(clientType) in ["nzbget", "sabnzbd", "usenet", "nzbvortex",
                                      "qbittorrent", "deluge", "transmission", "rtorrent", "torrent"]
  {
    hide ToLower;
  }

  lemma ProtocolOfAnyCase(clientType: string)
    ensures ArrProtocol(ToLower(clientType)) == ArrProtocol(clientType)
    ensures ArrProtocol("NZBGet") == ArrProtocol("SABnzbd") == "usenet" && ArrProtocol("qBittorrent") == "torrent"
  {
    assert ToLower(ToLower(clientType)) == ToLower(clientType);
    assert ToLower("NZBGet") == "nzbget" && ToLower("SABnzbd") == "sabnzbd" && ToLower("qBittorrent") == "qbittorrent";
    hide ToLower;
  }

  // ---------- the parser ----------

  method SonarrGrabs(p: Payload, source: string, now: Time) returns (out: seq<Event>)
    ensures OnePerEpisode(p, (k, n) => GrabEvent(p, source, now, k, n), out) && AreGrabs(p, source, now, out)
  {
    hide AreGrabs, EventID, IntText;
    var refs: seq<EpisodeRef> := [];
    for i := 0 to |p.episodes|
      invariant refs == seq(i, j requires 0 <= j < i => RefOf(p.episodes[j]))
    {
      refs := refs + [EpisodeRef(0, p.episodes[i].season, p.episodes[i].number, p.episodes[i].title)];
    }
    var rel := Release(p.releaseTitle, p.indexer, p.releaseGroup, p.quality, "", p.size, p.customFormatScore,
                       p.downloadClient, p.downloadID, ArrProtocol(p.downloadClientType), refs, p.isUpgrade);
    assert rel == ReleaseOf(p);
    out := [];
    if |p.episodes| == 0 {
      MovieID(p.downloadID, ":grab", "grab");
      out := out + [Event(source, Grabbed, now, MediaKey(TYPE_MOVIE, p.tmdbID, 0, 0, 0),
                          p.seriesTitle, OtherOutcome(""),
                          rel, "", "", "", 0, "", "", "", p.downloadID + ":grab")];
      GrabFields(p, source, now, out);
      return;
    }
    for i := 0 to |p.episodes|
      invariant |out| == i
      invariant forall j :: 0 <= j < i ==>
        out[j] == GrabEvent(p, source, now, EpisodeKey(p, p.episodes[j]),
                   Some((p.episodes[j].season, p.episodes[j].number)))
    {
      var ep := p.episodes[i];
      out := out + [Event(source, Grabbed, now, MediaKey(TYPE_TV, p.tmdbID, p.tvdbID, ep.season, ep.number),
                          p.seriesTitle, OtherOutcome(""), rel, "", "", "", 0, "", "", "",
                          p.downloadID + ":grab:" + IntText(ep.season) + ":" + IntText(ep.number))];
      SprintfID(p.downloadID, ":grab:", "grab", ep.season, ep.number);
    }
    GrabFields(p, source, now, out);
  }

  /** The movie's ID and the ID built field by field agree. */
  lemma MovieID(d: string, suffix: string, kind: string)
    requires suffix == ":" + kind
    ensures d + suffix == EventID(d, kind, None)
  {
    assert d + suffix == d + ":" + kind;
  }

  /** The format string and the ID built field by field agree. */
  lemma SprintfID(d: string, mid: string, kind: string, season: int, episode: int)
    requires mid == ":" + kind + ":"
    ensures d + mid + IntText(season) + ":" + IntText(episode) == EventID(d, kind, Some((season, episode)))
  {
    assert d + mid == d + ":" + kind + ":";
  }

  method SonarrImports(p: Payload, source: string, now: Time) returns (out: seq<Event>)
    ensures OnePerEpisode(p, (k, n) => ImportEvent(p, source, now, k, n), out) && AreImports(p, source, now, out)
  {
    hide AreImports, EventID, IntText;
    out := [];
    var importPath := p.path;
    if importPath == "" {
      importPath := p.relativePath;
    }
    if |p.episodes| == 0 {
      MovieID(p.downloadID, ":import", "import");
      out := out + [Event(source, Imported, now, MediaKey(TYPE_MOVIE, p.tmdbID, 0, 0, 0),
                          p.seriesTitle, OtherOutcome(""),
                          NO_RELEASE, "", "", importPath, p.fileSize, p.videoCodec, p.resolution, "",
                          p.downloadID + ":import")];
      ImportFields(p, source, now, out);
      return;
    }
    for i := 0 to |p.episodes|
      invariant |out| == i
      invariant forall j :: 0 <= j < i ==>
        out[j] == ImportEvent(p, source, now, EpisodeKey(p, p.episodes[j]),
                   Some((p.episodes[j].season, p.episodes[j].number)))
    {
      var ep := p.episodes[i];
      out := out + [Event(source, Imported, now, MediaKey(TYPE_TV, p.tmdbID, p.tvdbID, ep.season, ep.number),
                          p.seriesTitle, OtherOutcome(""), NO_RELEASE, "", "", importPath, p.fileSize,
                          p.videoCodec, p.resolution, "",
                          p.downloadID + ":import:" + IntText(ep.season) + ":" + IntText(ep.number))];
      SprintfID(p.downloadID, ":import:", "import", ep.season, ep.number);
    }
    ImportFields(p, source, now, out);
  }

  method SonarrManual(p: Payload, source: string, now: Time) returns (out: seq<Event>)
    ensures OnePerEpisode(p, (k, n) => ManualEvent(p, source, now, k, n), out) && AreManual(p, source, now, out)
  {
    hide AreManual, EventID, IntText;
    if |p.episodes| == 0 {
      MovieID(p.downloadID, ":manual", "manual");
      out := [Event(source, ManualNeeded, now, MediaKey(TYPE_MOVIE, p.tmdbID, 0, 0, 0), p.seriesTitle, OtherOutcome(""),
                    NO_RELEASE, "", "", "", 0, "", "", "", p.downloadID + ":manual")];
      ManualFields(p, source, now, out);
      return;
    }
    out := [];
    for i := 0 to |p.episodes|
      invariant |out| == i
      invariant forall j :: 0 <= j < i ==>
        out[j] == ManualEvent(p, source, now, EpisodeKey(p, p.episodes[j]),
                   Some((p.episodes[j].season, p.episodes[j].number)))
    {
      var ep := p.episodes[i];
      out := out + [Event(source, ManualNeeded, now, MediaKey(TYPE_TV, p.tmdbID, p.tvdbID, ep.season, ep.number),
                          p.seriesTitle, OtherOutcome(""), NO_RELEASE, "", "", "", 0, "", "", "",
                          p.downloadID + ":manual:" + IntText(ep.season) + ":" + IntText(ep.number))];
      SprintfID(p.downloadID, ":manual:", "manual", ep.season, ep.number);
    }
    ManualFields(p, source, now, out);
  }

  /** The parsed delivery: no type is an error, other types than these three carry no event. */
  method ParseArr(p: Payload, source: string, now: Time) returns (r: Parse)
    ensures r.MissingEventType? <==> p.eventType == ""
    ensures p.eventType == "Grab" ==>
              OnePerEpisode(p, (k, n) => GrabEvent(p, source, now, k, n), r.events)
              && AreGrabs(p, source, now, r.events)
    ensures p.eventType == "Download" ==>
              OnePerEpisode(p, (k, n) => ImportEvent(p, source, now, k, n), r.events)
              && AreImports(p, source, now, r.events)
    ensures p.eventType == "ManualInteractionRequired" ==>
              OnePerEpisode(p, (k, n) => ManualEvent(p, source, now, k, n), r.events)
              && AreManual(p, source, now, r.events)
    ensures p.eventType !in ["", "Grab", "Download", "ManualInteractionRequired"] ==> r == Events([])
  {
    if p.eventType == "" { return MissingEventType; }
    var events := [];
    if p.eventType == "Grab" { events := SonarrGrabs(p, source, now); }
    else if p.eventType == "Download" { events := SonarrImports(p, source, now); }
    else if p.eventType == "ManualInteractionRequired" { events := SonarrManual(p, source, now); }
    return Events(events);
  }

  // ---------- the fan-out on a live series trace ----------

  /** The IDs of the grab spans opened, in order. */
  function GrabsOpened(log: seq<SpanOp>): seq<ID> {
    if log == [] then []
    else
      var rest, op := GrabsOpened(log[..|log| - 1]), log[|log| - 1];
      if op.ChildOpened? && (op.name == SPAN_SONARR_GRAB || op.name == SPAN_RADARR_GRAB) then rest + [op.id] else rest
  }

  /** The IDs of the spans closed as superseded, in order. */
  function Superseded(log: seq<SpanOp>): seq<ID> {
    if log == [] then []
    else
      var rest, op := Superseded(log[..|log| - 1]), log[|log| - 1];
      if op.Closed? && !op.ok && op.reason == ERR_SUPERSEDED then rest + [op.id] else rest
  }

  /** What one more builder call adds to the two lists. */
  lemma ListsNext(b: Spans, op: SpanOp)
    ensures Record(b, op).log[..|b.log|] == b.log
    ensures GrabsOpened(Record(b, op).log) == GrabsOpened(b.log)
              + if op.ChildOpened? && (op.name == SPAN_SONARR_GRAB || op.name == SPAN_RADARR_GRAB) then [op.id] else []
    ensures Superseded(Record(b, op).log) == Superseded(b.log)
              + if op.Closed? && !op.ok && op.reason == ERR_SUPERSEDED then [op.id] else []
  {
  }

  function OpenGrab(t: Trace): seq<ID> {
    if t.hasGrab then [t.grabSpanID] else []
  }

  /** `r` is `s` after one grab on the trace at `k`, seen through traces and the two lists. */
  ghost predicate Regrabs(s: State, k: MediaKey, r: State) {
    && k in s.store.traces && k in r.store.traces
    && r.store.traces == s.store.traces[k := r.store.traces[k]]
    && r.store.traces[k].key == s.store.traces[k].key
    && r.store.traces[k].hasGrab && r.store.traces[k].grabSpanID == s.spans.next
    && r.spans.next > s.spans.next
    && (SameDownload(s.store.traces[k], r.store.traces[k])
        || s.spans.next < r.store.traces[k].downloadSpanID < r.spans.next)
    && GrabsOpened(r.spans.log) == GrabsOpened(s.spans.log) + [s.spans.next]
    && Superseded(r.spans.log) == Superseded(s.spans.log) + OpenGrab(s.store.traces[k])
  }

  lemma SearchLists(s: State, k: MediaKey, at: Time)
    requires k in s.store.traces
    ensures var r := EmitSearch(s, k, at);
            && r.store == s.store && r.spans.next == s.spans.next && r.ctx == s.ctx
            && GrabsOpened(r.spans.log) == GrabsOpened(s.spans.log)
            && Superseded(r.spans.log) == Superseded(s.spans.log)
  {
    ListsNext(s.spans, Synthetic(CtxOf(s, k), SPAN_SEARCH, s.store.traces[k].searchStart, at, None, ""));
  }

  lemma SupersedeLists(s: State, k: MediaKey, at: Time)
    requires k in s.store.traces
    ensures var r := EndOpenGrab(s, k, at, false, ERR_SUPERSEDED); var t := s.store.traces[k];
            && k in r.store.traces && r.store.traces == s.store.traces[k := r.store.traces[k]]
            && r.store.traces[k].key == t.key && r.spans.next == s.spans.next && SameDownload(t, r.store.traces[k])
            && GrabsOpened(r.spans.log) == GrabsOpened(s.spans.log)
            && Superseded(r.spans.log) == Superseded(s.spans.log) + OpenGrab(t)
  {
    hide GrabsOpened, Superseded;
    var t := s.store.traces[k];
    assert s.store.traces[k := t] == s.store.traces;
    ListsNext(s.spans, Closed(CtxOf(s, k), t.grabSpanID, at, false, ERR_SUPERSEDED));
  }

  lemma BeginLists(s: State, k: MediaKey, source: string, at: Time, id: string)
    requires k in s.store.traces
    ensures var r := BeginGrab(s, k, GrabSpanName(source), at, id); var t := s.store.traces[k];
            && k in r.store.traces && r.store.traces == s.store.traces[k := r.store.traces[k]]
            && r.store.traces[k].key == t.key && r.spans.next == s.spans.next + 1
            && r.store.traces[k].hasGrab && r.store.traces[k].grabSpanID == s.spans.next
            && SameDownload(t, r.store.traces[k])
            && GrabsOpened(r.spans.log) == GrabsOpened(s.spans.log) + [s.spans.next]
            && Superseded(r.spans.log) == Superseded(s.spans.log)
  {
    ListsNext(s.spans, ChildOpened(CtxOf(s, k), s.spans.next, GrabSpanName(source), at));
  }

  /** Saving the record of `k` under its own key changes no record in memory. */
  lemma SaveTraces(s: State, k: MediaKey)
    requires k in s.store.traces && s.store.traces[k].key == k
    ensures Save(s, k).store.traces == s.store.traces && Save(s, k).spans == s.spans
  {
  }

  lemma GrabLists(s: State, k: MediaKey, ev: Event)
    requires k in s.store.traces && s.store.traces[k].key == k
    ensures Regrabs(s, k, Grab(s, k, ev))
  {
    hide EmitSearch, EndOpenGrab, BeginGrab, Save, TimeGrab, GrabsOpened, Superseded;
    var at := ev.occurredAt;
    SearchLists(s, k, at);
    var s1 := EmitSearch(s, k, at);
    SupersedeLists(s1, k, at);
    var s2 := EndOpenGrab(s1, k, at, false, ERR_SUPERSEDED);
    BeginLists(s2, k, ev.source, at, ev.release.downloadID);
    var s3 := BeginGrab(s2, k, GrabSpanName(ev.source), at, ev.release.downloadID);
    SaveTraces(s3, k);
    TimeKeeps(Save(s3, k), k, ev);
  }

  lemma TimeKeeps(s: State, k: MediaKey, ev: Event)
    ensures TimeGrab(s, k, ev).store == s.store && TimeGrab(s, k, ev).spans == s.spans
  {
  }

  /** The replay of a parked start opens no grab and ends none. */
  lemma ReplayRegrabs(s: State, k: MediaKey, s1: State, id: string)
    requires Regrabs(s, k, s1) && s1.store.traces[k].key == k
    ensures Regrabs(s, k, Replay(s1, k, id))
  {
    if id != "" && id in s1.pending && !s1.store.traces[k].hasDownload {
      var at := s1.pending[id].event.occurredAt;
      var s2 := BeginDownload(s1.(pending := s1.pending - {id}), k, at);
      ListsNext(s1.spans, ChildOpened(CtxOf(s1, k), s1.spans.next, SPAN_DOWNLOAD, at));
      SaveTraces(s2, k);
      assert Replay(s1, k, id).store == Save(s2, k).store && Replay(s1, k, id).spans == s2.spans;
    }
  }

  /** One accepted grab on the live trace it resolves to. */
  lemma GrabDelivered(s: State, k: MediaKey, ev: Event)
    requires Keyed(s.store.traces) && ev.phase.Grabbed? && Resolve(s.store.traces, ev.key) == Some(k)
    requires Accepts(s.store, ev.source, ev.eventID, ev.occurredAt)
    ensures Regrabs(s, k, Process(s, ev)) && Keyed(Process(s, ev).store.traces)
  {
    var s0 := s.(store := SeenEvent(s.store, ev.source, ev.eventID, ev.occurredAt));
    assert s0.store.traces == s.store.traces && Process(s, ev) == OnGrabbed(s0, ev);
    GrabLanded(s0, k, ev);
  }

  lemma GrabLanded(s: State, k: MediaKey, ev: Event)
    requires Keyed(s.store.traces) && Resolve(s.store.traces, ev.key) == Some(k)
    ensures Regrabs(s, k, OnGrabbed(s, ev)) && Keyed(OnGrabbed(s, ev).store.traces)
  {
    GrabLists(s, k, ev);
    ReplayRegrabs(s, k, Grab(s, k, ev), ev.release.downloadID);
  }

  /** Grab events with distinct IDs, all new to the store, that all resolve to the live trace at `k`. */
  ghost predicate Pack(s: State, k: MediaKey, evs: seq<Event>) {
    && (forall i :: 0 <= i < |evs| ==> && evs[i].phase.Grabbed? && evs[i].eventID != ""
                                       && Accepts(s.store, evs[i].source, evs[i].eventID, evs[i].occurredAt)
                                       && Resolve(s.store.traces, evs[i].key) == Some(k))
    && (forall i, j :: 0 <= i < j < |evs| ==> evs[i].source == evs[j].source && evs[i].eventID != evs[j].eventID)
  }

  lemma DedupKeyOfSource(source: string, x: string, y: string)
    ensures DedupKey(source, x) == DedupKey(source, y) ==> x == y
  {
    assert DedupKey(source, x)[|source| + 1..] == x;
    assert DedupKey(source, y)[|source| + 1..] == y;
  }

  lemma PackNext(s: State, k: MediaKey, evs: seq<Event>)
    requires Keyed(s.store.traces) && evs != [] && Pack(s, k, evs)
    ensures Pack(Process(s, evs[0]), k, evs[1..])
  {
    var r := Process(s, evs[0]);
    GrabDelivered(s, k, evs[0]);
    forall i | 0 <= i < |evs[1..]|
      ensures Accepts(r.store, evs[1..][i].source, evs[1..][i].eventID, evs[1..][i].occurredAt)
      ensures Resolve(r.store.traces, evs[1..][i].key) == Some(k)
    {
      var ev := evs[i + 1];
      assert evs[1..][i] == ev;
      DedupKeyOfSource(ev.source, evs[0].eventID, ev.eventID);
      StillAccepted(s, evs[0], ev);
    }
  }

  /** What a pack leaves behind: one grab opened per event, all but the last one superseded. */
  ghost predicate FannedOut(s: State, k: MediaKey, n: nat, r: State, ids: seq<ID>)
    requires k in s.store.traces && n > 0
  {
    && |ids| == n
    && (forall i, j :: 0 <= i < j < n ==> ids[i] < ids[j]) && ids[0] >= s.spans.next
    && GrabsOpened(r.spans.log) == GrabsOpened(s.spans.log) + ids
    && Superseded(r.spans.log) == Superseded(s.spans.log) + OpenGrab(s.store.traces[k]) + ids[..n - 1]
    && k in r.store.traces && r.store.traces == s.store.traces[k := r.store.traces[k]]
    && r.store.traces[k].hasGrab && r.store.traces[k].grabSpanID == ids[n - 1]
    && (SameDownload(s.store.traces[k], r.store.traces[k])
        || (r.store.traces[k].downloadSpanID >= s.spans.next && r.store.traces[k].downloadSpanID !in ids))
  }

  lemma {:induction false} PackFansOut(s: State, k: MediaKey, evs: seq<Event>) returns (ids: seq<ID>)
    requires Keyed(s.store.traces) && k in s.store.traces && evs != [] && Pack(s, k, evs)
    ensures FannedOut(s, k, |evs|, Run(s, Deliveries(evs)), ids)
    decreases |evs|
  {
    hide Process;
    var r := Process(s, evs[0]);
    GrabDelivered(s, k, evs[0]);
    assert Deliveries(evs)[0] == Deliver(evs[0]) && Deliveries(evs)[1..] == Deliveries(evs[1..]);
    if |evs| == 1 {
      ids := [s.spans.next];
      assert Run(r, Deliveries(evs[1..])) == r;
    } else {
      PackNext(s, k, evs);
      var rest := PackFansOut(r, k, evs[1..]);
      ids := [s.spans.next] + rest;
      FannedOutFurther(s, k, r, |evs| - 1, Run(s, Deliveries(evs)), rest);
    }
  }

  lemma FannedOutFurther(s: State, k: MediaKey, r: State, n: nat, last: State, rest: seq<ID>)
    requires Regrabs(s, k, r) && n > 0 && FannedOut(r, k, n, last, rest)
    ensures FannedOut(s, k, n + 1, last, [s.spans.next] + rest)
  {
    var ids := [s.spans.next] + rest;
    assert ids[..n] == [s.spans.next] + rest[..n - 1];
    assert GrabsOpened(last.spans.log) == GrabsOpened(s.spans.log) + ids;
    assert OpenGrab(r.store.traces[k]) == [s.spans.next];
    assert Superseded(last.spans.log) == Superseded(s.spans.log) + OpenGrab(s.store.traces[k]) + ids[..n];
  }

  /** No two episodes of the payload have the same season and number. */
  ghost predicate DistinctEpisodes(p: Payload) {
    forall i, j :: 0 <= i < j < |p.episodes| ==>
      p.episodes[i].season != p.episodes[j].season || p.episodes[i].number != p.episodes[j].number
  }

  /** No episode of the payload has a live trace of its own, so all of them resolve to the series' one. */
  ghost predicate OnlySeriesLive(s: State, p: Payload) {
    && SeriesKeyOf(p) in s.store.traces
    && forall i :: 0 <= i < |p.episodes| ==>
         EpisodeKey(p, p.episodes[i]) == SeriesKeyOf(p) || EpisodeKey(p, p.episodes[i]) !in s.store.traces
  }

  ghost predicate Unseen(s: State, evs: seq<Event>) {
    forall i :: 0 <= i < |evs| ==> Accepts(s.store, evs[i].source, evs[i].eventID, evs[i].occurredAt)
  }

  lemma GrabIDsDistinct(p: Payload, source: string, now: Time, evs: seq<Event>, i: nat, j: nat)
    requires DistinctEpisodes(p) && OnePerEpisode(p, (k, n) => GrabEvent(p, source, now, k, n), evs)
    requires i < j < |evs|
    ensures evs[i].eventID != evs[j].eventID && evs[i].eventID != ""
  {
    if p.episodes != [] {
      var a, b := p.episodes[i], p.episodes[j];
      IntTextShape(a.number);
      if evs[i].eventID == evs[j].eventID {
        EventIDInjective(p.downloadID, "grab", Some((a.season, a.number)),
                         p.downloadID, "grab", Some((b.season, b.number)));
      }
    }
  }

  lemma GrabsArePack(s: State, p: Payload, source: string, now: Time, evs: seq<Event>)
    requires p.episodes != [] && DistinctEpisodes(p) && OnlySeriesLive(s, p)
    requires OnePerEpisode(p, (k, n) => GrabEvent(p, source, now, k, n), evs) && Unseen(s, evs)
    ensures Pack(s, SeriesKeyOf(p), evs)
  {
    hide Accepts;
    forall i, j | 0 <= i < j < |evs|
      ensures evs[i].eventID != evs[j].eventID
    {
      GrabIDsDistinct(p, source, now, evs, i, j);
    }
    forall i | 0 <= i < |evs|
      ensures evs[i].eventID != "" && Resolve(s.store.traces, evs[i].key) == Some(SeriesKeyOf(p))
    {
      assert evs[i].key == EpisodeKey(p, p.episodes[i]);
      IntTextShape(p.episodes[i].number);
    }
  }

  /**
   * Delivering a season pack to the live trace of its series opens one grab per episode, closes all but
   * the last of them and any grab open before as superseded, and touches no other trace.
   */
  lemma SeasonPack(s: State, p: Payload, source: string, now: Time, evs: seq<Event>) returns (ids: seq<ID>)
    requires Keyed(s.store.traces) && p.episodes != [] && DistinctEpisodes(p) && OnlySeriesLive(s, p)
    requires OnePerEpisode(p, (k, n) => GrabEvent(p, source, now, k, n), evs) && Unseen(s, evs)
    ensures FannedOut(s, SeriesKeyOf(p), |p.episodes|, Run(s, Deliveries(evs)), ids)
  {
    GrabsArePack(s, p, source, now, evs);
    ids := PackFansOut(s, SeriesKeyOf(p), evs);
  }

  /** The children a live trace calls its own were opened before now. */
  lemma OwnedBefore(s: State, k: MediaKey, id: ID)
    requires Sound(s) && k in s.store.traces && Owns(s.store.traces[k], id)
    ensures id < s.spans.next
  {
    assert Parents(s.store.traces[k], Watch(s.spans.log).kids);
  }

  /** After a fan-out, of the IDs it opened only the last is owned by a live trace. */
  lemma OnlyLastOwned(s: State, k: MediaKey, n: nat, r: State, ids: seq<ID>, l: MediaKey, i: nat)
    requires Sound(s) && k in s.store.traces && n > 0 && FannedOut(s, k, n, r, ids)
    requires i < n && l in r.store.traces && Owns(r.store.traces[l], ids[i])
    ensures l == k && i == n - 1
  {
    assert ids[i] >= s.spans.next;
    if l != k {
      OwnedBefore(s, l, ids[i]);
    } else if i != n - 1 {
      assert ids[i] < ids[n - 1];
      assert r.store.traces[k].hasDownload && r.store.traces[k].downloadSpanID == ids[i];
      OwnedBefore(s, k, ids[i]);
    }
  }

  lemma OnlyLastOpen(s: State, k: MediaKey, n: nat, r: State, ids: seq<ID>, m: Monitor, i: nat)
    requires Sound(s) && AgreesWith(r.store.traces, r.ctx, r.spans, m)
    requires k in s.store.traces && n > 0 && FannedOut(s, k, n, r, ids) && i < n
    ensures ids[i] in m.kids <==> i == n - 1
  {
    if ids[i] in m.kids {
      assert Adopted(ids[i], m.kids[ids[i]], m.roots, r.store.traces);
      OnlyLastOwned(s, k, n, r, ids, m.roots[m.kids[ids[i]].root].key, i);
    }
    assert Parents(r.store.traces[k], m.kids);
  }

  /** And of the grabs it opened, exactly the last one is still open. */
  lemma SeasonPackLeavesOne(s: State, p: Payload, source: string, now: Time, evs: seq<Event>) returns (ids: seq<ID>)
    requires Reachable(s) && p.episodes != [] && DistinctEpisodes(p) && OnlySeriesLive(s, p)
    requires OnePerEpisode(p, (k, n) => GrabEvent(p, source, now, k, n), evs) && Unseen(s, evs)
    ensures FannedOut(s, SeriesKeyOf(p), |p.episodes|, Run(s, Deliveries(evs)), ids)
    ensures forall i :: 0 <= i < |ids| ==>
              (ids[i] in Watch(Run(s, Deliveries(evs)).spans.log).kids <==> i == |ids| - 1)
  {
    SoundKeyed(s);
    ids := SeasonPack(s, p, source, now, evs);
    CanDeliver(s, evs);
    RunReachable(s, Deliveries(evs));
    var r := Run(s, Deliveries(evs));
    forall i | 0 <= i < |ids|
      ensures ids[i] in Watch(r.spans.log).kids <==> i == |ids| - 1
    {
      OnlyLastOpen(s, SeriesKeyOf(p), |p.episodes|, r, ids, Watch(r.spans.log), i);
    }
  }

  lemma SoundKeyed(s: State)
    requires Sound(s)
    ensures Keyed(s.store.traces)
  {
    var m := Watch(s.spans.log);
    forall k | k in s.store.traces
      ensures s.store.traces[k].key == k
    {
      assert Linked(k, s.store.traces[k], s.ctx, m.roots);
    }
  }
}
