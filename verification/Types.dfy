/** The values the correlation engine works on: media keys, events, trace records. */
module Types {

  datatype Option<+T> = None | Some(value: T)

  /** Nanoseconds since Go's zero instant, so that `IsZero()` is `== ZERO_TIME`. */
  type Time = int

  const ZERO_TIME: Time := 0
  const SECOND: int := 1_000_000_000

  /** The instant at the start of the whole second containing `t`: what a Unix-seconds round trip keeps. */
  function WholeSecond(t: Time): Time {
    t - t % SECOND
  }

  const TYPE_MOVIE := "movie"
  const TYPE_TV := "tv"

  const SOURCE_SONARR := "sonarr"
  const SOURCE_RADARR := "radarr"

  /** The correlation primary key. The integers are 64-bit in Go (see `MediaKeys.Fits`). */
  datatype MediaKey = MediaKey(mediaType: string, tmdb: int, tvdb: int, season: int, episode: int) {
    function SeriesKey(): MediaKey {
      this.(season := 0, episode := 0)
    }
  }

  datatype Outcome = Available | Failed | Declined | Timeout | OtherOutcome(name: string)

  datatype Phase =
    | RequestOpened
    | RequestApproved
    | RequestClosed
    | Grabbed
    | DownloadStart
    | DownloadDone
    | Imported
    | ManualNeeded
    | OtherPhase(name: string)

  datatype EpisodeRef = EpisodeRef(tvdbID: int, season: int, episode: int, title: string)

  datatype Release = Release(
    title: string, indexer: string, group: string, quality: string, qualityProfile: string,
    sizeBytes: int, customFormatScore: int, downloadClient: string, downloadID: string,
    protocol: string, episodes: seq<EpisodeRef>, isUpgrade: bool)

  const NO_RELEASE := Release("", "", "", "", "", 0, 0, "", "", "", [], false)

  datatype Event = Event(
    source: string, phase: Phase, occurredAt: Time, key: MediaKey, title: string,
    outcome: Outcome, release: Release, requestID: string, requestedBy: string,
    importPath: string, fileSizeBytes: int, codec: string, resolution: string,
    errorReason: string, eventID: string)

  /** Span and trace identifiers come from one stream of fresh numbers; 0 is the all-zero ID. */
  type ID = nat

  /** The value of a trace record. `resumed` is the one field that is not persisted. */
  datatype Trace = Trace(
    key: MediaKey, traceID: ID, rootSpanID: ID, attempt: int, source: string,
    openedAt: Time, updatedAt: Time,
    grabSpanID: ID, hasGrab: bool, downloadSpanID: ID, hasDownload: bool,
    searchStart: Time, downloadStartedAt: Time, downloadID: string, lastError: string,
    title: string, requestID: string, requestedBy: string, resumed: bool)

  datatype ClosedTrace = ClosedTrace(traceID: ID, attempt: int, outcome: Outcome, closedAt: Time)
}
