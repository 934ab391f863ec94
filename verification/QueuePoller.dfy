/** The queue poller reports edges: an item is noted when its status turns to, or between, stalled ones. */
module QueuePolling {
  import opened Types

  /** One queue record; `messages` are the message lists of its status messages. */
  datatype Record = Record(downloadID: string, status: string, messages: seq<seq<string>>, errorMessage: string)

  datatype Issue = Issue(downloadID: string, status: string, message: string, when: Time)

  /** What one request to the queue endpoint gives. */
  datatype Poll = Unavailable | Fetched(records: seq<Record>, now: Time)

  predicate Stalled(status: string) {
    status == "warning" || status == "failed" || status == "delay"
  }

  function MessageOf(r: Record): string {
    if r.errorMessage != "" then r.errorMessage
    else if |r.messages| > 0 && |r.messages[0]| > 0 then r.messages[0][0]
    else ""
  }

  /** The status of the last record for `id`, if there is a record. */
  function LastStatus(records: seq<Record>, id: string): Option<string> {
    if records == [] then None
    else if records[|records| - 1].downloadID == id then Some(records[|records| - 1].status)
    else LastStatus(records[..|records| - 1], id)
  }

  /** The IDs whose last record is stalled, with its status: what the poller remembers of a response. */
  function Remembered(records: seq<Record>): map<string, string> {
    map id | id in (set r | r in records :: r.downloadID)
             && id != "" && LastStatus(records, id).Some? && Stalled(LastStatus(records, id).value) ::
      LastStatus(records, id).value
  }

  /** The status last known of `id` before record `n`: from this response, else from what was remembered. */
  function Known(seen: map<string, string>, records: seq<Record>, n: nat, id: string): Option<string>
    requires n <= |records|
  {
    match LastStatus(records[..n], id)
    case Some(status) => Some(status)
    case None => if id in seen then Some(seen[id]) else None
  }

  /** The record is stalled, and not with the status known before. */
  predicate Edge(previous: Option<string>, r: Record) {
    r.downloadID != "" && Stalled(r.status) && previous != Some(r.status)
  }

  /** The issues raised by the first `n` records. */
  function Edges(seen: map<string, string>, records: seq<Record>, n: nat, now: Time): seq<Issue>
    requires n <= |records|
  {
    if n == 0 then []
    else
      var r := records[n - 1];
      Edges(seen, records, n - 1, now)
      + if Edge(Known(seen, records, n - 1, r.downloadID), r)
        then [Issue(r.downloadID, r.status, MessageOf(r), now)] else []
  }

  lemma LastStatusNext(records: seq<Record>, n: nat, id: string)
    requires n < |records|
    ensures LastStatus(records[..n + 1], id)
            == if records[n].downloadID == id then Some(records[n].status) else LastStatus(records[..n], id)
  {
    assert records[..n + 1][..n] == records[..n];
  }

  /** An ID has a last status iff some record is about it. */
  lemma {:induction false} LastStatusSome(records: seq<Record>, id: string)
    ensures LastStatus(records, id).Some? <==> exists r :: r in records && r.downloadID == id
    decreases |records|
  {
    if records != [] {
      var init, last := records[..|records| - 1], records[|records| - 1];
      LastStatusSome(init, id);
      assert records == init + [last];
      if r :| r in init && r.downloadID == id {
        assert r in records;
      }
      assert last in records;
    }
  }

  /** What the table says of `id`, given the status of its last record and what the table said before. */
  predicate Noted(before: map<string, string>, last: Option<string>, id: string, seen: map<string, string>) {
    match last
    case Some(status) => if Stalled(status) then id in seen && seen[id] == status else id !in seen
    case None => if id in before then id in seen && seen[id] == before[id] else id !in seen
  }

  /** The table after the first `n` records, before the entries of absent IDs are dropped. */
  ghost predicate Tracks(before: map<string, string>, records: seq<Record>, n: nat, seen: map<string, string>)
    requires n <= |records|
  {
    var part := records[..n];
    forall id :: id != "" ==> Noted(before, LastStatus(part, id), id, seen)
  }

  /** One more record, handled as the loop body does. */
  lemma TracksNext(before: map<string, string>, records: seq<Record>, n: nat, seen: map<string, string>,
                   seen': map<string, string>)
    requires n < |records| && Tracks(before, records, n, seen)
    requires var r := records[n];
             seen' == if r.downloadID == "" then seen
                      else if Stalled(r.status) then seen[r.downloadID := r.status] else seen - {r.downloadID}
    ensures Tracks(before, records, n + 1, seen')
  {
    var part := records[..n + 1];
    forall id | id != ""
      ensures Noted(before, LastStatus(part, id), id, seen')
    {
      LastStatusNext(records, n, id);
      assert Noted(before, LastStatus(records[..n], id), id, seen);
    }
  }

  /** The loop's test for a repeated status is the test against the status known before. */
  lemma RepeatIsNoEdge(before: map<string, string>, records: seq<Record>, n: nat, seen: map<string, string>)
    requires n < |records| && Tracks(before, records, n, seen)
    requires records[n].downloadID != "" && Stalled(records[n].status)
    ensures var r := records[n];
            Edge(Known(before, records, n, r.downloadID), r)
            <==> !(r.downloadID in seen && seen[r.downloadID] == r.status)
  {
    var id := records[n].downloadID;
    assert Noted(before, LastStatus(records[..n], id), id, seen);
  }

  /** What is left when the entries of absent IDs are dropped. */
  lemma DroppedIsRemembered(before: map<string, string>, records: seq<Record>, seen: map<string, string>,
                            live: set<string>, left: map<string, string>)
    requires Tracks(before, records, |records|, seen)
    requires live == set r | r in records && r.downloadID != "" :: r.downloadID
    requires left == map id | id in seen && id in live :: seen[id]
    ensures left == Remembered(records)
  {
    assert records[..|records|] == records;
    forall id
      ensures id in left <==> id in Remembered(records)
      ensures id in left ==> left[id] == Remembered(records)[id]
    {
      LastStatusSome(records, id);
      if id != "" { assert Noted(before, LastStatus(records, id), id, seen); }
    }
  }

  class QueuePoller {
    var seen: map<string, string>

    constructor ()
      ensures seen == map[]
    {
      seen := map[];
    }

    /**
     * A failed request changes nothing. Otherwise `seen` ends up as the stalled last statuses of this
     * response, whatever it held before, and the issues are the edges against what it held before.
     */
    method Tick(poll: Poll) returns (ok: bool, issues: seq<Issue>)
      modifies this
      ensures ok == poll.Fetched?
      ensures !ok ==> seen == old(seen) && issues == []
      ensures ok ==> seen == Remembered(poll.records)
      ensures ok ==> issues == Edges(old(seen), poll.records, |poll.records|, poll.now)
    {
      issues := [];
      if poll.Unavailable? {
        return false, issues;
      }
      var records := poll.records;
      var live: set<string> := {};
      for n := 0 to |records|
        invariant Tracks(old(seen), records, n, seen)
        invariant live == set r | r in records[..n] && r.downloadID != "" :: r.downloadID
        invariant issues == Edges(old(seen), records, n, poll.now)
      {
        var r := records[n];
        ghost var was := seen;
        assert records[..n + 1] == records[..n] + [r];
        if r.downloadID != "" {
          live := live + {r.downloadID};
          if !Stalled(r.status) {
            seen := seen - {r.downloadID};
          } else {
            RepeatIsNoEdge(old(seen), records, n, seen);
            if !(r.downloadID in seen && seen[r.downloadID] == r.status) {
              seen := seen[r.downloadID := r.status];
              var msg := r.errorMessage;
              if msg == "" && |r.messages| > 0 && |r.messages[0]| > 0 {
                msg := r.messages[0][0];
              }
              issues := issues + [Issue(r.downloadID, r.status, msg, poll.now)];
            }
          }
        }
        TracksNext(old(seen), records, n, was, seen);
      }
      assert records[..|records|] == records;
      ghost var full := seen;
      var ids := seen.Keys;
      while ids != {}
        invariant ids <= full.Keys
        invariant seen == map id | id in full && (id in ids || id in live) :: full[id]
      {
        var id :| id in ids;
        if id !in live {
          seen := seen - {id};
        }
        ids := ids - {id};
      }
      DroppedIsRemembered(old(seen), records, full, live, seen);
      return true, issues;
    }
  }

  // ---------- over any sequence of ticks ----------

  /** The table after `polls`, from a new poller. */
  function SeenAfter(polls: seq<Poll>): map<string, string> {
    if polls == [] then map[]
    else
      var last := polls[|polls| - 1];
      if last.Fetched? then Remembered(last.records) else SeenAfter(polls[..|polls| - 1])
  }

  /** The status an ID had in the last response before, if it was in it. */
  function StatusBefore(polls: seq<Poll>, id: string): Option<string> {
    if polls == [] then None
    else
      var last := polls[|polls| - 1];
      if last.Fetched? then LastStatus(last.records, id) else StatusBefore(polls[..|polls| - 1], id)
  }

  /** The status an ID was last observed with before record `n` of this response; absence from a response resets it. */
  function Observed(polls: seq<Poll>, records: seq<Record>, n: nat, id: string): Option<string>
    requires n <= |records|
  {
    match LastStatus(records[..n], id)
    case Some(status) => Some(status)
    case None => StatusBefore(polls, id)
  }

  lemma {:induction false} SeenIsStalledBefore(polls: seq<Poll>, id: string)
    requires id != ""
    ensures var before := StatusBefore(polls, id);
            if before.Some? && Stalled(before.value) then id in SeenAfter(polls) && SeenAfter(polls)[id] == before.value
            else id !in SeenAfter(polls)
    decreases |polls|
  {
    if polls != [] {
      var last := polls[|polls| - 1];
      if last.Fetched? {
        LastStatusSome(last.records, id);
      } else {
        SeenIsStalledBefore(polls[..|polls| - 1], id);
      }
    }
  }

  /**
   * The issues that the history of responses calls for: one for each record that is stalled, and not with the status
   * its ID was last observed with. Its message is the record's error, or else the first of its first messages.
   */
  function Reported(polls: seq<Poll>, records: seq<Record>, n: nat, now: Time): seq<Issue>
    requires n <= |records|
  {
    if n == 0 then []
    else
      var r := records[n - 1];
      Reported(polls, records, n - 1, now)
      + if r.downloadID != "" && (r.status == "warning" || r.status == "failed" || r.status == "delay")
           && Observed(polls, records, n - 1, r.downloadID) != Some(r.status)
        then [Issue(r.downloadID, r.status,
                    if r.errorMessage != "" then r.errorMessage
                    else if |r.messages| > 0 && |r.messages[0]| > 0 then r.messages[0][0] else "", now)]
        else []
  }

  /**
   * Edge-triggered over any sequence of ticks: a response raises one issue for each record that is stalled
   * and whose ID was last observed with another status or not at all, and no other.
   */
  lemma {:induction false} EdgeTriggered(polls: seq<Poll>, records: seq<Record>, n: nat, now: Time)
    requires n <= |records|
    ensures Edges(SeenAfter(polls), records, n, now) == Reported(polls, records, n, now)
    decreases n
  {
    if n > 0 {
      EdgeTriggered(polls, records, n - 1, now);
      EdgeEitherWay(polls, records, n - 1);
    }
  }

  /** Remembering only stalled statuses loses nothing that decides whether a record is an edge. */
  lemma EdgeEitherWay(polls: seq<Poll>, records: seq<Record>, n: nat)
    requires n < |records|
    ensures var r := records[n];
            Edge(Known(SeenAfter(polls), records, n, r.downloadID), r)
            <==> Edge(Observed(polls, records, n, r.downloadID), r)
  {
    if records[n].downloadID != "" { SeenIsStalledBefore(polls, records[n].downloadID); }
  }

  /** The issues that tick `i` of a run is to raise. */
  function Raised(polls: seq<Poll>, i: nat): seq<Issue>
    requires i < |polls|
  {
    if polls[i].Unavailable? then []
    else Reported(polls[..i], polls[i].records, |polls[i].records|, polls[i].now)
  }

  lemma SeenNext(polls: seq<Poll>, i: nat)
    requires i < |polls|
    ensures SeenAfter(polls[..i + 1])
            == if polls[i].Fetched? then Remembered(polls[i].records) else SeenAfter(polls[..i])
  {
    assert polls[..i + 1][..i] == polls[..i];
  }

  /** The poller's loop over its ticks. */
  method Run(polls: seq<Poll>) returns (issues: seq<seq<Issue>>)
    ensures |issues| == |polls| && forall i :: 0 <= i < |polls| ==> issues[i] == Raised(polls, i)
  {
    var p := new QueuePoller();
    issues := [];
    for i := 0 to |polls|
      invariant p.seen == SeenAfter(polls[..i]) && |issues| == i
      invariant forall j :: 0 <= j < i ==> issues[j] == Raised(polls, j)
    {
      SeenNext(polls, i);
      var ok, raised := p.Tick(polls[i]);
      if ok { EdgeTriggered(polls[..i], polls[i].records, |polls[i].records|, polls[i].now); }
      assert raised == Raised(polls, i);
      issues := issues + [raised];
    }
  }
}
