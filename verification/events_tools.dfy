/** The status bookkeeping of the two search-index tools. The index query
    itself is external: its hits are an input, and `json.dumps` of a hit is
    the parameter `dumps`. */
module EventsTools {
  import opened Common
  import opened Messages
  import opened Domain

  /** The tool answer when nothing matched. */
  const NotFound: string := "NOT_FOUND"

  /** The urls of a list of hits, collected in hit order. */
  ghost function UrlsOf(results: seq<EventDetails>): set<string>
    decreases |results|
  {
    if |results| == 0 then {} else UrlsOf(results[..|results| - 1]) + {results[|results| - 1].url}
  }

  /** A url is among the hits' urls exactly when some hit carries it. */
  lemma {:induction false} UrlsOfHits(results: seq<EventDetails>, u: string)
    ensures u in UrlsOf(results) <==> exists i :: 0 <= i < |results| && results[i].url == u
    decreases |results|
  {
    if |results| > 0 {
      var n := |results| - 1;
      var prefix := results[..n];
      UrlsOfHits(prefix, u);
      if exists i :: 0 <= i < |results| && results[i].url == u {
        var i :| 0 <= i < |results| && results[i].url == u;
        if i < n { assert prefix[i] == results[i]; }
      }
      if exists i :: 0 <= i < n && prefix[i].url == u {
        var i :| 0 <= i < n && prefix[i].url == u;
        assert results[i] == prefix[i];
      }
    }
  }

  /** A search hit's record: found, not registered under the `registred` key,
      calendar state reset to `null`, details replaced; `registered` is kept. */
  function MarkFound(prior: EventStatus, e: EventDetails): EventStatus {
    prior.(found := Some(true), registred := Some(false), scheduled := Some(None), details := Some(e))
  }

  /** The status map after `search_events` walked the hits in order. */
  function RecordResults(m: StatusMap, results: seq<EventDetails>): (r: StatusMap)
    ensures r.Keys == m.Keys + UrlsOf(results)
    ensures forall u :: u in m && u !in UrlsOf(results) ==> r[u] == m[u]
    decreases |results|
  {
    if |results| == 0 then m
    else
      var n := |results| - 1;
      var prev := RecordResults(m, results[..n]);
      var e := results[n];
      prev[e.url := MarkFound(StatusOf(prev, e.url), e)]
  }

  /** `search_events`: the new status map and one tool message, holding one
      JSON text item per hit in hit order, or `NOT_FOUND` without hits. */
  function SearchEvents(callId: string, m: StatusMap, results: seq<EventDetails>,
                        dumps: EventDetails -> string): (u: Update)
    ensures u.eventsStatus == Some(RecordResults(m, results))
    ensures u.dialogState == None && u.userInfo == None && |u.messages| == 1
    ensures u.messages[0].Tool? && u.messages[0].toolCallId == callId
    ensures |results| == 0 ==> u.messages[0].content == Text(NotFound)
    ensures |results| > 0 ==>
              && u.messages[0].content.Blocks?
              && |u.messages[0].content.items| == |results|
              && forall i :: 0 <= i < |results| ==> u.messages[0].content.items[i] == TextBlock(dumps(results[i]))
  {
    var status := RecordResults(m, results);
    if |results| > 0 then
      var items := seq(|results|, i requires 0 <= i < |results| => TextBlock(dumps(results[i])));
      ToolUpdate(status, Tool(Blocks(items), callId))
    else
      ToolUpdate(status, Tool(Text(NotFound), callId))
  }

  /** Every url among the hits ends up found, not registred, with a `null`
      calendar state. */
  lemma {:induction false} SearchMarksFound(m: StatusMap, results: seq<EventDetails>, u: string)
    requires u in UrlsOf(results)
    ensures var rec := RecordResults(m, results)[u];
            rec.found == Some(true) && rec.registred == Some(false) && rec.scheduled == Some(None)
    decreases |results|
  {
    var n := |results| - 1;
    if results[n].url != u {
      SearchMarksFound(m, results[..n], u);
    }
  }

  /** Searching never touches the `registered` key of any record. */
  lemma {:induction false} SearchKeepsRegistered(m: StatusMap, results: seq<EventDetails>, u: string)
    ensures StatusOf(RecordResults(m, results), u).registered == StatusOf(m, u).registered
    decreases |results|
  {
    if |results| > 0 {
      SearchKeepsRegistered(m, results[..|results| - 1], u);
    }
  }

  /** `results[i]` is the last hit with url `u`. */
  ghost predicate LastHit(results: seq<EventDetails>, u: string, i: int) {
    0 <= i < |results| && results[i].url == u && forall j :: i < j < |results| ==> results[j].url != u
  }

  /** One step of the walk: the last hit's record is marked found. */
  lemma RecordLast(m: StatusMap, results: seq<EventDetails>)
    requires |results| > 0
    ensures var n := |results| - 1;
            var prev := RecordResults(m, results[..n]);
            RecordResults(m, results) == prev[results[n].url := MarkFound(StatusOf(prev, results[n].url), results[n])]
  {
  }

  /** The details stored for a url are those of the LAST hit with that url. */
  lemma {:induction false} SearchDetailsAreLastHit(m: StatusMap, results: seq<EventDetails>, u: string)
      returns (i: int)
    requires u in UrlsOf(results)
    ensures LastHit(results, u, i)
    ensures RecordResults(m, results)[u].details == Some(results[i])
    decreases |results|
  {
    var n := |results| - 1;
    RecordLast(m, results);
    if results[n].url == u {
      i := n;
    } else {
      var prefix := results[..n];
      i := SearchDetailsAreLastHit(m, prefix, u);
      assert results[i] == prefix[i];
      forall j | i < j < |results| ensures results[j].url != u {
        if j < n { assert results[j] == prefix[j]; }
      }
    }
  }

  /** `get_event_details`: the record of `url` (created if absent) becomes
      found with the first hit's details, or not found with its details kept. */
  function DetailsStatus(m: StatusMap, url: string, hits: seq<EventDetails>): (r: StatusMap)
    ensures r.Keys == m.Keys + {url}
    ensures forall k :: k in m && k != url ==> r[k] == m[k]
    ensures r[url].found == Some(|hits| > 0)
    ensures r[url].details == if |hits| > 0 then Some(hits[0]) else StatusOf(m, url).details
    ensures r[url].registred == StatusOf(m, url).registred
    ensures r[url].registered == StatusOf(m, url).registered
    ensures r[url].scheduled == StatusOf(m, url).scheduled
  {
    var rec := StatusOf(m, url);
    if |hits| > 0 then m[url := rec.(found := Some(true), details := Some(hits[0]))]
    else m[url := rec.(found := Some(false))]
  }

  /** `get_event_details`: the status update and one tool message, holding
      the first hit as JSON or `NOT_FOUND`. */
  function GetEventDetails(callId: string, m: StatusMap, url: string, hits: seq<EventDetails>,
                           dumps: EventDetails -> string): (u: Update)
    ensures u.eventsStatus == Some(DetailsStatus(m, url, hits))
    ensures u.dialogState == None && u.userInfo == None
    ensures u.messages == [Tool(Text(if |hits| > 0 then dumps(hits[0]) else NotFound), callId)]
  {
    var status := DetailsStatus(m, url, hits);
    if |hits| > 0 then ToolUpdate(status, Tool(Text(dumps(hits[0])), callId))
    else ToolUpdate(status, Tool(Text(NotFound), callId))
  }
}
