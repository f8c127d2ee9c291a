/** The status bookkeeping of the two calendar tools. The calendar service
    is external: the events it lists and the event it creates are inputs,
    and the rendering of a record (`json.dumps`, `str`) is a parameter. */
module CalendarTools {
  import opened Common
  import opened Messages
  import opened Text
  import opened Domain
  import opened EventsTools

  const HttpPrefix: string := "http://"
  const HttpsPrefix: string := "https://"

  /** A line that starts like a web link. */
  predicate IsWebLink(line: string) {
    StartsWith(line, HttpPrefix) || StartsWith(line, HttpsPrefix)
  }

  /** One event as the calendar service lists or returns it. Every field is a
      key that may be missing; the start and end objects are kept as given. */
  datatype CalendarItem = CalendarItem(
    description: Option<string>,
    start: Option<string>,
    end: Option<string>,
    summary: Option<string>,
    location: Option<string>)

  /** The record a tool reports for one event. */
  datatype CalendarRecord = CalendarRecord(
    url: Option<string>,
    start: Option<string>,
    end: Option<string>,
    summary: Option<string>,
    description: Option<string>,
    location: Option<string>)

  /** The event url hidden in a description: its first line, when that line is
      a web link. */
  function UrlOfDescription(description: string): (url: Option<string>)
    ensures url.Some? <==> IsWebLink(FirstLine(description))
    ensures url.Some? ==> StartsWith(description, url.value)
    ensures url.Some? ==> forall k :: 0 <= k < |url.value| ==> url.value[k] != '\n'
    ensures url.Some? && |url.value| < |description| ==> description[|url.value|] == '\n'
  {
    var first := if |description| > 0 then FirstLine(description) else "";
    if IsWebLink(first) then Some(first) else None
  }

  /** The record `get_calendar_events` builds for a listed event; a missing
      description reads as the empty string. */
  function ReadItem(item: CalendarItem): (r: CalendarRecord)
    ensures r.description.Some?
    ensures item.description.Some? ==> r.description == item.description
    ensures item.description.None? ==> r.description == Some("")
    ensures r.url == UrlOfDescription(r.description.value)
    ensures (r.start, r.end, r.summary, r.location) == (item.start, item.end, item.summary, item.location)
  {
    var description := if item.description.Some? then item.description.value else "";
    CalendarRecord(UrlOfDescription(description), item.start, item.end, item.summary,
                   Some(description), item.location)
  }

  /** The non-empty urls the listed records carry, which the tool looks up. */
  ghost function ListedUrls(records: seq<CalendarRecord>): set<string>
    decreases |records|
  {
    if |records| == 0 then {}
    else
      var rec := records[|records| - 1];
      ListedUrls(records[..|records| - 1]) + (if rec.url.Some? && rec.url.value != "" then {rec.url.value} else {})
  }

  /** A url is listed exactly when it is non-empty and some record carries it. */
  lemma {:induction false} ListedUrlsOf(records: seq<CalendarRecord>, k: string)
    ensures k in ListedUrls(records) <==> k != "" && exists i :: 0 <= i < |records| && records[i].url == Some(k)
    decreases |records|
  {
    if |records| > 0 {
      var n := |records| - 1;
      var prefix := records[..n];
      ListedUrlsOf(prefix, k);
      if exists i :: 0 <= i < |records| && records[i].url == Some(k) {
        var i :| 0 <= i < |records| && records[i].url == Some(k);
        if i < n { assert prefix[i] == records[i]; }
      }
      if exists i :: 0 <= i < n && prefix[i].url == Some(k) {
        var i :| 0 <= i < n && prefix[i].url == Some(k);
        assert records[i] == prefix[i];
      }
    }
  }

  /** The record of a listed url, when it is non-empty, is marked scheduled;
      a missing or empty record (`{}` is false) is left alone. */
  function MarkOne(m: StatusMap, rec: CalendarRecord): StatusMap {
    if rec.url.Some? && rec.url.value != "" && rec.url.value in m && m[rec.url.value] != NoStatus
    then m[rec.url.value := m[rec.url.value].(scheduled := Some(Some(true)))]
    else m
  }

  /** The status loop of `get_calendar_events`, over the records in order. */
  function MarkScheduled(m: StatusMap, records: seq<CalendarRecord>): (r: StatusMap)
    ensures r.Keys == m.Keys
    ensures forall k :: k in m ==>
              r[k] == if k in ListedUrls(records) && m[k] != NoStatus
                      then m[k].(scheduled := Some(Some(true))) else m[k]
    decreases |records|
  {
    if |records| == 0 then m
    else
      var n := |records| - 1;
      MarkOne(MarkScheduled(m, records[..n]), records[n])
  }

  /** Listing the calendar twice marks nothing more than listing it once. */
  lemma MarkScheduledIdempotent(m: StatusMap, records: seq<CalendarRecord>)
    ensures MarkScheduled(MarkScheduled(m, records), records) == MarkScheduled(m, records)
  {
  }

  /** The records `get_calendar_events` builds, in listing order. */
  function Records(items: seq<CalendarItem>): (records: seq<CalendarRecord>)
    ensures |records| == |items|
    ensures forall i :: 0 <= i < |items| ==> records[i] == ReadItem(items[i])
  {
    seq(|items|, i requires 0 <= i < |items| => ReadItem(items[i]))
  }

  /** The urls the listed items carry are exactly the urls read from their
      descriptions; a url read from a description is never empty. */
  lemma ListedItemUrls(items: seq<CalendarItem>, k: string)
    ensures k in ListedUrls(Records(items)) <==> exists i :: 0 <= i < |items| && ReadItem(items[i]).url == Some(k)
  {
    var records := Records(items);
    ListedUrlsOf(records, k);
    if exists i :: 0 <= i < |items| && ReadItem(items[i]).url == Some(k) {
      var i :| 0 <= i < |items| && ReadItem(items[i]).url == Some(k);
      assert records[i].url == Some(k);
      assert |k| >= |HttpPrefix|;
    }
  }

  /** `get_calendar_events`: the status update and one tool message with one
      JSON text item per listed event, in listing order (an empty list when
      there are none). */
  function GetCalendarEvents(callId: string, m: StatusMap, items: seq<CalendarItem>,
                             dumps: CalendarRecord -> string): (u: Update)
    ensures u.dialogState == None && u.userInfo == None && |u.messages| == 1
    ensures u.eventsStatus == Some(MarkScheduled(m, Records(items)))
    ensures u.eventsStatus.value.Keys == m.Keys
    ensures u.messages[0].Tool? && u.messages[0].toolCallId == callId
    ensures u.messages[0].content.Blocks? && |u.messages[0].content.items| == |items|
    ensures forall i :: 0 <= i < |items| ==> u.messages[0].content.items[i] == TextBlock(dumps(ReadItem(items[i])))
    ensures forall k :: k in m && m[k] != NoStatus ==>
              (u.eventsStatus.value[k].scheduled == Some(Some(true)) <==>
               m[k].scheduled == Some(Some(true)) || exists i :: 0 <= i < |items| && ReadItem(items[i]).url == Some(k))
  {
    var records := Records(items);
    var status := MarkScheduled(m, records);
    forall k | k in m
      ensures k in ListedUrls(records) <==> exists i :: 0 <= i < |items| && ReadItem(items[i]).url == Some(k)
    {
      ListedItemUrls(items, k);
    }
    var blocks := seq(|items|, i requires 0 <= i < |items| => TextBlock(dumps(records[i])));
    ToolUpdate(status, Tool(Blocks(blocks), callId))
  }

  /** Python's `f"{x}"` of an optional string. */
  function Format(x: Option<string>): string {
    match x
    case None => "None"
    case Some(s) => s
  }

  /** The description `create_calendar_event` sends: the url, a blank line and
      the description when a url is given, the description alone otherwise. */
  function ComposeDescription(url: string, description: Option<string>): (d: Option<string>)
    ensures url == "" ==> d == description
    ensures url != "" ==> d.Some? && StartsWith(d.value, url + "\n\n")
                          && d.value[|url| + 2..] == Format(description)
  {
    if url != "" then Some(url + "\n\n" + Format(description)) else description
  }

  /** The body `create_calendar_event` sends to the calendar service. */
  datatype NewEvent = NewEvent(summary: string, description: Option<string>, location: Option<string>,
                               start: string, end: string)

  function EventBody(start: string, end: string, title: string, description: Option<string>,
                     url: string, location: Option<string>): (b: NewEvent)
    ensures b.description == ComposeDescription(url, description)
    ensures (b.summary, b.location, b.start, b.end) == (title, location, start, end)
  {
    NewEvent(title, ComposeDescription(url, description), location, start, end)
  }

  /** A web link without line feeds survives the trip through a created
      event's description: listing the event reads the same url back. */
  lemma {:induction false} ComposedUrlReadsBack(url: string, description: Option<string>)
    requires IsWebLink(url)
    requires forall k :: 0 <= k < |url| ==> url[k] != '\n'
    ensures UrlOfDescription(ComposeDescription(url, description).value) == Some(url)
  {
    var d := ComposeDescription(url, description).value;
    assert d == url + "\n" + ("\n" + Format(description));
    FirstLineOfJoin(url, "\n" + Format(description));
  }

  /** The status map after `create_calendar_event`: the record of `url`
      (created if absent, under the key `""` when no url is given) is marked
      scheduled; nothing else changes. */
  function CreateStatus(m: StatusMap, url: string): (r: StatusMap)
    ensures r.Keys == m.Keys + {url}
    ensures forall k :: k in m && k != url ==> r[k] == m[k]
    ensures r[url].scheduled == Some(Some(true))
    ensures r[url].(scheduled := None) == StatusOf(m, url).(scheduled := None)
  {
    m[url := StatusOf(m, url).(scheduled := Some(Some(true)))]
  }

  /** `create_calendar_event`: given the event the service created, the status
      update and one tool message rendering the created record. */
  function CreateCalendarEvent(callId: string, m: StatusMap, url: string, created: CalendarItem,
                               show: CalendarRecord -> string): (u: Update)
    ensures u.eventsStatus == Some(CreateStatus(m, url))
    ensures u.dialogState == None && u.userInfo == None
    ensures u.messages == [Tool(Text(show(CalendarRecord(Some(url), created.start, created.end,
                                created.summary, created.description, created.location))), callId)]
  {
    var record := CalendarRecord(Some(url), created.start, created.end, created.summary,
                                 created.description, created.location);
    ToolUpdate(CreateStatus(m, url), Tool(Text(show(record)), callId))
  }

  /** A listing marks a present, non-empty record scheduled exactly when some
      listed event's description reads back its url, and otherwise keeps its
      calendar state. */
  lemma ListingMarks(m: StatusMap, items: seq<CalendarItem>, url: string)
    requires url in m && m[url] != NoStatus
    ensures MarkScheduled(m, Records(items))[url].scheduled ==
            if exists i :: 0 <= i < |items| && ReadItem(items[i]).url == Some(url)
            then Some(Some(true)) else m[url].scheduled
  {
    ListedItemUrls(items, url);
  }

  /** The round trip the url encoding exists for. Creating an event for `url`
      marks its record scheduled; a later search that hits `url` resets the
      calendar state to `null`; a listing then marks it scheduled again
      exactly when some listed event's description reads back `url`, which
      the created event's description, returned as sent, does. */
  lemma {:induction false} CreateSearchListRoundTrip(m: StatusMap, url: string, description: Option<string>,
                                                     hits: seq<EventDetails>, items: seq<CalendarItem>,
                                                     callId: string, dumps: CalendarRecord -> string)
    requires IsWebLink(url) && forall k :: 0 <= k < |url| ==> url[k] != '\n'
    requires exists h :: 0 <= h < |hits| && hits[h].url == url
    ensures var created := CreateStatus(m, url);
            var searched := RecordResults(created, hits);
            var listed := GetCalendarEvents(callId, searched, items, dumps).eventsStatus.value;
            && created[url].scheduled == Some(Some(true))
            && searched[url].scheduled == Some(None)
            && (listed[url].scheduled == Some(Some(true)) <==>
                exists i :: 0 <= i < |items| && ReadItem(items[i]).url == Some(url))
            && ((exists j :: 0 <= j < |items| && items[j].description == ComposeDescription(url, description)) ==>
                listed[url].scheduled == Some(Some(true)))
  {
    var created := CreateStatus(m, url);
    UrlsOfHits(hits, url);
    SearchMarksFound(created, hits, url);
    var searched := RecordResults(created, hits);
    assert searched[url].found == Some(true);
    ListingMarks(searched, items, url);
    if exists j :: 0 <= j < |items| && items[j].description == ComposeDescription(url, description) {
      var j :| 0 <= j < |items| && items[j].description == ComposeDescription(url, description);
      ComposedUrlReadsBack(url, description);
      assert ReadItem(items[j]).url == Some(url);
    }
  }
}
