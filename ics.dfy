/**
 * `to_ics` in both scrapers: the calendar and the event fields set for each
 * meeting before the iCalendar library serialises them.
 */
module Ics {
  import opened Text
  import opened Wrappers
  import opened Model

  /** The properties `to_ics` adds to one `Event`. */
  datatype IcsEvent = IcsEvent(
    uid: string,
    dtstart: Instant,
    dtend: Instant,
    summary: string,
    location: Option<string>,
    description: string,
    url: string,
    dtstamp: Instant,
    status: string)

  datatype Calendar = Calendar(prodid: string, version: string, events: seq<IcsEvent>)

  const CivicClerkProdId := "-//CivicClerk Scraper//EN"
  const EscribeProdId := "-//Detroit eScribe Scraper//EN"

  /** The separator the source writes between description lines: a backslash and an `n`. */
  const DescriptionSeparator := "\\n"

  /** `f"{body}: {title}" if body else title` */
  function Summary(body: string, title: string): (s: string)
    ensures body == [] ==> s == title
    ensures body != [] ==> |s| == |body| + 2 + |title|
    ensures body != [] ==> s[..|body|] == body && s[|body|..|body| + 2] == ": " && s[|body| + 2..] == title
  {
    if body != [] then body + ": " + title else title
  }

  /** The description lines: Agenda, Minutes, Virtual when present, then always Details. */
  function DescriptionLines(m: Meeting): (lines: seq<string>)
    ensures |lines| >= 1 && lines[|lines| - 1] == "Details: " + m.detailUrl
    ensures |lines| == 1 + (if Truthy(m.agendaUrl) then 1 else 0) + (if Truthy(m.minutesUrl) then 1 else 0)
      + (if Truthy(m.virtualLink) then 1 else 0)
    ensures Truthy(m.agendaUrl) ==> lines[0] == "Agenda: " + m.agendaUrl.value
    ensures var a := if Truthy(m.agendaUrl) then 1 else 0;
      Truthy(m.minutesUrl) ==> lines[a] == "Minutes: " + m.minutesUrl.value
    ensures var a := if Truthy(m.agendaUrl) then 1 else 0; var b := if Truthy(m.minutesUrl) then 1 else 0;
      Truthy(m.virtualLink) ==> lines[a + b] == "Virtual: " + m.virtualLink.value
  {
    (if Truthy(m.agendaUrl) then ["Agenda: " + m.agendaUrl.value] else [])
    + (if Truthy(m.minutesUrl) then ["Minutes: " + m.minutesUrl.value] else [])
    + (if Truthy(m.virtualLink) then ["Virtual: " + m.virtualLink.value] else [])
    + ["Details: " + m.detailUrl]
  }

  /** The event `to_ics` builds for one meeting; `now` is the UTC time the calendar is written. */
  function EventOf(m: Meeting, now: Instant): (e: IcsEvent)
    ensures e.uid == m.uid && e.dtstart == m.start && e.dtend == m.end && e.url == m.detailUrl
    ensures e.summary == Summary(m.body, m.title)
    ensures e.location.Some? <==> m.location != []
    ensures e.location.Some? ==> e.location.value == m.location
    ensures e.status == "CONFIRMED" && e.dtstamp == now
    ensures e.description == Join(DescriptionLines(m), DescriptionSeparator)
  {
    IcsEvent(
      m.uid, m.start, m.end, Summary(m.body, m.title),
      if m.location != [] then Some(m.location) else None,
      Join(DescriptionLines(m), DescriptionSeparator),
      m.detailUrl, now, "CONFIRMED")
  }

  /** `to_ics(items)`: one event per meeting, in order, all stamped with the same `now`. */
  method ToIcs(items: seq<Meeting>, prodid: string, now: Instant) returns (cal: Calendar)
    ensures cal.prodid == prodid && cal.version == "2.0"
    ensures |cal.events| == |items|
    ensures forall i :: 0 <= i < |items| ==> cal.events[i] == EventOf(items[i], now)
  {
    var events: seq<IcsEvent> := [];
    for i := 0 to |items|
      invariant |events| == i
      invariant forall k :: 0 <= k < i ==> events[k] == EventOf(items[k], now)
    {
      events := events + [EventOf(items[i], now)];
    }
    cal := Calendar(prodid, "2.0", events);
  }

  /** The description always ends with the detail link, whatever links the meeting has. */
  lemma DescriptionEndsWithDetails(m: Meeting)
    ensures |Join(DescriptionLines(m), DescriptionSeparator)| >= |"Details: " + m.detailUrl|
    ensures var d := Join(DescriptionLines(m), DescriptionSeparator);
      d[|d| - |"Details: " + m.detailUrl|..] == "Details: " + m.detailUrl
  {
    JoinEndsWithLast(DescriptionLines(m), DescriptionSeparator);
  }

  lemma {:induction false} JoinEndsWithLast(parts: seq<string>, sep: string)
    requires |parts| >= 1
    ensures var j := Join(parts, sep); var last := parts[|parts| - 1];
      |j| >= |last| && j[|j| - |last|..] == last
    decreases |parts|
  {
    if |parts| > 1 {
      JoinEndsWithLast(parts[1..], sep);
      assert parts[1..][|parts[1..]| - 1] == parts[|parts| - 1];
      var rest := Join(parts[1..], sep);
      assert Join(parts, sep) == parts[0] + sep + rest;
    }
  }
}
