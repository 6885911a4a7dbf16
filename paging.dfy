/**
 * `fetch_events` and `crawl` in `civicclerk_scraper.py`: walking the
 * newest-first pages of the CivicClerk events API, keeping the events of the
 * date window, stopping at the first older event, then de-duplicating and
 * sorting.
 */
module Paging {
  import opened Wrappers
  import opened Model
  import opened CivicClerk
  import Dedup

  /** One response of the events endpoint: its `value` list and its `@odata.nextLink`. */
  datatype Page = Page(events: seq<Event>, nextLink: Option<string>)

  /**
   * The API as seen from the scraper: the page a GET of the url returns, or
   * `None` when the request or the JSON decoding raises.
   */
  type Server = string -> Option<Page>

  /** The first url requested. */
  function FirstUrl(apiBase: string): string
  {
    apiBase + "Events?$orderby=eventDate desc&$top=100"
  }

  /** The date window, as day numbers, and what else `parse_event` needs. */
  datatype Query = Query(env: Env, cfg: Config, startDate: int, endDate: int, parse: bool)

  /** Where the loop over one page's events stands. */
  datatype Status = Reading | Older | Failed

  /** The day of an event's start, `None` when `fromisoformat` raises. */
  function DayOf(q: Query, e: Event): Option<int>
    requires Truthy(e.eventDate)
  {
    q.env.dateOf(e.eventDate.value)
  }

  /** The events the page loop turns into meetings: dated, and dated inside the window. */
  predicate InWindow(q: Query, e: Event)
  {
    Truthy(e.eventDate) && DayOf(q, e).Some? && q.startDate <= DayOf(q, e).value <= q.endDate
  }

  /** The events at which the page loop leaves the page: dated, and either unparseable or older than the window. */
  predicate Stops(q: Query, e: Event)
  {
    Truthy(e.eventDate) && (DayOf(q, e).None? || DayOf(q, e).value < q.startDate)
  }

  /** The loop variables after one event. */
  function PageStep(q: Query, st: (seq<Meeting>, Status), e: Event): (seq<Meeting>, Status)
  {
    var (found, status) := st;
    if status != Reading || !Truthy(e.eventDate) then st
    else if DayOf(q, e).None? then (found, Failed)
    else if DayOf(q, e).value < q.startDate then (found, Older)
    else if DayOf(q, e).value <= q.endDate then
      var m := EventToMeeting(q.env, q.cfg, e, q.parse);
      (if m.Some? then found + [m.value] else found, Reading)
    else st
  }

  /** The loop variables after the first `n` events of a page. */
  function PageUpTo(q: Query, events: seq<Event>, n: nat): (seq<Meeting>, Status)
    requires n <= |events|
  {
    if n == 0 then ([], Reading) else PageStep(q, PageUpTo(q, events, n - 1), events[n - 1])
  }

  /** The event loop over one page. */
  method ReadPage(q: Query, events: seq<Event>) returns (found: seq<Meeting>, status: Status)
    ensures (found, status) == PageUpTo(q, events, |events|)
  {
    found, status := [], Reading;
    var j := 0;
    while j < |events|
      invariant j <= |events|
      invariant (found, status) == PageUpTo(q, events, j) && status == Reading
    {
      var e := events[j];
      assert PageUpTo(q, events, j + 1) == PageStep(q, (found, status), e);
      if !Truthy(e.eventDate) {
        j := j + 1;
        continue;
      }
      var day := q.env.dateOf(e.eventDate.value);
      assert day == DayOf(q, e);
      if day.None? {
        status := Failed;
        j := j + 1;
        break;
      }
      if day.value < q.startDate {
        status := Older;
        j := j + 1;
        break;
      }
      if day.value <= q.endDate {
        var m := ParseEvent(q.env, q.cfg, e, q.parse);
        if m.Some? {
          found := found + [m.value];
        }
      }
      j := j + 1;
    }
    if status != Reading {
      LeftPageStays(q, events, j, |events|);
    }
  }

  /** Once the page loop has left the page, the remaining events change nothing. */
  lemma {:induction false} LeftPageStays(q: Query, events: seq<Event>, i: nat, n: nat)
    requires i <= n <= |events| && PageUpTo(q, events, i).1 != Reading
    ensures PageUpTo(q, events, n) == PageUpTo(q, events, i)
    decreases n - i
  {
    if i < n {
      LeftPageStays(q, events, i, n - 1);
    }
  }

  // ---------------------------------------------------------------------
  // A reference description of one page
  // ---------------------------------------------------------------------

  /** The index of the first event at which the loop leaves the page, or the page length. */
  function StopIndex(q: Query, events: seq<Event>): (k: nat)
    ensures k <= |events|
    ensures k < |events| ==> Stops(q, events[k])
    ensures forall i :: 0 <= i < k ==> !Stops(q, events[i])
  {
    if events == [] then 0
    else if Stops(q, events[0]) then 0
    else 1 + StopIndex(q, events[1..])
  }

  /** The meetings of the in-window events, in page order. */
  function WindowMeetings(q: Query, events: seq<Event>): (r: seq<Meeting>)
    ensures |r| <= |events|
  {
    if events == [] then []
    else
      var init := WindowMeetings(q, events[..|events| - 1]);
      var e := events[|events| - 1];
      var m := if InWindow(q, e) then EventToMeeting(q.env, q.cfg, e, q.parse) else None;
      if m.Some? then init + [m.value] else init
  }

  /**
   * The page loop keeps the meetings of the in-window events that come
   * before the first unparseable or older event; it reads the whole page
   * exactly when there is no such event, and says which kind it met.
   */
  lemma PageOutcome(q: Query, events: seq<Event>)
    ensures var k := StopIndex(q, events);
      && PageUpTo(q, events, |events|).0 == WindowMeetings(q, events[..k])
      && (PageUpTo(q, events, |events|).1 == Reading <==> k == |events|)
      && (PageUpTo(q, events, |events|).1 == Failed <==> k < |events| && DayOf(q, events[k]).None?)
  {
    var k := StopIndex(q, events);
    PageBeforeStop(q, events, k);
    if k < |events| {
      PageAtStop(q, events, k);
      LeftPageStays(q, events, k + 1, |events|);
    } else {
      assert events[..k] == events;
    }
  }

  lemma {:induction false} PageBeforeStop(q: Query, events: seq<Event>, n: nat)
    requires n <= StopIndex(q, events)
    ensures PageUpTo(q, events, n) == (WindowMeetings(q, events[..n]), Reading)
  {
    if n > 0 {
      PageBeforeStop(q, events, n - 1);
      assert events[..n][..n - 1] == events[..n - 1];
      assert events[..n][n - 1] == events[n - 1];
      assert !Stops(q, events[n - 1]);
    }
  }

  lemma PageAtStop(q: Query, events: seq<Event>, k: nat)
    requires k == StopIndex(q, events) < |events|
    ensures PageUpTo(q, events, k + 1).0 == WindowMeetings(q, events[..k])
    ensures PageUpTo(q, events, k + 1).1 == (if DayOf(q, events[k]).None? then Failed else Older)
  {
    PageBeforeStop(q, events, k);
  }

  // ---------------------------------------------------------------------
  // fetch_events
  // ---------------------------------------------------------------------

  /**
   * The meetings `fetch_events` gathers from `url` on, making at most
   * `budget` more requests: a failed request ends the walk, a page that ends
   * with an older or unparseable event ends it, and otherwise a truthy
   * `@odata.nextLink` is followed.
   */
  function FetchFrom(q: Query, server: Server, url: string, budget: nat): seq<Meeting>
    decreases budget
  {
    if budget == 0 then []
    else match server(url)
      case None => []
      case Some(page) =>
        var (found, status) := PageUpTo(q, page.events, |page.events|);
        if status == Reading && Truthy(page.nextLink) then found + FetchFrom(q, server, page.nextLink.value, budget - 1)
        else found
  }

  /** What the walk still gathers when it is about to request `url` with `left` requests to go. */
  function Remaining(q: Query, server: Server, url: Option<string>, left: nat): seq<Meeting>
  {
    if Truthy(url) then FetchFrom(q, server, url.value, left) else []
  }

  /** One served page: its kept meetings, then whatever the link the loop carries on with leads to. */
  lemma FetchPage(q: Query, server: Server, url: string, left: nat, found: seq<Meeting>, status: Status, next: Option<string>)
    requires left > 0 && server(url).Some?
    requires (found, status) == PageUpTo(q, server(url).value.events, |server(url).value.events|)
    requires next == if status != Reading then None else server(url).value.nextLink
    ensures FetchFrom(q, server, url, left) == found + Remaining(q, server, next, left - 1)
  {
  }

  /** `fetch_events(start_date, end_date, parse_documents)`, with at most `budget` requests. */
  method FetchEvents(q: Query, server: Server, budget: nat) returns (meetings: seq<Meeting>)
    ensures meetings == FetchFrom(q, server, FirstUrl(q.cfg.apiBase), budget)
  {
    ghost var total := FetchFrom(q, server, FirstUrl(q.cfg.apiBase), budget);
    meetings := [];
    var url: Option<string> := Some(FirstUrl(q.cfg.apiBase));
    var left := budget;
    while Truthy(url) && left > 0
      invariant meetings + Remaining(q, server, url, left) == total
      decreases left
    {
      var here := url.value;
      var data := server(here);
      if data.None? {
        assert Remaining(q, server, url, left) == [];
        assert meetings == meetings + [];
        break;
      }
      var found, status := ReadPage(q, data.value.events);
      var before := meetings;
      meetings := meetings + found;
      if status != Reading {
        url := None;
      }
      if Truthy(url) {
        url := data.value.nextLink;
      }
      left := left - 1;
      FetchPage(q, server, here, left + 1, found, status, url);
      assert before + (found + Remaining(q, server, url, left)) == meetings + Remaining(q, server, url, left);
    }
    assert Remaining(q, server, url, left) == [];
    assert meetings == meetings + [];
  }

  // ---------------------------------------------------------------------
  // Properties of the walk
  // ---------------------------------------------------------------------

  /** `m` is the meeting of the in-window event `e`. */
  ghost predicate Yields(q: Query, e: Event, m: Meeting)
  {
    InWindow(q, e) && EventToMeeting(q.env, q.cfg, e, q.parse) == Some(m)
  }

  /** A meeting built from an in-window event of the page served at `url`. */
  ghost predicate ServedInWindow(q: Query, server: Server, url: string, m: Meeting)
  {
    server(url).Some? && exists i :: 0 <= i < |server(url).value.events| && Yields(q, server(url).value.events[i], m)
  }

  lemma {:induction false} WindowMeetingsFrom(q: Query, events: seq<Event>, m: Meeting)
    requires m in WindowMeetings(q, events)
    ensures exists i :: 0 <= i < |events| && Yields(q, events[i], m)
    decreases |events|
  {
    var init := events[..|events| - 1];
    var e := events[|events| - 1];
    if m in WindowMeetings(q, init) {
      WindowMeetingsFrom(q, init, m);
      var i :| 0 <= i < |init| && Yields(q, init[i], m);
      PrefixIndex(events, |events| - 1, i);
    } else {
      assert Yields(q, events[|events| - 1], m);
    }
  }

  /** Every meeting the page loop keeps was built from an in-window event of that page. */
  lemma PageMeetingServed(q: Query, server: Server, url: string, m: Meeting)
    requires server(url).Some?
    requires m in PageUpTo(q, server(url).value.events, |server(url).value.events|).0
    ensures ServedInWindow(q, server, url, m)
  {
    var events := server(url).value.events;
    var k := StopIndex(q, events);
    PageOutcome(q, events);
    assert m in WindowMeetings(q, events[..k]);
    WindowMeetingsFrom(q, events[..k], m);
    PrefixYields(q, events, k, m);
  }

  /** A meeting built from an event of a prefix of the page is built from an event of the page. */
  lemma PrefixYields(q: Query, events: seq<Event>, k: nat, m: Meeting)
    requires k <= |events| && exists i :: 0 <= i < k && Yields(q, events[..k][i], m)
    ensures exists i :: 0 <= i < |events| && Yields(q, events[i], m)
  {
    var i :| 0 <= i < k && Yields(q, events[..k][i], m);
    PrefixIndex(events, k, i);
  }

  lemma PrefixIndex<T>(s: seq<T>, k: nat, i: nat)
    requires i < k <= |s|
    ensures s[..k][i] == s[i]
  {
  }

  /** Every meeting `fetch_events` returns was built from an in-window event of some page it was served. */
  lemma {:induction false} FetchedInWindow(q: Query, server: Server, url: string, budget: nat, m: Meeting)
    requires m in FetchFrom(q, server, url, budget)
    ensures exists u :: ServedInWindow(q, server, u, m)
    decreases budget
  {
    var page := server(url).value;
    var found := PageUpTo(q, page.events, |page.events|).0;
    if m in found {
      PageMeetingServed(q, server, url, m);
    } else {
      var next := page.nextLink.value;
      assert FetchFrom(q, server, url, budget) == found + FetchFrom(q, server, next, budget - 1);
      FetchedInWindow(q, server, next, budget - 1, m);
    }
  }

  /**
   * A page that holds an unparseable or older event is the last one read:
   * its next link is not followed.
   */
  lemma StopsAtOlderPage(q: Query, server: Server, url: string, budget: nat)
    requires budget > 0 && server(url).Some?
    requires exists i :: 0 <= i < |server(url).value.events| && Stops(q, server(url).value.events[i])
    ensures FetchFrom(q, server, url, budget) == WindowMeetings(q, server(url).value.events[..StopIndex(q, server(url).value.events)])
  {
    var events := server(url).value.events;
    PageOutcome(q, events);
    var i :| 0 <= i < |events| && Stops(q, events[i]);
    assert StopIndex(q, events) < |events|;
  }

  /** A page read to its end, with a next link, is followed by the next page. */
  lemma FollowsNextLink(q: Query, server: Server, url: string, budget: nat)
    requires budget > 0 && server(url).Some? && Truthy(server(url).value.nextLink)
    requires forall i :: 0 <= i < |server(url).value.events| ==> !Stops(q, server(url).value.events[i])
    ensures FetchFrom(q, server, url, budget) ==
      WindowMeetings(q, server(url).value.events) + FetchFrom(q, server, server(url).value.nextLink.value, budget - 1)
  {
    var events := server(url).value.events;
    PageOutcome(q, events);
    assert events[..|events|] == events;
  }

  // ---------------------------------------------------------------------
  // crawl
  // ---------------------------------------------------------------------

  /** `today - months_behind * 30 days` to `today + months_ahead * 30 days`, as day numbers. */
  function Window(today: int, monthsAhead: int, monthsBehind: int): (w: (int, int))
    ensures w.0 == today - 30 * monthsBehind && w.1 == today + 30 * monthsAhead
    ensures monthsAhead >= 0 && monthsBehind >= 0 ==> w.0 <= today <= w.1
  {
    (today - monthsBehind * 30, today + monthsAhead * 30)
  }

  /** `crawl(...)`: fetch the window, then de-duplicate and sort by start. */
  method Crawl(env: Env, cfg: Config, server: Server, today: int, monthsAhead: int, monthsBehind: int,
               parse: bool, budget: nat) returns (unique: seq<Meeting>)
    ensures var w := Window(today, monthsAhead, monthsBehind);
      unique == Dedup.DedupeAndSort(FetchFrom(Query(env, cfg, w.0, w.1, parse), server, FirstUrl(cfg.apiBase), budget))
    ensures Dedup.SortedByStart(unique) && Dedup.DistinctKeys(unique)
  {
    var w := Window(today, monthsAhead, monthsBehind);
    var meetings := FetchEvents(Query(env, cfg, w.0, w.1, parse), server, budget);
    unique := Dedup.Finish(meetings);
  }
}
