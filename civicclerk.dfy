/**
 * `civicclerk_scraper.py`: turning one CivicClerk API event into a
 * `Meeting` (`parse_event`), the source id derived from the API base, and
 * the trailing-slash rule for the configured base URLs.
 */
module CivicClerk {
  import opened Text
  import opened Numbers
  import opened Wrappers
  import opened Model
  import opened Url
  import Agenda
  import Votes

  /** The `id` field: an integer, a string, or absent/`null`. */
  datatype EventId = IdInt(n: int) | IdText(s: string) | IdAbsent

  /** `if not event_id: return None` */
  predicate IdTruthy(id: EventId)
  {
    match id
    case IdInt(n) => n != 0
    case IdText(s) => s != []
    case IdAbsent => false
  }

  /** `str(event_id)` */
  function IdString(id: EventId): (s: string)
    requires IdTruthy(id)
    ensures s != []
    ensures id.IdText? ==> s == id.s
    ensures id.IdInt? ==> s == IntToString(id.n)
  {
    match id
    case IdInt(n) => IntToString(n)
    case IdText(s) => s
  }

  /** The `eventLocation` field: absent (read as `{}`), `null`, or an object. */
  datatype LocationField =
    | LocationMissing
    | LocationNull
    | Location(address1: Option<string>, city: Option<string>, state: Option<string>, zipCode: Option<string>)

  /** One entry of `publishedFiles`; an absent `type`, `name` or `url` reads as "". */
  datatype FileEntry = FileEntry(fileType: string, name: string, url: string)

  /** The `publishedFiles` field: absent (read as `[]`), `null`, or a list. */
  datatype FilesField = FilesMissing | FilesNull | Files(entries: seq<FileEntry>)

  /** The fields of an API event that `parse_event` reads; `None` stands for absent or `null`. */
  datatype Event = Event(
    id: EventId,
    eventName: Option<string>,
    eventDescription: Option<string>,
    categoryName: Option<string>,
    eventDate: Option<string>,
    meetingEndTime: Option<string>,
    eventLocation: LocationField,
    publishedFiles: FilesField)

  /** The configuration `main` sets from the command line. */
  datatype Config = Config(apiBase: string, portalBase: string, timezoneName: string, sourceId: string)

  /** The end time CivicClerk uses for "no end time". */
  const EndSentinel := "1900-01-01T00:00:00Z"

  /** `clean(event_data.get(key, ""))` */
  function CleanField(o: Option<string>): (r: string)
    ensures Normalized(r) && |r| <= |o.GetOr("")|
  {
    Clean(o.GetOr(""))
  }

  /** `category_name or event_name` */
  function BodyOf(e: Event): (body: string)
    ensures CleanField(e.categoryName) != [] ==> body == CleanField(e.categoryName)
    ensures CleanField(e.categoryName) == [] ==> body == CleanField(e.eventName)
  {
    var category := CleanField(e.categoryName);
    if category != [] then category else CleanField(e.eventName)
  }

  /** Start and end, or `None` when the start is missing or a time does not parse. */
  function Times(env: Env, e: Event): (r: Option<(Instant, Instant)>)
    ensures !Truthy(e.eventDate) ==> r.None?
    ensures r.Some? ==> env.parseTime(e.eventDate.value) == Some(r.value.0)
    ensures r.Some? && (!Truthy(e.meetingEndTime) || e.meetingEndTime.value == EndSentinel) ==>
      r.value.1 == r.value.0 + TwoHours
    ensures r.Some? && Truthy(e.meetingEndTime) && e.meetingEndTime.value != EndSentinel ==>
      env.parseTime(e.meetingEndTime.value) == Some(r.value.1)
  {
    if !Truthy(e.eventDate) then None
    else
      var start := env.parseTime(e.eventDate.value);
      if start.None? then None
      else if Truthy(e.meetingEndTime) && e.meetingEndTime.value != EndSentinel then
        var end := env.parseTime(e.meetingEndTime.value);
        if end.None? then None else Some((start.value, end.value))
      else Some((start.value, start.value + TwoHours))
  }

  /** `if value: parts.append(value)` */
  function AppendIfPresent(parts: seq<string>, value: Option<string>): (r: seq<string>)
    ensures Truthy(value) ==> r == parts + [value.value]
    ensures !Truthy(value) ==> r == parts
  {
    if Truthy(value) then parts + [value.value] else parts
  }

  /** The non-empty `address1`, `city`, `state`, `zipCode`, in that order. */
  function LocationParts(loc: LocationField): (parts: seq<string>)
    ensures forall i :: 0 <= i < |parts| ==> parts[i] != []
    ensures |parts| <= 4
    ensures !loc.Location? ==> parts == []
    ensures parts == [] <==> !loc.Location? || (!Truthy(loc.address1) && !Truthy(loc.city) && !Truthy(loc.state) && !Truthy(loc.zipCode))
  {
    if !loc.Location? then []
    else AppendIfPresent(AppendIfPresent(AppendIfPresent(AppendIfPresent([], loc.address1), loc.city), loc.state), loc.zipCode)
  }

  /** `", ".join(location_parts) if location_parts else ""` */
  function LocationText(loc: LocationField): (s: string)
    ensures LocationParts(loc) == [] ==> s == []
    ensures |LocationParts(loc)| == 1 ==> s == LocationParts(loc)[0]
  {
    var parts := LocationParts(loc);
    if parts != [] then Join(parts, ", ") else ""
  }

  // ---------------------------------------------------------------------
  // The published-files loop
  // ---------------------------------------------------------------------

  /** The variables of the published-files loop. */
  datatype FileScan = FileScan(files: seq<PublishedFile>, agendaUrl: Option<string>, minutesUrl: Option<string>)

  /** One iteration of the loop. */
  function ScanStep(env: Env, base: string, st: FileScan, f: FileEntry): FileScan
  {
    if f.url == [] then st
    else
      var u := env.urlJoin(base, f.url);
      var files := st.files + [PublishedFile(f.fileType, f.name, u)];
      if f.fileType == "Agenda" && !Truthy(st.agendaUrl) then FileScan(files, Some(u), st.minutesUrl)
      else if f.fileType == "Minutes" && !Truthy(st.minutesUrl) then FileScan(files, st.agendaUrl, Some(u))
      else FileScan(files, st.agendaUrl, st.minutesUrl)
  }

  /** The loop variables after the first `n` entries. */
  function ScanUpTo(env: Env, base: string, entries: seq<FileEntry>, n: nat): FileScan
    requires n <= |entries|
  {
    if n == 0 then FileScan([], None, None)
    else ScanStep(env, base, ScanUpTo(env, base, entries, n - 1), entries[n - 1])
  }

  /** Reference: the entries with a non-empty url, made absolute, in input order. */
  function KeptFiles(env: Env, base: string, entries: seq<FileEntry>): (r: seq<PublishedFile>)
    ensures |r| <= |entries|
  {
    if entries == [] then []
    else
      var init := KeptFiles(env, base, entries[..|entries| - 1]);
      var f := entries[|entries| - 1];
      if f.url == [] then init else init + [PublishedFile(f.fileType, f.name, env.urlJoin(base, f.url))]
  }

  /** Reference: the url of the first kept file of type `t`. */
  function FirstOfType(files: seq<PublishedFile>, t: string): (r: Option<string>)
    ensures r.None? <==> forall i :: 0 <= i < |files| ==> files[i].fileType != t
    ensures r.Some? ==> exists i :: (0 <= i < |files| && files[i].fileType == t && files[i].url == r.value &&
      forall j :: 0 <= j < i ==> files[j].fileType != t)
  {
    if files == [] then None
    else if files[0].fileType == t then Some(files[0].url)
    else
      var r := FirstOfType(files[1..], t);
      if r.Some? then
        var i :| (0 <= i < |files[1..]| && files[1..][i].fileType == t && files[1..][i].url == r.value &&
          forall j :: 0 <= j < i ==> files[1..][j].fileType != t);
        assert files[i + 1] == files[1..][i];
        r
      else r
  }

  /** The published files the loop collects are exactly the entries with a url, made absolute, in order. */
  lemma {:induction false} ScanKeepsFilesWithUrl(env: Env, base: string, entries: seq<FileEntry>, n: nat)
    requires n <= |entries|
    ensures ScanUpTo(env, base, entries, n).files == KeptFiles(env, base, entries[..n])
  {
    if n > 0 {
      ScanKeepsFilesWithUrl(env, base, entries, n - 1);
      assert entries[..n][..n - 1] == entries[..n - 1];
    }
  }

  /** `urljoin` of the portal base with a non-empty reference is never empty. */
  ghost predicate JoinNonEmpty(env: Env, base: string)
  {
    forall u :: u != [] ==> env.urlJoin(base, u) != []
  }

  lemma FirstOfTypeSnoc(files: seq<PublishedFile>, f: PublishedFile, t: string)
    ensures FirstOfType(files + [f], t) ==
      if FirstOfType(files, t).Some? then FirstOfType(files, t)
      else if f.fileType == t then Some(f.url) else None
  {
    if files != [] {
      assert (files + [f])[1..] == files[1..] + [f];
      FirstOfTypeSnoc(files[1..], f, t);
    }
  }

  /** The url `ScanStep` records for the document type `t`. */
  function UrlOfType(st: FileScan, t: string): Option<string>
  {
    if t == "Agenda" then st.agendaUrl else st.minutesUrl
  }

  /** How one iteration changes the url recorded for `t`. */
  lemma ScanStepUrl(env: Env, base: string, st: FileScan, f: FileEntry, t: string)
    requires t == "Agenda" || t == "Minutes"
    ensures UrlOfType(ScanStep(env, base, st, f), t) ==
      if f.url != [] && f.fileType == t && !Truthy(UrlOfType(st, t)) then Some(env.urlJoin(base, f.url))
      else UrlOfType(st, t)
  {
  }

  lemma {:induction false} ScanFirstMatchOf(env: Env, base: string, entries: seq<FileEntry>, n: nat, t: string)
    requires n <= |entries| && JoinNonEmpty(env, base) && (t == "Agenda" || t == "Minutes")
    ensures UrlOfType(ScanUpTo(env, base, entries, n), t) == FirstOfType(KeptFiles(env, base, entries[..n]), t)
    ensures UrlOfType(ScanUpTo(env, base, entries, n), t).Some? ==> UrlOfType(ScanUpTo(env, base, entries, n), t).value != []
  {
    if n > 0 {
      ScanFirstMatchOf(env, base, entries, n - 1, t);
      var f := entries[n - 1];
      assert entries[..n][..n - 1] == entries[..n - 1];
      assert entries[..n][n - 1] == f;
      var prev := KeptFiles(env, base, entries[..n - 1]);
      if f.url != [] {
        var u := env.urlJoin(base, f.url);
        assert u != [];
        var pf := PublishedFile(f.fileType, f.name, u);
        assert KeptFiles(env, base, entries[..n]) == prev + [pf];
        FirstOfTypeSnoc(prev, pf, t);
      }
      ScanStepUrl(env, base, ScanUpTo(env, base, entries, n - 1), f, t);
    }
  }

  /**
   * First match wins: when `urljoin` gives non-empty urls, the agenda and
   * minutes urls are those of the first kept file typed exactly "Agenda" and
   * "Minutes".
   */
  lemma ScanFirstMatch(env: Env, base: string, entries: seq<FileEntry>)
    requires JoinNonEmpty(env, base)
    ensures ScanUpTo(env, base, entries, |entries|).agendaUrl == FirstOfType(KeptFiles(env, base, entries), "Agenda")
    ensures ScanUpTo(env, base, entries, |entries|).minutesUrl == FirstOfType(KeptFiles(env, base, entries), "Minutes")
  {
    assert entries[..|entries|] == entries;
    ScanFirstMatchOf(env, base, entries, |entries|, "Agenda");
    ScanFirstMatchOf(env, base, entries, |entries|, "Minutes");
  }

  /** The published-files loop of `parse_event`. */
  method ScanFiles(env: Env, base: string, entries: seq<FileEntry>) returns (scan: FileScan)
    ensures scan == ScanUpTo(env, base, entries, |entries|)
  {
    var publishedFiles: seq<PublishedFile> := [];
    var agendaUrl: Option<string> := None;
    var minutesUrl: Option<string> := None;
    for j := 0 to |entries|
      invariant FileScan(publishedFiles, agendaUrl, minutesUrl) == ScanUpTo(env, base, entries, j)
    {
      var f := entries[j];
      if f.url != [] {
        var fileUrl := env.urlJoin(base, f.url);
        publishedFiles := publishedFiles + [PublishedFile(f.fileType, f.name, fileUrl)];
        if f.fileType == "Agenda" && !Truthy(agendaUrl) {
          agendaUrl := Some(fileUrl);
        } else if f.fileType == "Minutes" && !Truthy(minutesUrl) {
          minutesUrl := Some(fileUrl);
        }
      }
    }
    scan := FileScan(publishedFiles, agendaUrl, minutesUrl);
  }

  // ---------------------------------------------------------------------
  // parse_event
  // ---------------------------------------------------------------------

  /** The downloaded text and what was parsed from it, for one document url. */
  function AgendaDocument(env: Env, url: Option<string>, parse: bool): (r: (Option<string>, Option<seq<AgendaItem>>))
    ensures !parse || !Truthy(url) ==> r == (None, None)
    ensures r.1.Some? <==> Truthy(r.0)
  {
    if parse && Truthy(url) then
      var text := env.fetchText(url.value);
      (text, if Truthy(text) then Some(Agenda.AgendaItems(text.value)) else None)
    else (None, None)
  }

  function MinutesDocument(env: Env, url: Option<string>, parse: bool): (r: (Option<string>, Option<seq<Vote>>))
    ensures !parse || !Truthy(url) ==> r == (None, None)
    ensures r.1.Some? <==> Truthy(r.0)
  {
    if parse && Truthy(url) then
      var text := env.fetchText(url.value);
      (text, if Truthy(text) then Some(Votes.AllVotes(text.value)) else None)
    else (None, None)
  }

  /** The string hashed into the uid. */
  function UidSource(body: string, startUtc: string, id: string, detailUrl: string): string
  {
    body + "|" + startUtc + "|" + id + "|" + detailUrl
  }

  /** The event fields without which `parse_event` returns `None` or raises. */
  predicate Parseable(env: Env, e: Event)
  {
    IdTruthy(e.id) && Times(env, e).Some? && !e.eventLocation.LocationNull? && !e.publishedFiles.FilesNull?
  }

  /** The entries the published-files loop walks: none when the field is absent. */
  function FileEntries(e: Event): seq<FileEntry>
  {
    if e.publishedFiles.Files? then e.publishedFiles.entries else []
  }

  function FilesScan(env: Env, cfg: Config, e: Event): FileScan
  {
    ScanUpTo(env, cfg.portalBase, FileEntries(e), |FileEntries(e)|)
  }

  function DetailUrl(cfg: Config, e: Event): string
    requires IdTruthy(e.id)
  {
    cfg.portalBase + "event/" + IdString(e.id)
  }

  /** The `Meeting(...)` call at the end of `parse_event`, with its `clean` calls. */
  function NewMeeting(uid: string, title: string, body: string, start: Instant, end: Instant, tz: string,
                      location: string, description: string, agendaUrl: Option<string>, minutesUrl: Option<string>,
                      detailUrl: string, source: string, files: seq<PublishedFile>,
                      agendaText: Option<string>, minutesText: Option<string>,
                      agendaItems: Option<seq<AgendaItem>>, votes: Option<seq<Vote>>): (m: Meeting)
    ensures Normalized(m.title) && Normalized(m.body) && Normalized(m.location) && Normalized(m.address)
    ensures m.publishedFiles.None? <==> files == []
  {
    Meeting(
      uid, Clean(title), Clean(body), start, end, false, tz, Clean(location), Clean(description), None,
      agendaUrl, minutesUrl, detailUrl, source, if files != [] then Some(files) else None,
      agendaText, minutesText, agendaItems, votes)
  }

  /** The meeting `parse_event` builds from a parseable event. */
  function MeetingOf(env: Env, cfg: Config, e: Event, parse: bool): Meeting
    requires Parseable(env, e)
  {
    var start := Times(env, e).value.0;
    var scan := FilesScan(env, cfg, e);
    var agenda := AgendaDocument(env, scan.agendaUrl, parse);
    var minutes := MinutesDocument(env, scan.minutesUrl, parse);
    NewMeeting(
      env.sha1Hex(UidSource(BodyOf(e), env.utcIso(start), IdString(e.id), DetailUrl(cfg, e))) + "@" + cfg.sourceId,
      PlaceholderTitle, BodyOf(e), start, Times(env, e).value.1, cfg.timezoneName,
      LocationText(e.eventLocation), e.eventDescription.GetOr(""),
      scan.agendaUrl, scan.minutesUrl, DetailUrl(cfg, e), cfg.sourceId, scan.files,
      agenda.0, minutes.0, agenda.1, minutes.1)
  }

  /** `parse_event(event_data, parse_documents)`; `None` also where the source's `try` catches an exception. */
  function EventToMeeting(env: Env, cfg: Config, e: Event, parse: bool): (r: Option<Meeting>)
    // a meeting exactly for the events with an id, parseable times, a location and a file list
    ensures Parseable(env, e) ==> r.Some?
    ensures r.Some? ==> Parseable(env, e)
    // the title is the placeholder and the body the category name, or the event name
    ensures r.Some? ==> r.value.title == PlaceholderTitle && r.value.body == BodyOf(e)
    // the start and end times
    ensures r.Some? ==> Truthy(e.eventDate) && env.parseTime(e.eventDate.value) == Some(r.value.start)
    ensures r.Some? && (!Truthy(e.meetingEndTime) || e.meetingEndTime.value == EndSentinel) ==>
      r.value.end == r.value.start + TwoHours
    ensures r.Some? && Truthy(e.meetingEndTime) && e.meetingEndTime.value != EndSentinel ==>
      env.parseTime(e.meetingEndTime.value) == Some(r.value.end)
    // the detail url and the uid follow the id; the source is the configured one
    ensures r.Some? ==> IdTruthy(e.id) && r.value.detailUrl == cfg.portalBase + "event/" + IdString(e.id)
    ensures r.Some? ==> (r.value.uid ==
      env.sha1Hex(UidSource(BodyOf(e), env.utcIso(r.value.start), IdString(e.id), r.value.detailUrl)) + "@" + cfg.sourceId)
    ensures r.Some? ==> r.value.source == cfg.sourceId && !r.value.allDay && r.value.virtualLink.None?
    // documents are fetched only when asked for, and parsed only when their text is non-empty
    ensures r.Some? && !parse ==>
      r.value.agendaText.None? && r.value.minutesText.None? && r.value.agendaItems.None? && r.value.votes.None?
    ensures r.Some? ==> (r.value.agendaItems.Some? <==> Truthy(r.value.agendaText))
    ensures r.Some? && r.value.agendaItems.Some? ==> r.value.agendaItems.value == Agenda.AgendaItems(r.value.agendaText.value)
    ensures r.Some? ==> (r.value.votes.Some? <==> Truthy(r.value.minutesText))
    ensures r.Some? && r.value.votes.Some? ==> r.value.votes.value == Votes.AllVotes(r.value.minutesText.value)
  {
    if Parseable(env, e) then
      MeetingOfFields(env, cfg, e, parse);
      MeetingOfTitle(env, cfg, e, parse);
      Some(MeetingOf(env, cfg, e, parse))
    else None
  }

  /** The fields of the meeting built from a parseable event. */
  lemma MeetingOfFields(env: Env, cfg: Config, e: Event, parse: bool)
    requires Parseable(env, e)
    ensures var m := MeetingOf(env, cfg, e, parse);
      && env.parseTime(e.eventDate.value) == Some(m.start)
      && ((!Truthy(e.meetingEndTime) || e.meetingEndTime.value == EndSentinel) ==> m.end == m.start + TwoHours)
      && (Truthy(e.meetingEndTime) && e.meetingEndTime.value != EndSentinel ==> env.parseTime(e.meetingEndTime.value) == Some(m.end))
      && m.detailUrl == cfg.portalBase + "event/" + IdString(e.id)
      && m.uid == env.sha1Hex(UidSource(BodyOf(e), env.utcIso(m.start), IdString(e.id), m.detailUrl)) + "@" + cfg.sourceId
      && m.source == cfg.sourceId && !m.allDay && m.virtualLink.None?
      && (!parse ==> m.agendaText.None? && m.minutesText.None? && m.agendaItems.None? && m.votes.None?)
      && (m.agendaItems.Some? <==> Truthy(m.agendaText))
      && (m.agendaItems.Some? ==> m.agendaItems.value == Agenda.AgendaItems(m.agendaText.value))
      && (m.votes.Some? <==> Truthy(m.minutesText))
      && (m.votes.Some? ==> m.votes.value == Votes.AllVotes(m.minutesText.value))
  {
    var times := Times(env, e).value;
    var scan := FilesScan(env, cfg, e);
    var agenda := AgendaDocument(env, scan.agendaUrl, parse);
    var minutes := MinutesDocument(env, scan.minutesUrl, parse);
    var m := MeetingOf(env, cfg, e, parse);
    assert m.start == times.0 && m.end == times.1;
    assert (m.agendaText, m.agendaItems) == agenda;
    assert (m.minutesText, m.votes) == minutes;
  }

  /** The title and body of the meeting built from a parseable event. */
  lemma MeetingOfTitle(env: Env, cfg: Config, e: Event, parse: bool)
    requires Parseable(env, e)
    ensures MeetingOf(env, cfg, e, parse).title == PlaceholderTitle
    ensures MeetingOf(env, cfg, e, parse).body == BodyOf(e)
  {
    PlaceholderTitleIsClean();
    CleanOfNormalized(BodyOf(e));
  }

  /** The start and end statements of `parse_event`; `None` where `fromisoformat` raises. */
  method EventTimes(env: Env, e: Event) returns (t: Option<(Instant, Instant)>)
    ensures t == Times(env, e)
  {
    if !Truthy(e.eventDate) {
      return None;
    }
    var startDt := env.parseTime(e.eventDate.value);
    if startDt.None? {
      assert Times(env, e).None?;
      return None;
    }
    var start := startDt.value;
    var end: Instant;
    if Truthy(e.meetingEndTime) && e.meetingEndTime.value != EndSentinel {
      var endDt := env.parseTime(e.meetingEndTime.value);
      if endDt.None? {
        assert Times(env, e).None?;
        return None;
      }
      end := endDt.value;
    } else {
      end := start + TwoHours;
    }
    t := Some((start, end));
  }

  /** The location-parts statements of `parse_event`. */
  method BuildLocation(loc: LocationField) returns (location: string)
    requires !loc.LocationNull?
    ensures location == LocationText(loc)
  {
    var locationParts: seq<string> := [];
    if loc.Location? {
      if Truthy(loc.address1) { locationParts := locationParts + [loc.address1.value]; }
      assert locationParts == AppendIfPresent([], loc.address1);
      if Truthy(loc.city) { locationParts := locationParts + [loc.city.value]; }
      if Truthy(loc.state) { locationParts := locationParts + [loc.state.value]; }
      if Truthy(loc.zipCode) { locationParts := locationParts + [loc.zipCode.value]; }
    }
    location := if locationParts != [] then Join(locationParts, ", ") else "";
  }

  /** The `if parse_documents:` block of `parse_event`. */
  method LoadDocuments(env: Env, agendaUrl: Option<string>, minutesUrl: Option<string>, parse: bool)
    returns (agendaText: Option<string>, agendaItems: Option<seq<AgendaItem>>,
             minutesText: Option<string>, votes: Option<seq<Vote>>)
    ensures (agendaText, agendaItems) == AgendaDocument(env, agendaUrl, parse)
    ensures (minutesText, votes) == MinutesDocument(env, minutesUrl, parse)
  {
    agendaText, agendaItems, minutesText, votes := None, None, None, None;
    if parse {
      if Truthy(agendaUrl) {
        agendaText := env.fetchText(agendaUrl.value);
        if Truthy(agendaText) {
          var items := Agenda.ParseAgendaItems(agendaText.value);
          agendaItems := Some(items);
        }
      }
      if Truthy(minutesUrl) {
        minutesText := env.fetchText(minutesUrl.value);
        if Truthy(minutesText) {
          var vs := Votes.ParseVotes(minutesText.value);
          votes := Some(vs);
        }
      }
    }
  }

  /** `parse_event`, statement by statement. */
  method ParseEvent(env: Env, cfg: Config, e: Event, parse: bool) returns (r: Option<Meeting>)
    ensures r == EventToMeeting(env, cfg, e, parse)
  {
    if !IdTruthy(e.id) {
      return None;
    }
    var body := BodyOf(e);
    var title := PlaceholderTitle;
    var times := EventTimes(env, e);
    if times.None? {
      return None;
    }
    var (start, end) := times.value;

    if e.eventLocation.LocationNull? {
      return None;
    }
    var location := BuildLocation(e.eventLocation);
    var detailUrl := cfg.portalBase + "event/" + IdString(e.id);
    assert detailUrl == DetailUrl(cfg, e);

    if e.publishedFiles.FilesNull? {
      return None;
    }
    var entries := if e.publishedFiles.Files? then e.publishedFiles.entries else [];
    var scan := ScanFiles(env, cfg.portalBase, entries);
    assert Parseable(env, e) && scan == FilesScan(env, cfg, e);

    var uid := env.sha1Hex(UidSource(body, env.utcIso(start), IdString(e.id), detailUrl)) + "@" + cfg.sourceId;
    var agendaText, agendaItems, minutesText, votes := LoadDocuments(env, scan.agendaUrl, scan.minutesUrl, parse);

    var m := NewMeeting(
      uid, title, body, start, end, cfg.timezoneName, location, e.eventDescription.GetOr(""),
      scan.agendaUrl, scan.minutesUrl, detailUrl, cfg.sourceId, scan.files,
      agendaText, minutesText, agendaItems, votes);
    assert m == MeetingOf(env, cfg, e, parse);
    r := Some(m);
  }

  // ---------------------------------------------------------------------
  // Properties of parse_event
  // ---------------------------------------------------------------------

  /** The location is the cleaned `", "`-join of the present address parts, and empty when there are none. */
  lemma EventLocation(env: Env, cfg: Config, e: Event, parse: bool)
    requires EventToMeeting(env, cfg, e, parse).Some?
    ensures var m := EventToMeeting(env, cfg, e, parse).value;
      && m.location == Clean(if LocationParts(e.eventLocation) != [] then Join(LocationParts(e.eventLocation), ", ") else "")
      && (LocationParts(e.eventLocation) == [] ==> m.location == "")
  {
    assert Clean("") == "";
  }

  /** What the published-files loop leaves after the whole list. */
  lemma ScanOutcome(env: Env, base: string, entries: seq<FileEntry>)
    ensures ScanUpTo(env, base, entries, |entries|).files == KeptFiles(env, base, entries)
    ensures JoinNonEmpty(env, base) ==>
      ScanUpTo(env, base, entries, |entries|).agendaUrl == FirstOfType(KeptFiles(env, base, entries), "Agenda") &&
      ScanUpTo(env, base, entries, |entries|).minutesUrl == FirstOfType(KeptFiles(env, base, entries), "Minutes")
  {
    ScanKeepsFilesWithUrl(env, base, entries, |entries|);
    assert entries[..|entries|] == entries;
    if JoinNonEmpty(env, base) {
      ScanFirstMatch(env, base, entries);
    }
  }

  /** The meeting of a parseable event carries the scan's files and document urls. */
  lemma MeetingOfFiles(env: Env, cfg: Config, e: Event, parse: bool)
    requires Parseable(env, e)
    ensures var m := MeetingOf(env, cfg, e, parse); var scan := FilesScan(env, cfg, e);
      && m.publishedFiles == (if scan.files != [] then Some(scan.files) else None)
      && m.agendaUrl == scan.agendaUrl && m.minutesUrl == scan.minutesUrl
  {
  }

  /**
   * `published_files` lists the entries with a url, made absolute, in input
   * order, and is `None` when there are none; with non-empty joined urls the
   * agenda and minutes urls are the first "Agenda" and "Minutes" among them.
   */
  lemma EventFiles(env: Env, cfg: Config, e: Event, parse: bool)
    requires EventToMeeting(env, cfg, e, parse).Some?
    ensures var m := EventToMeeting(env, cfg, e, parse).value;
      var entries := if e.publishedFiles.Files? then e.publishedFiles.entries else [];
      var kept := KeptFiles(env, cfg.portalBase, entries);
      && (kept == [] ==> m.publishedFiles.None?)
      && (kept != [] ==> m.publishedFiles == Some(kept))
      && (JoinNonEmpty(env, cfg.portalBase) ==>
            m.agendaUrl == FirstOfType(kept, "Agenda") && m.minutesUrl == FirstOfType(kept, "Minutes"))
  {
    var m := MeetingOf(env, cfg, e, parse);
    assert EventToMeeting(env, cfg, e, parse) == Some(m);
    MeetingOfFiles(env, cfg, e, parse);
    ScanOutcome(env, cfg.portalBase, FileEntries(e));
  }

  // ---------------------------------------------------------------------
  // Configuration
  // ---------------------------------------------------------------------

  /** `if not base.endswith('/'): base += '/'` */
  function WithTrailingSlash(base: string): (r: string)
    ensures r != [] && r[|r| - 1] == '/'
    ensures |r| >= |base| && r[..|base|] == base
    ensures base != [] && base[|base| - 1] == '/' ==> r == base
    ensures |r| <= |base| + 1
  {
    if base != [] && base[|base| - 1] == '/' then base else base + "/"
  }

  /** Adding the slash twice is adding it once. */
  lemma WithTrailingSlashIdempotent(base: string)
    ensures WithTrailingSlash(WithTrailingSlash(base)) == WithTrailingSlash(base)
  {
  }

  const DefaultSourceId := "civicclerk-meetings"

  /** `derive_source_id(api_base)`: "civicclerk-" and the host's first label, or the default. */
  function DeriveSourceId(apiBase: string): (id: string)
    ensures |id| > |"civicclerk-"| - 1 && id[..|"civicclerk-"|] == "civicclerk-"
  {
    match UrlSplit(apiBase)
    case None => DefaultSourceId
    case Some(parts) =>
      var hostname := if parts.netloc != [] then parts.netloc else ParsedPath(parts);
      var labels := SplitOn(hostname, '.');
      if |labels| >= 2 then "civicclerk-" + labels[0] else DefaultSourceId
  }

  /** The derived id is the default exactly when the host has no dot or the URL does not split. */
  lemma DeriveSourceIdCases(apiBase: string)
    ensures UrlSplit(apiBase).None? ==> DeriveSourceId(apiBase) == DefaultSourceId
    ensures UrlSplit(apiBase).Some? ==>
      var parts := UrlSplit(apiBase).value;
      var hostname := if parts.netloc != [] then parts.netloc else ParsedPath(parts);
      ('.' in hostname ==> DeriveSourceId(apiBase) == "civicclerk-" + hostname[..FindChar(hostname, '.')]) &&
      ('.' !in hostname ==> DeriveSourceId(apiBase) == DefaultSourceId)
  {
    if UrlSplit(apiBase).Some? {
      var parts := UrlSplit(apiBase).value;
      var hostname := if parts.netloc != [] then parts.netloc else ParsedPath(parts);
      var k := FindChar(hostname, '.');
      if k == |hostname| {
        assert '.' !in hostname;
      } else {
        assert |SplitOn(hostname[k + 1..], '.')| >= 1;
      }
    }
  }

  /** `FindChar` is pinned down by its contract. */
  lemma FindCharIs(s: string, c: char, k: nat)
    requires k < |s| && s[k] == c && forall j :: 0 <= j < k ==> s[j] != c
    ensures FindChar(s, c) == k
  {
  }

  lemma {:induction false} FindAnyIs(s: string, from: nat, cs: set<char>, k: nat)
    requires from <= k <= |s| && (k < |s| ==> s[k] in cs) && forall j :: from <= j < k ==> s[j] !in cs
    ensures FindAny(s, from, cs) == k
  {
  }

  /** A host name as it appears in an `https` API base: printable, without delimiters or brackets. */
  predicate PlainHost(host: string)
  {
    forall i :: 0 <= i < |host| ==> host[i] > ' ' && host[i] !in {'/', '?', '#', '[', ']'}
  }

  /** A path that `urlsplit` leaves alone: empty or starting with `/`, with no tab or line break. */
  predicate PlainPath(path: string)
  {
    (path == [] || path[0] == '/') && forall i :: 0 <= i < |path| ==> !IsUnsafe(path[i])
  }

  lemma HttpsBaseSafe(host: string, path: string)
    requires PlainHost(host) && PlainPath(path)
    ensures forall i :: 0 <= i < |"https://" + host + path| ==> !IsUnsafe(("https://" + host + path)[i])
  {
    var url := "https://" + host + path;
    forall i | 0 <= i < |url| ensures !IsUnsafe(url[i]) {
      if i >= 8 + |host| {
        assert url[i] == path[i - 8 - |host|];
      } else if i >= 8 {
        assert url[i] == host[i - 8];
      }
    }
  }

  /** `https:` is a scheme of five letters. */
  lemma SchemeOfHttps(rest: string)
    ensures SchemeLength("https:" + rest) == 5
  {
    var u := "https:" + rest;
    FindCharIs(u, ':', 5);
    assert forall k :: 0 <= k < 5 ==> IsSchemeChar(u[k]);
  }

  /** Nothing is stripped or removed from an `https` base, and its scheme is the five letters before `:`. */
  lemma HttpsBaseRest(host: string, path: string)
    requires PlainHost(host) && PlainPath(path)
    ensures AfterScheme(Prepared("https://" + host + path)) == "//" + host + path
  {
    var url := "https://" + host + path;
    var rest := "//" + host + path;
    assert url == "https:" + rest;
    assert url[0] == 'h';
    assert LStripC0(url) == url;
    HttpsBaseSafe(host, path);
    assert RemoveUnsafe(url) == url;
    SchemeOfHttps(rest);
    assert url[6..] == rest;
  }

  lemma NetlocOfPlainHost(host: string, path: string)
    requires PlainHost(host) && PlainPath(path)
    ensures Netloc("//" + host + path) == host
  {
    var rest := "//" + host + path;
    assert rest[..2] == "//";
    forall j | 2 <= j < 2 + |host| ensures rest[j] !in {'/', '?', '#'} {
      assert rest[j] == host[j - 2];
    }
    FindAnyIs(rest, 2, {'/', '?', '#'}, 2 + |host|);
    assert rest[2..2 + |host|] == host;
  }

  /** `urlsplit` of an `https` base reports its host as the network location. */
  lemma HttpsBaseNetloc(host: string, path: string)
    requires PlainHost(host) && PlainPath(path)
    ensures var r := UrlSplit("https://" + host + path); r.Some? && r.value.netloc == host
  {
    HttpsBaseRest(host, path);
    NetlocOfPlainHost(host, path);
    assert !BracketMismatch(host);
  }

  /** The text before the first dot of `<first>.<domain>` is `first`. */
  lemma FirstLabel(first: string, domain: string)
    requires '.' !in first
    ensures var host := first + "." + domain; '.' in host && host[..FindChar(host, '.')] == first
  {
    var host := first + "." + domain;
    assert host[|first|] == '.';
    FindCharIs(host, '.', |first|);
    assert host[..|first|] == first;
  }

  /**
   * For an API base `https://<first>.<domain>` followed by a path, the
   * source id is "civicclerk-" and the first host label.
   */
  lemma SourceIdOfHttpsBase(first: string, domain: string, path: string)
    requires first != [] && '.' !in first && PlainHost(first + "." + domain) && PlainPath(path)
    ensures DeriveSourceId("https://" + first + "." + domain + path) == "civicclerk-" + first
  {
    var host := first + "." + domain;
    var url := "https://" + host + path;
    assert "https://" + first + "." + domain + path == url;
    HttpsBaseNetloc(host, path);
    DeriveSourceIdCases(url);
    FirstLabel(first, domain);
  }
}
