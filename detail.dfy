/**
 * `parse_detail` in `detroit_meetings_scraper.py`: the rules that turn what
 * a Detroit eScribe meeting page offers (heading, breadcrumb, calendar file,
 * page text, links) into a `Meeting`.
 */
module EscribeDetail {
  import opened Text
  import opened Wrappers
  import opened Model
  import opened Url

  /** The eScribe portal every relative link is resolved against. */
  const Base := "https://pub-detroitmi.escribemeetings.com/"

  /** One `a[href]` of the page: its stripped text and its `href`. */
  datatype Link = Link(text: string, href: string)

  /**
   * What `try_parse_ics_from_detail` returns: the first VEVENT's times and
   * location. `startIsDate` marks a date-only DTSTART, which the calendar
   * library returns as a `date` rather than a `datetime`.
   */
  datatype IcsInfo = IcsInfo(start: Instant, startIsDate: bool, end: Option<Instant>, location: string)

  /** What the page-text date patterns give: no match, a parsed instant, or a `strptime` error. */
  datatype TextDate = NoDate | DateAt(instant: Instant) | DateError

  /**
   * What the HTML parser extracts from a meeting page: the text of the first
   * heading (`h1`, `.meeting-title`, `.page-title`), of the breadcrumb and of
   * the first `p`/`div`/`li` mentioning "Location", the calendar file's
   * event, the page text, and the links in document order.
   */
  datatype Page = Page(
    heading: Option<string>,
    crumb: Option<string>,
    ics: Option<IcsInfo>,
    text: string,
    links: seq<Link>,
    locationTag: Option<string>)

  /** The result of `parse_detail`: a meeting, `None` for a page without a start, or an exception. */
  datatype Outcome = Parsed(meeting: Meeting) | NoStart | Raised

  // ---------------------------------------------------------------------
  // Breadcrumb and title
  // ---------------------------------------------------------------------

  /** The breadcrumb separators. */
  predicate IsCrumbSeparator(c: char)
  {
    c == '›' || c == '>' || c == '/'
  }

  /** `s` holds no breadcrumb separator. */
  predicate SeparatorFree(s: string)
  {
    forall k :: 0 <= k < |s| ==> !IsCrumbSeparator(s[k])
  }

  /** `re.split(r"[›>/]", text)` */
  function CrumbPieces(s: string): (pieces: seq<string>)
    ensures |pieces| >= 1
    ensures forall i :: 0 <= i < |pieces| ==> SeparatorFree(pieces[i])
    ensures SeparatorFree(s) ==> pieces == [s]
    decreases |s|
  {
    if s == [] then [[]]
    else
      var rest := CrumbPieces(s[1..]);
      if IsCrumbSeparator(s[0]) then [[]] + rest
      else
        var first := [s[0]] + rest[0];
        assert SeparatorFree(rest[0]);
        assert SeparatorFree(first);
        assert SeparatorFree(s) ==> SeparatorFree(s[1..]) && first == s;
        [first] + rest[1..]
  }

  /** The separator characters of `s`, in order, each as a one-character text. */
  function CrumbSeparators(s: string): (seps: seq<string>)
    ensures forall i :: 0 <= i < |seps| ==> |seps[i]| == 1 && IsCrumbSeparator(seps[i][0])
    decreases |s|
  {
    if s == [] then []
    else if IsCrumbSeparator(s[0]) then [[s[0]]] + CrumbSeparators(s[1..])
    else CrumbSeparators(s[1..])
  }

  /**
   * The split loses nothing: one piece more than there are separators, and
   * the pieces interleaved with the separators give the text back.
   */
  lemma {:induction false} CrumbRoundTrip(s: string)
    ensures |CrumbPieces(s)| == |CrumbSeparators(s)| + 1
    ensures Interleave(CrumbPieces(s), CrumbSeparators(s)) == s
    decreases |s|
  {
    if s != [] {
      CrumbRoundTrip(s[1..]);
      var rest := CrumbPieces(s[1..]);
      var seps := CrumbSeparators(s[1..]);
      if IsCrumbSeparator(s[0]) {
        var pieces := [[]] + rest;
        assert pieces[0] == [] && pieces[1..] == rest;
        assert Interleave(pieces, [[s[0]]] + seps) == [] + [s[0]] + Interleave(rest, seps);
        assert s == [s[0]] + s[1..];
      } else {
        InterleaveHead([s[0]], rest, seps);
        assert s == [s[0]] + s[1..];
      }
    }
  }

  /** The cleaned pieces that are not blank, in order. */
  function CleanParts(pieces: seq<string>): (parts: seq<string>)
    ensures |parts| <= |pieces|
    ensures forall i :: 0 <= i < |parts| ==> parts[i] != [] && Normalized(parts[i])
  {
    if pieces == [] then []
    else
      var init := CleanParts(pieces[..|pieces| - 1]);
      var c := Clean(pieces[|pieces| - 1]);
      if c != [] then init + [c] else init
  }

  /** The kept parts are exactly `[clean(p) for p in pieces if clean(p)]`. */
  lemma {:induction false} CleanPartsFilter(pieces: seq<string>)
    ensures CleanParts(pieces) == CleanedNonBlank(pieces)
    decreases |pieces|
  {
    if pieces != [] {
      var n := |pieces| - 1;
      var init := pieces[..n];
      CleanPartsFilter(init);
      SomesSnoc(Mapped(init, NonBlankClean), NonBlankClean(pieces[n]));
    }
  }

  /** `parts[-2]` when there are two or more parts, the only part when there is one, else "". */
  function BodyOfParts(parts: seq<string>): (body: string)
    requires forall i :: 0 <= i < |parts| ==> parts[i] != [] && Normalized(parts[i])
    ensures |parts| >= 2 ==> body == parts[|parts| - 2]
    ensures |parts| == 1 ==> body == parts[0]
    ensures parts == [] <==> body == []
    ensures Normalized(body)
  {
    if |parts| >= 2 then parts[|parts| - 2]
    else if parts != [] then parts[0]
    else []
  }

  /** The body named by the breadcrumb, "" when the page has none. */
  function CrumbBody(crumb: Option<string>): string
  {
    if crumb.None? then [] else BodyOfParts(CleanParts(CrumbPieces(crumb.value)))
  }

  /** The upper-cased heading names a committee, commission or council. */
  predicate NamesBody(rawTitle: string)
  {
    var u := Upper(rawTitle);
    Find(u, "COMMITTEE") || Find(u, "COMMISSION") || Find(u, "COUNCIL")
  }

  /** The title and body rule: a heading that names a body becomes the body when the breadcrumb gave none. */
  function TitleAndBody(rawTitle: string, crumbBody: string): (tb: (string, string))
    ensures crumbBody == [] && NamesBody(rawTitle) ==> tb == (PlaceholderTitle, rawTitle)
    ensures !(crumbBody == [] && NamesBody(rawTitle)) ==> tb.1 == crumbBody
    ensures !(crumbBody == [] && NamesBody(rawTitle)) && rawTitle != [] ==> tb.0 == rawTitle
    ensures !(crumbBody == [] && NamesBody(rawTitle)) && rawTitle == [] ==> tb.0 == PlaceholderTitle
    ensures tb.0 != []
  {
    if crumbBody == [] && NamesBody(rawTitle) then (PlaceholderTitle, rawTitle)
    else (if rawTitle != [] then rawTitle else PlaceholderTitle, crumbBody)
  }

  // ---------------------------------------------------------------------
  // Links
  // ---------------------------------------------------------------------

  /** `re.search(word, text, re.I)` for a lower-case word. */
  predicate MentionsCi(text: string, word: string)
  {
    Find(Lower(text), word)
  }

  /** `first_link(word)`: the first link whose text mentions `word`, made absolute. */
  function FirstLink(env: Env, links: seq<Link>, word: string): (r: Option<string>)
    ensures r.None? <==> forall i :: 0 <= i < |links| ==> !MentionsCi(links[i].text, word)
    ensures r.Some? ==> exists i :: (0 <= i < |links| && MentionsCi(links[i].text, word) &&
      r.value == env.urlJoin(Base, links[i].href) && forall j :: 0 <= j < i ==> !MentionsCi(links[j].text, word))
  {
    var k := FirstMention(links, word);
    if k < |links| then Some(env.urlJoin(Base, links[k].href)) else None
  }

  /** The index of the first link whose text mentions `word`, or the number of links. */
  function FirstMention(links: seq<Link>, word: string): (k: nat)
    ensures k <= |links|
    ensures k < |links| ==> MentionsCi(links[k].text, word)
    ensures forall j :: 0 <= j < k ==> !MentionsCi(links[j].text, word)
  {
    if links == [] || MentionsCi(links[0].text, word) then 0
    else
      var k := FirstMention(links[1..], word);
      assert forall j :: 1 <= j < k + 1 ==> links[j] == links[1..][j - 1];
      1 + k
  }

  /** The markers of a streaming or video-call link. */
  const StreamMarkers := ["zoom.us", "teams.microsoft", "youtube.com", "facebook.com/live", "livestream"]

  /** `any(k in lowered for k in markers)` */
  predicate AnyMarker(lowered: string, markers: seq<string>)
  {
    markers != [] && (Find(lowered, markers[0]) || AnyMarker(lowered, markers[1..]))
  }

  predicate IsStreamHref(href: string)
  {
    AnyMarker(Lower(href), StreamMarkers)
  }

  /** Some marker occurs in `lowered` exactly when `AnyMarker` says so. */
  lemma {:induction false} AnyMarkerSpec(lowered: string, markers: seq<string>)
    ensures AnyMarker(lowered, markers) <==> exists k :: 0 <= k < |markers| && Contains(lowered, markers[k])
  {
    if markers != [] {
      AnyMarkerSpec(lowered, markers[1..]);
      if exists k :: 0 <= k < |markers| && Contains(lowered, markers[k]) {
        var k :| 0 <= k < |markers| && Contains(lowered, markers[k]);
        if k > 0 { assert markers[1..][k - 1] == markers[k]; }
      }
      if exists k :: 0 <= k < |markers[1..]| && Contains(lowered, markers[1..][k]) {
        var k :| 0 <= k < |markers[1..]| && Contains(lowered, markers[1..][k]);
        assert markers[k + 1] == markers[1..][k];
      }
    }
  }

  /** The first href holding a streaming marker, as written, or `None`. */
  function VirtualLink(links: seq<Link>): (r: Option<string>)
    ensures r.None? <==> forall i :: 0 <= i < |links| ==> !IsStreamHref(links[i].href)
    ensures r.Some? ==> exists i :: (0 <= i < |links| && IsStreamHref(links[i].href) && r.value == links[i].href &&
      forall j :: 0 <= j < i ==> !IsStreamHref(links[j].href))
  {
    if links == [] then None
    else if IsStreamHref(links[0].href) then Some(links[0].href)
    else
      var r := VirtualLink(links[1..]);
      if r.Some? then
        var i :| (0 <= i < |links[1..]| && IsStreamHref(links[1..][i].href) && r.value == links[1..][i].href &&
          forall j :: 0 <= j < i ==> !IsStreamHref(links[1..][j].href));
        assert links[i + 1] == links[1..][i];
        r
      else
        assert forall i :: 1 <= i < |links| ==> links[i] == links[1..][i - 1];
        r
  }

  /** The virtual-link loop: stop at the first link whose lower-cased href holds a marker. */
  method FindVirtualLink(links: seq<Link>) returns (r: Option<string>)
    ensures r == VirtualLink(links)
  {
    r := None;
    for i := 0 to |links|
      invariant VirtualLink(links[i..]) == VirtualLink(links)
    {
      assert links[i..][1..] == links[i + 1..];
      if AnyMarker(Lower(links[i].href), StreamMarkers) {
        r := Some(links[i].href);
        return;
      }
    }
  }

  // ---------------------------------------------------------------------
  // Location
  // ---------------------------------------------------------------------

  /** Drops the leading run of `:` and whitespace. */
  function SkipColonSpace(s: string): (r: string)
    ensures |r| <= |s| && r == s[|s| - |r|..]
    ensures r == [] || (r[0] != ':' && !IsSpace(r[0]))
  {
    if s != [] && (s[0] == ':' || IsSpace(s[0])) then SkipColonSpace(s[1..]) else s
  }

  /** The word "location" in any letter case at the front of `s`. */
  predicate LabelAt(s: string)
  {
    |s| >= 8 && forall i :: 0 <= i < 8 ==> LowerChar(s[i]) == "location"[i]
  }

  /** `re.sub(r"(?i)Location[:\s]*", "", s)`: every label and the colons and spaces after it removed. */
  function StripLocationLabels(s: string): (r: string)
    ensures |r| <= |s|
    decreases |s|
  {
    if LabelAt(s) then StripLocationLabels(SkipColonSpace(s[8..]))
    else if s == [] then []
    else [s[0]] + StripLocationLabels(s[1..])
  }

  /** Text without the label is left as it is. */
  lemma {:induction false} StripWithoutLabels(s: string)
    requires forall i :: 0 <= i < |s| ==> !LabelAt(s[i..])
    ensures StripLocationLabels(s) == s
    decreases |s|
  {
    if s != [] {
      assert s[0..] == s;
      forall i | 0 <= i < |s| - 1 ensures !LabelAt(s[1..][i..]) {
        assert s[1..][i..] == s[i + 1..];
      }
      StripWithoutLabels(s[1..]);
    }
  }

  /** The text in front of the first label is kept as it is, and the rest is processed on its own. */
  lemma {:induction false} StripKeepsFront(a: string, t: string)
    requires forall i :: 0 <= i < |a| ==> !LabelAt((a + t)[i..])
    ensures StripLocationLabels(a + t) == a + StripLocationLabels(t)
    decreases |a|
  {
    var s := a + t;
    if a == [] {
      assert s == t;
    } else {
      assert s[0..] == s;
      assert s[1..] == a[1..] + t;
      forall i | 0 <= i < |a| - 1 ensures !LabelAt((a[1..] + t)[i..]) {
        assert (a[1..] + t)[i..] == s[i + 1..];
      }
      StripKeepsFront(a[1..], t);
      assert !LabelAt(s);
      assert StripLocationLabels(s) == [s[0]] + StripLocationLabels(s[1..]);
      ConcatAssoc([s[0]], a[1..], StripLocationLabels(t));
      assert a == [s[0]] + a[1..];
    }
  }

  /**
   * A label in mid-text goes with the colons and spaces after it; the text
   * in front of it is kept, and the text after it is processed on its own.
   */
  lemma StripMidLabel(a: string, lbl: string, sep: string, rest: string)
    requires forall i :: 0 <= i < |a| ==> !LabelAt((a + (lbl + sep + rest))[i..])
    requires |lbl| == 8 && LabelAt(lbl)
    requires forall i :: 0 <= i < |sep| ==> sep[i] == ':' || IsSpace(sep[i])
    requires rest == [] || (rest[0] != ':' && !IsSpace(rest[0]))
    ensures StripLocationLabels(a + lbl + sep + rest) == a + StripLocationLabels(rest)
  {
    StripKeepsFront(a, lbl + sep + rest);
    StripLeadingLabel(lbl, sep, rest);
    Regroup4(a, lbl, sep, rest);
  }

  /** A leading label and the separator run after it are removed, and the rest is processed on its own. */
  lemma StripLeadingLabel(lbl: string, sep: string, rest: string)
    requires |lbl| == 8 && LabelAt(lbl)
    requires forall i :: 0 <= i < |sep| ==> sep[i] == ':' || IsSpace(sep[i])
    requires rest == [] || (rest[0] != ':' && !IsSpace(rest[0]))
    ensures StripLocationLabels(lbl + sep + rest) == StripLocationLabels(rest)
  {
    var tail := sep + rest;
    assert lbl + sep + rest == lbl + tail;
    LabelPrefix(lbl, tail);
    SkipSeparatorRun(sep, rest);
  }

  lemma LabelPrefix(lbl: string, tail: string)
    requires |lbl| == 8 && LabelAt(lbl)
    ensures StripLocationLabels(lbl + tail) == StripLocationLabels(SkipColonSpace(tail))
  {
    var s := lbl + tail;
    assert forall i :: 0 <= i < 8 ==> s[i] == lbl[i];
    assert s[8..] == tail;
  }

  lemma {:induction false} SkipSeparatorRun(sep: string, rest: string)
    requires forall i :: 0 <= i < |sep| ==> sep[i] == ':' || IsSpace(sep[i])
    requires rest == [] || (rest[0] != ':' && !IsSpace(rest[0]))
    ensures SkipColonSpace(sep + rest) == rest
    decreases |sep|
  {
    if sep != [] {
      assert (sep + rest)[1..] == sep[1..] + rest;
      SkipSeparatorRun(sep[1..], rest);
    } else {
      assert sep + rest == rest;
    }
  }

  // ---------------------------------------------------------------------
  // extract_meeting_id
  // ---------------------------------------------------------------------

  /** `extract_meeting_id(url)`: the first `Id` value of the query, else the first `id` value. */
  function ExtractMeetingId(url: string, unquote: string -> string): (r: Option<string>)
    ensures UrlSplit(url).None? ==> r.None?
    ensures UrlSplit(url).Some? ==>
      var pairs := QueryPairs(UrlSplit(url).value.query, unquote);
      r == (if Lookup(pairs, "Id").Some? then Lookup(pairs, "Id") else Lookup(pairs, "id"))
  {
    match UrlSplit(url)
    case None => None
    case Some(parts) =>
      var pairs := QueryPairs(parts.query, unquote);
      var id := Lookup(pairs, "Id");
      if id.Some? then id else Lookup(pairs, "id")
  }

  /** An id is found exactly when the query has a non-blank `Id` or `id` parameter. */
  lemma ExtractMeetingIdSpec(url: string, unquote: string -> string)
    requires UrlSplit(url).Some?
    ensures var pairs := QueryPairs(UrlSplit(url).value.query, unquote);
      ExtractMeetingId(url, unquote).None? <==>
        forall i :: 0 <= i < |pairs| ==> pairs[i].0 != "Id" && pairs[i].0 != "id"
  {
  }

  // ---------------------------------------------------------------------
  // parse_detail
  // ---------------------------------------------------------------------

  /** `f"{body}: {title}" if body else title` */
  function FullTitle(title: string, body: string): string
  {
    if body != [] then body + ": " + title else title
  }

  /** The string hashed into the uid. */
  function UidSource(fullTitle: string, startUtc: string, mid: string, url: string): string
  {
    fullTitle + "|" + startUtc + "|" + mid + "|" + url
  }

  /** Start, end and location after the calendar file and the page-text fallback. */
  datatype When = When(start: Instant, end: Instant, location: string)

  /** The start, end and calendar location; `NoStart`/`Raised` carried as `None` with a flag. */
  function WhenOf(page: Page, textDate: string -> TextDate): (r: (Option<When>, bool))
    ensures page.ics.Some? ==> r.1 == false && r.0 == Some(When(page.ics.value.start,
      page.ics.value.end.GetOr(page.ics.value.start + TwoHours), Clean(page.ics.value.location)))
    ensures page.ics.None? && textDate(page.text).DateAt? ==>
      r == (Some(When(textDate(page.text).instant, textDate(page.text).instant + TwoHours, "")), false)
    ensures page.ics.None? && textDate(page.text).NoDate? ==> r == (None, false)
    ensures page.ics.None? && textDate(page.text).DateError? ==> r == (None, true)
  {
    if page.ics.Some? then
      var ics := page.ics.value;
      (Some(When(ics.start, ics.end.GetOr(ics.start + TwoHours), if ics.location != [] then Clean(ics.location) else "")), false)
    else match textDate(page.text)
      case NoDate => (None, false)
      case DateError => (None, true)
      case DateAt(t) => (Some(When(t, t + TwoHours, "")), false)
  }

  /** The location after the `Location` fallback. */
  function FinalLocation(icsLocation: string, locationTag: Option<string>): (loc: string)
    ensures icsLocation != [] ==> loc == icsLocation
    ensures icsLocation == [] && locationTag.None? ==> loc == []
    ensures icsLocation == [] && locationTag.Some? ==> loc == Clean(StripLocationLabels(locationTag.value))
  {
    if icsLocation == [] && locationTag.Some? then Clean(StripLocationLabels(locationTag.value)) else icsLocation
  }

  /** The `Meeting(...)` call at the end of `parse_detail`. */
  function DetroitMeeting(uid: string, title: string, body: string, start: Instant, end: Instant, location: string,
                          virtualLink: Option<string>, agendaUrl: Option<string>, minutesUrl: Option<string>,
                          url: string): (m: Meeting)
    ensures m.address == [] && m.source == "escribe-detroit" && m.timezone == "America/Detroit"
    ensures m.detailUrl == url && m.start == start && m.end == end && m.uid == uid
    ensures m.virtualLink == virtualLink && m.agendaUrl == agendaUrl && m.minutesUrl == minutesUrl
    ensures m.publishedFiles.None? && m.agendaItems.None? && m.votes.None?
    ensures m.title == Clean(title) && m.body == Clean(body) && m.location == Clean(location)
  {
    Meeting(uid, Clean(title), Clean(body), start, end, false, "America/Detroit", Clean(location), "", virtualLink,
      agendaUrl, minutesUrl, url, "escribe-detroit", None, None, None, None, None)
  }

  /** The raw title and the body from the heading and the breadcrumb. */
  function Names(p: Page): (string, string)
  {
    TitleAndBody(Clean(p.heading.GetOr("")), CrumbBody(p.crumb))
  }

  /** The meeting `parse_detail` builds once it has a start. */
  function MeetingOfPage(env: Env, url: string, p: Page, when: When): Meeting
  {
    var (title, body) := Names(p);
    var mid := ExtractMeetingId(url, env.unquote).GetOr("");
    var uid := env.sha1Hex(UidSource(FullTitle(title, body), env.utcIso(when.start), mid, url)) + "@detroit-escribe";
    DetroitMeeting(uid, title, body, when.start, when.end, FinalLocation(when.location, p.locationTag),
      VirtualLink(p.links), FirstLink(env, p.links, "agenda"), FirstLink(env, p.links, "minutes"), url)
  }

  /**
   * `parse_detail(url)` on a fetched page; `Raised` when the fetch or
   * `strptime` raises, or when a date-only calendar start reaches the uid,
   * since a `date` has no `astimezone`.
   */
  function DetailOf(env: Env, textDate: string -> TextDate, url: string, page: Option<Page>): (r: Outcome)
    ensures page.None? ==> r == Raised
    // a calendar start gives a meeting, unless it is a bare date
    ensures page.Some? && page.value.ics.Some? && !page.value.ics.value.startIsDate ==> r.Parsed?
    ensures page.Some? && page.value.ics.Some? && page.value.ics.value.startIsDate ==> r == Raised
    // otherwise the page-text date decides
    ensures page.Some? && page.value.ics.None? && textDate(page.value.text).DateAt? ==> r.Parsed?
    ensures page.Some? && page.value.ics.None? && textDate(page.value.text).NoDate? ==> r == NoStart
    ensures page.Some? && page.value.ics.None? && textDate(page.value.text).DateError? ==> r == Raised
    ensures r.Parsed? ==> r.meeting.detailUrl == url && r.meeting.source == "escribe-detroit"
  {
    if page.None? then Raised
    else
      var w := WhenOf(page.value, textDate);
      if w.1 then Raised
      else if w.0.None? then NoStart
      else if page.value.ics.Some? && page.value.ics.value.startIsDate then Raised
      else Parsed(MeetingOfPage(env, url, page.value, w.0.value))
  }

  /** The title/body statements of `parse_detail`. */
  method ChooseNames(p: Page) returns (title: string, body: string)
    ensures (title, body) == Names(p)
  {
    var rawTitle := Clean(p.heading.GetOr(""));
    body := CrumbBody(p.crumb);
    if body == [] && NamesBody(rawTitle) {
      body := rawTitle;
      title := PlaceholderTitle;
    } else {
      title := if rawTitle != [] then rawTitle else PlaceholderTitle;
    }
  }

  /** The start/end/location fallback chain of `parse_detail`. */
  method ResolveWhen(p: Page, textDate: string -> TextDate) returns (when: Option<When>, raised: bool)
    ensures (when, raised) == WhenOf(p, textDate)
  {
    var startDt: Option<Instant> := None;
    var endDt: Option<Instant> := None;
    var location := "";
    if p.ics.Some? {
      startDt := Some(p.ics.value.start);
      endDt := p.ics.value.end;
      if p.ics.value.location != [] {
        location := Clean(p.ics.value.location);
      }
    }
    if startDt.None? {
      match textDate(p.text)
      case DateError => return None, true;
      case DateAt(t) => startDt := Some(t);
      case NoDate =>
    }
    if startDt.None? {
      return None, false;
    }
    if endDt.None? {
      endDt := Some(startDt.value + TwoHours);
    }
    when, raised := Some(When(startDt.value, endDt.value, location)), false;
  }

  /** `parse_detail`, with its fallback chain of reassignments. */
  method ParseDetail(env: Env, textDate: string -> TextDate, url: string, page: Option<Page>) returns (r: Outcome)
    ensures r == DetailOf(env, textDate, url, page)
  {
    if page.None? {
      return Raised;
    }
    var p := page.value;
    var title, body := ChooseNames(p);
    var when, raised := ResolveWhen(p, textDate);
    if raised {
      return Raised;
    }
    if when.None? {
      return NoStart;
    }
    var start := when.value.start;

    var agendaUrl := FirstLink(env, p.links, "agenda");
    var minutesUrl := FirstLink(env, p.links, "minutes");
    var virtualLink := FindVirtualLink(p.links);

    var location := when.value.location;
    if location == [] && p.locationTag.Some? {
      location := Clean(StripLocationLabels(p.locationTag.value));
    }

    var fullTitle := FullTitle(title, body);
    var mid := ExtractMeetingId(url, env.unquote).GetOr("");
    if p.ics.Some? && p.ics.value.startIsDate {
      // `start_dt.astimezone` raises on a `date`
      return Raised;
    }
    var uid := env.sha1Hex(UidSource(fullTitle, env.utcIso(start), mid, url)) + "@detroit-escribe";
    r := Parsed(DetroitMeeting(uid, title, body, start, when.value.end, location, virtualLink, agendaUrl, minutesUrl, url));
  }

  /** A parsed meeting's title and body are those of the title/body rule, unchanged by the final `clean`. */
  lemma DetailNames(env: Env, textDate: string -> TextDate, url: string, page: Option<Page>)
    requires DetailOf(env, textDate, url, page).Parsed?
    ensures var m := DetailOf(env, textDate, url, page).meeting;
      (m.title, m.body) == Names(page.value)
  {
    var p := page.value;
    var w := WhenOf(p, textDate);
    assert DetailOf(env, textDate, url, page) == Parsed(MeetingOfPage(env, url, p, w.0.value));
    NamesNormalized(p);
    CleanOfNormalized(Names(p).0);
    CleanOfNormalized(Names(p).1);
  }

  /** Both names are already clean: the heading and the breadcrumb pieces went through `clean`. */
  lemma NamesNormalized(p: Page)
    ensures Normalized(Names(p).0) && Normalized(Names(p).1)
  {
    PlaceholderTitleIsClean();
    var crumb := CrumbBody(p.crumb);
    assert Normalized(crumb);
  }

  /**
   * A parsed meeting starts at the calendar file's start, or else at the
   * date found in the page text; it ends two hours later unless the
   * calendar file gave an end.
   */
  lemma DetailTimes(env: Env, textDate: string -> TextDate, url: string, page: Option<Page>)
    requires DetailOf(env, textDate, url, page).Parsed?
    ensures var m := DetailOf(env, textDate, url, page).meeting; var p := page.value;
      && ((p.ics.None? || p.ics.value.end.None?) ==> m.end == m.start + TwoHours)
      && (p.ics.Some? && p.ics.value.end.Some? ==> m.end == p.ics.value.end.value)
      && (p.ics.Some? ==> m.start == p.ics.value.start)
      && (p.ics.None? ==> textDate(p.text) == DateAt(m.start))
  {
  }

  /**
   * A parsed meeting's links are the first matching ones, and its uid hashes
   * the full title, the UTC start, the meeting id and the url, suffixed
   * with "@detroit-escribe".
   */
  lemma DetailLinksAndUid(env: Env, textDate: string -> TextDate, url: string, page: Option<Page>)
    requires DetailOf(env, textDate, url, page).Parsed?
    ensures var m := DetailOf(env, textDate, url, page).meeting; var p := page.value;
      && m.agendaUrl == FirstLink(env, p.links, "agenda")
      && m.minutesUrl == FirstLink(env, p.links, "minutes")
      && m.virtualLink == VirtualLink(p.links)
      && m.uid == env.sha1Hex(UidSource(FullTitle(Names(p).0, Names(p).1), env.utcIso(m.start),
           ExtractMeetingId(url, env.unquote).GetOr(""), url)) + "@detroit-escribe"
  {
  }
}
