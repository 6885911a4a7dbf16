/**
 * The canonical meeting record both scrapers emit, its parts, and the
 * library behaviour the scrapers rely on but that is not modelled here
 * (date parsing and zone conversion, hashing, URL joining, PDF download and
 * text extraction), passed in as functions.
 */
module Model {
  import opened Wrappers
  import opened Text

  /** Seconds since the epoch: every timestamp of the model. */
  type Instant = int

  const TwoHours: int := 2 * 60 * 60

  /** The title both scrapers fall back to. */
  const PlaceholderTitle := "Meeting"

  /** The fallback title is already clean, so the final `clean` keeps it. */
  lemma PlaceholderTitleIsClean()
    ensures Clean(PlaceholderTitle) == PlaceholderTitle
  {
    var t := PlaceholderTitle;
    assert forall i :: 0 <= i < |t| ==> !IsSpace(t[i]);
    assert Normalized(t);
    CleanOfNormalized(t);
  }

  datatype AgendaItem = AgendaItem(number: string, text: string)

  datatype VoteType = Yea | Nay

  datatype Vote = Vote(voteType: VoteType, voters: seq<string>)

  datatype PublishedFile = PublishedFile(fileType: string, name: string, url: string)

  /** The `Meeting` dataclass (the CivicClerk variant carries every field the eScribe one has). */
  datatype Meeting = Meeting(
    uid: string,
    title: string,
    body: string,
    start: Instant,
    end: Instant,
    allDay: bool,
    timezone: string,
    location: string,
    address: string,
    virtualLink: Option<string>,
    agendaUrl: Option<string>,
    minutesUrl: Option<string>,
    detailUrl: string,
    source: string,
    publishedFiles: Option<seq<PublishedFile>>,
    agendaText: Option<string>,
    minutesText: Option<string>,
    agendaItems: Option<seq<AgendaItem>>,
    votes: Option<seq<Vote>>)

  /** Python truthiness of an optional string: present and non-empty. */
  predicate Truthy(o: Option<string>)
  {
    o.Some? && o.value != ""
  }

  /**
   * Library behaviour taken as given.
   *  - parseTime: `datetime.fromisoformat(s.replace('Z', '+00:00'))`, then
   *    `astimezone(TZ)` or `TZ.localize`; None when it raises.
   *  - dateOf: the calendar day (as a day number) of the parsed value, in
   *    the value's own offset; None when parsing raises.
   *  - utcIso: `astimezone(timezone.utc).isoformat()` of an instant.
   *  - sha1Hex: `hashlib.sha1(s.encode()).hexdigest()`.
   *  - urlJoin: `urljoin(base, ref)`.
   *  - unquote: percent-decoding with '+' read as a space, as `parse_qs` does.
   *  - fetchText: `download_pdf` followed by `extract_text_from_pdf`; None on
   *    any failure.
   */
  datatype Env = Env(
    parseTime: string -> Option<Instant>,
    dateOf: string -> Option<int>,
    utcIso: Instant -> string,
    sha1Hex: string -> string,
    urlJoin: (string, string) -> string,
    unquote: string -> string,
    fetchText: string -> Option<string>)
}
