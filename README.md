# Detroit-area meeting scraper, modelled in Dafny

The repository collects public meeting records from two calendar portals.
It turns them into one `Meeting` record shape, writes them out as JSON and
as an iCalendar file, and renders them as markdown:

- `civicclerk_scraper.py` reads the CivicClerk events API page by page,
  newest first. It stops at the first event older than the date window. It
  turns each event into a `Meeting`, optionally parsing the agenda items
  and roll-call votes out of the PDF text, then de-duplicates and sorts
  the result.
- `detroit_meetings_scraper.py` reads the eScribe portal. It visits the
  month pages of a window around the current month, collects the meeting
  detail links, and parses each detail page. The start comes from the
  page's calendar file or, failing that, from a date in the page text.
- `generate_briefs.py` groups meetings by day and writes one markdown
  brief per day.
- `generate_newsletter.py` splits the meetings into those of the past week
  and those of the next two weeks, and writes a newsletter from them.

The model is one Dafny module per concern:

| module | file | models |
|---|---|---|
| `Wrappers` | wrappers.dfy | `None` versus a present value |
| `Text` | text.dfy | `strip`, `clean`, `lower`/`upper`, `in`, `join`, `len(s.split())` |
| `Numbers` | numbers.dfy | `str(n)` and `f"{n:,}"` |
| `Ordering` | ordering.dfy | `sorted(set(...))` under Python's string order |
| `Url` | url.dfy | `urlsplit`/`urlparse` and `parse_qs` |
| `Model` | model.dfy | the `Meeting` record and the library calls taken as given (`Env`) |
| `Agenda` | agenda.dfy | `parse_agenda_items` and its three regular expressions |
| `Votes` | votes.dfy | `parse_votes` and its two regular expressions |
| `CivicClerk` | civicclerk.dfy | `parse_event`, `derive_source_id`, the base-URL slash |
| `Paging` | paging.dfy | `fetch_events` and CivicClerk's `crawl` |
| `Dedup` | dedup.dfy | the `(title.lower(), body.lower(), start)` de-duplication and the sort by start |
| `Ics` | ics.dfy | both `to_ics` functions |
| `EscribeDetail` | detail.dfy | `parse_detail`, `extract_meeting_id` |
| `Escribe` | escribe.dfy | `month_url`, `parse_month`, eScribe's `crawl` |
| `Briefs` | briefs.dfy | `generate_briefs.py` |
| `Newsletter` | newsletter.dfy | `generate_newsletter.py` |

Where the source loops or reassigns variables, the model is a method with
a loop. Each such method is proved equal to a function that states the
result, and the properties are proved about that function. Timestamps are
integer instants in seconds. Library behaviour the scrapers rely on is
passed in as functions:

- `Model.Env`: ISO parsing with zone conversion, UTC ISO rendering, SHA-1,
  `urljoin`, percent-decoding, and the PDF download with text extraction.
- `Briefs.Formats` and `Newsletter.NewsFormats`: the `strftime` renderings.

Pages fetched over the network are inputs: a function from URL to the
parsed page, `None` when the request raises.

## Model

| member | source | states |
|---|---|---|
| Text.Clean | civicclerk_scraper.py:104-105 | `clean` yields text with no whitespace at either end, no two whitespace characters in a row and only plain spaces; it is empty exactly when the input is all whitespace; it is never longer than the input (its exact value: Text.CleanWords) |
| Text.CleanIdempotent | detroit_meetings_scraper.py:53-54 | cleaning a cleaned string changes nothing |
| Text.CleanOfNormalized | detroit_meetings_scraper.py:207-213 | a string that is already normalized is left unchanged by `clean` (why the final `clean` calls of both `Meeting(...)` calls are no-ops) |
| Text.CleanWords | civicclerk_scraper.py:104-105 | `clean(s)` is the words of `s` (its maximal runs of non-whitespace characters), in order, joined by single spaces |
| Text.Collapse | civicclerk_scraper.py:105 | `re.sub(r"\s+", " ", s)` leaves no run and only plain spaces, is empty only for empty input, and keeps whether each end is whitespace (its exact value: Text.CollapseWords) |
| Text.CollapseWords | civicclerk_scraper.py:105 | `re.sub(r"\s+", " ", s)` is the words of `s` joined by single spaces, with one space in front when `s` starts with whitespace and one behind when it ends with whitespace after a word (a blank `s` gives one space) |
| Text.CollapseFirstWord | civicclerk_scraper.py:105 | a text starting with a non-space character keeps its first word as it is and collapses the rest |
| Text.Words | generate_briefs.py:123 | `s.split()`: no words exactly when the text is all whitespace |
| Text.WordsUnfold | generate_briefs.py:123 | the words of a non-blank text are the first maximal non-space run after the leading whitespace, then the words of what follows it |
| Text.FirstWord | generate_briefs.py:123 | the first word is the longest prefix without whitespace; it is non-empty when the text starts with a non-space character |
| Text.SkipWord | generate_briefs.py:123 | what follows the first word starts with whitespace or is empty, and everything before it is non-space |
| Text.WordsConcat | generate_briefs.py:123 | the words, concatenated, are exactly the non-whitespace characters of the text, in order |
| Text.Strip | generate_briefs.py:80 | `strip()` leaves no whitespace at either end; it is empty exactly when the input is all whitespace (its exact value: Text.StripSlice) |
| Text.StripSlice | generate_briefs.py:80 | `strip()` is the slice of the text between its leading and its trailing whitespace |
| Text.TrimStartAt | generate_briefs.py:80 | dropping the leading whitespace leaves the text from its first non-space character |
| Text.TrimEndAt | generate_briefs.py:80 | dropping the trailing whitespace leaves the text up to its last non-space character |
| Text.Lower | detroit_meetings_scraper.py:189 | `lower()` maps each character in place and keeps the length |
| Text.Upper | detroit_meetings_scraper.py:137 | `upper()` maps each character in place and keeps the length |
| Text.IndexFrom | detroit_meetings_scraper.py:71 | the search returns the first occurrence of the pattern at or after the start, or -1 exactly when there is none |
| Text.Find | detroit_meetings_scraper.py:76 | the search answers yes exactly when the pattern occurs in the string |
| Text.WordCount | generate_briefs.py:123 | `len(s.split())` is at most the length and is zero exactly when the text is all whitespace (its exact value: Text.WordCountWords) |
| Text.WordCountWords | generate_briefs.py:123 | the count is the number of words, the maximal non-whitespace runs of `s.split()` |
| Text.Interleave | detroit_meetings_scraper.py:130 | no contract of its own: the text a split came from, used by the split round trips |
| Text.NonBlankClean | detroit_meetings_scraper.py:130 | `clean(p)` when `p` has a non-space character, `None` otherwise |
| Numbers.NatToString | generate_briefs.py:119 | `str(n)` is a non-empty run of digits without a leading zero |
| Numbers.NatToStringRoundTrip | generate_briefs.py:148 | reading back the digits of `str(n)` gives `n` |
| Numbers.NatToStringInjective | generate_briefs.py:154 | different counts render differently |
| Numbers.IntToString | detroit_meetings_scraper.py:62 | `str(i)` of a negative integer is a minus sign and the digits of its absolute value |
| Numbers.WithThousandsDigits | generate_briefs.py:124 | removing the commas of `f"{n:,}"` gives `str(n)` |
| Numbers.NatToStringSplit3 | generate_briefs.py:124 | the digits of a number of 1000 or more are the digits of `n / 1000` followed by three digits for `n % 1000` |
| Ordering.LexStrictTotal | detroit_meetings_scraper.py:79 | Python's string `<` is irreflexive, transitive and total on different strings |
| Ordering.SortedSet | detroit_meetings_scraper.py:266 | `sorted(set)` lists every element once, in strictly ascending order |
| Ordering.AscendingListingUnique | detroit_meetings_scraper.py:276 | any ascending listing of a set is the sorted one |
| Ordering.SortedStrings | detroit_meetings_scraper.py:79 | `sorted(set(links))` holds exactly the links, each once, ascending |
| Url.SplitOn | civicclerk_scraper.py:454 | `s.split(c)` gives at least one piece and no piece holds `c` |
| Url.SplitOnJoin | civicclerk_scraper.py:454 | joining the pieces of `s.split(c)` with `c` gives `s` back |
| Url.UrlSplit | civicclerk_scraper.py:451 | `urlsplit` fails on an unbalanced bracket in the network location (the other ways it raises are listed under Left out); otherwise the query holds no `#`, the path no `?` or `#`, and the network location is the part after `//` up to the first `/`, `?` or `#` |
| Url.ParsedPath | detroit_meetings_scraper.py:111 | `urlparse`'s path is a prefix of the split path; it is the whole path for schemes without parameters or without a `;`; otherwise it is cut exactly at the first `;` after the last `/` |
| Url.QueryPair | detroit_meetings_scraper.py:112 | a query piece is dropped exactly when it is empty, has no `=` or has an empty value |
| Url.QueryPairsOf | detroit_meetings_scraper.py:112 | one optional pair per query piece, in order |
| Url.Lookup | detroit_meetings_scraper.py:113 | the looked-up value is absent exactly when no pair has the name, and otherwise is the value of the first pair with it |
| Agenda.ParseAgendaItems | civicclerk_scraper.py:141-165 | the three pattern passes return the items of the decimal, letter and roman passes, in that order |
| Agenda.PatternPass | civicclerk_scraper.py:155-163 | one pattern's loop appends exactly the kept items of its matches, in match order |
| Agenda.Scan | civicclerk_scraper.py:149-155 | every match carries a well-formed marker of its family; its raw text either starts with a non-blank character and stays on one line, or is a single whitespace character |
| Agenda.ItemOf | civicclerk_scraper.py:162 | a kept item keeps its number and has its text cut to at most 500 characters |
| Agenda.KeepItems | civicclerk_scraper.py:159-163 | kept items have more than 10 and at most 500 characters |
| Agenda.KeepItemsSpec | civicclerk_scraper.py:159 | nothing is kept exactly when every candidate has 10 characters or fewer, and every kept item is the cut of a longer candidate |
| Agenda.ItemsBounded | civicclerk_scraper.py:144-145 | an empty text yields no items, and every item text has 11 to 500 characters |
| Agenda.FamiliesInOrder | civicclerk_scraper.py:154 | the items come as the decimal items, then the letter items, then the roman items |
| Agenda.FamilyItemsMarkers | civicclerk_scraper.py:149-151 | every item of a pass has a well-formed marker of that pass's family |
| Agenda.SingleLineOneItemPerFamily | civicclerk_scraper.py:149 | on a text without line breaks each pattern yields at most one item |
| Agenda.RomanOneIsAlsoLetterI | civicclerk_scraper.py:149-162 | a one-line text `I. rest` (rest starting with a non-blank character) yields the cleaned rest twice, once from the letter pass and once from the roman pass, when it passes the filter, and nothing otherwise |
| Agenda.LineIScan | civicclerk_scraper.py:150-151 | the letter and roman patterns each match `I. rest` once, with marker `I` and the rest of the line as text |
| Votes.ParseVotes | civicclerk_scraper.py:167-200 | `parse_votes` returns the yea loop's votes followed by the nay loop's votes |
| Votes.CollectVotes | civicclerk_scraper.py:180-188 | one loop appends, in match order, a vote for each span that yields names |
| Votes.SpanVote | civicclerk_scraper.py:181-188 | the body of the vote loop computes the vote of one span |
| Votes.SpanEnd | civicclerk_scraper.py:174 | the lazy group stops at the first position where the lookahead holds |
| Votes.SplitNames | civicclerk_scraper.py:183 | `re.split(r',\|and', s)` gives at least one piece (round trip: Votes.SplitRoundTrip) |
| Votes.SplitSeps | civicclerk_scraper.py:183 | the separators the split cuts at are each `,` or `and` |
| Votes.SplitRoundTrip | civicclerk_scraper.py:183 | there is one more piece than separators, and the pieces interleaved with the separators give the text back |
| Votes.SplitUnfold | civicclerk_scraper.py:183 | the pieces are the text before the first separator, then the pieces of the text after it |
| Votes.SepsUnfold | civicclerk_scraper.py:183 | the separators are the first separator, then the separators of the text after it |
| Votes.CleanNames | civicclerk_scraper.py:183 | cleaning and dropping empty names never adds names (its exact value: Votes.CleanNamesFilter) |
| Votes.CleanNamesFilter | civicclerk_scraper.py:183 | the names are exactly `[clean(n) for n in parts if clean(n)]`: the cleaned pieces that are not blank, in order |
| Votes.CleanNamesClean | civicclerk_scraper.py:183 | every kept name is non-empty and already clean |
| Votes.VoteOfSpan | civicclerk_scraper.py:181-188 | a vote has the loop's type and 1 to 20 cleaned, non-empty voter names |
| Votes.VoteOfSpanNames | civicclerk_scraper.py:182-187 | a span yields no vote exactly when it has no name, and otherwise its voters are its first 20 names |
| Votes.VotesWellFormed | civicclerk_scraper.py:170-200 | an empty text has no votes; every vote is well formed; no yea comes after a nay |
| Votes.SplitNamesSeparatorFree | civicclerk_scraper.py:183 | no voter piece holds a comma or the substring `and` |
| Votes.TrailingLabelVotesForLastLetter | civicclerk_scraper.py:174 | a text ending in `YEAS` yields a yea vote for the voter "S" |
| CivicClerk.IdString | civicclerk_scraper.py:256 | `str(event_id)`: a text id as it is, an integer id as its decimal digits; never empty for a truthy id |
| CivicClerk.CleanField | civicclerk_scraper.py:212-214 | a missing field reads as empty, and the field is cleaned |
| CivicClerk.BodyOf | civicclerk_scraper.py:217 | the body is the cleaned category name, or the cleaned event name when the category is blank |
| CivicClerk.Times | civicclerk_scraper.py:221-240 | no times without a start; the start is the parsed `eventDate`; the end is the parsed `meetingEndTime`, or two hours after the start when it is missing or the 1900 sentinel |
| CivicClerk.EventTimes | civicclerk_scraper.py:221-240 | the statements that parse the start and end compute those times |
| CivicClerk.LocationParts | civicclerk_scraper.py:243-252 | the non-empty address fields, at most four, in order; none when the location is absent |
| CivicClerk.BuildLocation | civicclerk_scraper.py:243-253 | the location statements give the comma-join of the present address fields, or "" |
| CivicClerk.ScanFiles | civicclerk_scraper.py:264-283 | the published-files loop's variables after all entries |
| CivicClerk.ScanOutcome | civicclerk_scraper.py:264-283 | after the loop the files are the kept entries, and, when urls can be joined, the agenda and minutes urls are the first of their type |
| CivicClerk.ScanKeepsFilesWithUrl | civicclerk_scraper.py:269-277 | the collected files are exactly the entries with a url, made absolute, in input order |
| CivicClerk.ScanFirstMatch | civicclerk_scraper.py:280-283 | `agenda_url` and `minutes_url` are the urls of the first collected file of type Agenda and Minutes |
| CivicClerk.FirstOfType | civicclerk_scraper.py:280-283 | no url exactly when no file has the type; otherwise the url of the first file that has it |
| CivicClerk.AgendaDocument | civicclerk_scraper.py:295-303 | nothing is downloaded unless documents are parsed and the agenda url is set; items exist exactly when text was extracted |
| CivicClerk.MinutesDocument | civicclerk_scraper.py:305-312 | the same for the minutes and their votes |
| CivicClerk.LoadDocuments | civicclerk_scraper.py:295-312 | the document block sets the texts, items and votes as the two document functions say |
| CivicClerk.NewMeeting | civicclerk_scraper.py:314-334 | title, body, location and address are cleaned; published files are `None` exactly when none were collected |
| CivicClerk.EventToMeeting | civicclerk_scraper.py:204-337 | a meeting exactly for the events with a truthy id, a start and end that parse, a location and a file list that do not raise; its title is "Meeting" and its body the category or event name; the start, end, detail url, uid, source and document fields as the source builds them, with items and votes parsed from the downloaded text |
| CivicClerk.MeetingOfFields | civicclerk_scraper.py:221-337 | for a parseable event: the start and end as parsed, the detail url, the uid hash input, the source, and no parsed documents when parsing is off |
| CivicClerk.ParseEvent | civicclerk_scraper.py:204-337 | `parse_event` statement by statement equals the event-to-meeting function |
| CivicClerk.MeetingOfTitle | civicclerk_scraper.py:212-218 | the meeting built from a parseable event is titled "Meeting" and carries the body rule's body |
| CivicClerk.EventLocation | civicclerk_scraper.py:243-253 | the location is the cleaned comma-join of the present address fields |
| CivicClerk.EventFiles | civicclerk_scraper.py:259-283 | the meeting's files, agenda url and minutes url are those of the published-files loop |
| CivicClerk.WithTrailingSlash | civicclerk_scraper.py:485-491 | the base ends in `/`, starts with the given base, gains at most one character, and is unchanged when it already ends in `/` |
| CivicClerk.WithTrailingSlashIdempotent | civicclerk_scraper.py:486-487 | adding the slash twice is adding it once |
| CivicClerk.DeriveSourceId | civicclerk_scraper.py:448-460 | the derived id always starts with `civicclerk-` |
| CivicClerk.DeriveSourceIdCases | civicclerk_scraper.py:450-460 | the default id exactly when the URL does not split or its host has no dot; otherwise `civicclerk-` and the host's first label |
| CivicClerk.HttpsBaseNetloc | civicclerk_scraper.py:451-452 | `urlsplit` of an `https` base reports its host as the network location |
| CivicClerk.SourceIdOfHttpsBase | civicclerk_scraper.py:453-457 | an `https` base with a dotted host gives `civicclerk-` and the host's first label |
| Paging.ReadPage | civicclerk_scraper.py:356-372 | the event loop over one page: the meetings of in-window events and where the loop left the page |
| Paging.StopIndex | civicclerk_scraper.py:364-367 | the first event older than the window or with an unparseable date, or the page length |
| Paging.PageOutcome | civicclerk_scraper.py:356-372 | a page yields the meetings of its in-window events before the stopping event, and reports whether it stopped, and why |
| Paging.LeftPageStays | civicclerk_scraper.py:366-367 | after the loop leaves the page, the remaining events change nothing |
| Paging.FetchEvents | civicclerk_scraper.py:341-385 | `fetch_events` follows next links from the first url until a page stops, has no next link, or fails |
| Paging.FetchPage | civicclerk_scraper.py:356-376 | one page's meetings come first, then what the next link yields, or nothing when the page stopped |
| Paging.FetchedInWindow | civicclerk_scraper.py:369-372 | every fetched meeting was parsed from an in-window event of a page the server returned |
| Paging.StopsAtOlderPage | civicclerk_scraper.py:364-367 | a page with an older event ends the fetch with the meetings before that event |
| Paging.FollowsNextLink | civicclerk_scraper.py:375-376 | a page read to its end is followed by the page of its next link |
| Paging.Window | civicclerk_scraper.py:428-430 | the window runs from 30 days per month behind to 30 days per month ahead, around today |
| Paging.Crawl | civicclerk_scraper.py:426-444 | `crawl` is the fetch of the window, de-duplicated and sorted; its result is sorted by start with distinct keys |
| Dedup.DedupeFirst | civicclerk_scraper.py:435-441 | the `seen`/`unique` loop keeps the first meeting of each key |
| Dedup.FirstOccurrencesSpec | detroit_meetings_scraper.py:286-292 | the kept meetings have pairwise different keys, cover every key of the input, and come from the input |
| Dedup.FirstsKeepExactlyFirsts | detroit_meetings_scraper.py:290-292 | a meeting with no earlier meeting of its key is kept |
| Dedup.FirstsOfDistinct | civicclerk_scraper.py:437-441 | a list without repeated keys is kept whole |
| Dedup.SortByStart | civicclerk_scraper.py:442 | the sort yields a permutation of the input in ascending start order |
| Dedup.SortStable | civicclerk_scraper.py:442 | the sort is stable: the meetings with any one start come out in the order they went in |
| Dedup.InsertStable | civicclerk_scraper.py:442 | inserting a meeting puts it after the meetings with its start and changes the order at no start |
| Dedup.InsertSorted | civicclerk_scraper.py:442 | inserting by start into a sorted list keeps it sorted |
| Dedup.InsertMultiset | civicclerk_scraper.py:442 | inserting adds exactly that meeting to the list's multiset |
| Dedup.SortSorted | detroit_meetings_scraper.py:293 | sorting an already sorted list changes nothing |
| Dedup.Finish | civicclerk_scraper.py:435-442 | the de-duplication and the sort leave a list sorted by start, with distinct keys, covering every key of the input |
| Dedup.DedupeAndSortIdempotent | detroit_meetings_scraper.py:286-293 | de-duplicating and sorting twice is doing it once |
| Ics.Summary | civicclerk_scraper.py:408 | the summary is `body: title`, or the title when the body is empty |
| Ics.DescriptionLines | civicclerk_scraper.py:412-416 | the Agenda, Minutes and Virtual lines, each exactly when its url is set and at its place in that order, then always the Details line last |
| Ics.DescriptionEndsWithDetails | detroit_meetings_scraper.py:243-248 | the joined description always ends with the Details line |
| Ics.EventOf | civicclerk_scraper.py:397-420 | an event carries the meeting's uid, times, url and summary, the description lines joined by `\n`, a location exactly when the meeting has one, status CONFIRMED and the calendar's stamp |
| Ics.ToIcs | civicclerk_scraper.py:391-422 | one event per meeting, in order, under the given product id and version 2.0 |
| EscribeDetail.CrumbPieces | detroit_meetings_scraper.py:130 | `re.split(r"[›>/]", text)` gives at least one piece, none holding a separator, and the text itself when it has none (round trip: EscribeDetail.CrumbRoundTrip) |
| EscribeDetail.CrumbSeparators | detroit_meetings_scraper.py:130 | the separators of the text, in order, each one separator character |
| EscribeDetail.CrumbRoundTrip | detroit_meetings_scraper.py:130 | there is one more piece than separators, and the pieces interleaved with the separators give the breadcrumb text back |
| EscribeDetail.CleanParts | detroit_meetings_scraper.py:130 | the kept breadcrumb parts are cleaned and non-empty (its exact value: EscribeDetail.CleanPartsFilter) |
| EscribeDetail.CleanPartsFilter | detroit_meetings_scraper.py:130 | the parts are exactly `[p.strip() for p in pieces if p.strip()]` after cleaning: the cleaned pieces that are not blank, in order |
| EscribeDetail.BodyOfParts | detroit_meetings_scraper.py:131-134 | the second-to-last part, the only part when there is one, and "" when there is none |
| EscribeDetail.TitleAndBody | detroit_meetings_scraper.py:136-141 | a heading naming a committee, commission or council becomes the body when the breadcrumb gave none, and the title is then "Meeting"; otherwise the heading, or "Meeting" when blank, with the breadcrumb body |
| EscribeDetail.ChooseNames | detroit_meetings_scraper.py:122-141 | the title/body statements give the heading and breadcrumb rule's names |
| EscribeDetail.FirstLink | detroit_meetings_scraper.py:177-184 | no link exactly when no link text mentions the word; otherwise the first that does, made absolute |
| EscribeDetail.FirstMention | detroit_meetings_scraper.py:177-184 | the index of the first link whose text mentions the word, case-insensitively, or the number of links |
| EscribeDetail.AnyMarkerSpec | detroit_meetings_scraper.py:189 | the `any(...)` test holds exactly when some streaming marker occurs in the lowered href |
| EscribeDetail.VirtualLink | detroit_meetings_scraper.py:186-191 | no virtual link exactly when no href holds a marker; otherwise the first such href as written |
| EscribeDetail.FindVirtualLink | detroit_meetings_scraper.py:186-191 | the loop with its `break` finds that link |
| EscribeDetail.StripLocationLabels | detroit_meetings_scraper.py:196 | removing the labels never lengthens the text (what is removed and kept: the three lemmas below) |
| EscribeDetail.StripWithoutLabels | detroit_meetings_scraper.py:196 | a text without the label is left as it is |
| EscribeDetail.StripLeadingLabel | detroit_meetings_scraper.py:196 | a leading label of any letter case and the colons and spaces after it are removed |
| EscribeDetail.StripKeepsFront | detroit_meetings_scraper.py:196 | text in front of the first label is kept as it is, and the rest is processed on its own |
| EscribeDetail.StripMidLabel | detroit_meetings_scraper.py:196 | a label in mid-text is removed with the colons and spaces after it; the text before it is kept and the text after it is processed on its own |
| EscribeDetail.ExtractMeetingId | detroit_meetings_scraper.py:108-116 | no id when the URL does not split; otherwise the first `Id` value, else the first `id` value |
| EscribeDetail.ExtractMeetingIdSpec | detroit_meetings_scraper.py:111-114 | an id is found exactly when the query has an `Id` or `id` parameter with a value |
| EscribeDetail.WhenOf | detroit_meetings_scraper.py:143-174 | the calendar's times win; otherwise the page-text date with a two-hour end; no start gives `None`, a `strptime` error raises |
| EscribeDetail.ResolveWhen | detroit_meetings_scraper.py:143-174 | the fallback chain of reassignments computes those times |
| EscribeDetail.FinalLocation | detroit_meetings_scraper.py:156-157 | the calendar location wins; otherwise the cleaned location element without its label, or "" when there is none |
| EscribeDetail.DetroitMeeting | detroit_meetings_scraper.py:205-219 | the record has cleaned names and location, no address, the eScribe source and zone, and the given times, links and uid |
| EscribeDetail.DetailOf | detroit_meetings_scraper.py:118-219 | a fetched page yields a meeting whenever it has a start, from a date-time calendar start or from a page-text date; a failed fetch, a `strptime` error or a date-only calendar start (a `date` has no `astimezone`, :202) raises; a page without any start gives `None`; a parsed meeting carries the page url and the eScribe source |
| EscribeDetail.ParseDetail | detroit_meetings_scraper.py:118-219 | `parse_detail` statement by statement, including the raise at the uid step for a date-only calendar start, equals the detail function |
| EscribeDetail.DetailNames | detroit_meetings_scraper.py:198-208 | a parsed meeting's title and body are those of the title/body rule |
| EscribeDetail.NamesNormalized | detroit_meetings_scraper.py:124-134 | both names are already clean |
| EscribeDetail.DetailTimes | detroit_meetings_scraper.py:149-174 | a parsed meeting's start and end are those of the fallback chain |
| EscribeDetail.DetailLinksAndUid | detroit_meetings_scraper.py:177-203 | a parsed meeting's agenda, minutes and virtual links and its uid are built as the source builds them |
| Escribe.MonthUrlInjective | detroit_meetings_scraper.py:61-62 | different months have different month-page urls |
| Escribe.NormMonth | detroit_meetings_scraper.py:262-264 | the normalised month lies in 1..12 and denotes the same month count |
| Escribe.TargetMonths | detroit_meetings_scraper.py:257-264 | the month loop collects the window of months |
| Escribe.MonthWindowMembers | detroit_meetings_scraper.py:258-264 | a month is targeted exactly when it lies from `behind` months before to `ahead` months after the current month |
| Escribe.MonthWindowSize | detroit_meetings_scraper.py:258 | the window holds `behind + ahead + 1` months, none twice |
| Escribe.SortedMonths | detroit_meetings_scraper.py:266 | `sorted(target_months)` lists each month once in tuple order |
| Escribe.SortedWindowChronological | detroit_meetings_scraper.py:266 | the months are visited in chronological order |
| Escribe.ParseMonth | detroit_meetings_scraper.py:64-79 | the two link loops and the final `sorted(set(...))` |
| Escribe.LoopTests | detroit_meetings_scraper.py:69-76 | the first loop's `"Meeting" in href` test never fails on a selected link; the second loop only keeps selected links |
| Escribe.FirstLoopMembers | detroit_meetings_scraper.py:69-72 | the first loop collects exactly the joined selected links |
| Escribe.FirstLoopFrom | detroit_meetings_scraper.py:69-72 | every collected link is the absolute url of a selected href |
| Escribe.FirstLoopHas | detroit_meetings_scraper.py:69-72 | the absolute url of every selected href is collected |
| Escribe.SecondLoopWithinFirst | detroit_meetings_scraper.py:74-77 | every link of the second loop was already collected by the first |
| Escribe.MonthLinksSpec | detroit_meetings_scraper.py:64-79 | a month page's links are ascending and are exactly the joined selected links |
| Escribe.AddAll | detroit_meetings_scraper.py:269-270 | adding a month's links to the set |
| Escribe.CollectDetails | detroit_meetings_scraper.py:265-273 | the month loop collects each visited month's links, and none for a month whose page fails |
| Escribe.MonthPageLinks | detroit_meetings_scraper.py:265-273 | one pass of the month loop yields that month's links, none when the page fails |
| Escribe.DetailsOfMembers | detroit_meetings_scraper.py:265-273 | a link is collected exactly when some visited month lists it |
| Escribe.ParseDetails | detroit_meetings_scraper.py:275-283 | the detail loop appends the meeting of each link whose page parses |
| Escribe.ParsedFromOrigin | detroit_meetings_scraper.py:276-280 | every collected meeting is the parse of one of the links |
| Escribe.Crawl | detroit_meetings_scraper.py:255-294 | `crawl` parses the window's detail links in ascending order, then de-duplicates and sorts; the result is sorted with distinct keys |
| Escribe.CrawlOrigin | detroit_meetings_scraper.py:255-294 | every crawled meeting is the parse of a link listed by a month of the window |
| Escribe.DetailLinkOrigin | detroit_meetings_scraper.py:265-273 | every collected detail link is listed by some month of the window |
| Briefs.GroupByDate | generate_briefs.py:37-43 | the grouping loop builds the map of days to their meetings |
| Briefs.OnDay | generate_briefs.py:40-42 | a day's group is no longer than the input and holds only meetings starting that day |
| Briefs.OnDayMembers | generate_briefs.py:40-42 | a meeting is in a day's group exactly when it is in the input and starts that day |
| Briefs.GroupedSpec | generate_briefs.py:37-43 | the grouped days are exactly the start days, and each group is the day's meetings in input order |
| Briefs.GroupedKeys | generate_briefs.py:37-43 | a day is a key of the grouping exactly when some meeting starts that day |
| Briefs.GroupedGroup | generate_briefs.py:40-42 | the group of a key is the day's meetings in input order |
| Briefs.GroupedExactlyOnce | generate_briefs.py:40-42 | every meeting is in the group of its own day and in no other |
| Briefs.DocLinks | generate_briefs.py:61-67 | Agenda, Minutes and Details links in that order, each exactly when its url is set |
| Briefs.DocumentsLines | generate_briefs.py:68-69 | the documents line is left out exactly when there is no link |
| Briefs.NewlinesToSpaces | generate_briefs.py:80 | line breaks become spaces and nothing else changes |
| Briefs.ItemTextSpec | generate_briefs.py:80-82 | a shown item text is on one line, at most 150 characters, stripped, and cut to 147 characters plus "..." when longer |
| Briefs.AgendaLines | generate_briefs.py:74-87 | no block without items; otherwise a header, the first ten item lines, a more-items line when over ten, and a blank line |
| Briefs.AgendaSection | generate_briefs.py:74-87 | the agenda statements build that block |
| Briefs.ItemLines | generate_briefs.py:78-79 | the item loop writes one line per shown item, in order |
| Briefs.RenderItem | generate_briefs.py:80-83 | one item line, as the source renders it |
| Briefs.MapLines | generate_briefs.py:78 | one line per element, in order |
| Briefs.OfType | generate_briefs.py:95-96 | only votes of the requested type are selected |
| Briefs.OfTypeMembers | generate_briefs.py:95-96 | a vote is selected exactly when it is in the input and has the requested type |
| Briefs.OfTypePartition | generate_briefs.py:95-96 | the yea and nay lists split the votes between them |
| Briefs.VoterLine | generate_briefs.py:101-104 | the first five voters, and `+k more` when there are more |
| Briefs.TypeLines | generate_briefs.py:98-112 | a group header and the voter lines of the first three votes; nothing without votes |
| Briefs.VoteLines | generate_briefs.py:90-114 | the voting block is empty exactly when there are no votes (its layout: Briefs.VoteLinesShape) |
| Briefs.VoteLinesShape | generate_briefs.py:90-114 | the voting block is the header, the approved group headed by the count of all yea votes, the opposed group headed by the count of all nay votes, each group listing at most three votes, and a blank line; every line at its index |
| Briefs.SectionFrame | generate_briefs.py:90-114 | a voting block of two groups has two lines more than the groups, the header first, each group header at its place, and a blank line last |
| Briefs.SectionVoters | generate_briefs.py:100-112 | the voter lines of each group's first three votes sit right after that group's header |
| Briefs.VoterLines | generate_briefs.py:100-104 | the voter lines of the first three votes |
| Briefs.VoteSection | generate_briefs.py:90-114 | the voting statements build that block |
| Briefs.StatsParts | generate_briefs.py:117-124 | one part each for the item count, the vote count and the agenda word count, each exactly when there is one |
| Briefs.StatsPartsShape | generate_briefs.py:117-124 | `N agenda items` first, `N votes recorded` next, `~N words in agenda` last, each when present, with the counts of the meeting |
| Briefs.StatsLines | generate_briefs.py:126-128 | no statistics line exactly when there is nothing to count |
| Briefs.StatsLinesShape | generate_briefs.py:126-128 | with anything to count, the block is the parts joined by ` • ` in italics, then a blank line |
| Briefs.HeadSection | generate_briefs.py:53-71 | the header statements build the body, times, location, documents and blank line |
| Briefs.HeadLinesShape | generate_briefs.py:53-71 | the header is the body line, the time line, the location line exactly when a location is set, the documents line when any, and a blank line, each at its index |
| Briefs.MeetingBrief | generate_briefs.py:46-130 | `generate_meeting_brief` is the brief text: the newline-join of the header, agenda, voting and statistics blocks |
| Briefs.SummaryLines | generate_briefs.py:152-154 | the numbered summary: line `k` names meeting `k`, numbered from one |
| Briefs.Sections | generate_briefs.py:163-166 | three lines per meeting |
| Briefs.SectionsAt | generate_briefs.py:163-166 | the section of meeting `k` is its brief, a rule and a blank line, at lines `3k` to `3k + 2` |
| Briefs.DetailSections | generate_briefs.py:163-166 | the details loop builds those sections |
| Briefs.DailyHead | generate_briefs.py:139-149 | the header has eight lines, the seventh giving the meeting count |
| Briefs.DailyLayout | generate_briefs.py:133-172 | a day's brief has `15 + 4n` lines: the numbered summary from line 9, each meeting's brief followed by a rule from line `14 + n`, and the footer |
| Briefs.DailyCount | generate_briefs.py:148 | the seventh line gives the number of meetings |
| Briefs.DailyBrief | generate_briefs.py:133-172 | `generate_daily_brief` is the newline-join of the daily lines |
| Briefs.GenerateBriefs | generate_briefs.py:175-220 | `main` groups, selects the requested date, and writes one brief per day with meetings, in date order |
| Briefs.WriteBriefs | generate_briefs.py:202-220 | the loop over the sorted days skips empty groups and writes each day's brief under `brief-<day>.md` |
| Briefs.BriefFilesContent | generate_briefs.py:203-217 | every file is the brief of a listed day with meetings, named after that day |
| Briefs.BriefFilesComplete | generate_briefs.py:202-217 | every listed day with meetings gets a brief |
| Briefs.BriefFilesOrdered | generate_briefs.py:202 | the briefs come out in ascending day order |
| Briefs.BriefFilesDays | generate_briefs.py:202-204 | the briefed days are exactly the listed days with meetings |
| Briefs.SelectedDays | generate_briefs.py:193-194 | with a date, the only selected day with meetings is that date, when some meeting starts on it |
| Briefs.GeneratedBriefsContent | generate_briefs.py:190-217 | the briefs are in ascending day order, each for a day with meetings, named after the day, with the day's meetings sorted by start as content |
| Briefs.GeneratedBriefsDays | generate_briefs.py:190-204 | without a date the briefed days are exactly the meeting start days; with one, exactly that date when some meeting starts on it |
| Briefs.SelectedBriefsDays | generate_briefs.py:190-204 | whatever the text of each brief, the briefed days are the requested days on which some meeting starts |
| Briefs.OneBriefForADate | generate_briefs.py:193-194 | with a date given, at most one brief is written |
| Newsletter.Partition | generate_newsletter.py:20-25 | the loop sorts the meetings into the past-week and upcoming lists |
| Newsletter.FilterMembers | generate_newsletter.py:20-25 | a filtered list holds exactly the meetings whose start passes the test |
| Newsletter.PartitionMembers | generate_newsletter.py:14-25 | past week is exactly `now - 7 days <= start < now`, upcoming exactly `now <= start <= now + 14 days`, and no meeting is in both |
| Newsletter.PartitionComplete | generate_newsletter.py:20-25 | each meeting is in exactly one of past week, upcoming and dropped |
| Newsletter.WriteReview | generate_newsletter.py:35-38 | the review loop's writes |
| Newsletter.WritePreview | generate_newsletter.py:45-53 | the preview loop's writes |
| Newsletter.GenerateNewsletter | generate_newsletter.py:5-56 | `generate_newsletter` writes the title, edition, review, preview and resources, in order |
| Newsletter.ReviewItemsChunks | generate_newsletter.py:35-38 | the review loop names every past meeting, links its minutes when set, and writes nothing else |
| Newsletter.PreviewItemsChunks | generate_newsletter.py:45-53 | the preview loop writes every coming meeting's day and line, and its location and agenda link when set |
| Newsletter.PreviewItemsOnly | generate_newsletter.py:45-53 | the preview loop writes nothing but those lines |
| Newsletter.ReviewSays | generate_newsletter.py:32-38 | "No meetings were recorded" appears exactly when the past week is empty; a minutes link appears exactly for a past meeting with minutes |
| Newsletter.PreviewSays | generate_newsletter.py:40-53 | "No upcoming meetings" appears exactly when nothing is coming, and every coming meeting is named |
| Newsletter.PreviewLocations | generate_newsletter.py:49-50 | a location line appears exactly for a coming meeting with that location |
| Newsletter.PreviewAgendas | generate_newsletter.py:51-52 | an agenda link appears exactly for a coming meeting with that agenda url |
| Newsletter.NewsletterSays | generate_newsletter.py:27-56 | the whole newsletter says "no meetings" in a section exactly when that section's list is empty |
| Model.PlaceholderTitleIsClean | civicclerk_scraper.py:218 | the fallback title "Meeting" is left unchanged by `clean` |

## Left out

- Network access, `time.sleep`, `print` and file I/O are not modelled. Fetched pages and API responses are inputs. The JSON and `.ics` files, the briefs and the newsletter are returned as values.
- HTML parsing with BeautifulSoup is not modelled. A month page is its list of `href` values. A detail page is its heading, breadcrumb, links, text, calendar data and location element.
- The eScribe page-text date patterns and their `strptime` call are one input function. It returns no date, a parsed instant, or a `strptime` error.
- `try_parse_ics_from_detail` is not modelled beyond its result: the first VEVENT's start, end and location, or none. A date-only calendar start is a flag on the start, so that the page raises as in the source; its value is otherwise an instant. A date-only calendar end is not distinguished from a date-time, which changes only the rendering of `end`.
- ISO parsing and zone conversion (`fromisoformat`, `astimezone`, `localize`), UTC ISO rendering, SHA-1, `urljoin`, percent-decoding and PDF text extraction are opaque functions of `Model.Env`. `strftime` is an opaque function of `Briefs.Formats` and `Newsletter.NewsFormats`.
- Timestamps are instants, not ISO strings. The source de-duplicates and sorts by the ISO string. That order equals instant order except between strings with different UTC offsets, such as the two sides of a daylight-saving change.
- `datetime.now()`, `date.today()` and `utcnow()` are parameters.
- Case mapping (`lower`, `upper`, `re.I`) covers ASCII letters only. Whitespace is the character set that `str.strip()` and the regex class `\s` use.
- JSON values other than strings for the CivicClerk text fields are not modelled. A `null` field reads like a missing one, except where the source's `.get(..., default)` behaves differently (`eventLocation`, `publishedFiles`), which is modelled.
- Command-line parsing is not modelled. The CivicClerk configuration, the brief generator's source name (derived from the input path) and its `--date` are parameters.
- The final summary `print` of `generate_briefs.py` `main` is not modelled, including its `min`/`max` of the grouped keys.
- Only `yea` and `nay` vote types exist, as `parse_votes` produces only those.
- Paging.FetchEvents: takes a bound on the number of requests so that the model terminates. The source follows next links without a bound.
- Ics.ToIcs: returns the calendar's properties as a value. The iCalendar text serialisation (`to_ical`) is not modelled, and neither is the time-zone localisation of naive times, since instants carry no zone.
- Briefs.DailyBrief: the generation-time line takes the formatted time as a parameter.
- Newsletter.GenerateNewsletter: the file is the sequence of strings passed to `f.write`, and the edition and meeting times are rendered by opaque functions.
- Url.UrlSplit: fails only on an unbalanced `[` or `]` in the network location. CPython's `urlsplit` also raises `ValueError` when a bracketed host is not a valid IPv6 or IPvFuture address, and when NFKC normalisation of a non-ASCII network location introduces `/`, `?`, `#`, `@` or `:`. Neither check is modelled, so such URLs split here.
- EscribeDetail.ExtractMeetingId: inherits the gap of Url.UrlSplit. For `https://[x]/?Id=5` the model finds the id `5`, where the source catches the `ValueError` and returns `None`.
- CivicClerk.DeriveSourceIdCases: inherits the gap of Url.UrlSplit. For `https://[abc].x/` the model gives `civicclerk-[abc]`, where the source catches the `ValueError` and returns the default id.
- Model.Env: `urlJoin` is a total function. Python's `urljoin` splits both URLs and raises on the same inputs as `urlsplit`. In the source that exception drops the whole CivicClerk event (civicclerk_scraper.py:206-335) or the whole eScribe month or detail page (detroit_meetings_scraper.py:268-282); the model keeps them.
- Agenda.Scan: `\d` is the ASCII digits `0`-`9`. In a `str` pattern Python's `\d` matches every Unicode decimal digit (category Nd), so agenda markers written with other digits are not recognised.

Where the code and its accompanying description differ, the model follows the code:

- A one-line agenda such as "1. Approve budget resolution. 2. Discuss parks plan" yields one decimal item, not two. `$` under MULTILINE ends the item at the line break, and there is none (Agenda.SingleLineOneItemPerFamily).
- `fetch_events` stops at the first event older than the window start, with no extra buffer of days.
- The virtual link is found by testing each link's `href`, not its text.
- The second link loop of `parse_month` adds nothing the first loop has not already collected (Escribe.SecondLoopWithinFirst).
