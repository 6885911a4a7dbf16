/**
 * `generate_newsletter.py`: the meetings of the past week and of the next
 * two weeks, and the newsletter written from them as the sequence of
 * strings handed to `f.write`, in order.
 */
module Newsletter {
  import opened Wrappers
  import opened Model

  const Week: int := 7 * 24 * 60 * 60
  const TwoWeeks: int := 14 * 24 * 60 * 60

  /**
   * The strftime renderings the newsletter takes as given.
   *  - edition: `now.strftime('%b %d, %Y')`.
   *  - shortDay: `strftime('%b %d')` of a meeting start.
   *  - longDay: `strftime('%A, %B %d')` of a meeting start.
   *  - clock: `strftime('%I:%M %p')` of a meeting start.
   */
  datatype NewsFormats = NewsFormats(
    edition: Instant -> string,
    shortDay: Instant -> string,
    longDay: Instant -> string,
    clock: Instant -> string)

  // ---------------------------------------------------------------------
  // The partition of the meetings
  // ---------------------------------------------------------------------

  predicate InPastWeek(now: Instant, t: Instant)
  {
    now - Week <= t < now
  }

  predicate InNextTwoWeeks(now: Instant, t: Instant)
  {
    now <= t <= now + TwoWeeks
  }

  /** The meetings of `ms` whose start satisfies `keep`, in input order. */
  function Filter(ms: seq<Meeting>, keep: Instant -> bool): seq<Meeting>
    decreases |ms|
  {
    if ms == [] then []
    else Filter(ms[..|ms| - 1], keep) + (if keep(ms[|ms| - 1].start) then [ms[|ms| - 1]] else [])
  }

  /** A filtered list holds exactly the meetings of the input that pass the test. */
  lemma {:induction false} FilterMembers(ms: seq<Meeting>, keep: Instant -> bool)
    ensures forall m :: m in Filter(ms, keep) <==> m in ms && keep(m.start)
    decreases |ms|
  {
    if ms != [] {
      var last := ms[|ms| - 1];
      FilterMembers(ms[..|ms| - 1], keep);
      assert forall m :: m in ms <==> m in ms[..|ms| - 1] || m == last;
    }
  }

  /** `past_week` after the loop. */
  function PastWeek(ms: seq<Meeting>, now: Instant): seq<Meeting>
  {
    Filter(ms, t => InPastWeek(now, t))
  }

  /** `upcoming` after the loop: the `elif` sees only meetings not in the past week. */
  function Upcoming(ms: seq<Meeting>, now: Instant): seq<Meeting>
  {
    Filter(ms, t => !InPastWeek(now, t) && InNextTwoWeeks(now, t))
  }

  /** The meetings neither list takes. */
  function Dropped(ms: seq<Meeting>, now: Instant): seq<Meeting>
  {
    Filter(ms, t => !InPastWeek(now, t) && !InNextTwoWeeks(now, t))
  }

  /** The loop of `generate_newsletter` that sorts meetings into the two lists. */
  method Partition(meetings: seq<Meeting>, now: Instant) returns (past: seq<Meeting>, upcoming: seq<Meeting>)
    ensures past == PastWeek(meetings, now)
    ensures upcoming == Upcoming(meetings, now)
  {
    past := [];
    upcoming := [];
    for i := 0 to |meetings|
      invariant past == PastWeek(meetings[..i], now)
      invariant upcoming == Upcoming(meetings[..i], now)
    {
      assert meetings[..i + 1][..i] == meetings[..i];
      var m := meetings[i];
      if now - Week <= m.start < now {
        past := past + [m];
      } else if now <= m.start <= now + TwoWeeks {
        upcoming := upcoming + [m];
      }
    }
    assert meetings[..|meetings|] == meetings;
  }

  /**
   * A meeting of the past week goes to the review, one of the next two weeks
   * (from `now` on, both ends included) to the preview, and the two windows
   * do not overlap.
   */
  lemma PartitionMembers(ms: seq<Meeting>, now: Instant)
    ensures forall m :: m in PastWeek(ms, now) <==> m in ms && now - Week <= m.start < now
    ensures forall m :: m in Upcoming(ms, now) <==> m in ms && now <= m.start <= now + TwoWeeks
    ensures forall m :: !(m in PastWeek(ms, now) && m in Upcoming(ms, now))
  {
    FilterMembers(ms, t => InPastWeek(now, t));
    FilterMembers(ms, t => !InPastWeek(now, t) && InNextTwoWeeks(now, t));
  }

  /** Every meeting goes to exactly one of the review, the preview and the dropped ones. */
  lemma PartitionComplete(ms: seq<Meeting>, now: Instant)
    ensures multiset(PastWeek(ms, now)) + multiset(Upcoming(ms, now)) + multiset(Dropped(ms, now)) == multiset(ms)
    ensures |PastWeek(ms, now)| + |Upcoming(ms, now)| + |Dropped(ms, now)| == |ms|
  {
    FilterThreeWay(ms, t => InPastWeek(now, t), t => !InPastWeek(now, t) && InNextTwoWeeks(now, t),
                   t => !InPastWeek(now, t) && !InNextTwoWeeks(now, t));
    assert |multiset(PastWeek(ms, now)) + multiset(Upcoming(ms, now)) + multiset(Dropped(ms, now))| == |multiset(ms)|;
  }

  /** Three filters by tests of which each start passes exactly one split the list. */
  lemma {:induction false} FilterThreeWay(ms: seq<Meeting>, a: Instant -> bool, b: Instant -> bool, c: Instant -> bool)
    requires forall t :: (a(t) && !b(t) && !c(t)) || (!a(t) && b(t) && !c(t)) || (!a(t) && !b(t) && c(t))
    ensures multiset(Filter(ms, a)) + multiset(Filter(ms, b)) + multiset(Filter(ms, c)) == multiset(ms)
    decreases |ms|
  {
    if ms != [] {
      var init := ms[..|ms| - 1];
      var last := ms[|ms| - 1];
      FilterThreeWay(init, a, b, c);
      assert ms == init + [last];
      ThreeWayStep(Filter(init, a), Filter(init, b), Filter(init, c), init, last, a(last.start), b(last.start), c(last.start));
    }
  }

  /** Adding a meeting to the one list whose test it passes keeps the split. */
  lemma ThreeWayStep(fa: seq<Meeting>, fb: seq<Meeting>, fc: seq<Meeting>, init: seq<Meeting>, last: Meeting,
                     ka: bool, kb: bool, kc: bool)
    requires multiset(fa) + multiset(fb) + multiset(fc) == multiset(init)
    requires (ka && !kb && !kc) || (!ka && kb && !kc) || (!ka && !kb && kc)
    ensures multiset(fa + (if ka then [last] else [])) + multiset(fb + (if kb then [last] else []))
      + multiset(fc + (if kc then [last] else [])) == multiset(init + [last])
  {
    assert multiset(init + [last]) == multiset(init) + multiset{last};
    if ka {
      assert multiset(fa + [last]) == multiset(fa) + multiset{last};
    } else if kb {
      assert multiset(fb + [last]) == multiset(fb) + multiset{last};
    } else {
      assert multiset(fc + [last]) == multiset(fc) + multiset{last};
    }
  }

  // ---------------------------------------------------------------------
  // The writes
  // ---------------------------------------------------------------------

  const Title := "# \U{1F3DB}\U{FE0F} Macomb County Meeting Dispatch\n"
  const ReviewHeader := "## \U{1F5D3}\U{FE0F} The Week in Review\n"
  const NoPastLine := "No meetings were recorded in the past week.\n"
  const PreviewHeader := "\n---\n\n## \U{1F4C5} Upcoming Preview\n"
  const NoUpcomingLine := "No upcoming meetings " + "scheduled for the next two weeks.\n"
  const ResourcesHeader := "---\n## \U{1F4C1} Resources\n"
  const PortalLine := "* [Official CivicClerk Events Portal]" + "(https://macombcomi.portal.civicclerk.com/)\n"

  function EditionLine(nf: NewsFormats, now: Instant): string
  {
    "**Edition:** " + nf.edition(now) + " | *Your weekly guide to local governance.*\n\n---\n\n"
  }

  /** The line naming a meeting of the past week. */
  function ReviewHead(nf: NewsFormats, m: Meeting): string
  {
    "* **" + m.body + " (" + nf.shortDay(m.start) + "):**\n"
  }

  function MinutesLine(url: string): string
  {
    "    * [\U{1F4C4} View Minutes (PDF)](" + url + ")\n"
  }

  function DayHead(nf: NewsFormats, m: Meeting): string
  {
    "### " + nf.longDay(m.start) + "\n"
  }

  /** The line naming an upcoming meeting. */
  function PreviewHead(nf: NewsFormats, m: Meeting): string
  {
    "* **" + m.body + " (" + nf.clock(m.start) + ")**\n"
  }

  function LocationLine(location: string): string
  {
    "    * *Location:* " + location + "\n"
  }

  function AgendaLine(url: string): string
  {
    "    * [\U{1F4C4} Meeting Agenda (PDF)](" + url + ")\n"
  }

  /** The writes for one meeting of the past week. */
  function ReviewItem(nf: NewsFormats, m: Meeting): seq<string>
  {
    [ReviewHead(nf, m)] + (if Truthy(m.minutesUrl) then [MinutesLine(m.minutesUrl.value)] else [])
  }

  /** The writes for one upcoming meeting. */
  function PreviewItem(nf: NewsFormats, m: Meeting): seq<string>
  {
    [DayHead(nf, m), PreviewHead(nf, m)]
    + (if m.location != "" then [LocationLine(m.location)] else [])
    + (if Truthy(m.agendaUrl) then [AgendaLine(m.agendaUrl.value)] else [])
    + ["\n"]
  }

  function ReviewItems(nf: NewsFormats, ms: seq<Meeting>): seq<string>
    decreases |ms|
  {
    if ms == [] then [] else ReviewItems(nf, ms[..|ms| - 1]) + ReviewItem(nf, ms[|ms| - 1])
  }

  function PreviewItems(nf: NewsFormats, ms: seq<Meeting>): seq<string>
    decreases |ms|
  {
    if ms == [] then [] else PreviewItems(nf, ms[..|ms| - 1]) + PreviewItem(nf, ms[|ms| - 1])
  }

  /** The week-in-review section. */
  function ReviewWrites(nf: NewsFormats, past: seq<Meeting>): seq<string>
  {
    [ReviewHeader] + (if past == [] then [NoPastLine] else []) + ReviewItems(nf, past)
  }

  /** The upcoming-preview section. */
  function PreviewWrites(nf: NewsFormats, upcoming: seq<Meeting>): seq<string>
  {
    [PreviewHeader] + (if upcoming == [] then [NoUpcomingLine] else []) + PreviewItems(nf, upcoming)
  }

  /** Everything `generate_newsletter` writes, in order. */
  function NewsletterWrites(nf: NewsFormats, meetings: seq<Meeting>, now: Instant): seq<string>
  {
    [Title, EditionLine(nf, now)]
    + ReviewWrites(nf, PastWeek(meetings, now))
    + PreviewWrites(nf, Upcoming(meetings, now))
    + [ResourcesHeader, PortalLine]
  }

  /** The writes of the loop over `past_week`. */
  method WriteReview(nf: NewsFormats, past: seq<Meeting>) returns (writes: seq<string>)
    ensures writes == ReviewItems(nf, past)
  {
    writes := [];
    for i := 0 to |past|
      invariant writes == ReviewItems(nf, past[..i])
    {
      assert past[..i + 1][..i] == past[..i];
      var m := past[i];
      writes := writes + ["* **" + m.body + " (" + nf.shortDay(m.start) + "):**\n"];
      if m.minutesUrl.Some? && m.minutesUrl.value != "" {
        writes := writes + ["    * [\U{1F4C4} View Minutes (PDF)](" + m.minutesUrl.value + ")\n"];
      }
    }
    assert past[..|past|] == past;
  }

  /** The writes of the loop over `upcoming`. */
  method WritePreview(nf: NewsFormats, upcoming: seq<Meeting>) returns (writes: seq<string>)
    ensures writes == PreviewItems(nf, upcoming)
  {
    writes := [];
    for i := 0 to |upcoming|
      invariant writes == PreviewItems(nf, upcoming[..i])
    {
      assert upcoming[..i + 1][..i] == upcoming[..i];
      var m := upcoming[i];
      var item := ["### " + nf.longDay(m.start) + "\n", "* **" + m.body + " (" + nf.clock(m.start) + ")**\n"];
      if m.location != "" {
        item := item + ["    * *Location:* " + m.location + "\n"];
      }
      if m.agendaUrl.Some? && m.agendaUrl.value != "" {
        item := item + ["    * [\U{1F4C4} Meeting Agenda (PDF)](" + m.agendaUrl.value + ")\n"];
      }
      item := item + ["\n"];
      assert item == PreviewItem(nf, m);
      writes := writes + item;
    }
    assert upcoming[..|upcoming|] == upcoming;
  }

  /** `generate_newsletter`, with `now` given and the file as the sequence of writes. */
  method GenerateNewsletter(nf: NewsFormats, meetings: seq<Meeting>, now: Instant) returns (writes: seq<string>)
    ensures writes == NewsletterWrites(nf, meetings, now)
  {
    var past, upcoming := Partition(meetings, now);
    var review := [ReviewHeader];
    if past == [] {
      review := review + [NoPastLine];
    }
    var reviewItems := WriteReview(nf, past);
    review := review + reviewItems;
    assert review == ReviewWrites(nf, past);
    var preview := [PreviewHeader];
    if upcoming == [] {
      preview := preview + [NoUpcomingLine];
    }
    var previewItems := WritePreview(nf, upcoming);
    preview := preview + previewItems;
    assert preview == PreviewWrites(nf, upcoming);
    writes := [Title, EditionLine(nf, now)] + review + preview + [ResourcesHeader, PortalLine];
  }

  // ---------------------------------------------------------------------
  // What the writes say
  // ---------------------------------------------------------------------

  /** `c` is a write the review loop makes for one of `ms`. */
  ghost predicate ReviewChunk(nf: NewsFormats, ms: seq<Meeting>, c: string)
  {
    exists m :: m in ms && (c == ReviewHead(nf, m) || (Truthy(m.minutesUrl) && c == MinutesLine(m.minutesUrl.value)))
  }

  /** `c` is a write the preview loop makes for one of `ms`. */
  ghost predicate PreviewChunk(nf: NewsFormats, ms: seq<Meeting>, c: string)
  {
    exists m :: m in ms && PreviewItemIs(nf, m, c)
  }

  /** `c` is one of the writes the preview loop makes for `m`. */
  predicate PreviewItemIs(nf: NewsFormats, m: Meeting, c: string)
  {
    || c == DayHead(nf, m) || c == PreviewHead(nf, m) || c == "\n"
    || (m.location != "" && c == LocationLine(m.location))
    || (Truthy(m.agendaUrl) && c == AgendaLine(m.agendaUrl.value))
  }

  /** The writes for one upcoming meeting are all of its kinds. */
  lemma PreviewItemWrites(nf: NewsFormats, m: Meeting)
    ensures forall c :: c in PreviewItem(nf, m) ==> PreviewItemIs(nf, m, c)
  {
    var loc := if m.location != "" then [LocationLine(m.location)] else [];
    var agenda := if Truthy(m.agendaUrl) then [AgendaLine(m.agendaUrl.value)] else [];
    assert PreviewItem(nf, m) == [DayHead(nf, m), PreviewHead(nf, m)] + loc + agenda + ["\n"];
  }

  /** The review loop writes each meeting's line, its minutes link when it has one, and nothing else. */
  lemma {:induction false} ReviewItemsChunks(nf: NewsFormats, ms: seq<Meeting>)
    ensures forall m :: m in ms ==> ReviewHead(nf, m) in ReviewItems(nf, ms)
    ensures forall m :: m in ms && Truthy(m.minutesUrl) ==> MinutesLine(m.minutesUrl.value) in ReviewItems(nf, ms)
    ensures forall c :: c in ReviewItems(nf, ms) ==> ReviewChunk(nf, ms, c)
    decreases |ms|
  {
    if ms != [] {
      var init := ms[..|ms| - 1];
      var last := ms[|ms| - 1];
      ReviewItemsChunks(nf, init);
      var before := ReviewItems(nf, init);
      var item := ReviewItem(nf, last);
      assert ReviewItems(nf, ms) == before + item;
      assert forall m :: m in ms <==> m in init || m == last;
      forall c | c in ReviewItems(nf, ms) ensures ReviewChunk(nf, ms, c) {
        if c in before {
          var m :| m in init && (c == ReviewHead(nf, m) || (Truthy(m.minutesUrl) && c == MinutesLine(m.minutesUrl.value)));
          assert m in ms;
        } else {
          assert c in item;
          assert last in ms;
        }
      }
    }
  }

  /** The preview loop writes each meeting's day, its line, its location and agenda link when set, a blank line, and nothing else. */
  lemma {:induction false} PreviewItemsChunks(nf: NewsFormats, ms: seq<Meeting>)
    ensures forall m :: m in ms ==> DayHead(nf, m) in PreviewItems(nf, ms) && PreviewHead(nf, m) in PreviewItems(nf, ms)
    ensures forall m :: m in ms && m.location != "" ==> LocationLine(m.location) in PreviewItems(nf, ms)
    ensures forall m :: m in ms && Truthy(m.agendaUrl) ==> AgendaLine(m.agendaUrl.value) in PreviewItems(nf, ms)
    decreases |ms|
  {
    if ms != [] {
      var init := ms[..|ms| - 1];
      var last := ms[|ms| - 1];
      PreviewItemsChunks(nf, init);
      assert PreviewItems(nf, ms) == PreviewItems(nf, init) + PreviewItem(nf, last);
      assert forall m :: m in ms <==> m in init || m == last;
    }
  }

  /** The preview loop writes nothing but the kinds of line listed by `PreviewItemIs`. */
  lemma {:induction false} PreviewItemsOnly(nf: NewsFormats, ms: seq<Meeting>)
    ensures forall c :: c in PreviewItems(nf, ms) ==> PreviewChunk(nf, ms, c)
    decreases |ms|
  {
    if ms != [] {
      var init := ms[..|ms| - 1];
      var last := ms[|ms| - 1];
      PreviewItemsOnly(nf, init);
      var before := PreviewItems(nf, init);
      var item := PreviewItem(nf, last);
      assert PreviewItems(nf, ms) == before + item;
      PreviewItemWrites(nf, last);
      forall c | c in PreviewItems(nf, ms) ensures PreviewChunk(nf, ms, c) {
        if c in before {
          assert PreviewChunk(nf, init, c);
          var m :| m in init && PreviewItemIs(nf, m, c);
          assert m in ms;
        } else {
          assert c in item;
          assert last in ms && PreviewItemIs(nf, last, c);
        }
      }
    }
  }

  /** The characters that tell the fixed lines apart. */
  lemma FixedMarks()
    ensures |NoPastLine| > 3 && NoPastLine[0] == 'N' && NoPastLine[3] == 'm'
    ensures |NoUpcomingLine| > 3 && NoUpcomingLine[0] == 'N' && NoUpcomingLine[3] == 'u'
    ensures ReviewHeader[0] == '#' && PreviewHeader[0] == '\n' && Title[0] == '#' && ResourcesHeader[0] == '-'
    ensures PortalLine[0] == '*'
  {
  }

  /** The characters that tell the meeting lines apart from the others. */
  lemma HeadMarks(nf: NewsFormats, m: Meeting)
    ensures ReviewHead(nf, m)[0] == '*' && PreviewHead(nf, m)[0] == '*' && DayHead(nf, m)[0] == '#'
  {
  }

  /** The characters that tell the link and location lines apart. */
  lemma LinkMarks(u: string)
    ensures MinutesLine(u)[0] == ' ' && AgendaLine(u)[0] == ' ' && LocationLine(u)[0] == ' '
    ensures AgendaLine(u)[6] == '[' && LocationLine(u)[6] == '*'
  {
  }

  /** The same text around two strings makes them equal only if they are. */
  lemma WrapInjective(p: string, s: string, u: string, v: string)
    requires p + u + s == p + v + s
    ensures u == v
  {
    assert |u| == |v|;
    assert u == (p + u + s)[|p|..|p| + |u|];
    assert v == (p + v + s)[|p|..|p| + |v|];
  }

  /**
   * The review says "No meetings were recorded" exactly when the past week
   * had none, and links minutes exactly for its meetings that have them.
   */
  lemma ReviewSays(nf: NewsFormats, past: seq<Meeting>)
    ensures NoPastLine in ReviewWrites(nf, past) <==> past == []
    ensures forall u :: MinutesLine(u) in ReviewWrites(nf, past) <==>
      exists m :: m in past && Truthy(m.minutesUrl) && m.minutesUrl.value == u
    ensures forall m :: m in past ==> ReviewHead(nf, m) in ReviewWrites(nf, past)
  {
    var items := ReviewItems(nf, past);
    ReviewItemsChunks(nf, past);
    assert ReviewWrites(nf, past) == [ReviewHeader] + (if past == [] then [NoPastLine] else []) + items;
    if NoPastLine in items {
      var m :| m in past && (NoPastLine == ReviewHead(nf, m) || (Truthy(m.minutesUrl) && NoPastLine == MinutesLine(m.minutesUrl.value)));
      HeadMarks(nf, m);
      LinkMarks(m.minutesUrl.GetOr(""));
      assert false;
    }
    forall u | MinutesLine(u) in ReviewWrites(nf, past)
      ensures exists m :: m in past && Truthy(m.minutesUrl) && m.minutesUrl.value == u
    {
      LinkMarks(u);
      assert MinutesLine(u) in items;
      var m :| m in past && (MinutesLine(u) == ReviewHead(nf, m) || (Truthy(m.minutesUrl) && MinutesLine(u) == MinutesLine(m.minutesUrl.value)));
      HeadMarks(nf, m);
      WrapInjective("    * [\U{1F4C4} View Minutes (PDF)](", ")\n", u, m.minutesUrl.value);
    }
  }

  /** A write that starts with none of the marks of the preview loop's writes is not one of them. */
  lemma NotAPreviewItem(nf: NewsFormats, m: Meeting, c: string)
    requires |c| > 1 && c[0] != '#' && c[0] != '*' && c[0] != ' '
    ensures !PreviewItemIs(nf, m, c)
  {
    HeadMarks(nf, m);
    LinkMarks(m.location);
    LinkMarks(m.agendaUrl.GetOr(""));
  }

  /** Such a write is none of the writes of the preview loop either. */
  lemma NotAPreviewWrite(nf: NewsFormats, ms: seq<Meeting>, c: string)
    requires |c| > 1 && c[0] != '#' && c[0] != '*' && c[0] != ' '
    ensures !PreviewChunk(nf, ms, c)
  {
    forall m | m in ms ensures !PreviewItemIs(nf, m, c) {
      NotAPreviewItem(nf, m, c);
    }
  }

  /** The preview says "No upcoming meetings" exactly when none are coming, and names every coming meeting. */
  lemma PreviewSays(nf: NewsFormats, upcoming: seq<Meeting>)
    ensures NoUpcomingLine in PreviewWrites(nf, upcoming) <==> upcoming == []
    ensures forall m :: m in upcoming ==>
      DayHead(nf, m) in PreviewWrites(nf, upcoming) && PreviewHead(nf, m) in PreviewWrites(nf, upcoming)
  {
    FixedMarks();
    var items := PreviewItems(nf, upcoming);
    PreviewItemsChunks(nf, upcoming);
    PreviewItemsOnly(nf, upcoming);
    assert PreviewWrites(nf, upcoming) == [PreviewHeader] + (if upcoming == [] then [NoUpcomingLine] else []) + items;
    NotAPreviewWrite(nf, upcoming, NoUpcomingLine);
  }

  /** A location line among one meeting's preview writes is that meeting's location. */
  lemma LocationOfItem(nf: NewsFormats, m: Meeting, l: string)
    ensures PreviewItemIs(nf, m, LocationLine(l)) ==> m.location != "" && m.location == l
  {
    HeadMarks(nf, m);
    LinkMarks(l);
    LinkMarks(m.agendaUrl.GetOr(""));
    if m.location != "" && LocationLine(l) == LocationLine(m.location) {
      WrapInjective("    * *Location:* ", "\n", l, m.location);
    }
  }

  /** An agenda line among one meeting's preview writes is that meeting's agenda link. */
  lemma AgendaOfItem(nf: NewsFormats, m: Meeting, u: string)
    ensures PreviewItemIs(nf, m, AgendaLine(u)) ==> Truthy(m.agendaUrl) && m.agendaUrl.value == u
  {
    HeadMarks(nf, m);
    LinkMarks(u);
    LinkMarks(m.location);
    if Truthy(m.agendaUrl) && AgendaLine(u) == AgendaLine(m.agendaUrl.value) {
      WrapInjective("    * [\U{1F4C4} Meeting Agenda (PDF)](", ")\n", u, m.agendaUrl.value);
    }
  }

  /** The preview writes a location line exactly for the coming meetings with a location. */
  lemma PreviewLocations(nf: NewsFormats, upcoming: seq<Meeting>, l: string)
    ensures LocationLine(l) in PreviewWrites(nf, upcoming) <==>
      exists m :: m in upcoming && m.location != "" && m.location == l
  {
    var items := PreviewItems(nf, upcoming);
    assert PreviewWrites(nf, upcoming) == [PreviewHeader] + (if upcoming == [] then [NoUpcomingLine] else []) + items;
    if exists m :: m in upcoming && m.location != "" && m.location == l {
      PreviewItemsChunks(nf, upcoming);
    } else {
      FixedMarks();
      LinkMarks(l);
      assert LocationLine(l)[0] != PreviewHeader[0] && LocationLine(l)[0] != NoUpcomingLine[0];
      PreviewItemsOnly(nf, upcoming);
      forall m | m in upcoming ensures !PreviewItemIs(nf, m, LocationLine(l)) {
        LocationOfItem(nf, m, l);
      }
      assert !PreviewChunk(nf, upcoming, LocationLine(l));
    }
  }

  /** The preview links an agenda exactly for the coming meetings that have one. */
  lemma PreviewAgendas(nf: NewsFormats, upcoming: seq<Meeting>, u: string)
    ensures AgendaLine(u) in PreviewWrites(nf, upcoming) <==>
      exists m :: m in upcoming && Truthy(m.agendaUrl) && m.agendaUrl.value == u
  {
    var items := PreviewItems(nf, upcoming);
    assert PreviewWrites(nf, upcoming) == [PreviewHeader] + (if upcoming == [] then [NoUpcomingLine] else []) + items;
    if exists m :: m in upcoming && Truthy(m.agendaUrl) && m.agendaUrl.value == u {
      PreviewItemsChunks(nf, upcoming);
    } else {
      FixedMarks();
      LinkMarks(u);
      assert AgendaLine(u)[0] != PreviewHeader[0] && AgendaLine(u)[0] != NoUpcomingLine[0];
      PreviewItemsOnly(nf, upcoming);
      forall m | m in upcoming ensures !PreviewItemIs(nf, m, AgendaLine(u)) {
        AgendaOfItem(nf, m, u);
      }
      assert !PreviewChunk(nf, upcoming, AgendaLine(u));
    }
  }

  /** A write that starts with neither mark of the review loop's writes is none of them. */
  lemma NotAReviewWrite(nf: NewsFormats, ms: seq<Meeting>, c: string)
    requires |c| > 1 && c[0] != '*' && c[0] != ' '
    ensures !ReviewChunk(nf, ms, c)
  {
    forall m | m in ms
      ensures !(c == ReviewHead(nf, m) || (Truthy(m.minutesUrl) && c == MinutesLine(m.minutesUrl.value)))
    {
      HeadMarks(nf, m);
      LinkMarks(m.minutesUrl.GetOr(""));
    }
  }

  lemma EditionMark(nf: NewsFormats, now: Instant)
    ensures EditionLine(nf, now)[0] == '*'
  {
  }

  /**
   * The newsletter says "No meetings were recorded in the past week" exactly
   * when no meeting started in the week before `now`, and "No upcoming
   * meetings" exactly when none starts in the two weeks from `now`.
   */
  lemma NewsletterSays(nf: NewsFormats, meetings: seq<Meeting>, now: Instant)
    ensures NoPastLine in NewsletterWrites(nf, meetings, now) <==> PastWeek(meetings, now) == []
    ensures NoUpcomingLine in NewsletterWrites(nf, meetings, now) <==> Upcoming(meetings, now) == []
  {
    var past, upcoming := PastWeek(meetings, now), Upcoming(meetings, now);
    var review, preview := ReviewWrites(nf, past), PreviewWrites(nf, upcoming);
    var head, tail := [Title, EditionLine(nf, now)], [ResourcesHeader, PortalLine];
    assert NewsletterWrites(nf, meetings, now) == head + review + preview + tail;
    FixedMarks();
    EditionMark(nf, now);
    ReviewSays(nf, past);
    PreviewSays(nf, upcoming);
    assert NoPastLine !in head + tail && NoUpcomingLine !in head + tail;
    PreviewItemsOnly(nf, upcoming);
    NotAPreviewWrite(nf, upcoming, NoPastLine);
    assert NoPastLine !in PreviewItems(nf, upcoming);
    assert preview == [PreviewHeader] + (if upcoming == [] then [NoUpcomingLine] else []) + PreviewItems(nf, upcoming);
    assert NoPastLine !in preview;
    ReviewItemsChunks(nf, past);
    NotAReviewWrite(nf, past, NoUpcomingLine);
    assert NoUpcomingLine !in ReviewItems(nf, past);
    assert review == [ReviewHeader] + (if past == [] then [NoPastLine] else []) + ReviewItems(nf, past);
    assert NoUpcomingLine !in review;
  }
}
