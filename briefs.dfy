/**
 * `generate_briefs.py`: meetings grouped by day, and each day's markdown
 * brief as the list of lines the source joins with newlines.
 */
module Briefs {
  import opened Text
  import opened Numbers
  import opened Wrappers
  import opened Model
  import opened Ordering
  import Dedup

  /**
   * The date and time formatting the renderer takes as given.
   *  - dayOf: `parse_date(start).date().isoformat()`.
   *  - dateText: `format_date(datetime.fromisoformat(date_str))`.
   *  - timeText: `format_time(parse_date(t))`.
   */
  datatype Formats = Formats(
    dayOf: Instant -> string,
    dateText: string -> string,
    timeText: Instant -> string)

  // ---------------------------------------------------------------------
  // group_meetings_by_date
  // ---------------------------------------------------------------------

  /** The meetings of `ms` on day `d`, in input order. */
  function OnDay(dayOf: Instant -> string, ms: seq<Meeting>, d: string): (r: seq<Meeting>)
    ensures |r| <= |ms|
    ensures forall k :: 0 <= k < |r| ==> dayOf(r[k].start) == d
    decreases |ms|
  {
    if ms == [] then []
    else
      var last := ms[|ms| - 1];
      var init := ms[..|ms| - 1];
      OnDay(dayOf, init, d) + (if dayOf(last.start) == d then [last] else [])
  }

  /** A meeting is in the day's group exactly when it is one of the meetings and starts that day. */
  lemma {:induction false} OnDayMembers(dayOf: Instant -> string, ms: seq<Meeting>, d: string, m: Meeting)
    ensures m in OnDay(dayOf, ms, d) <==> m in ms && dayOf(m.start) == d
    decreases |ms|
  {
    if ms != [] {
      var init := ms[..|ms| - 1];
      OnDayMembers(dayOf, init, d, m);
      assert ms == init + [ms[|ms| - 1]];
    }
  }

  /** The grouping after the meetings `ms`: each day seen, with its meetings so far. */
  function Grouped(dayOf: Instant -> string, ms: seq<Meeting>): (g: map<string, seq<Meeting>>)
    decreases |ms|
  {
    if ms == [] then map[]
    else
      var g := Grouped(dayOf, ms[..|ms| - 1]);
      var d := dayOf(ms[|ms| - 1].start);
      g[d := (if d in g then g[d] else []) + [ms[|ms| - 1]]]
  }

  /** `group_meetings_by_date(meetings)` */
  method GroupByDate(dayOf: Instant -> string, meetings: seq<Meeting>) returns (grouped: map<string, seq<Meeting>>)
    ensures grouped == Grouped(dayOf, meetings)
  {
    grouped := map[];
    for i := 0 to |meetings|
      invariant grouped == Grouped(dayOf, meetings[..i])
    {
      assert meetings[..i + 1][..i] == meetings[..i];
      var d := dayOf(meetings[i].start);
      var group := if d in grouped then grouped[d] else [];
      grouped := grouped[d := group + [meetings[i]]];
    }
    assert meetings[..|meetings|] == meetings;
  }

  /**
   * The groups are keyed by exactly the days the meetings start on, and each
   * group holds that day's meetings in input order.
   */
  lemma GroupedSpec(dayOf: Instant -> string, ms: seq<Meeting>)
    ensures forall d :: d in Grouped(dayOf, ms) <==> exists i :: 0 <= i < |ms| && dayOf(ms[i].start) == d
    ensures forall d :: d in Grouped(dayOf, ms) ==> Grouped(dayOf, ms)[d] == OnDay(dayOf, ms, d)
  {
    forall d ensures d in Grouped(dayOf, ms) <==> exists i :: 0 <= i < |ms| && dayOf(ms[i].start) == d {
      GroupedKeys(dayOf, ms, d);
    }
    forall d | d in Grouped(dayOf, ms) ensures Grouped(dayOf, ms)[d] == OnDay(dayOf, ms, d) {
      GroupedGroup(dayOf, ms, d);
    }
  }

  lemma {:induction false} GroupedKeys(dayOf: Instant -> string, ms: seq<Meeting>, d: string)
    ensures d in Grouped(dayOf, ms) <==> exists i :: 0 <= i < |ms| && dayOf(ms[i].start) == d
    decreases |ms|
  {
    if ms != [] {
      var init := ms[..|ms| - 1];
      GroupedKeys(dayOf, init, d);
      if exists i :: 0 <= i < |ms| && dayOf(ms[i].start) == d {
        var i :| 0 <= i < |ms| && dayOf(ms[i].start) == d;
        if i < |init| {
          assert init[i] == ms[i];
        }
      }
      if exists i :: 0 <= i < |init| && dayOf(init[i].start) == d {
        var i :| 0 <= i < |init| && dayOf(init[i].start) == d;
        assert ms[i] == init[i];
      }
    }
  }

  lemma {:induction false} GroupedGroup(dayOf: Instant -> string, ms: seq<Meeting>, d: string)
    requires d in Grouped(dayOf, ms)
    ensures Grouped(dayOf, ms)[d] == OnDay(dayOf, ms, d)
    decreases |ms|
  {
    var init := ms[..|ms| - 1];
    if d in Grouped(dayOf, init) {
      GroupedGroup(dayOf, init, d);
    } else {
      GroupedKeys(dayOf, init, d);
      OnDayNone(dayOf, init, d);
    }
  }

  lemma {:induction false} OnDayNone(dayOf: Instant -> string, ms: seq<Meeting>, d: string)
    requires forall i :: 0 <= i < |ms| ==> dayOf(ms[i].start) != d
    ensures OnDay(dayOf, ms, d) == []
    decreases |ms|
  {
    if ms != [] {
      var init := ms[..|ms| - 1];
      assert forall i :: 0 <= i < |init| ==> init[i] == ms[i];
      OnDayNone(dayOf, init, d);
    }
  }

  /** Every meeting lies in the group of its own day and in no other group. */
  lemma GroupedExactlyOnce(dayOf: Instant -> string, ms: seq<Meeting>, i: nat, d: string)
    requires i < |ms| && d in Grouped(dayOf, ms)
    ensures ms[i] in Grouped(dayOf, ms)[d] <==> d == dayOf(ms[i].start)
    ensures dayOf(ms[i].start) in Grouped(dayOf, ms)
  {
    GroupedSpec(dayOf, ms);
    OnDayMembers(dayOf, ms, d, ms[i]);
  }

  // ---------------------------------------------------------------------
  // generate_meeting_brief
  // ---------------------------------------------------------------------

  /** The separator between document links and between statistics. */
  const Bullet := " \U{2022} "

  function Min(a: int, b: int): int { if a <= b then a else b }

  /** `meeting.get('agenda_items', [])` */
  function ItemsOf(m: Meeting): seq<AgendaItem>
  {
    if m.agendaItems.Some? then m.agendaItems.value else []
  }

  /** `meeting.get('votes', [])` */
  function VotesOf(m: Meeting): seq<Vote>
  {
    if m.votes.Some? then m.votes.value else []
  }

  /** The document links: Agenda, then Minutes, then Details, each only when its url is set. */
  function DocLinks(m: Meeting): (links: seq<string>)
    ensures |links| == (if Truthy(m.agendaUrl) then 1 else 0) + (if Truthy(m.minutesUrl) then 1 else 0)
      + (if m.detailUrl != [] then 1 else 0)
    ensures Truthy(m.agendaUrl) ==> links[0] == "[Agenda](" + m.agendaUrl.value + ")"
    ensures Truthy(m.minutesUrl) ==> links[if Truthy(m.agendaUrl) then 1 else 0] == "[Minutes](" + m.minutesUrl.value + ")"
    ensures m.detailUrl != [] ==> links[|links| - 1] == "[Details](" + m.detailUrl + ")"
  {
    (if Truthy(m.agendaUrl) then ["[Agenda](" + m.agendaUrl.value + ")"] else [])
    + (if Truthy(m.minutesUrl) then ["[Minutes](" + m.minutesUrl.value + ")"] else [])
    + (if m.detailUrl != [] then ["[Details](" + m.detailUrl + ")"] else [])
  }

  /** The documents line, left out when the meeting has no link at all. */
  function DocumentsLines(m: Meeting): (lines: seq<string>)
    ensures lines == [] <==> !Truthy(m.agendaUrl) && !Truthy(m.minutesUrl) && m.detailUrl == []
    ensures lines != [] ==> lines == ["**Documents:** " + Join(DocLinks(m), Bullet)]
  {
    var links := DocLinks(m);
    if links != [] then ["**Documents:** " + Join(links, Bullet)] else []
  }

  /** `text.replace('\n', ' ')` */
  function NewlinesToSpaces(t: string): (r: string)
    ensures |r| == |t| && '\n' !in r
    ensures forall i :: 0 <= i < |t| ==> r[i] == if t[i] == '\n' then ' ' else t[i]
  {
    seq(|t|, i requires 0 <= i < |t| => if t[i] == '\n' then ' ' else t[i])
  }

  /** `strip()` adds no character: a text without line breaks keeps none. */
  lemma StripNoNewline(s: string)
    requires '\n' !in s
    ensures '\n' !in Strip(s)
  {
    var t := TrimStart(s);
    var r := TrimEnd(t);
    forall k | 0 <= k < |r| ensures r[k] != '\n' {
      assert r[k] == t[k] == s[|s| - |t| + k];
    }
  }

  /** Cutting to 147 characters and "..." adds no line break. */
  lemma CutNoNewline(s: string)
    requires '\n' !in s && |s| > 150
    ensures '\n' !in s[..147] + "..."
  {
    var r := s[..147] + "...";
    forall k | 0 <= k < |r| ensures r[k] != '\n' {
      if k < 147 {
        assert r[k] == s[k];
      }
    }
  }

  /** An agenda item's text as shown. */
  function ItemText(t: string): string
  {
    var s := Strip(NewlinesToSpaces(t));
    if |s| > 150 then s[..147] + "..." else s
  }

  /** The shown text is on one line, stripped, and cut to 147 characters and "..." when over 150. */
  lemma ItemTextSpec(t: string)
    ensures |ItemText(t)| <= 150 && '\n' !in ItemText(t)
    ensures var s := Strip(NewlinesToSpaces(t));
      && (|s| <= 150 ==> ItemText(t) == s)
      && (|s| > 150 ==> ItemText(t) == s[..147] + "...")
  {
    var s := Strip(NewlinesToSpaces(t));
    StripNoNewline(NewlinesToSpaces(t));
    if |s| > 150 {
      CutNoNewline(s);
    }
  }

  function ItemLine(item: AgendaItem): string
  {
    item.number + ". " + ItemText(item.text)
  }

  function MoreItemsLine(more: nat): string
  {
    "\n*...and " + NatToString(more) + " more items*"
  }

  const AgendaHeader := "#### \U{1F4CB} Key Agenda Items"

  /**
   * The agenda section: nothing without items; otherwise the header, the
   * first ten items, the count of the rest when there are more than ten,
   * and a blank line.
   */
  function AgendaLines(items: seq<AgendaItem>): (lines: seq<string>)
    ensures items == [] ==> lines == []
    ensures items != [] ==> |lines| == 2 + Min(|items|, 10) + (if |items| > 10 then 1 else 0)
    ensures items != [] ==> lines[0] == AgendaHeader && lines[|lines| - 1] == ""
    ensures items != [] ==> lines[1..1 + Min(|items|, 10)] == MapLines(items[..Min(|items|, 10)], ItemLine)
    ensures |items| > 10 ==> lines[11] == MoreItemsLine(|items| - 10)
  {
    if items == [] then []
    else
      var n := Min(|items|, 10);
      var shown := MapLines(items[..n], ItemLine);
      var more := if |items| > 10 then [MoreItemsLine(|items| - 10)] else [];
      var lines := [AgendaHeader] + shown + (more + [""]);
      MiddleSlice([AgendaHeader], shown, more + [""]);
      assert |items| > 10 ==> lines[11] == more[0];
      lines
  }

  lemma MiddleSlice<T>(a: seq<T>, b: seq<T>, c: seq<T>)
    ensures (a + b + c)[|a|..|a| + |b|] == b
  {
  }

  /** One line per element, in order. */
  function MapLines<T>(xs: seq<T>, render: T -> string): (lines: seq<string>)
    ensures |lines| == |xs|
    ensures forall k :: 0 <= k < |xs| ==> lines[k] == render(xs[k])
    decreases |xs|
  {
    if xs == [] then []
    else MapLines(xs[..|xs| - 1], render) + [render(xs[|xs| - 1])]
  }

  /** The lines of one more element. */
  lemma MapLinesSnoc<T>(xs: seq<T>, render: T -> string, k: nat)
    requires k < |xs|
    ensures MapLines(xs[..k + 1], render) == MapLines(xs[..k], render) + [render(xs[k])]
  {
    assert xs[..k + 1][..k] == xs[..k];
  }

  /** The votes of one type, in input order. */
  function OfType(votes: seq<Vote>, t: VoteType): (r: seq<Vote>)
    ensures forall k :: 0 <= k < |r| ==> r[k].voteType == t
    decreases |votes|
  {
    if votes == [] then []
    else
      var init := votes[..|votes| - 1];
      var last := votes[|votes| - 1];
      OfType(init, t) + (if last.voteType == t then [last] else [])
  }

  /** A vote is in the list of its type exactly when it is among the votes and has that type. */
  lemma {:induction false} OfTypeMembers(votes: seq<Vote>, t: VoteType, v: Vote)
    ensures v in OfType(votes, t) <==> v in votes && v.voteType == t
    decreases |votes|
  {
    if votes != [] {
      var init := votes[..|votes| - 1];
      OfTypeMembers(init, t, v);
      assert votes == init + [votes[|votes| - 1]];
    }
  }

  /** Every vote is a yea or a nay: the two lists split the votes between them. */
  lemma {:induction false} OfTypePartition(votes: seq<Vote>)
    ensures |OfType(votes, Yea)| + |OfType(votes, Nay)| == |votes|
    ensures multiset(OfType(votes, Yea)) + multiset(OfType(votes, Nay)) == multiset(votes)
    decreases |votes|
  {
    if votes != [] {
      var init := votes[..|votes| - 1];
      var last := votes[|votes| - 1];
      OfTypePartition(init);
      SplitLast(votes);
      PartitionStep(OfType(init, Yea), OfType(init, Nay), init, last);
    }
  }

  lemma SplitLast<T>(xs: seq<T>)
    requires xs != []
    ensures multiset(xs) == multiset(xs[..|xs| - 1]) + multiset{xs[|xs| - 1]}
  {
    assert xs == xs[..|xs| - 1] + [xs[|xs| - 1]];
  }

  /** Adding a vote to the list of its type keeps the partition. */
  lemma PartitionStep(yeas: seq<Vote>, nays: seq<Vote>, init: seq<Vote>, last: Vote)
    requires |yeas| + |nays| == |init| && multiset(yeas) + multiset(nays) == multiset(init)
    ensures var y := yeas + (if last.voteType == Yea then [last] else []);
      var n := nays + (if last.voteType == Nay then [last] else []);
      |y| + |n| == |init| + 1 && multiset(y) + multiset(n) == multiset(init) + multiset{last}
  {
    if last.voteType == Yea {
      assert multiset(yeas + [last]) == multiset(yeas) + multiset{last};
    } else {
      assert multiset(nays + [last]) == multiset(nays) + multiset{last};
    }
  }

  /** A voter line: the first five voters, and how many more there are when over five. */
  function VoterLine(voters: seq<string>): (line: string)
    ensures |voters| <= 5 ==> line == "- " + Join(voters, ", ")
    ensures |voters| > 5 ==> line == "- " + Join(voters[..5], ", ") + " +" + NatToString(|voters| - 5) + " more"
  {
    var shown := Join(voters[..Min(|voters|, 5)], ", ");
    assert |voters| <= 5 ==> voters[..Min(|voters|, 5)] == voters;
    if |voters| > 5 then "- " + shown + " +" + NatToString(|voters| - 5) + " more" else "- " + shown
  }

  function ApprovedHeader(count: nat): string
  {
    "**Approved (" + NatToString(count) + " vote(s))**"
  }

  function OpposedHeader(count: nat): string
  {
    "\n**Opposed (" + NatToString(count) + " vote(s))**"
  }

  const VotesHeader := "#### \U{1F5F3}\U{FE0F} Voting Results"

  /** A group of votes: a header, then the voter lines of the first three votes; nothing when there are none. */
  function TypeLines(header: string, vs: seq<Vote>): (lines: seq<string>)
    ensures vs == [] ==> lines == []
    ensures vs != [] ==> |lines| == 1 + Min(|vs|, 3) && lines[0] == header
    ensures forall k :: 0 <= k < Min(|vs|, 3) ==> lines[1 + k] == VoterLine(vs[k].voters)
  {
    if vs == [] then []
    else
      var size := 1 + Min(|vs|, 3);
      seq(size, i requires 0 <= i < size => if i == 0 then header else VoterLine(vs[i - 1].voters))
  }

  /**
   * The voting section: nothing without votes; otherwise the header, the
   * approved group headed by the count of all yea votes, the opposed group
   * headed by the count of all nay votes, and a blank line.
   */
  function VoteLines(votes: seq<Vote>): (lines: seq<string>)
    ensures votes == [] <==> lines == []
  {
    if votes == [] then []
    else
      var yeas := OfType(votes, Yea);
      var nays := OfType(votes, Nay);
      [VotesHeader] + TypeLines(ApprovedHeader(|yeas|), yeas) + TypeLines(OpposedHeader(|nays|), nays) + [""]
  }

  /**
   * Where each line of the voting section sits: the header first, the
   * approved group from index 1, the opposed group after it, a blank line last.
   */
  lemma VoteLinesShape(votes: seq<Vote>)
    requires votes != []
    ensures var yeas := OfType(votes, Yea); var nays := OfType(votes, Nay);
      |VoteLines(votes)| == 2 + GroupSize(yeas) + GroupSize(nays)
    ensures VoteLines(votes)[0] == VotesHeader
    ensures VoteLines(votes)[|VoteLines(votes)| - 1] == ""
    ensures var yeas := OfType(votes, Yea);
      yeas != [] ==> VoteLines(votes)[1] == ApprovedHeader(|yeas|)
    ensures var yeas := OfType(votes, Yea);
      forall k :: 0 <= k < Min(|yeas|, 3) ==> VoteLines(votes)[2 + k] == VoterLine(yeas[k].voters)
    ensures var yeas := OfType(votes, Yea); var nays := OfType(votes, Nay);
      nays != [] ==> VoteLines(votes)[1 + GroupSize(yeas)] == OpposedHeader(|nays|)
    ensures var yeas := OfType(votes, Yea); var nays := OfType(votes, Nay);
      forall k :: 0 <= k < Min(|nays|, 3) ==> VoteLines(votes)[2 + GroupSize(yeas) + k] == VoterLine(nays[k].voters)
  {
    var yeas := OfType(votes, Yea);
    var nays := OfType(votes, Nay);
    assert VoteLines(votes) == Section(ApprovedHeader(|yeas|), yeas, OpposedHeader(|nays|), nays);
    SectionFrame(ApprovedHeader(|yeas|), yeas, OpposedHeader(|nays|), nays);
    SectionVoters(ApprovedHeader(|yeas|), yeas, OpposedHeader(|nays|), nays);
  }

  /** A voting section built from two headed groups. */
  function Section(ha: string, ys: seq<Vote>, hb: string, ns: seq<Vote>): seq<string>
  {
    [VotesHeader] + TypeLines(ha, ys) + TypeLines(hb, ns) + [""]
  }

  /** The length of a voting section built from two groups, and where its headers and blank line sit. */
  lemma SectionFrame(ha: string, ys: seq<Vote>, hb: string, ns: seq<Vote>)
    ensures |Section(ha, ys, hb, ns)| == 2 + GroupSize(ys) + GroupSize(ns)
    ensures Section(ha, ys, hb, ns)[0] == VotesHeader
    ensures Section(ha, ys, hb, ns)[|Section(ha, ys, hb, ns)| - 1] == ""
    ensures ys != [] ==> Section(ha, ys, hb, ns)[1] == ha
    ensures ns != [] ==> Section(ha, ys, hb, ns)[1 + GroupSize(ys)] == hb
  {
    var approved := TypeLines(ha, ys);
    var opposed := TypeLines(hb, ns);
    assert |approved| == GroupSize(ys);
    assert |opposed| == GroupSize(ns);
    Bracketed(VotesHeader, approved, opposed, "");
  }

  /** Where the voter lines of a voting section built from two groups sit. */
  lemma SectionVoters(ha: string, ys: seq<Vote>, hb: string, ns: seq<Vote>)
    ensures forall k :: 0 <= k < Min(|ys|, 3) ==> Section(ha, ys, hb, ns)[2 + k] == VoterLine(ys[k].voters)
    ensures forall k :: 0 <= k < Min(|ns|, 3) ==> Section(ha, ys, hb, ns)[2 + GroupSize(ys) + k] == VoterLine(ns[k].voters)
  {
    var approved := TypeLines(ha, ys);
    var opposed := TypeLines(hb, ns);
    var l := Section(ha, ys, hb, ns);
    assert |approved| == GroupSize(ys);
    Bracketed(VotesHeader, approved, opposed, "");
    forall k | 0 <= k < Min(|ys|, 3)
      ensures l[2 + k] == VoterLine(ys[k].voters)
    {
      assert l[1 + (1 + k)] == approved[1 + k];
    }
    forall k | 0 <= k < Min(|ns|, 3)
      ensures l[2 + GroupSize(ys) + k] == VoterLine(ns[k].voters)
    {
      assert l[1 + |approved| + (1 + k)] == opposed[1 + k];
    }
  }

  /** The number of lines a vote group takes: its header and at most three voter lines. */
  function GroupSize(vs: seq<Vote>): nat
  {
    if vs == [] then 0 else 1 + Min(|vs|, 3)
  }

  /** Where the parts of `[h] + a + b + [z]` sit. */
  lemma Bracketed<T>(h: T, a: seq<T>, b: seq<T>, z: T)
    ensures var l := [h] + a + b + [z];
      && |l| == 2 + |a| + |b| && l[0] == h && l[|l| - 1] == z
      && (forall i :: 0 <= i < |a| ==> l[1 + i] == a[i])
      && (forall i :: 0 <= i < |b| ==> l[1 + |a| + i] == b[i])
  {
  }

  /** The statistics: the item count, the vote count and the agenda's word count, each when there is one. */
  function StatsParts(m: Meeting): (parts: seq<string>)
    ensures |parts| == (if ItemsOf(m) != [] then 1 else 0) + (if VotesOf(m) != [] then 1 else 0)
      + (if Truthy(m.agendaText) then 1 else 0)
  {
    var words := if Truthy(m.agendaText) then WordsPart(m.agendaText.value) else "";
    Optionals(ItemsOf(m) != [], ItemsPart(m), VotesOf(m) != [], VotesPart(m), Truthy(m.agendaText), words);
    Optional(ItemsOf(m) != [], ItemsPart(m)) + Optional(VotesOf(m) != [], VotesPart(m)) + Optional(Truthy(m.agendaText), words)
  }

  /** The item count part, as `f"{len(items)} agenda items"`. */
  function ItemsPart(m: Meeting): string
  {
    NatToString(|ItemsOf(m)|) + " agenda items"
  }

  /** The vote count part, as `f"{len(votes)} votes recorded"`. */
  function VotesPart(m: Meeting): string
  {
    NatToString(|VotesOf(m)|) + " votes recorded"
  }

  /** The word count part, as `f"~{word_count:,} words in agenda"`. */
  function WordsPart(agenda: string): string
  {
    "~" + WithThousands(WordCount(agenda)) + " words in agenda"
  }

  /** Which part sits where: items first, votes next, the word count last, each only when present. */
  lemma StatsPartsShape(m: Meeting)
    ensures ItemsOf(m) != [] ==> StatsParts(m)[0] == ItemsPart(m)
    ensures VotesOf(m) != [] ==> StatsParts(m)[if ItemsOf(m) != [] then 1 else 0] == VotesPart(m)
    ensures Truthy(m.agendaText) ==> StatsParts(m)[|StatsParts(m)| - 1] == WordsPart(m.agendaText.value)
  {
    var words := if Truthy(m.agendaText) then WordsPart(m.agendaText.value) else "";
    Optionals(ItemsOf(m) != [], ItemsPart(m), VotesOf(m) != [], VotesPart(m), Truthy(m.agendaText), words);
  }

  /** `[x]` when `c` holds, nothing otherwise. */
  function Optional<T>(c: bool, x: T): seq<T>
  {
    if c then [x] else []
  }

  /** Where the parts of three optional pieces sit. */
  lemma Optionals<T>(a: bool, x: T, b: bool, y: T, c: bool, z: T)
    ensures var l := Optional(a, x) + Optional(b, y) + Optional(c, z);
      && |l| == (if a then 1 else 0) + (if b then 1 else 0) + (if c then 1 else 0)
      && (a ==> l[0] == x)
      && (b ==> l[if a then 1 else 0] == y)
      && (c ==> l[|l| - 1] == z)
  {
  }

  function StatsLines(m: Meeting): (lines: seq<string>)
    ensures lines == [] <==> ItemsOf(m) == [] && VotesOf(m) == [] && !Truthy(m.agendaText)
  {
    var parts := StatsParts(m);
    if parts != [] then ["*" + Join(parts, Bullet) + "*", ""] else []
  }

  /** With any statistic, the section is the parts joined by bullets in italics, then a blank line. */
  lemma StatsLinesShape(m: Meeting)
    requires ItemsOf(m) != [] || VotesOf(m) != [] || Truthy(m.agendaText)
    ensures StatsLines(m) == ["*" + Join(StatsParts(m), Bullet) + "*", ""]
  {
  }

  /** The meeting header: body, times, location when set, documents when any, and a blank line. */
  function HeadLines(fmt: Formats, m: Meeting): seq<string>
  {
    ["### " + m.body, "**Time:** " + fmt.timeText(m.start) + " - " + fmt.timeText(m.end)]
    + (if m.location != [] then ["**Location:** " + m.location] else [])
    + DocumentsLines(m) + [""]
  }

  /** Where each line of the meeting header sits. */
  lemma HeadLinesShape(fmt: Formats, m: Meeting)
    ensures var lines := HeadLines(fmt, m); var loc := if m.location != [] then 1 else 0;
      && |lines| == 3 + loc + |DocumentsLines(m)|
      && lines[0] == "### " + m.body
      && lines[1] == "**Time:** " + fmt.timeText(m.start) + " - " + fmt.timeText(m.end)
      && (m.location != [] ==> lines[2] == "**Location:** " + m.location)
      && lines[2 + loc..|lines| - 1] == DocumentsLines(m)
      && lines[|lines| - 1] == ""
  {
    var loc := if m.location != [] then ["**Location:** " + m.location] else [];
    MiddleSlice(["### " + m.body, "**Time:** " + fmt.timeText(m.start) + " - " + fmt.timeText(m.end)] + loc, DocumentsLines(m), [""]);
  }

  /** The lines of `generate_meeting_brief(meeting)`. */
  function MeetingBriefLines(fmt: Formats, m: Meeting): seq<string>
  {
    HeadLines(fmt, m) + AgendaLines(ItemsOf(m)) + VoteLines(VotesOf(m)) + StatsLines(m)
  }

  /** The agenda-items block of `generate_meeting_brief`. */
  method AgendaSection(items: seq<AgendaItem>) returns (lines: seq<string>)
    ensures lines == AgendaLines(items)
  {
    lines := [];
    if items != [] {
      var shown := ItemLines(items[..Min(|items|, 10)]);
      lines := [AgendaHeader] + shown;
      var more: seq<string> := [];
      if |items| > 10 {
        more := [MoreItemsLine(|items| - 10)];
      }
      lines := lines + more + [""];
      AgendaLinesOf(items, shown, more);
    }
  }

  /** The agenda section of a non-empty list, from its parts. */
  lemma AgendaLinesOf(items: seq<AgendaItem>, shown: seq<string>, more: seq<string>)
    requires items != [] && shown == MapLines(items[..Min(|items|, 10)], ItemLine)
    requires more == if |items| > 10 then [MoreItemsLine(|items| - 10)] else []
    ensures AgendaLines(items) == [AgendaHeader] + shown + more + [""]
  {
    assert [AgendaHeader] + shown + (more + [""]) == [AgendaHeader] + shown + more + [""];
  }

  /** The loop over the shown agenda items. */
  method ItemLines(items: seq<AgendaItem>) returns (shown: seq<string>)
    ensures shown == MapLines(items, ItemLine)
  {
    shown := [];
    for k := 0 to |items|
      invariant shown == MapLines(items[..k], ItemLine)
    {
      MapLinesSnoc(items, ItemLine, k);
      var line := RenderItem(items[k]);
      shown := shown + [line];
    }
    assert items[..|items|] == items;
  }

  /** One agenda line: the text on one line, stripped, and cut when over 150 characters. */
  method RenderItem(item: AgendaItem) returns (line: string)
    ensures line == ItemLine(item)
  {
    var text := Strip(NewlinesToSpaces(item.text));
    if |text| > 150 {
      text := text[..147] + "...";
    }
    line := item.number + ". " + text;
  }

  /** The voter lines of the first three votes of one type. */
  method VoterLines(vs: seq<Vote>) returns (lines: seq<string>)
    ensures |lines| == Min(|vs|, 3)
    ensures forall k :: 0 <= k < |lines| ==> lines[k] == VoterLine(vs[k].voters)
  {
    lines := [];
    for k := 0 to Min(|vs|, 3)
      invariant |lines| == k
      invariant forall j :: 0 <= j < k ==> lines[j] == VoterLine(vs[j].voters)
    {
      var voters := vs[k].voters;
      var shown := Join(voters[..Min(|voters|, 5)], ", ");
      if |voters| > 5 {
        shown := shown + " +" + NatToString(|voters| - 5) + " more";
      }
      assert "- " + shown == VoterLine(voters);
      lines := lines + ["- " + shown];
    }
  }

  /** The voting-results block of `generate_meeting_brief`. */
  method VoteSection(votes: seq<Vote>) returns (lines: seq<string>)
    ensures lines == VoteLines(votes)
  {
    lines := [];
    if votes != [] {
      var yeas := OfType(votes, Yea);
      var nays := OfType(votes, Nay);
      var approved: seq<string> := [];
      if yeas != [] {
        var shown := VoterLines(yeas);
        approved := [ApprovedHeader(|yeas|)] + shown;
        assert approved == TypeLines(ApprovedHeader(|yeas|), yeas);
      }
      var opposed: seq<string> := [];
      if nays != [] {
        var shown := VoterLines(nays);
        opposed := [OpposedHeader(|nays|)] + shown;
        assert opposed == TypeLines(OpposedHeader(|nays|), nays);
      }
      lines := [VotesHeader] + approved + opposed + [""];
    }
  }

  /** The header statements of `generate_meeting_brief`. */
  method HeadSection(fmt: Formats, m: Meeting) returns (brief: seq<string>)
    ensures brief == HeadLines(fmt, m)
  {
    brief := ["### " + m.body, "**Time:** " + fmt.timeText(m.start) + " - " + fmt.timeText(m.end)];
    if m.location != [] {
      brief := brief + ["**Location:** " + m.location];
    }
    var links: seq<string> := [];
    if Truthy(m.agendaUrl) {
      links := links + ["[Agenda](" + m.agendaUrl.value + ")"];
    }
    if Truthy(m.minutesUrl) {
      links := links + ["[Minutes](" + m.minutesUrl.value + ")"];
    }
    if m.detailUrl != [] {
      links := links + ["[Details](" + m.detailUrl + ")"];
    }
    assert links == DocLinks(m);
    if links != [] {
      brief := brief + ["**Documents:** " + Join(links, Bullet)];
    }
    brief := brief + [""];
  }

  /** `generate_meeting_brief(meeting)` */
  method MeetingBrief(fmt: Formats, m: Meeting) returns (text: string)
    ensures text == BriefText(fmt, m)
  {
    var brief := HeadSection(fmt, m);
    var agenda := AgendaSection(ItemsOf(m));
    var votes := VoteSection(VotesOf(m));
    brief := brief + agenda + votes + StatsLines(m);
    text := Join(brief, "\n");
    assert text == BriefText(fmt, m);
  }

  // ---------------------------------------------------------------------
  // generate_daily_brief
  // ---------------------------------------------------------------------

  /** The text `generate_meeting_brief` returns. */
  function BriefText(fmt: Formats, m: Meeting): string
  {
    Join(MeetingBriefLines(fmt, m), "\n")
  }

  /** `generate_meeting_brief` as a value. */
  function BriefOf(fmt: Formats): Meeting -> string
  {
    m => BriefText(fmt, m)
  }

  /** The summary line of the `i`-th meeting of the day, counting from one. */
  function SummaryLine(fmt: Formats, i: nat, m: Meeting): string
  {
    NatToString(i) + ". **" + m.body + "** - " + fmt.timeText(m.start)
  }

  /** The numbered summary list: the meetings in order, numbered from one. */
  function SummaryLines(fmt: Formats, ms: seq<Meeting>): (lines: seq<string>)
    ensures |lines| == |ms|
    ensures forall k :: 0 <= k < |ms| ==> lines[k] == SummaryLine(fmt, k + 1, ms[k])
    decreases |ms|
  {
    if ms == [] then []
    else SummaryLines(fmt, ms[..|ms| - 1]) + [SummaryLine(fmt, |ms|, ms[|ms| - 1])]
  }

  /** Each meeting's brief followed by a rule and a blank line. */
  function Sections(ms: seq<Meeting>, render: Meeting -> string): (lines: seq<string>)
    ensures |lines| == 3 * |ms|
    decreases |ms|
  {
    if ms == [] then []
    else Sections(ms[..|ms| - 1], render) + [render(ms[|ms| - 1]), "---", ""]
  }

  /** The `k`-th meeting's section is its brief, a rule and a blank line, from line `3 * k` on. */
  lemma {:induction false} SectionsAt(ms: seq<Meeting>, render: Meeting -> string, k: nat)
    requires k < |ms|
    ensures var lines := Sections(ms, render);
      lines[3 * k] == render(ms[k]) && lines[3 * k + 1] == "---" && lines[3 * k + 2] == ""
    decreases |ms|
  {
    var init := ms[..|ms| - 1];
    if k < |init| {
      SectionsAt(init, render, k);
      assert init[k] == ms[k];
    }
  }

  /** The sections of one more meeting. */
  lemma SectionsSnoc(ms: seq<Meeting>, render: Meeting -> string, i: nat)
    requires i < |ms|
    ensures Sections(ms[..i + 1], render) == Sections(ms[..i], render) + [render(ms[i]), "---", ""]
  {
    assert ms[..i + 1][..i] == ms[..i];
  }

  const Footer := "*This brief was automatically generated from official meeting data.*"

  /** The head of the day's brief, up to the numbered list. */
  function DailyHead(fmt: Formats, dateStr: string, count: nat, source: string): (head: seq<string>)
    ensures |head| == 8 && head[6] == CountLine(count)
  {
    ["# Daily Meeting Brief: " + fmt.dateText(dateStr), "*Source: " + source + "*", "", "---", "",
     "## Summary", CountLine(count), ""]
  }

  /** The line announcing how many meetings the day has. */
  function CountLine(count: nat): string
  {
    "**" + NatToString(count) + " meeting(s) scheduled**"
  }

  const DetailsHead := ["", "---", "", "## Meeting Details", ""]

  /** A daily brief whose meeting sections are rendered by `render`. */
  function DailyLines(fmt: Formats, dateStr: string, ms: seq<Meeting>, source: string, nowText: string,
                      render: Meeting -> string): seq<string>
  {
    DailyHead(fmt, dateStr, |ms|, source) + SummaryLines(fmt, ms) + DetailsHead
    + Sections(ms, render) + [Footer, "*Generated: " + nowText + "*"]
  }

  /** The lines of `generate_daily_brief(date_str, meetings, source)`; `nowText` is the generation time. */
  function DailyBriefLines(fmt: Formats, dateStr: string, ms: seq<Meeting>, source: string, nowText: string): seq<string>
  {
    DailyLines(fmt, dateStr, ms, source, nowText, BriefOf(fmt))
  }

  /**
   * The layout of a daily brief: eight head lines, one numbered line per
   * meeting, five lines opening the details, three lines per meeting (its
   * brief, a rule, a blank line) and two footer lines.
   */
  lemma DailyLayout(fmt: Formats, dateStr: string, ms: seq<Meeting>, source: string, nowText: string,
                    render: Meeting -> string)
    ensures |DailyLines(fmt, dateStr, ms, source, nowText, render)| == 15 + 4 * |ms|
    ensures forall k :: 0 <= k < |ms| ==>
      DailyLines(fmt, dateStr, ms, source, nowText, render)[8 + k] == SummaryLine(fmt, k + 1, ms[k])
    ensures forall k :: 0 <= k < |ms| ==>
      DailyLines(fmt, dateStr, ms, source, nowText, render)[13 + |ms| + 3 * k] == render(ms[k])
    ensures forall k :: 0 <= k < |ms| ==>
      DailyLines(fmt, dateStr, ms, source, nowText, render)[14 + |ms| + 3 * k] == "---"
    ensures DailyLines(fmt, dateStr, ms, source, nowText, render)[13 + 4 * |ms|] == Footer
  {
    DailySummaryAt(fmt, dateStr, ms, source, nowText, render);
    DailyDetailsAt(fmt, dateStr, ms, source, nowText, render);
  }

  /** The length of a daily brief and its numbered summary lines. */
  lemma DailySummaryAt(fmt: Formats, dateStr: string, ms: seq<Meeting>, source: string, nowText: string,
                       render: Meeting -> string)
    ensures |DailyLines(fmt, dateStr, ms, source, nowText, render)| == 15 + 4 * |ms|
    ensures forall k :: 0 <= k < |ms| ==>
      DailyLines(fmt, dateStr, ms, source, nowText, render)[8 + k] == SummaryLine(fmt, k + 1, ms[k])
  {
    var lines := DailyLines(fmt, dateStr, ms, source, nowText, render);
    var pre := DailyPre(fmt, dateStr, ms, source);
    var sections := Sections(ms, render);
    var footer := [Footer, "*Generated: " + nowText + "*"];
    DailySplit(fmt, dateStr, ms, source, nowText, render);
    forall k | 0 <= k < |ms|
      ensures lines[8 + k] == SummaryLine(fmt, k + 1, ms[k])
    {
      PickMiddle(pre, sections, footer, 8 + k);
    }
  }

  /** The meeting sections of a daily brief and the footer after them. */
  lemma DailyDetailsAt(fmt: Formats, dateStr: string, ms: seq<Meeting>, source: string, nowText: string,
                       render: Meeting -> string)
    ensures |DailyLines(fmt, dateStr, ms, source, nowText, render)| == 15 + 4 * |ms|
    ensures forall k :: 0 <= k < |ms| ==>
      DailyLines(fmt, dateStr, ms, source, nowText, render)[13 + |ms| + 3 * k] == render(ms[k])
    ensures forall k :: 0 <= k < |ms| ==>
      DailyLines(fmt, dateStr, ms, source, nowText, render)[14 + |ms| + 3 * k] == "---"
    ensures DailyLines(fmt, dateStr, ms, source, nowText, render)[13 + 4 * |ms|] == Footer
  {
    var lines := DailyLines(fmt, dateStr, ms, source, nowText, render);
    var pre := DailyPre(fmt, dateStr, ms, source);
    var sections := Sections(ms, render);
    var footer := [Footer, "*Generated: " + nowText + "*"];
    DailySplit(fmt, dateStr, ms, source, nowText, render);
    forall k | 0 <= k < |ms|
      ensures lines[13 + |ms| + 3 * k] == render(ms[k])
      ensures lines[14 + |ms| + 3 * k] == "---"
    {
      DailySectionAt(pre, sections, footer, ms, render, k);
    }
    PickMiddle(pre, sections, footer, 13 + 4 * |ms|);
  }

  /** A daily brief is its lines before the sections, the sections, and the footer. */
  lemma DailySplit(fmt: Formats, dateStr: string, ms: seq<Meeting>, source: string, nowText: string,
                   render: Meeting -> string)
    ensures DailyLines(fmt, dateStr, ms, source, nowText, render)
         == DailyPre(fmt, dateStr, ms, source) + Sections(ms, render) + [Footer, "*Generated: " + nowText + "*"]
  {
  }

  /** The lines of a daily brief before the meeting sections. */
  function DailyPre(fmt: Formats, dateStr: string, ms: seq<Meeting>, source: string): (pre: seq<string>)
    ensures |pre| == 13 + |ms|
    ensures forall k :: 0 <= k < |ms| ==> pre[8 + k] == SummaryLine(fmt, k + 1, ms[k])
  {
    var head := DailyHead(fmt, dateStr, |ms|, source);
    var summary := SummaryLines(fmt, ms);
    assert forall k :: 0 <= k < |ms| ==> (head + summary + DetailsHead)[8 + k] == summary[k];
    head + summary + DetailsHead
  }

  lemma DailySectionAt(pre: seq<string>, sections: seq<string>, footer: seq<string>, ms: seq<Meeting>,
                       render: Meeting -> string, k: nat)
    requires |pre| == 13 + |ms| && sections == Sections(ms, render) && k < |ms|
    ensures (pre + sections + footer)[13 + |ms| + 3 * k] == render(ms[k])
    ensures (pre + sections + footer)[14 + |ms| + 3 * k] == "---"
  {
    var j := 3 * k;
    SectionsAt(ms, render, k);
    assert j + 1 < |sections|;
    assert (pre + sections)[|pre| + j] == sections[j];
    assert (pre + sections)[|pre| + j + 1] == sections[j + 1];
  }

  /** The seventh line of a daily brief gives the number of meetings. */
  lemma DailyCount(fmt: Formats, dateStr: string, ms: seq<Meeting>, source: string, nowText: string,
                   render: Meeting -> string)
    ensures |DailyLines(fmt, dateStr, ms, source, nowText, render)| > 6
    ensures DailyLines(fmt, dateStr, ms, source, nowText, render)[6] == CountLine(|ms|)
  {
    var head := DailyHead(fmt, dateStr, |ms|, source);
    var rest := SummaryLines(fmt, ms) + DetailsHead + Sections(ms, render) + [Footer, "*Generated: " + nowText + "*"];
    assert DailyLines(fmt, dateStr, ms, source, nowText, render) == head + rest;
  }

  /** Where an index of `a + b + c` lands. */
  lemma PickMiddle<T>(a: seq<T>, b: seq<T>, c: seq<T>, i: nat)
    requires i < |a| + |b| + |c|
    ensures i < |a| ==> (a + b + c)[i] == a[i]
    ensures |a| <= i < |a| + |b| ==> (a + b + c)[i] == b[i - |a|]
    ensures |a| + |b| <= i ==> (a + b + c)[i] == c[i - |a| - |b|]
  {
  }

  /** The loop of `generate_daily_brief` that appends each meeting's brief. */
  method DetailSections(fmt: Formats, meetings: seq<Meeting>) returns (sections: seq<string>)
    ensures sections == Sections(meetings, BriefOf(fmt))
  {
    sections := [];
    for i := 0 to |meetings|
      invariant sections == Sections(meetings[..i], BriefOf(fmt))
    {
      SectionsSnoc(meetings, BriefOf(fmt), i);
      var one := MeetingBrief(fmt, meetings[i]);
      assert one == BriefOf(fmt)(meetings[i]);
      sections := sections + [one, "---", ""];
    }
    assert meetings[..|meetings|] == meetings;
  }

  /** `generate_daily_brief(date_str, meetings, source)` */
  method DailyBrief(fmt: Formats, dateStr: string, meetings: seq<Meeting>, source: string, nowText: string)
    returns (text: string)
    ensures text == Join(DailyBriefLines(fmt, dateStr, meetings, source, nowText), "\n")
  {
    var brief := DailyHead(fmt, dateStr, |meetings|, source);
    var summary: seq<string> := [];
    for i := 0 to |meetings|
      invariant summary == SummaryLines(fmt, meetings[..i])
    {
      assert meetings[..i + 1][..i] == meetings[..i];
      summary := summary + [NatToString(i + 1) + ". **" + meetings[i].body + "** - " + fmt.timeText(meetings[i].start)];
    }
    assert meetings[..|meetings|] == meetings;
    brief := brief + summary + DetailsHead;
    var sections := DetailSections(fmt, meetings);
    brief := brief + sections + [Footer, "*Generated: " + nowText + "*"];
    text := Join(brief, "\n");
  }

  // ---------------------------------------------------------------------
  // main
  // ---------------------------------------------------------------------

  /** A brief written to the output directory. */
  datatype BriefFile = BriefFile(day: string, name: string, content: string)

  function FileName(day: string): string
  {
    "brief-" + day + ".md"
  }

  /** The grouping restricted to the requested date, when one is requested. */
  function Selection(grouped: map<string, seq<Meeting>>, date: Option<string>): map<string, seq<Meeting>>
  {
    match date
    case None => grouped
    case Some(d) => map[d := if d in grouped then grouped[d] else []]
  }

  /** `generate_daily_brief(date_str, date_meetings, source_name)` after sorting the day's meetings by start. */
  function DayBrief(fmt: Formats, source: string, nowText: string): (string, seq<Meeting>) -> string
  {
    (d, ms) => DayBriefText(fmt, d, ms, source, nowText)
  }

  /** The text of the brief for the day `d` with the meetings `ms`. */
  function DayBriefText(fmt: Formats, d: string, ms: seq<Meeting>, source: string, nowText: string): string
  {
    Join(DailyBriefLines(fmt, d, Dedup.SortByStart(ms), source, nowText), "\n")
  }

  /** The files written for the days `days`, in order, skipping days without meetings. */
  function BriefFiles(g: map<string, seq<Meeting>>, days: seq<string>, render: (string, seq<Meeting>) -> string)
    : seq<BriefFile>
    decreases |days|
  {
    if days == [] then []
    else
      var d := days[|days| - 1];
      var ms := if d in g then g[d] else [];
      BriefFiles(g, days[..|days| - 1], render)
      + (if ms != [] then [BriefFile(d, FileName(d), render(d, ms))] else [])
  }

  /** The briefs `main` writes: one per day with meetings, in date order. */
  function GeneratedBriefs(fmt: Formats, meetings: seq<Meeting>, date: Option<string>, source: string, nowText: string)
    : seq<BriefFile>
  {
    SelectedFiles(fmt.dayOf, meetings, date, DayBrief(fmt, source, nowText))
  }

  /** The files written for the selected days, in date order, each rendered by `render`. */
  function SelectedFiles(dayOf: Instant -> string, meetings: seq<Meeting>, date: Option<string>,
                         render: (string, seq<Meeting>) -> string): seq<BriefFile>
  {
    var g := Selection(Grouped(dayOf, meetings), date);
    BriefFiles(g, SortedStrings(g.Keys), render)
  }

  /** `main`: group, select, and write one brief per day in date order. */
  method GenerateBriefs(fmt: Formats, meetings: seq<Meeting>, date: Option<string>, source: string, nowText: string)
    returns (files: seq<BriefFile>)
    ensures files == GeneratedBriefs(fmt, meetings, date, source, nowText)
  {
    var grouped := GroupByDate(fmt.dayOf, meetings);
    if date.Some? {
      grouped := map[date.value := if date.value in grouped then grouped[date.value] else []];
    }
    assert grouped == Selection(Grouped(fmt.dayOf, meetings), date);
    files := WriteBriefs(fmt, grouped, SortedStrings(grouped.Keys), source, nowText);
  }

  /** The loop of `main` over the sorted days. */
  method WriteBriefs(fmt: Formats, grouped: map<string, seq<Meeting>>, days: seq<string>, source: string, nowText: string)
    returns (files: seq<BriefFile>)
    ensures files == BriefFiles(grouped, days, DayBrief(fmt, source, nowText))
  {
    files := [];
    for i := 0 to |days|
      invariant files == BriefFiles(grouped, days[..i], DayBrief(fmt, source, nowText))
    {
      assert days[..i + 1][..i] == days[..i];
      var ms := if days[i] in grouped then grouped[days[i]] else [];
      if ms != [] {
        var content := DailyBrief(fmt, days[i], Dedup.SortByStart(ms), source, nowText);
        assert content == DayBrief(fmt, source, nowText)(days[i], ms);
        files := files + [BriefFile(days[i], FileName(days[i]), content)];
      }
    }
    assert days[..|days|] == days;
  }

  /** `f` is the brief of one of `days` with meetings, named after that day and rendered from its group. */
  predicate WrittenFor(g: map<string, seq<Meeting>>, days: seq<string>, render: (string, seq<Meeting>) -> string,
                       f: BriefFile)
  {
    f.day in days && f.day in g && g[f.day] != []
    && f.name == FileName(f.day) && f.content == render(f.day, g[f.day])
  }

  /** Every file is the brief of one of the days with meetings. */
  lemma {:induction false} BriefFilesContent(g: map<string, seq<Meeting>>, days: seq<string>,
                                             render: (string, seq<Meeting>) -> string)
    ensures forall f :: f in BriefFiles(g, days, render) ==> WrittenFor(g, days, render, f)
    decreases |days|
  {
    if days != [] {
      var init := days[..|days| - 1];
      BriefFilesContent(g, init, render);
      forall f | f in BriefFiles(g, init, render) ensures WrittenFor(g, days, render, f) {
        assert WrittenFor(g, init, render, f);
        assert f.day in init;
      }
    }
  }

  /** Every day with meetings gets a brief. */
  lemma {:induction false} BriefFilesComplete(g: map<string, seq<Meeting>>, days: seq<string>,
                                              render: (string, seq<Meeting>) -> string)
    ensures forall d :: d in days && d in g && g[d] != [] ==> d in DaysOf(BriefFiles(g, days, render))
    decreases |days|
  {
    if days != [] {
      var init := days[..|days| - 1];
      BriefFilesComplete(g, init, render);
      var before := BriefFiles(g, init, render);
      var files := BriefFiles(g, days, render);
      assert DaysOf(files)[..|before|] == DaysOf(before);
      forall d | d in days && d in g && g[d] != [] ensures d in DaysOf(files) {
        if d != days[|days| - 1] {
          assert d in init;
          assert d in DaysOf(files)[..|before|];
        } else {
          assert DaysOf(files)[|files| - 1] == d;
        }
      }
    }
  }

  /** Briefs for days in ascending order come out in ascending order. */
  lemma {:induction false} BriefFilesOrdered(g: map<string, seq<Meeting>>, days: seq<string>,
                                             render: (string, seq<Meeting>) -> string)
    requires Ascending(days, LexLess)
    ensures Ascending(DaysOf(BriefFiles(g, days, render)), LexLess)
    decreases |days|
  {
    if days != [] {
      var init := days[..|days| - 1];
      var d := days[|days| - 1];
      BriefFilesOrdered(g, init, render);
      BriefFilesContent(g, init, render);
      var before := BriefFiles(g, init, render);
      var ds := DaysOf(BriefFiles(g, days, render));
      assert ds[..|before|] == DaysOf(before);
      forall i, j | 0 <= i < j < |ds| ensures LexLess(ds[i], ds[j]) {
        if j == |before| {
          assert before[i] in before;
          assert before[i].day in init;
          var k :| 0 <= k < |init| && init[k] == before[i].day;
          assert ds[j] == d == days[|days| - 1] && days[k] == init[k];
        } else {
          assert ds[i] == DaysOf(before)[i] && ds[j] == DaysOf(before)[j];
        }
      }
    }
  }

  function DaysOf(files: seq<BriefFile>): (ds: seq<string>)
    ensures |ds| == |files| && forall i :: 0 <= i < |files| ==> ds[i] == files[i].day
  {
    seq(|files|, i requires 0 <= i < |files| => files[i].day)
  }

  /**
   * `main` writes its briefs in date order, each for a day with meetings and
   * holding that day's meetings sorted by start.
   */
  lemma GeneratedBriefsContent(fmt: Formats, meetings: seq<Meeting>, date: Option<string>, source: string, nowText: string)
    ensures Ascending(DaysOf(GeneratedBriefs(fmt, meetings, date, source, nowText)), LexLess)
    ensures forall f :: f in GeneratedBriefs(fmt, meetings, date, source, nowText) ==>
      && OnDay(fmt.dayOf, meetings, f.day) != []
      && f.name == FileName(f.day)
      && f.content == DayBrief(fmt, source, nowText)(f.day, OnDay(fmt.dayOf, meetings, f.day))
  {
    var grouped := Grouped(fmt.dayOf, meetings);
    var g := Selection(grouped, date);
    var days := SortedStrings(g.Keys);
    var render := DayBrief(fmt, source, nowText);
    BriefFilesOrdered(g, days, render);
    BriefFilesContent(g, days, render);
    GroupedSpec(fmt.dayOf, meetings);
    forall f | f in BriefFiles(g, days, render)
      ensures OnDay(fmt.dayOf, meetings, f.day) == g[f.day]
    {
      assert WrittenFor(g, days, render, f);
    }
  }

  /**
   * Without a date, `main` writes a brief for exactly the days some meeting
   * starts on; with a date, one brief for that date if a meeting starts on
   * it and none otherwise.
   */
  lemma GeneratedBriefsDays(fmt: Formats, meetings: seq<Meeting>, date: Option<string>, source: string, nowText: string)
    ensures date.None? ==> forall d :: d in DaysOf(GeneratedBriefs(fmt, meetings, date, source, nowText)) <==>
      exists j :: 0 <= j < |meetings| && fmt.dayOf(meetings[j].start) == d
    ensures date.Some? ==> forall d :: d in DaysOf(GeneratedBriefs(fmt, meetings, date, source, nowText)) <==>
      d == date.value && exists j :: 0 <= j < |meetings| && fmt.dayOf(meetings[j].start) == d
  {
    SelectedBriefsDays(fmt.dayOf, meetings, date, DayBrief(fmt, source, nowText));
  }

  /** The days of the briefs written for a selection, whatever each brief's text. */
  lemma SelectedBriefsDays(dayOf: Instant -> string, meetings: seq<Meeting>, date: Option<string>,
                           render: (string, seq<Meeting>) -> string)
    ensures forall d :: d in DaysOf(SelectedFiles(dayOf, meetings, date, render)) <==>
        (date.None? || d == date.value) && exists j :: 0 <= j < |meetings| && dayOf(meetings[j].start) == d
  {
    var g := Selection(Grouped(dayOf, meetings), date);
    var days := SortedStrings(g.Keys);
    BriefFilesDays(g, days, render);
    SelectedDays(dayOf, meetings, date);
    forall d ensures d in DaysOf(BriefFiles(g, days, render)) <==>
      (date.None? || d == date.value) && exists j :: 0 <= j < |meetings| && dayOf(meetings[j].start) == d
    {
      assert d in days <==> d in g;
    }
  }

  /** With a date given, `main` writes at most one brief. */
  lemma OneBriefForADate(fmt: Formats, meetings: seq<Meeting>, date: Option<string>, source: string, nowText: string)
    requires date.Some?
    ensures |GeneratedBriefs(fmt, meetings, date, source, nowText)| <= 1
  {
    var files := GeneratedBriefs(fmt, meetings, date, source, nowText);
    GeneratedBriefsContent(fmt, meetings, date, source, nowText);
    GeneratedBriefsDays(fmt, meetings, date, source, nowText);
    if |files| >= 2 {
      var ds := DaysOf(files);
      assert ds[0] in ds && ds[1] in ds;
      assert LexLess(ds[0], ds[1]);
      LexIrreflexive(date.value);
    }
  }

  /** The selected groups with meetings are the requested days on which some meeting starts. */
  lemma SelectedDays(dayOf: Instant -> string, meetings: seq<Meeting>, date: Option<string>)
    ensures forall d ::
      (d in Selection(Grouped(dayOf, meetings), date) && Selection(Grouped(dayOf, meetings), date)[d] != []) <==>
      ((date.None? || d == date.value) && exists j :: 0 <= j < |meetings| && dayOf(meetings[j].start) == d)
  {
    var grouped := Grouped(dayOf, meetings);
    GroupedSpec(dayOf, meetings);
    forall d | d in grouped ensures grouped[d] != [] {
      var j :| 0 <= j < |meetings| && dayOf(meetings[j].start) == d;
      OnDayMembers(dayOf, meetings, d, meetings[j]);
    }
  }

  /** The days that get a brief are the listed days whose group has meetings. */
  lemma BriefFilesDays(g: map<string, seq<Meeting>>, days: seq<string>, render: (string, seq<Meeting>) -> string)
    ensures forall d :: d in DaysOf(BriefFiles(g, days, render)) <==> d in days && d in g && g[d] != []
  {
    var files := BriefFiles(g, days, render);
    BriefFilesContent(g, days, render);
    BriefFilesComplete(g, days, render);
    forall d | d in DaysOf(files) ensures d in days && d in g && g[d] != [] {
      var i :| 0 <= i < |files| && DaysOf(files)[i] == d;
      assert files[i] in files && WrittenFor(g, days, render, files[i]);
    }
  }
}
