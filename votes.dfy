/**
 * `parse_votes`: roll-call spans found by `YEAS?:?\s*(.+?)(?=NAYS?:?|ABSENT|$)`
 * and `NAYS?:?\s*(.+?)(?=ABSENT|YEAS?:?|$)` under IGNORECASE and DOTALL,
 * each span split into voter names on `,` and on the substring `and`.
 *
 * Without MULTILINE, `$` holds only at the end of the text or just before a
 * final line break. The label is found anywhere, inside words too ("yeah").
 * After the label, the optional `S`, the optional `:` and the whitespace are
 * taken greedily and the lazy group starts at the next character; the group
 * stops at the first later position where the lookahead holds. When nothing
 * but those optional parts is left before the end of the text, the regex
 * backtracks and the group is the last character of the text.
 */
module Votes {
  import opened Text
  import opened Model
  import opened Wrappers

  /** The label the pattern for `t` looks for, in lower case. */
  function Label(t: VoteType): string
  {
    match t
    case Yea => "yea"
    case Nay => "nay"
  }

  /** The words whose occurrence ends a span of type `t`. */
  function StopWords(t: VoteType): seq<string>
  {
    match t
    case Yea => ["nay", "absent"]
    case Nay => ["absent", "yea"]
  }

  /** `w` (lower case) occurs at `p` when case is ignored (ASCII letters). */
  predicate StartsWithCi(text: string, p: nat, w: string)
  {
    p + |w| <= |text| && Lower(text[p..p + |w|]) == w
  }

  /** The lookahead of the pattern for `t` holds at `p`. */
  predicate Stops(text: string, t: VoteType, p: nat)
  {
    || p == |text|
    || (p + 1 == |text| && text[p] == '\n')
    || StartsWithCi(text, p, StopWords(t)[0])
    || StartsWithCi(text, p, StopWords(t)[1])
  }

  /** The first position at or after `q` where the lookahead holds: where the lazy group stops. */
  function SpanEnd(text: string, t: VoteType, q: nat): (p: nat)
    requires q <= |text|
    ensures q <= p <= |text| && Stops(text, t, p)
    ensures forall k :: q <= k < p ==> !Stops(text, t, k)
    decreases |text| - q
  {
    if Stops(text, t, q) then q else SpanEnd(text, t, q + 1)
  }

  /** Past the three label letters: the optional `S`, the optional `:`, then the whitespace run. */
  function AfterLabel(text: string, i: nat): (g: nat)
    requires i + 3 <= |text|
    ensures i + 3 <= g <= |text|
    ensures g < |text| ==> !IsSpace(text[g])
  {
    var a := if i + 3 < |text| && LowerChar(text[i + 3]) == 's' then i + 4 else i + 3;
    var b := if a < |text| && text[a] == ':' then a + 1 else a;
    SkipSpace(text, b)
  }

  /** Group 1 of every match `re.finditer` reports for the pattern of `t`, scanning from `pos`. */
  function Spans(text: string, t: VoteType, pos: nat): (gs: seq<string>)
    requires pos <= |text|
    ensures forall i :: 0 <= i < |gs| ==> gs[i] != []
    decreases |text| - pos
  {
    if pos + 3 > |text| then []
    else if !StartsWithCi(text, pos, Label(t)) then Spans(text, t, pos + 1)
    else
      var g := AfterLabel(text, pos);
      if g < |text| then
        var p := SpanEnd(text, t, g + 1);
        [text[g..p]] + Spans(text, t, p)
      else if g > pos + 3 then [text[|text| - 1..]]
      else Spans(text, t, pos + 1)
  }

  // ---------------------------------------------------------------------
  // Splitting a span into names
  // ---------------------------------------------------------------------

  /** The length of the separator `re.split(r',|and', s)` finds at `k`, or 0. */
  function SepAt(s: string, k: nat): (n: nat)
    requires k <= |s|
    ensures n == 0 || n == 1 || n == 3
    ensures k + n <= |s|
  {
    if k < |s| && s[k] == ',' then 1
    else if OccursAt(s, k, "and") then 3
    else 0
  }

  /** The first separator at or after `k`, or `|s|`. */
  function NextSep(s: string, k: nat): (j: nat)
    requires k <= |s|
    ensures k <= j <= |s|
    ensures j < |s| ==> SepAt(s, j) > 0
    ensures forall i :: k <= i < j ==> SepAt(s, i) == 0
    decreases |s| - k
  {
    if k == |s| || SepAt(s, k) > 0 then k else NextSep(s, k + 1)
  }

  /** `re.split(r',|and', s)`: the pieces between the separators, left to right. */
  function SplitNames(s: string): (parts: seq<string>)
    ensures |parts| >= 1
    decreases |s|
  {
    var j := NextSep(s, 0);
    if j == |s| then [s] else [s[..j]] + SplitNames(s[j + SepAt(s, j)..])
  }

  /** The separators `re.split(r',|and', s)` splits at, left to right. */
  function SplitSeps(s: string): (seps: seq<string>)
    ensures forall i :: 0 <= i < |seps| ==> seps[i] == "," || seps[i] == "and"
    decreases |s|
  {
    var j := NextSep(s, 0);
    if j == |s| then []
    else
      var n := SepAt(s, j);
      assert s[j..j + n] == "," || s[j..j + n] == "and";
      [s[j..j + n]] + SplitSeps(s[j + n..])
  }

  /**
   * The split loses nothing: one piece more than there are separators, and
   * the pieces interleaved with the separators give the text back.
   */
  lemma {:induction false} SplitRoundTrip(s: string)
    ensures |SplitNames(s)| == |SplitSeps(s)| + 1
    ensures Interleave(SplitNames(s), SplitSeps(s)) == s
    decreases |s|
  {
    var j := NextSep(s, 0);
    if j < |s| {
      var n := SepAt(s, j);
      var rest := s[j + n..];
      SplitRoundTrip(rest);
      SplitUnfold(s, j, n);
      SepsUnfold(s, j, n);
      InterleaveCons(s[..j], SplitNames(rest), s[j..j + n], SplitSeps(rest));
      ThreeSlices(s, j, j + n);
    }
  }

  /** The first piece and separator, then the split of the rest. */
  lemma SplitUnfold(s: string, j: nat, n: nat)
    requires j == NextSep(s, 0) < |s| && n == SepAt(s, j)
    ensures SplitNames(s) == [s[..j]] + SplitNames(s[j + n..])
  {
  }

  /** The first separator, then the separators of the rest. */
  lemma SepsUnfold(s: string, j: nat, n: nat)
    requires j == NextSep(s, 0) < |s| && n == SepAt(s, j)
    ensures SplitSeps(s) == [s[j..j + n]] + SplitSeps(s[j + n..])
  {
  }

  /** `[clean(n) for n in parts if clean(n)]` */
  function CleanNames(parts: seq<string>): (names: seq<string>)
    ensures |names| <= |parts|
  {
    if parts == [] then []
    else
      var n := Clean(parts[0]);
      (if n != [] then [n] else []) + CleanNames(parts[1..])
  }

  /** The kept names are exactly `[clean(n) for n in parts if clean(n)]`. */
  lemma {:induction false} CleanNamesFilter(parts: seq<string>)
    ensures CleanNames(parts) == CleanedNonBlank(parts)
    decreases |parts|
  {
    if parts != [] {
      CleanNamesFilter(parts[1..]);
      MappedCons(parts, NonBlankClean);
      var os := Mapped(parts, NonBlankClean);
      assert os[0] == NonBlankClean(parts[0]) && os[1..] == Mapped(parts[1..], NonBlankClean);
    }
  }

  /** The kept names are cleaned and non-empty. */
  lemma CleanNamesClean(parts: seq<string>)
    ensures forall i :: 0 <= i < |CleanNames(parts)| ==> CleanNames(parts)[i] != [] && Normalized(CleanNames(parts)[i])
  {
    forall i | 0 <= i < |CleanNames(parts)| ensures CleanNames(parts)[i] != [] && Normalized(CleanNames(parts)[i]) {
      CleanNameAt(parts, i);
    }
  }

  lemma {:induction false} CleanNameAt(parts: seq<string>, i: nat)
    requires i < |CleanNames(parts)|
    ensures CleanNames(parts)[i] != [] && Normalized(CleanNames(parts)[i])
    decreases |parts|
  {
    var n, rest := Clean(parts[0]), CleanNames(parts[1..]);
    if n == [] {
      assert CleanNames(parts) == rest;
      CleanNameAt(parts[1..], i);
    } else {
      assert CleanNames(parts) == [n] + rest;
      if i > 0 {
        CleanNameAt(parts[1..], i - 1);
      }
    }
  }

  /** The vote a span yields, if its cleaned text and its name list are non-empty. */
  function VoteOfSpan(t: VoteType, span: string): (v: Option<Vote>)
    ensures v.Some? ==> v.value.voteType == t
    ensures v.Some? ==> 1 <= |v.value.voters| <= 20
    ensures v.Some? ==> forall i :: 0 <= i < |v.value.voters| ==>
      v.value.voters[i] != [] && Normalized(v.value.voters[i])
  {
    var s := Clean(span);
    if s == [] then None
    else
      var names := CleanNames(SplitNames(s));
      CleanNamesClean(SplitNames(s));
      if names == [] then None
      else Some(Vote(t, names[..if |names| < 20 then |names| else 20]))
  }

  /** Each span's optional vote, in span order. */
  function SpanVotes(t: VoteType, spans: seq<string>): (os: seq<Option<Vote>>)
    ensures |os| == |spans|
  {
    if spans == [] then [] else [VoteOfSpan(t, spans[0])] + SpanVotes(t, spans[1..])
  }

  lemma {:induction false} SpanVoteAt(t: VoteType, spans: seq<string>, j: nat)
    requires j < |spans|
    ensures SpanVotes(t, spans)[j] == VoteOfSpan(t, spans[j])
    decreases j
  {
    if j > 0 {
      SpanVoteAt(t, spans[1..], j - 1);
    }
  }

  /** The votes of a list of spans, in span order. */
  function VotesOfSpans(t: VoteType, spans: seq<string>): seq<Vote>
  {
    Somes(SpanVotes(t, spans))
  }

  /** Everything `parse_votes(text)` returns. */
  function AllVotes(text: string): seq<Vote>
  {
    if text == [] then []
    else VotesOfSpans(Yea, Spans(text, Yea, 0)) + VotesOfSpans(Nay, Spans(text, Nay, 0))
  }

  /** `parse_votes`: the yea matches, then the nay matches, each appended when it yields names. */
  method ParseVotes(text: string) returns (votes: seq<Vote>)
    ensures votes == AllVotes(text)
  {
    votes := [];
    if text == [] {
      return;
    }
    var yeas := Spans(text, Yea, 0);
    var nays := Spans(text, Nay, 0);
    var yeaVotes := CollectVotes(Yea, yeas);
    var nayVotes := CollectVotes(Nay, nays);
    votes := yeaVotes + nayVotes;
  }

  /** The body of the span loop: the vote one span yields. */
  method SpanVote(t: VoteType, span: string) returns (v: Option<Vote>)
    ensures v == VoteOfSpan(t, span)
  {
    v := None;
    var spanText := Clean(span);
    if spanText != [] {
      var names := CleanNames(SplitNames(spanText));
      if names != [] {
        v := Some(Vote(t, names[..if |names| < 20 then |names| else 20]));
      }
    }
  }

  /** One of the two loops of `parse_votes`: a vote for each span that yields names, in order. */
  method CollectVotes(t: VoteType, spans: seq<string>) returns (votes: seq<Vote>)
    ensures votes == VotesOfSpans(t, spans)
  {
    votes := [];
    ghost var os := SpanVotes(t, spans);
    for j := 0 to |spans|
      invariant votes == Somes(os[..j])
    {
      SomesSnoc(os[..j], os[j]);
      assert os[..j + 1] == os[..j] + [os[j]];
      SpanVoteAt(t, spans, j);
      var v := SpanVote(t, spans[j]);
      if v.Some? {
        votes := votes + [v.value];
      }
    }
    assert os[..|spans|] == os;
  }

  // ---------------------------------------------------------------------
  // Properties
  // ---------------------------------------------------------------------

  /** Every vote of a span list has the list's type and 1 to 20 cleaned, non-empty names. */
  lemma VotesOfSpansWellFormed(t: VoteType, spans: seq<string>)
    ensures forall v :: v in VotesOfSpans(t, spans) ==>
      v.voteType == t && 1 <= |v.voters| <= 20 &&
      forall k :: 0 <= k < |v.voters| ==> v.voters[k] != [] && Normalized(v.voters[k])
  {
    var os := SpanVotes(t, spans);
    forall v | v in VotesOfSpans(t, spans)
      ensures v.voteType == t && 1 <= |v.voters| <= 20
      ensures forall k :: 0 <= k < |v.voters| ==> v.voters[k] != [] && Normalized(v.voters[k])
    {
      SomesMember(os, v);
      var j :| 0 <= j < |os| && os[j] == Some(v);
      SpanVoteAt(t, spans, j);
    }
  }

  /**
   * No text gives no votes; every vote is a yea or a nay with 1 to 20
   * cleaned, non-empty names; and every yea comes before every nay.
   */
  lemma VotesWellFormed(text: string)
    ensures text == [] ==> AllVotes(text) == []
    ensures forall v :: v in AllVotes(text) ==>
      1 <= |v.voters| <= 20 && forall k :: 0 <= k < |v.voters| ==> v.voters[k] != [] && Normalized(v.voters[k])
    ensures forall i, j :: 0 <= i < j < |AllVotes(text)| && AllVotes(text)[j].voteType == Yea ==>
      AllVotes(text)[i].voteType == Yea
  {
    if text != [] {
      var ys := VotesOfSpans(Yea, Spans(text, Yea, 0));
      var ns := VotesOfSpans(Nay, Spans(text, Nay, 0));
      VotesOfSpansWellFormed(Yea, Spans(text, Yea, 0));
      VotesOfSpansWellFormed(Nay, Spans(text, Nay, 0));
      YeasThenNays(ys, ns);
    }
  }

  lemma YeasThenNays(ys: seq<Vote>, ns: seq<Vote>)
    requires forall v :: v in ys ==> v.voteType == Yea
    requires forall v :: v in ns ==> v.voteType == Nay
    ensures forall i, j :: 0 <= i < j < |ys + ns| && (ys + ns)[j].voteType == Yea ==> (ys + ns)[i].voteType == Yea
  {
    forall i, j | 0 <= i < j < |ys + ns| && (ys + ns)[j].voteType == Yea
      ensures (ys + ns)[i].voteType == Yea
    {
      assert (ys + ns)[i] == ys[i];
      assert ys[i] in ys;
    }
  }

  /**
   * A span gives no vote exactly when its name list is empty; otherwise the
   * voters are the first 20 of its names (all of them when there are fewer).
   */
  lemma VoteOfSpanNames(t: VoteType, span: string)
    ensures VoteOfSpan(t, span).None? <==> CleanNames(SplitNames(Clean(span))) == []
    ensures VoteOfSpan(t, span).Some? ==>
      var names := CleanNames(SplitNames(Clean(span)));
      var voters := VoteOfSpan(t, span).value.voters;
      |voters| == (if |names| < 20 then |names| else 20) && voters == names[..|voters|]
  {
    if Clean(span) == [] {
      assert NextSep([], 0) == 0;
      assert SplitNames([]) == [[]];
      assert Clean([]) == [];
    }
  }

  /** No piece of `re.split(r',|and', s)` holds a comma or the substring `and`. */
  lemma {:induction false} SplitNamesSeparatorFree(s: string)
    ensures forall p :: p in SplitNames(s) ==> !Contains(p, ",") && !Contains(p, "and")
    decreases |s|
  {
    var j := NextSep(s, 0);
    PrefixSeparatorFree(s, j);
    if j < |s| {
      SplitNamesSeparatorFree(s[j + SepAt(s, j)..]);
    } else {
      assert s[..j] == s;
    }
  }

  lemma PrefixSeparatorFree(s: string, j: nat)
    requires j <= |s|
    requires forall i :: 0 <= i < j ==> SepAt(s, i) == 0
    ensures !Contains(s[..j], ",") && !Contains(s[..j], "and")
  {
    var p := s[..j];
    forall i | 0 <= i <= |p| - 1 ensures !OccursAt(p, i, ",") {
      assert SepAt(s, i) == 0;
      assert p[i] == s[i];
    }
    forall i | 0 <= i <= |p| - 3 ensures !OccursAt(p, i, "and") {
      assert SepAt(s, i) == 0;
      assert p[i..i + 3] == s[i..i + 3];
    }
  }

  /**
   * A label with nothing after it still matches: the regex backtracks and the
   * group is the label's last letter, so "YEAS" records a yea by "S".
   */
  lemma TrailingLabelVotesForLastLetter()
    ensures Spans("YEAS", Yea, 0) == ["S"]
    ensures Spans("YEAS", Nay, 0) == []
    ensures AllVotes("YEAS") == [Vote(Yea, ["S"])]
  {
    var text := "YEAS";
    assert Lower(text[0..3]) == "yea";
    assert AfterLabel(text, 0) == 4;
    assert !StartsWithCi(text, 0, "nay");
    assert !StartsWithCi(text, 1, "nay");
    assert Normalized("S");
    CleanOfNormalized("S");
    assert NextSep("S", 0) == 1;
    assert SplitNames("S") == ["S"];
    assert CleanNames(["S"]) == ["S"];
    assert SpanVotes(Yea, ["S"]) == [Some(Vote(Yea, ["S"]))];
  }
}
