/**
 * `parse_agenda_items`: enumerated agenda lines found by three regular
 * expressions, `^\s*(MARK)\.\s+(.+?)(?=^\s*MARK\.|$)` with MULTILINE and
 * DOTALL, for the decimal, capital-letter and roman-numeral markers.
 *
 * The regex engine is not modelled in general; `Scan` is what `finditer`
 * does with these three patterns. Because of MULTILINE the `$` alternative
 * of the lookahead already holds at the first line break after the item's
 * first character, so an item ends at the end of its line; the `\s+` after
 * the marker may cross line breaks, so a marker alone on its line takes the
 * next non-blank line as its text.
 */
module Agenda {
  import opened Text
  import opened Model

  datatype Family = Decimal | Letter | Roman

  /** The marker characters: `\d`, `[A-Z]`, `[IVX]`. */
  predicate InFamily(f: Family, c: char)
  {
    match f
    case Decimal => IsDigit(c)
    case Letter => IsUpper(c)
    case Roman => c == 'I' || c == 'V' || c == 'X'
  }

  /** A well-formed marker: `\d+`, a single `[A-Z]`, or `[IVX]+`. */
  ghost predicate IsMarker(f: Family, number: string)
  {
    && |number| >= 1
    && (f == Letter ==> |number| == 1)
    && forall k :: 0 <= k < |number| ==> InFamily(f, number[k])
  }

  /** One `finditer` match: group 1 (the marker) and group 2 (the raw item text). */
  datatype RawMatch = RawMatch(number: string, body: string)

  /** Where `^` matches under MULTILINE. */
  predicate LineStart(text: string, q: nat)
  {
    q == 0 || (0 < q <= |text| && text[q - 1] == '\n')
  }

  /** The end of the longest run of family characters starting at `d`. */
  function RunEnd(text: string, f: Family, d: nat): (e: nat)
    requires d <= |text|
    ensures d <= e <= |text|
    ensures forall k :: d <= k < e ==> InFamily(f, text[k])
    ensures e == |text| || !InFamily(f, text[e])
    decreases |text| - d
  {
    if d < |text| && InFamily(f, text[d]) then RunEnd(text, f, d + 1) else d
  }

  /** The end of the marker at `d` (`d` itself when there is none). */
  function MarkerEnd(text: string, f: Family, d: nat): (e: nat)
    requires d <= |text|
    ensures d <= e <= |text|
    ensures e > d ==> IsMarker(f, text[d..e])
  {
    if f == Letter then (if d < |text| && IsUpper(text[d]) then d + 1 else d)
    else RunEnd(text, f, d)
  }

  /** The first index at or after `i` holding a line break, or the end: where MULTILINE `$` first holds. */
  function LineEnd(text: string, i: nat): (p: nat)
    requires i <= |text|
    ensures i <= p <= |text|
    ensures p == |text| || text[p] == '\n'
    ensures forall k :: i <= k < p ==> text[k] != '\n'
    decreases |text| - i
  {
    if i < |text| && text[i] != '\n' then LineEnd(text, i + 1) else i
  }

  /**
   * The matches `re.finditer` reports for family `f` when scanning from `pos`.
   * A line start whose first non-blank characters are a marker, a dot and at
   * least one whitespace character starts a match; its text runs from the
   * next non-whitespace character to the end of that character's line. When
   * only whitespace follows the dot, the regex can match only by giving the
   * last whitespace character to the lazy group, which needs two of them.
   */
  function Scan(text: string, f: Family, pos: nat): (ms: seq<RawMatch>)
    requires pos <= |text|
    ensures forall i :: 0 <= i < |ms| ==> IsMarker(f, ms[i].number)
    ensures forall i :: 0 <= i < |ms| ==>
      (|ms[i].body| == 1 && IsSpace(ms[i].body[0])) ||
      (ms[i].body != [] && !IsSpace(ms[i].body[0]) && forall k :: 0 <= k < |ms[i].body| ==> ms[i].body[k] != '\n')
    decreases |text| - pos
  {
    if pos == |text| then []
    else if !LineStart(text, pos) then Scan(text, f, pos + 1)
    else
      var d := SkipSpace(text, pos);
      var e := MarkerEnd(text, f, d);
      if e == d || e == |text| || text[e] != '.' then Scan(text, f, pos + 1)
      else
        var g := SkipSpace(text, e + 1);
        if g == e + 1 then Scan(text, f, pos + 1)
        else if g == |text| then
          (if g - (e + 1) >= 2 then [RawMatch(text[d..e], text[g - 1..g])] else [])
        else
          var p := LineEnd(text, g + 1);
          [RawMatch(text[d..e], text[g..p])] + Scan(text, f, p)
  }

  function Min(a: int, b: int): int { if a <= b then a else b }

  /** Each match paired with `clean(match.group(2))`, its candidate item text. */
  function Candidates(ms: seq<RawMatch>): (cs: seq<AgendaItem>)
    ensures |cs| == |ms|
  {
    if ms == [] then [] else [AgendaItem(ms[0].number, Clean(ms[0].body))] + Candidates(ms[1..])
  }

  lemma {:induction false} CandidateAt(ms: seq<RawMatch>, j: nat)
    requires j < |ms|
    ensures Candidates(ms)[j] == AgendaItem(ms[j].number, Clean(ms[j].body))
    decreases j
  {
    if j > 0 {
      CandidateAt(ms[1..], j - 1);
      assert ms[1..][j - 1] == ms[j];
      assert Candidates(ms) == [AgendaItem(ms[0].number, Clean(ms[0].body))] + Candidates(ms[1..]);
    }
  }

  /** The `if item_text and len(item_text) > 10` filter. */
  predicate Kept(c: AgendaItem)
  {
    |c.text| > 10
  }

  /** The kept item for a candidate: its text cut to 500 characters. */
  function ItemOf(c: AgendaItem): (it: AgendaItem)
    ensures it.number == c.number && |it.text| <= |c.text| && it.text == c.text[..|it.text|]
    ensures |it.text| == Min(500, |c.text|)
  {
    AgendaItem(c.number, c.text[..Min(500, |c.text|)])
  }

  /** The items the candidates of one pattern contribute, in match order. */
  function KeepItems(cs: seq<AgendaItem>): (r: seq<AgendaItem>)
    ensures |r| <= |cs|
    ensures forall i :: 0 <= i < |r| ==> 10 < |r[i].text| <= 500
  {
    if cs == [] then []
    else if Kept(cs[0]) then [ItemOf(cs[0])] + KeepItems(cs[1..])
    else KeepItems(cs[1..])
  }

  /** The items of one pattern's matches. */
  function FamilyItems(text: string, f: Family): seq<AgendaItem>
  {
    KeepItems(Candidates(Scan(text, f, 0)))
  }

  /** The three families in the order the source applies them. */
  const Families: seq<Family> := [Decimal, Letter, Roman]

  /** The items of the first `k` patterns. */
  function ItemsUpTo(text: string, k: nat): seq<AgendaItem>
    requires k <= |Families|
  {
    if k == 0 then [] else ItemsUpTo(text, k - 1) + FamilyItems(text, Families[k - 1])
  }

  /** Everything `parse_agenda_items(text)` returns. */
  function AgendaItems(text: string): seq<AgendaItem>
  {
    if text == [] then [] else ItemsUpTo(text, |Families|)
  }

  /** `parse_agenda_items`: one pass per pattern, appending each kept match. */
  method ParseAgendaItems(text: string) returns (items: seq<AgendaItem>)
    ensures items == AgendaItems(text)
  {
    items := [];
    if text == [] {
      return;
    }
    for k := 0 to |Families|
      invariant items == ItemsUpTo(text, k)
    {
      var found := PatternPass(text, Families[k]);
      items := items + found;
      ItemsUpToStep(text, k);
    }
  }

  /** The inner loop of `parse_agenda_items` for one pattern: its kept matches in order. */
  method PatternPass(text: string, f: Family) returns (found: seq<AgendaItem>)
    ensures found == FamilyItems(text, f)
  {
    found := [];
    var matches := Scan(text, f, 0);
    ghost var cs := Candidates(matches);
    for j := 0 to |matches|
      invariant found == KeepItems(cs[..j])
    {
      KeepItemsSnoc(cs[..j], cs[j]);
      assert cs[..j + 1] == cs[..j] + [cs[j]];
      CandidateAt(matches, j);
      var itemText := Clean(matches[j].body);
      if itemText != [] && |itemText| > 10 {
        found := found + [AgendaItem(matches[j].number, itemText[..Min(500, |itemText|)])];
      }
    }
    assert cs[..|matches|] == cs;
  }

  lemma ItemsUpToStep(text: string, k: nat)
    requires k < |Families|
    ensures ItemsUpTo(text, k + 1) == ItemsUpTo(text, k) + FamilyItems(text, Families[k])
  {
  }

  lemma {:induction false} KeepItemsAppend(a: seq<AgendaItem>, b: seq<AgendaItem>)
    ensures KeepItems(a + b) == KeepItems(a) + KeepItems(b)
    decreases |a|
  {
    if a == [] {
      assert a + b == b;
    } else {
      assert (a + b)[0] == a[0];
      assert (a + b)[1..] == a[1..] + b;
      KeepItemsAppend(a[1..], b);
    }
  }

  lemma KeepItemsSnoc(a: seq<AgendaItem>, c: AgendaItem)
    ensures KeepItems(a + [c]) == KeepItems(a) + (if Kept(c) then [ItemOf(c)] else [])
  {
    KeepItemsAppend(a, [c]);
    assert [c][1..] == [];
  }

  // ---------------------------------------------------------------------
  // Properties
  // ---------------------------------------------------------------------

  /** Every item has more than 10 and at most 500 characters; an empty text has none. */
  lemma ItemsBounded(text: string)
    ensures text == [] ==> AgendaItems(text) == []
    ensures forall i :: 0 <= i < |AgendaItems(text)| ==> 10 < |AgendaItems(text)[i].text| <= 500
  {
    if text != [] {
      ItemsUpToBounded(text, |Families|);
    }
  }

  lemma BoundedAppend(a: seq<AgendaItem>, b: seq<AgendaItem>)
    requires forall i :: 0 <= i < |a| ==> 10 < |a[i].text| <= 500
    requires forall i :: 0 <= i < |b| ==> 10 < |b[i].text| <= 500
    ensures forall i :: 0 <= i < |a + b| ==> 10 < |(a + b)[i].text| <= 500
  {
  }

  lemma {:induction false} ItemsUpToBounded(text: string, k: nat)
    requires k <= |Families|
    ensures forall i :: 0 <= i < |ItemsUpTo(text, k)| ==> 10 < |ItemsUpTo(text, k)[i].text| <= 500
  {
    if k > 0 {
      ItemsUpToBounded(text, k - 1);
      BoundedAppend(ItemsUpTo(text, k - 1), FamilyItems(text, Families[k - 1]));
    }
  }

  /**
   * Each kept item is a candidate with more than 10 characters, cut to its
   * first 500; dropped candidates have at most 10. Kept items keep match order.
   */
  lemma {:induction false} KeepItemsSpec(cs: seq<AgendaItem>)
    ensures KeepItems(cs) == [] <==> forall i :: 0 <= i < |cs| ==> |cs[i].text| <= 10
    ensures forall it :: it in KeepItems(cs) ==>
      exists i :: 0 <= i < |cs| && |cs[i].text| > 10 && it == ItemOf(cs[i])
    decreases |cs|
  {
    if cs != [] {
      KeepItemsSpec(cs[1..]);
      forall it | it in KeepItems(cs)
        ensures exists i :: 0 <= i < |cs| && |cs[i].text| > 10 && it == ItemOf(cs[i])
      {
        if Kept(cs[0]) && it == ItemOf(cs[0]) {
        } else {
          var i :| 0 <= i < |cs[1..]| && |cs[1..][i].text| > 10 && it == ItemOf(cs[1..][i]);
          assert cs[i + 1] == cs[1..][i];
        }
      }
      if KeepItems(cs) == [] {
        forall i | 0 <= i < |cs| ensures |cs[i].text| <= 10 {
          if i > 0 { assert cs[i] == cs[1..][i - 1]; }
        }
      }
    }
  }

  /**
   * The decimal items come first, then the letter items, then the roman ones,
   * each group in text order; the groups are the kept matches of the three
   * passes, neither merged nor deduplicated.
   */
  lemma FamiliesInOrder(text: string)
    requires text != []
    ensures AgendaItems(text) == FamilyItems(text, Decimal) + FamilyItems(text, Letter) + FamilyItems(text, Roman)
  {
    assert ItemsUpTo(text, 1) == FamilyItems(text, Decimal);
    assert ItemsUpTo(text, 2) == ItemsUpTo(text, 1) + FamilyItems(text, Letter);
  }

  lemma {:induction false} KeepItemsMarkers(cs: seq<AgendaItem>, f: Family)
    requires forall i :: 0 <= i < |cs| ==> IsMarker(f, cs[i].number)
    ensures forall i :: 0 <= i < |KeepItems(cs)| ==> IsMarker(f, KeepItems(cs)[i].number)
    decreases |cs|
  {
    if cs != [] {
      KeepItemsMarkers(cs[1..], f);
    }
  }

  /** Every item of a family's pass carries a well-formed marker of that family. */
  lemma FamilyItemsMarkers(text: string, f: Family)
    ensures forall i :: 0 <= i < |FamilyItems(text, f)| ==> IsMarker(f, FamilyItems(text, f)[i].number)
  {
    var ms := Scan(text, f, 0);
    var cs := Candidates(ms);
    forall i | 0 <= i < |cs| ensures IsMarker(f, cs[i].number) {
      CandidateAt(ms, i);
    }
    KeepItemsMarkers(cs, f);
  }

  /** Past the first line start there is no match in a text without line breaks. */
  lemma {:induction false} NoMatchPastSingleLine(text: string, f: Family, pos: nat)
    requires 0 < pos <= |text|
    requires forall k :: 0 <= k < |text| ==> text[k] != '\n'
    ensures Scan(text, f, pos) == []
    decreases |text| - pos
  {
    if pos < |text| {
      NoMatchPastSingleLine(text, f, pos + 1);
    }
  }

  /**
   * A text without line breaks gives each family at most one item: the
   * markers after the first are not at a line start, so "1. A. 2. B." on one
   * line is a single decimal item holding the whole line.
   */
  lemma {:induction false} SingleLineOneItemPerFamily(text: string, f: Family)
    requires forall k :: 0 <= k < |text| ==> text[k] != '\n'
    ensures |FamilyItems(text, f)| <= 1
  {
    SingleLineOneMatch(text, f);
  }

  lemma {:induction false} SingleLineOneMatch(text: string, f: Family)
    requires forall k :: 0 <= k < |text| ==> text[k] != '\n'
    ensures |Scan(text, f, 0)| <= 1
  {
    if text != [] {
      var d := SkipSpace(text, 0);
      var e := MarkerEnd(text, f, d);
      if e == d || e == |text| || text[e] != '.' {
        NoMatchPastSingleLine(text, f, 1);
      } else {
        var g := SkipSpace(text, e + 1);
        if g == e + 1 {
          NoMatchPastSingleLine(text, f, 1);
        } else if g < |text| {
          var p := LineEnd(text, g + 1);
          assert p == |text|;
        }
      }
    }
  }

  /** `SkipSpace` is pinned down by its contract. */
  lemma SkipSpaceIs(text: string, i: nat, j: nat)
    requires i <= j <= |text|
    requires forall k :: i <= k < j ==> IsSpace(text[k])
    requires j == |text| || !IsSpace(text[j])
    ensures SkipSpace(text, i) == j
  {
  }

  /** `LineEnd` is pinned down by its contract. */
  lemma LineEndIs(text: string, i: nat, p: nat)
    requires i <= p <= |text|
    requires forall k :: i <= k < p ==> text[k] != '\n'
    requires p == |text| || text[p] == '\n'
    ensures LineEnd(text, i) == p
  {
  }

  /** On one line `I. rest`, the letter and the roman patterns each match once, with `rest` as the text. */
  lemma {:induction false} LineIScan(rest: string, f: Family)
    requires f != Decimal
    requires rest != [] && !IsSpace(rest[0])
    requires forall k :: 0 <= k < |rest| ==> rest[k] != '\n'
    ensures Scan("I. " + rest, f, 0) == [RawMatch("I", rest)]
  {
    var text := "I. " + rest;
    assert text[0] == 'I' && text[1] == '.' && text[2] == ' ' && text[3] == rest[0];
    SkipSpaceIs(text, 0, 0);
    assert MarkerEnd(text, f, 0) == 1 by {
      if f == Roman {
        assert RunEnd(text, f, 1) == 1;
      }
    }
    SkipSpaceIs(text, 2, 3);
    forall k | 4 <= k < |text|
      ensures text[k] != '\n'
    {
      assert text[k] == rest[k - 3];
    }
    LineEndIs(text, 4, |text|);
    assert text[0..1] == "I";
    assert text[3..|text|] == rest;
  }

  /** On one line `I. rest`, the decimal pattern finds nothing. */
  lemma {:induction false} LineIScanDecimal(rest: string)
    requires forall k :: 0 <= k < |rest| ==> rest[k] != '\n'
    ensures Scan("I. " + rest, Decimal, 0) == []
  {
    var text := "I. " + rest;
    assert text[0] == 'I';
    SkipSpaceIs(text, 0, 0);
    assert MarkerEnd(text, Decimal, 0) == 0;
    forall k | 0 <= k < |text|
      ensures text[k] != '\n'
    {
      if k >= 3 {
        assert text[k] == rest[k - 3];
      }
    }
    NoMatchPastSingleLine(text, Decimal, 1);
  }

  /** The letter or roman pass over one line `I. rest`: the candidate `I` with the cleaned rest, when kept. */
  lemma LineIFamily(rest: string, f: Family)
    requires f != Decimal
    requires rest != [] && !IsSpace(rest[0])
    requires forall k :: 0 <= k < |rest| ==> rest[k] != '\n'
    ensures var c := AgendaItem("I", Clean(rest));
      FamilyItems("I. " + rest, f) == if Kept(c) then [ItemOf(c)] else []
  {
    LineIScan(rest, f);
    CandidateAt([RawMatch("I", rest)], 0);
  }

  /**
   * A line marked `I.` is both a letter item and a roman item: the passes do
   * not deduplicate, so a kept line is reported twice.
   */
  lemma RomanOneIsAlsoLetterI(rest: string)
    requires rest != [] && !IsSpace(rest[0])
    requires forall k :: 0 <= k < |rest| ==> rest[k] != '\n'
    ensures var c := AgendaItem("I", Clean(rest));
      AgendaItems("I. " + rest) == if Kept(c) then [ItemOf(c), ItemOf(c)] else []
  {
    var text := "I. " + rest;
    LineIScanDecimal(rest);
    assert FamilyItems(text, Decimal) == [];
    LineIFamily(rest, Letter);
    LineIFamily(rest, Roman);
    FamiliesInOrder(text);
  }
}
