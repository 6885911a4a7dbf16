/**
 * Character classes and string helpers shared by both scrapers and the
 * renderers: Python's whitespace class, `clean`, ASCII case mapping,
 * substring search, `", ".join` and `str.split()` word counting.
 */
module Text {
  import opened Wrappers

  /** The characters Python's `str.strip()` and the regex class `\s` treat as whitespace. */
  predicate IsSpace(c: char)
  {
    || c == ' ' || c == '\t' || c == '\n' || c == '\r' || c == '\U{0B}' || c == '\U{0C}'
    || ('\U{1C}' <= c <= '\U{1F}') || c == '\U{85}' || c == '\U{A0}' || c == '\U{1680}'
    || ('\U{2000}' <= c <= '\U{200A}') || c == '\U{2028}' || c == '\U{2029}'
    || c == '\U{202F}' || c == '\U{205F}' || c == '\U{3000}'
  }

  /** The first index at or after `i` that is not whitespace, or the end of the text. */
  function SkipSpace(text: string, i: nat): (j: nat)
    requires i <= |text|
    ensures i <= j <= |text|
    ensures forall k :: i <= k < j ==> IsSpace(text[k])
    ensures j == |text| || !IsSpace(text[j])
    decreases |text| - i
  {
    if i < |text| && IsSpace(text[i]) then SkipSpace(text, i + 1) else i
  }

  predicate IsDigit(c: char) { '0' <= c <= '9' }

  predicate IsUpper(c: char) { 'A' <= c <= 'Z' }

  function LowerChar(c: char): char
  {
    if IsUpper(c) then (c as int + 32) as char else c
  }

  function UpperChar(c: char): char
  {
    if 'a' <= c <= 'z' then (c as int - 32) as char else c
  }

  /** `s.lower()` on the ASCII letters. */
  function Lower(s: string): (r: string)
    ensures |r| == |s|
    ensures forall i :: 0 <= i < |s| ==> r[i] == LowerChar(s[i])
  {
    seq(|s|, i requires 0 <= i < |s| => LowerChar(s[i]))
  }

  /** `s.upper()` on the ASCII letters. */
  function Upper(s: string): (r: string)
    ensures |r| == |s|
    ensures forall i :: 0 <= i < |s| ==> r[i] == UpperChar(s[i])
  {
    seq(|s|, i requires 0 <= i < |s| => UpperChar(s[i]))
  }

  // ---------------------------------------------------------------------
  // strip() and clean()
  // ---------------------------------------------------------------------

  /** `s.lstrip()`: the suffix left after the longest whitespace prefix. */
  function TrimStart(s: string): (r: string)
    ensures |r| <= |s| && r == s[|s| - |r|..]
    ensures r == [] || !IsSpace(r[0])
    ensures forall i :: 0 <= i < |s| - |r| ==> IsSpace(s[i])
  {
    if s != [] && IsSpace(s[0]) then TrimStart(s[1..]) else s
  }

  /** `s.rstrip()`: the prefix left after the longest whitespace suffix. */
  function TrimEnd(s: string): (r: string)
    ensures |r| <= |s| && r == s[..|r|]
    ensures r == [] || !IsSpace(r[|r| - 1])
    ensures forall i :: |r| <= i < |s| ==> IsSpace(s[i])
  {
    if s != [] && IsSpace(s[|s| - 1]) then TrimEnd(s[..|s| - 1]) else s
  }

  /** `s.strip()` */
  function Strip(s: string): (r: string)
    ensures r == [] || (!IsSpace(r[0]) && !IsSpace(r[|r| - 1]))
    ensures r == [] <==> forall i :: 0 <= i < |s| ==> IsSpace(s[i])
  {
    TrimEnd(TrimStart(s))
  }

  /** The only whitespace character in `s` is the plain space. */
  ghost predicate OnlyPlainSpaces(s: string)
  {
    forall i :: 0 <= i < |s| && IsSpace(s[i]) ==> s[i] == ' '
  }

  /** No two whitespace characters stand next to each other in `s`. */
  ghost predicate NoSpaceRun(s: string)
  {
    forall i, j :: 0 <= i < j < |s| && j == i + 1 ==> !(IsSpace(s[i]) && IsSpace(s[j]))
  }

  /** What `clean` promises: no whitespace at either end, no run, only plain spaces. */
  ghost predicate Normalized(s: string)
  {
    && (s == [] || (!IsSpace(s[0]) && !IsSpace(s[|s| - 1])))
    && OnlyPlainSpaces(s)
    && NoSpaceRun(s)
  }

  /** `re.sub(r"\s+", " ", s)`: every maximal whitespace run becomes one space. */
  function Collapse(s: string): (r: string)
    ensures OnlyPlainSpaces(r) && NoSpaceRun(r)
    ensures r == [] <==> s == []
    ensures s != [] ==> (IsSpace(r[0]) <==> IsSpace(s[0]))
    ensures s != [] ==> (IsSpace(r[|r| - 1]) <==> IsSpace(s[|s| - 1]))
    decreases |s|
  {
    if s == [] then []
    else if IsSpace(s[0]) then
      var t := TrimStart(s);
      assert t != s;
      var r := Collapse(t);
      ConsCollapsed(' ', r);
      [' '] + r
    else
      var r := Collapse(s[1..]);
      ConsCollapsed(s[0], r);
      [s[0]] + r
  }

  /** Putting a character before a collapsed string keeps it collapsed, unless it starts a run. */
  lemma ConsCollapsed(c: char, r: string)
    requires OnlyPlainSpaces(r) && NoSpaceRun(r)
    requires IsSpace(c) ==> c == ' ' && (r == [] || !IsSpace(r[0]))
    ensures OnlyPlainSpaces([c] + r) && NoSpaceRun([c] + r)
  {
    var s := [c] + r;
    assert forall i :: 1 <= i < |s| ==> s[i] == r[i - 1];
  }

  /** `clean(t)`: strip, then collapse every whitespace run to one space. */
  function Clean(s: string): (r: string)
    ensures Normalized(r)
    ensures r == [] <==> forall i :: 0 <= i < |s| ==> IsSpace(s[i])
    ensures |r| <= |s|
  {
    CollapseLength(Strip(s));
    Collapse(Strip(s))
  }

  lemma {:induction false} CollapseLength(s: string)
    ensures |Collapse(s)| <= |s|
    decreases |s|
  {
    if s == [] {
    } else if IsSpace(s[0]) {
      var t := TrimStart(s);
      assert t != s;
      CollapseLength(t);
    } else {
      CollapseLength(s[1..]);
    }
  }

  /** A string without runs and with only plain spaces is left alone by the collapse. */
  lemma {:induction false} CollapseOfCollapsed(s: string)
    requires OnlyPlainSpaces(s) && NoSpaceRun(s)
    ensures Collapse(s) == s
    decreases |s|
  {
    if s != [] {
      var tail := s[1..];
      assert OnlyPlainSpaces(tail) && NoSpaceRun(tail) by {
        assert forall i :: 0 <= i < |tail| ==> tail[i] == s[i + 1];
      }
      CollapseOfCollapsed(tail);
      if IsSpace(s[0]) {
        assert tail == [] || !IsSpace(tail[0]) by {
          if tail != [] { assert tail[0] == s[1]; }
        }
        assert TrimStart(tail) == tail;
        assert TrimStart(s) == tail;
      }
      assert s == [s[0]] + tail;
    }
  }

  /** `clean` leaves a normalized string unchanged. */
  lemma CleanOfNormalized(s: string)
    requires Normalized(s)
    ensures Clean(s) == s
  {
    assert TrimStart(s) == s;
    assert TrimEnd(s) == s;
    CollapseOfCollapsed(s);
  }

  /** `clean(clean(t)) == clean(t)` */
  lemma CleanIdempotent(s: string)
    ensures Clean(Clean(s)) == Clean(s)
  {
    CleanOfNormalized(Clean(s));
  }

  // ---------------------------------------------------------------------
  // Substrings
  // ---------------------------------------------------------------------

  /** `pat` occurs in `s` starting at index `i`. */
  predicate OccursAt(s: string, i: nat, pat: string)
  {
    i + |pat| <= |s| && s[i..i + |pat|] == pat
  }

  /** `pat in s` */
  predicate Contains(s: string, pat: string)
  {
    exists i :: 0 <= i <= |s| - |pat| && OccursAt(s, i, pat)
  }

  /** Searches for `pat` from index `i` on; the result is the first occurrence, if any. */
  function IndexFrom(s: string, pat: string, i: nat): (r: int)
    requires i <= |s|
    ensures r == -1 || (i <= r <= |s| - |pat| && OccursAt(s, r, pat))
    ensures r == -1 ==> forall k :: i <= k <= |s| - |pat| ==> !OccursAt(s, k, pat)
    ensures r != -1 ==> forall k :: i <= k < r ==> !OccursAt(s, k, pat)
    decreases |s| - i
  {
    if i + |pat| > |s| then -1
    else if OccursAt(s, i, pat) then i
    else if i == |s| then -1
    else IndexFrom(s, pat, i + 1)
  }

  /** `pat in s`, decided by a left-to-right search. */
  function Find(s: string, pat: string): (b: bool)
    ensures b <==> Contains(s, pat)
  {
    IndexFrom(s, pat, 0) != -1
  }

  /** `sep.join(parts)` */
  function Join(parts: seq<string>, sep: string): (r: string)
    ensures parts == [] ==> r == []
    ensures |parts| == 1 ==> r == parts[0]
  {
    if parts == [] then []
    else if |parts| == 1 then parts[0]
    else parts[0] + sep + Join(parts[1..], sep)
  }

  /** Joining a part in front of further parts. */
  lemma JoinCons(p: string, parts: seq<string>, sep: string)
    ensures Join([p] + parts, sep) == if parts == [] then p else p + sep + Join(parts, sep)
  {
    if parts != [] {
      assert ([p] + parts)[1..] == parts;
    }
  }

  /**
   * `pieces[0] + seps[0] + pieces[1] + ... + seps[n - 1] + pieces[n]`: the
   * text that a split into `pieces` at the separators `seps` came from.
   */
  function Interleave(pieces: seq<string>, seps: seq<string>): string
    requires |pieces| == |seps| + 1
    decreases |seps|
  {
    if seps == [] then pieces[0] else pieces[0] + seps[0] + Interleave(pieces[1..], seps[1..])
  }

  /** One more piece and separator in front. */
  lemma InterleaveCons(p: string, pieces: seq<string>, q: string, seps: seq<string>)
    requires |pieces| == |seps| + 1
    ensures Interleave([p] + pieces, [q] + seps) == p + q + Interleave(pieces, seps)
  {
    assert ([p] + pieces)[1..] == pieces && ([q] + seps)[1..] == seps;
  }

  /** A text is its three slices at `j <= k` put back together. */
  lemma ThreeSlices(s: string, j: nat, k: nat)
    requires j <= k <= |s|
    ensures s == s[..j] + s[j..k] + s[k..]
  {
  }

  /** Text in front of the first piece stays in front of the whole. */
  lemma InterleaveHead(x: string, pieces: seq<string>, seps: seq<string>)
    requires |pieces| == |seps| + 1
    ensures Interleave([x + pieces[0]] + pieces[1..], seps) == x + Interleave(pieces, seps)
  {
    var moved := [x + pieces[0]] + pieces[1..];
    assert moved[0] == x + pieces[0] && moved[1..] == pieces[1..];
    if seps != [] {
      Regroup4(x, pieces[0], seps[0], Interleave(pieces[1..], seps[1..]));
    }
  }

  lemma Regroup4(x: string, p: string, q: string, t: string)
    ensures (x + p) + q + t == x + (p + q + t)
  {
  }

  /** `clean(p)` when it is not blank: what `[clean(p) for p in ps if clean(p)]` keeps of `p`. */
  function NonBlankClean(p: string): (o: Option<string>)
    ensures o.Some? <==> exists i :: 0 <= i < |p| && !IsSpace(p[i])
    ensures o.Some? ==> o.value == Clean(p)
  {
    var c := Clean(p);
    if c != [] then Some(c) else None
  }

  /** `[clean(p) for p in ps if clean(p)]`, written as a filter over a map. */
  function CleanedNonBlank(ps: seq<string>): seq<string>
  {
    Somes(Mapped(ps, NonBlankClean))
  }

  /** `len(s.split())`: the number of maximal runs of non-whitespace characters. */
  function WordCount(s: string): (n: nat)
    ensures n <= |s|
    ensures n == 0 <==> forall i :: 0 <= i < |s| ==> IsSpace(s[i])
    decreases |s|
  {
    var t := TrimStart(s);
    if t == [] then 0
    else 1 + WordCount(SkipWord(t))
  }

  /** Drops the leading non-whitespace run. */
  function SkipWord(s: string): (r: string)
    ensures |r| <= |s| && r == s[|s| - |r|..]
    ensures s != [] && !IsSpace(s[0]) ==> |r| < |s|
    ensures r == [] || IsSpace(r[0])
    ensures forall i :: 0 <= i < |s| - |r| ==> !IsSpace(s[i])
  {
    if s != [] && !IsSpace(s[0]) then SkipWord(s[1..]) else s
  }

  // ---------------------------------------------------------------------
  // split(): the words of a text
  // ---------------------------------------------------------------------

  /** The leading non-whitespace run, the part `SkipWord` drops. */
  function FirstWord(s: string): (w: string)
    ensures s == w + SkipWord(s)
    ensures forall i :: 0 <= i < |w| ==> !IsSpace(w[i])
    ensures s != [] && !IsSpace(s[0]) ==> w != []
  {
    if s != [] && !IsSpace(s[0]) then [s[0]] + FirstWord(s[1..]) else []
  }

  /** `s.split()`: the maximal runs of non-whitespace characters, in order. */
  function Words(s: string): (words: seq<string>)
    ensures words == [] <==> TrimStart(s) == []
    decreases |s|
  {
    var t := TrimStart(s);
    if t == [] then []
    else
      var rest := Words(SkipWord(t));
      [FirstWord(t)] + rest
  }

  /** The words of a text that has one: its first word, then the words after it. */
  lemma WordsUnfold(s: string)
    requires TrimStart(s) != []
    ensures Words(s) == [FirstWord(TrimStart(s))] + Words(SkipWord(TrimStart(s)))
  {
  }

  /** The characters of `s` that are not whitespace, in order. */
  function NonSpace(s: string): (r: string)
    ensures |r| <= |s|
    ensures forall i :: 0 <= i < |r| ==> !IsSpace(r[i])
  {
    if s == [] then []
    else
      var rest := NonSpace(s[1..]);
      if IsSpace(s[0]) then rest else [s[0]] + rest
  }

  /** `"".join(words)` */
  function Concat(words: seq<string>): (r: string)
  {
    if words == [] then [] else words[0] + Concat(words[1..])
  }

  lemma {:induction false} NonSpaceAppend(a: string, b: string)
    ensures NonSpace(a + b) == NonSpace(a) + NonSpace(b)
    decreases |a|
  {
    if a == [] {
      assert a + b == b;
    } else {
      assert (a + b)[0] == a[0] && (a + b)[1..] == a[1..] + b;
      NonSpaceAppend(a[1..], b);
    }
  }

  lemma {:induction false} NonSpaceOfSpaces(s: string)
    requires forall i :: 0 <= i < |s| ==> IsSpace(s[i])
    ensures NonSpace(s) == []
    decreases |s|
  {
    if s != [] {
      NonSpaceOfSpaces(s[1..]);
    }
  }

  lemma {:induction false} NonSpaceOfRun(s: string)
    requires forall i :: 0 <= i < |s| ==> !IsSpace(s[i])
    ensures NonSpace(s) == s
    decreases |s|
  {
    if s != [] {
      NonSpaceOfRun(s[1..]);
      assert s == [s[0]] + s[1..];
    }
  }

  /** The words hold every non-whitespace character of the text, in order, and nothing else. */
  lemma {:induction false} WordsConcat(s: string)
    ensures Concat(Words(s)) == NonSpace(s)
    decreases |s|
  {
    var t := TrimStart(s);
    var lead := s[..|s| - |t|];
    assert s == lead + t;
    NonSpaceAppend(lead, t);
    NonSpaceOfSpaces(lead);
    if t != [] {
      var w := FirstWord(t);
      var u := SkipWord(t);
      NonSpaceAppend(w, u);
      NonSpaceOfRun(w);
      WordsConcat(u);
      assert Words(s) == [w] + Words(u);
      assert Concat(Words(s)) == w + Concat(Words(u));
    }
  }

  /** `len(s.split())` counts the words. */
  lemma {:induction false} WordCountWords(s: string)
    ensures WordCount(s) == |Words(s)|
    decreases |s|
  {
    var t := TrimStart(s);
    if t != [] {
      WordCountWords(SkipWord(t));
    }
  }

  /** The space `re.sub(r"\s+", " ", s)` leaves at the front: one when `s` starts with whitespace. */
  function Lead(s: string): string
  {
    if s != [] && IsSpace(s[0]) then " " else ""
  }

  /** The space left at the back: one when `s` has a word and ends with whitespace. */
  function Trail(s: string): string
  {
    if TrimStart(s) != [] && IsSpace(s[|s| - 1]) then " " else ""
  }

  lemma ConcatAssoc(a: string, b: string, c: string)
    ensures a + (b + c) == (a + b) + c
  {
  }

  /** Collapsing a text that starts with a word keeps the word and collapses the rest. */
  lemma {:induction false} CollapseFirstWord(t: string)
    requires t != [] && !IsSpace(t[0])
    ensures Collapse(t) == FirstWord(t) + Collapse(SkipWord(t))
    decreases |t|
  {
    var tail := t[1..];
    assert Collapse(t) == [t[0]] + Collapse(tail);
    assert SkipWord(t) == SkipWord(tail);
    assert FirstWord(t) == [t[0]] + FirstWord(tail);
    if tail != [] && !IsSpace(tail[0]) {
      CollapseFirstWord(tail);
      ConcatAssoc([t[0]], FirstWord(tail), Collapse(SkipWord(tail)));
    } else {
      assert SkipWord(tail) == tail && FirstWord(tail) == [];
      assert FirstWord(t) == [t[0]];
    }
  }

  /**
   * `re.sub(r"\s+", " ", s)` is the words joined by single spaces, with one
   * space kept where `s` starts or ends with whitespace.
   */
  lemma {:induction false} CollapseWords(s: string)
    ensures Collapse(s) == Lead(s) + Join(Words(s), " ") + Trail(s)
    decreases |s|
  {
    var t := TrimStart(s);
    CollapseLead(s);
    if t != [] {
      var u := SkipWord(t);
      CollapseWords(u);
      CollapseWordsStep(s);
    }
  }

  /** The step of `CollapseWords` past the first word. */
  lemma CollapseWordsStep(s: string)
    requires TrimStart(s) != []
    requires var u := SkipWord(TrimStart(s)); Collapse(u) == Lead(u) + Join(Words(u), " ") + Trail(u)
    ensures Collapse(s) == Lead(s) + Join(Words(s), " ") + Trail(s)
  {
    var t := TrimStart(s);
    var w := FirstWord(t);
    var u := SkipWord(t);
    CollapseLead(s);
    CollapseFirstWord(t);
    WordsUnfold(s);
    TrailStep(s);
    JoinCons(w, Words(u), " ");
    if Words(u) == [] {
      CollapseOfSpaces(u);
      Regroup2(Lead(s), w, Collapse(u));
    } else {
      Regroup3(Lead(s), w, Join(Words(u), " "), Trail(s));
    }
  }

  /** How the trailing space of a text relates to the trailing space after its first word. */
  lemma TrailStep(s: string)
    requires TrimStart(s) != []
    ensures var u := SkipWord(TrimStart(s));
      && (TrimStart(u) == [] ==> Trail(s) == if u == [] then "" else " ")
      && (TrimStart(u) != [] ==> Trail(s) == Trail(u) && Lead(u) == " ")
  {
    var t := TrimStart(s);
    var u := SkipWord(t);
    LastOfTrimStart(s);
    if u == [] {
      LastOfFirstWord(t);
    } else {
      LastOfSkipWord(t);
      var last := s[|s| - 1];
      assert u[|u| - 1] == last;
      assert Trail(s) == (if IsSpace(last) then " " else "");
      assert TrimStart(u) != [] ==> Trail(u) == (if IsSpace(last) then " " else "");
    }
  }

  lemma LastOfTrimStart(s: string)
    requires TrimStart(s) != []
    ensures s[|s| - 1] == TrimStart(s)[|TrimStart(s)| - 1]
  {
  }

  lemma LastOfSkipWord(t: string)
    requires SkipWord(t) != []
    ensures t[|t| - 1] == SkipWord(t)[|SkipWord(t)| - 1]
  {
  }

  lemma LastOfFirstWord(t: string)
    requires t != [] && SkipWord(t) == []
    ensures !IsSpace(t[|t| - 1])
  {
  }

  /** A leading whitespace run collapses to one space before the collapsed rest. */
  lemma CollapseLead(s: string)
    ensures Collapse(s) == Lead(s) + Collapse(TrimStart(s))
  {
    if s != [] && IsSpace(s[0]) {
      assert TrimStart(s) != s;
    }
  }

  /** A whitespace-only text collapses to one space, or to nothing when it is empty. */
  lemma CollapseOfSpaces(u: string)
    requires TrimStart(u) == []
    ensures Collapse(u) == if u == [] then "" else " "
  {
  }

  /** What follows the first word is a suffix of the text. */
  lemma SkipWordSuffix(s: string)
    ensures var u := SkipWord(TrimStart(s)); |u| <= |s| && u == s[|s| - |u|..]
  {
    var t := TrimStart(s);
    var u := SkipWord(t);
    assert t[|t| - |u|..] == s[|s| - |u|..];
  }

  lemma SuffixLast(s: string, u: string)
    requires u != [] && |u| <= |s| && u == s[|s| - |u|..]
    ensures s[|s| - 1] == u[|u| - 1]
  {
  }

  lemma Regroup2(a: string, w: string, c: string)
    ensures a + (w + c) == a + w + c
  {
  }

  lemma Regroup3(a: string, w: string, j: string, e: string)
    ensures a + (w + (" " + j + e)) == a + (w + " " + j) + e
  {
  }

  /** `TrimStart` of a text whose leading whitespace ends at `a`. */
  lemma {:induction false} TrimStartAt(s: string, a: nat)
    requires a <= |s| && (a == |s| || !IsSpace(s[a]))
    requires forall i :: 0 <= i < a ==> IsSpace(s[i])
    ensures TrimStart(s) == s[a..]
    decreases a
  {
    if a > 0 {
      assert s[1..][a - 1..] == s[a..];
      TrimStartAt(s[1..], a - 1);
    }
  }

  /** `TrimEnd` of a text whose trailing whitespace starts at `b`. */
  lemma {:induction false} TrimEndAt(s: string, b: nat)
    requires b <= |s| && (b == 0 || !IsSpace(s[b - 1]))
    requires forall i :: b <= i < |s| ==> IsSpace(s[i])
    ensures TrimEnd(s) == s[..b]
    decreases |s| - b
  {
    if b < |s| {
      var init := s[..|s| - 1];
      assert init[..b] == s[..b];
      TrimEndAt(init, b);
    }
  }

  /** `s.strip()` is the slice between the leading and the trailing whitespace. */
  lemma StripSlice(s: string, a: nat, b: nat)
    requires a <= b <= |s|
    requires forall i :: 0 <= i < a ==> IsSpace(s[i])
    requires forall i :: b <= i < |s| ==> IsSpace(s[i])
    requires a < b ==> !IsSpace(s[a]) && !IsSpace(s[b - 1])
    ensures Strip(s) == s[a..b]
  {
    if a < b {
      TrimStartAt(s, a);
      var t := s[a..];
      TrimEndAt(t, b - a);
      assert t[..b - a] == s[a..b];
    } else {
      assert forall i :: 0 <= i < |s| ==> IsSpace(s[i]) by {
        forall i | 0 <= i < |s| ensures IsSpace(s[i]) {
          if i >= a { assert i >= b; }
        }
      }
    }
  }

  /** Whitespace before a text does not change its words. */
  lemma WordsTrimStart(s: string)
    ensures Words(TrimStart(s)) == Words(s)
  {
    var t := TrimStart(s);
    assert TrimStart(t) == t;
  }

  lemma {:induction false} TrimStartAppend(a: string, b: string)
    requires TrimStart(a) != []
    ensures TrimStart(a + b) == TrimStart(a) + b
    decreases |a|
  {
    var ab := a + b;
    assert ab[0] == a[0];
    if IsSpace(a[0]) {
      assert TrimStart(a) == TrimStart(a[1..]);
      assert ab[1..] == a[1..] + b;
      assert TrimStart(ab) == TrimStart(ab[1..]);
      TrimStartAppend(a[1..], b);
    } else {
      assert TrimStart(a) == a && TrimStart(ab) == ab;
    }
  }

  lemma {:induction false} SkipWordAppend(a: string, b: string)
    requires b == [] || IsSpace(b[0])
    ensures SkipWord(a + b) == SkipWord(a) + b
    decreases |a|
  {
    if a != [] && !IsSpace(a[0]) {
      assert (a + b)[1..] == a[1..] + b;
      SkipWordAppend(a[1..], b);
    }
  }

  lemma {:induction false} FirstWordAppend(a: string, b: string)
    requires b == [] || IsSpace(b[0])
    ensures FirstWord(a + b) == FirstWord(a)
    decreases |a|
  {
    if a == [] {
      assert a + b == b;
    } else {
      assert (a + b)[0] == a[0] && (a + b)[1..] == a[1..] + b;
      FirstWordAppend(a[1..], b);
    }
  }

  /** Whitespace after a text does not change its words. */
  lemma {:induction false} WordsAppendSpaces(a: string, b: string)
    requires forall i :: 0 <= i < |b| ==> IsSpace(b[i])
    ensures Words(a + b) == Words(a)
    decreases |a|
  {
    var t := TrimStart(a);
    if t == [] {
      assert forall i :: 0 <= i < |a + b| ==> IsSpace((a + b)[i]);
    } else {
      TrimStartAppend(a, b);
      SkipWordAppend(t, b);
      var u := SkipWord(t);
      FirstWordAppend(t, b);
      WordsAppendSpaces(u, b);
    }
  }

  /** `clean(s)` is the words of `s` joined by single spaces. */
  lemma CleanWords(s: string)
    ensures Clean(s) == Join(Words(s), " ")
  {
    var t := TrimStart(s);
    var r := TrimEnd(t);
    WordsTrimStart(s);
    TrimEndSplit(t);
    WordsAppendSpaces(r, t[|r|..]);
    CollapseWords(r);
    assert Lead(r) == "" && Trail(r) == "";
    Regroup2("", Join(Words(r), " "), "");
  }

  /** A text is its `rstrip()` followed by whitespace. */
  lemma TrimEndSplit(t: string)
    ensures var r := TrimEnd(t);
      && t == r + t[|r|..]
      && forall i :: 0 <= i < |t[|r|..]| ==> IsSpace(t[|r|..][i])
  {
    var r := TrimEnd(t);
    assert t == t[..|r|] + t[|r|..];
  }
}