/**
 * The parts of Python's `urllib.parse` the scrapers depend on: `urlsplit`
 * (and the path that `urlparse` reports), `str.split` on one character,
 * and `parse_qsl`/`parse_qs` with their default settings. Behaviour follows
 * CPython 3.12; percent-decoding is a parameter.
 */
module Url {
  import opened Text
  import opened Wrappers

  /** The index of the first `c` in `s`, or `|s|`. */
  function FindChar(s: string, c: char): (i: nat)
    ensures i <= |s|
    ensures i < |s| ==> s[i] == c
    ensures forall k :: 0 <= k < i ==> s[k] != c
  {
    if s == [] then 0 else if s[0] == c then 0 else 1 + FindChar(s[1..], c)
  }

  /** The index of the first character of `s` at or after `from` that is in `cs`, or `|s|`. */
  function FindAny(s: string, from: nat, cs: set<char>): (i: nat)
    requires from <= |s|
    ensures from <= i <= |s|
    ensures i < |s| ==> s[i] in cs
    ensures forall k :: from <= k < i ==> s[k] !in cs
    decreases |s| - from
  {
    if from == |s| || s[from] in cs then from else FindAny(s, from + 1, cs)
  }

  /** `s.split(c)`: the pieces between the occurrences of `c`. */
  function SplitOn(s: string, c: char): (pieces: seq<string>)
    ensures |pieces| >= 1
    ensures forall i :: 0 <= i < |pieces| ==> c !in pieces[i]
    decreases |s|
  {
    var k := FindChar(s, c);
    if k == |s| then [s] else [s[..k]] + SplitOn(s[k + 1..], c)
  }

  /** Joining the pieces of `s.split(c)` with `c` gives `s` back. */
  lemma {:induction false} SplitOnJoin(s: string, c: char)
    ensures Join(SplitOn(s, c), [c]) == s
    decreases |s|
  {
    var k := FindChar(s, c);
    if k < |s| {
      SplitOnJoin(s[k + 1..], c);
      var rest := SplitOn(s[k + 1..], c);
      assert SplitOn(s, c) == [s[..k]] + rest;
      assert Join([s[..k]] + rest, [c]) == s[..k] + [c] + Join(rest, [c]);
      assert s == s[..k] + [c] + s[k + 1..];
    } else {
      assert s[..k] == s;
    }
  }

  // ---------------------------------------------------------------------
  // urlsplit
  // ---------------------------------------------------------------------

  /** The five parts `urlsplit` returns. */
  datatype SplitResult = SplitResult(scheme: string, netloc: string, path: string, query: string, fragment: string)

  /** The characters `urlsplit` strips from the front of a URL: C0 controls and the space. */
  predicate IsC0OrSpace(c: char) { c <= ' ' }

  /** The characters `urlsplit` deletes wherever they occur. */
  predicate IsUnsafe(c: char) { c == '\t' || c == '\r' || c == '\n' }

  predicate IsAsciiLetter(c: char) { 'a' <= c <= 'z' || 'A' <= c <= 'Z' }

  /** The characters allowed in a scheme. */
  predicate IsSchemeChar(c: char) { IsAsciiLetter(c) || IsDigit(c) || c == '+' || c == '-' || c == '.' }

  function LStripC0(s: string): (r: string)
    ensures |r| <= |s| && r == s[|s| - |r|..]
    ensures r == [] || !IsC0OrSpace(r[0])
  {
    if s != [] && IsC0OrSpace(s[0]) then LStripC0(s[1..]) else s
  }

  function RemoveUnsafe(s: string): (r: string)
    ensures |r| <= |s|
    ensures forall i :: 0 <= i < |r| ==> !IsUnsafe(r[i])
    ensures (forall i :: 0 <= i < |s| ==> !IsUnsafe(s[i])) ==> r == s
  {
    if s == [] then []
    else (if IsUnsafe(s[0]) then [] else [s[0]]) + RemoveUnsafe(s[1..])
  }

  /** The length of the scheme `urlsplit` recognises at the front of `u`, or 0 when there is none. */
  function SchemeLength(u: string): (n: nat)
    ensures n <= |u|
    ensures n > 0 ==> n < |u| && u[n] == ':' && IsAsciiLetter(u[0])
    ensures n > 0 ==> forall k :: 0 <= k < n ==> IsSchemeChar(u[k])
  {
    var i := FindChar(u, ':');
    if 0 < i < |u| && IsAsciiLetter(u[0]) && forall k :: 0 <= k < i ==> IsSchemeChar(u[k]) then i else 0
  }

  /** An opening bracket without a closing one, or the other way round: `urlsplit` raises. */
  predicate BracketMismatch(netloc: string)
  {
    ('[' in netloc) != (']' in netloc)
  }

  /** The URL after the leading C0 controls and spaces are stripped and tabs and line breaks removed. */
  function Prepared(url: string): string
  {
    RemoveUnsafe(LStripC0(url))
  }

  /** What follows the scheme and its colon, or all of `u` when there is no scheme. */
  function AfterScheme(u: string): (rest: string)
    ensures |rest| <= |u|
  {
    var n := SchemeLength(u);
    if n > 0 then u[n + 1..] else u
  }

  /** Where the network location of `rest` ends: at the first `/`, `?` or `#` after a leading `//`. */
  function NetlocEnd(rest: string): (k: nat)
    ensures k <= |rest|
    ensures k > 0 ==> |rest| >= 2 && rest[..2] == "//" && k >= 2
  {
    if |rest| >= 2 && rest[..2] == "//" then FindAny(rest, 2, {'/', '?', '#'}) else 0
  }

  /** The network location of `rest`: empty unless it starts with `//`. */
  function Netloc(rest: string): (netloc: string)
    ensures '/' !in netloc && '?' !in netloc && '#' !in netloc
  {
    var k := NetlocEnd(rest);
    if k > 0 then rest[2..k] else ""
  }

  /** `urlsplit(url)`; `None` where it raises `ValueError`. */
  function UrlSplit(url: string): (r: Option<SplitResult>)
    ensures r.Some? ==> '#' !in r.value.query && '#' !in r.value.path && '?' !in r.value.path
    ensures r.Some? ==> r.value.netloc == Netloc(AfterScheme(Prepared(url)))
    ensures r.None? <==> BracketMismatch(Netloc(AfterScheme(Prepared(url))))
  {
    var u := Prepared(url);
    var n := SchemeLength(u);
    var scheme := if n > 0 then Lower(u[..n]) else "";
    var rest := AfterScheme(u);
    var netloc := Netloc(rest);
    if BracketMismatch(netloc) then None
    else
      var tail := SplitTail(rest[NetlocEnd(rest)..]);
      Some(SplitResult(scheme, netloc, tail.0, tail.1, tail.2))
  }

  /** What follows the netloc, cut at the first `#` and then at the first `?`: path, query, fragment. */
  function SplitTail(afterNetloc: string): (r: (string, string, string))
    ensures '#' !in r.1 && '#' !in r.0 && '?' !in r.0
  {
    var h := FindChar(afterNetloc, '#');
    var beforeFragment := afterNetloc[..h];
    var fragment := if h < |afterNetloc| then afterNetloc[h + 1..] else "";
    var q := FindChar(beforeFragment, '?');
    var query := if q < |beforeFragment| then beforeFragment[q + 1..] else "";
    (beforeFragment[..q], query, fragment)
  }

  /** The schemes whose path `urlparse` splits at `;`. */
  const UsesParams: set<string> :=
    {"", "ftp", "hdl", "prospero", "http", "imap", "https", "shttp", "rtsp", "rtsps",
     "rtspu", "sip", "sips", "mms", "sftp", "tel"}

  /** The path `urlparse` reports: the split path cut at the `;` that starts its parameters. */
  function ParsedPath(parts: SplitResult): (path: string)
    ensures |path| <= |parts.path| && path == parts.path[..|path|]
    // nothing is cut for other schemes or without a `;`
    ensures parts.scheme !in UsesParams || ';' !in parts.path ==> path == parts.path
    // the cut is at the first `;` after the last `/` (anywhere when there is no `/`)
    ensures var p := parts.path; var slash := LastIndexOf(p, '/'); var start := if slash < |p| then slash else 0;
      && (|path| < |p| ==> p[|path|] == ';' && start <= |path| && ';' !in p[start..|path|])
      && (parts.scheme in UsesParams && ';' in p[start..] ==> |path| < |p|)
  {
    var p := parts.path;
    if parts.scheme in UsesParams && ';' in p then
      var lastSlash := LastIndexOf(p, '/');
      var i := if lastSlash < |p| then FindAny(p, lastSlash, {';'}) else FindChar(p, ';');
      p[..i]
    else p
  }

  /** The index of the last `c` in `s`, or `|s|` when there is none. */
  function LastIndexOf(s: string, c: char): (i: nat)
    ensures i <= |s|
    ensures i < |s| ==> s[i] == c && forall k :: i < k < |s| ==> s[k] != c
    ensures i == |s| ==> c !in s
  {
    if s == [] then 0
    else if s[|s| - 1] == c then |s| - 1
    else
      var j := LastIndexOf(s[..|s| - 1], c);
      if j == |s| - 1 then |s| else j
  }

  // ---------------------------------------------------------------------
  // parse_qs
  // ---------------------------------------------------------------------

  /** One `name=value` piece as `parse_qsl` reads it, or `None` when it is dropped. */
  function QueryPair(piece: string, unquote: string -> string): (r: Option<(string, string)>)
    ensures r.None? <==> piece == [] || '=' !in piece || FindChar(piece, '=') == |piece| - 1
  {
    var k := FindChar(piece, '=');
    if piece == [] || k == |piece| || k == |piece| - 1 then None
    else Some((unquote(piece[..k]), unquote(piece[k + 1..])))
  }

  /**
   * `parse_qsl(query)` with blank values dropped: the pieces between the `&`
   * that hold an `=` followed by something, decoded, in order.
   */
  function QueryPairs(query: string, unquote: string -> string): seq<(string, string)>
  {
    Somes(QueryPairsOf(SplitOn(query, '&'), unquote))
  }

  function QueryPairsOf(pieces: seq<string>, unquote: string -> string): (r: seq<Option<(string, string)>>)
    ensures |r| == |pieces|
    ensures forall i :: 0 <= i < |pieces| ==> r[i] == QueryPair(pieces[i], unquote)
  {
    if pieces == [] then [] else [QueryPair(pieces[0], unquote)] + QueryPairsOf(pieces[1..], unquote)
  }

  /** The first value recorded for `name`: `parse_qs(...)[name][0]`. */
  function Lookup(pairs: seq<(string, string)>, name: string): (r: Option<string>)
    ensures r.None? <==> forall i :: 0 <= i < |pairs| ==> pairs[i].0 != name
    ensures r.Some? ==> exists i :: (0 <= i < |pairs| && pairs[i] == (name, r.value) &&
      forall j :: 0 <= j < i ==> pairs[j].0 != name)
  {
    if pairs == [] then None
    else if pairs[0].0 == name then Some(pairs[0].1)
    else
      var r := Lookup(pairs[1..], name);
      if r.Some? then
        var i :| (0 <= i < |pairs[1..]| && pairs[1..][i] == (name, r.value) &&
          forall j :: 0 <= j < i ==> pairs[1..][j].0 != name);
        assert pairs[i + 1] == (name, r.value);
        r
      else r
  }
}
