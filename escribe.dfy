/**
 * The month listing side of `detroit_meetings_scraper.py`: the month page
 * url, the links `parse_month` collects from a month page, the window of
 * months `crawl` visits, and `crawl` itself.
 */
module Escribe {
  import opened Text
  import opened Numbers
  import opened Wrappers
  import opened Model
  import opened Ordering
  import opened EscribeDetail
  import Dedup

  // ---------------------------------------------------------------------
  // Month page url
  // ---------------------------------------------------------------------

  /** `month_url(year, month)` */
  function MonthUrl(year: int, month: int): string
  {
    Base + "?Year=" + IntToString(year) + "&Month=" + IntToString(month)
  }

  /** A rendered integer holds digits and perhaps a minus sign, never an ampersand. */
  lemma IntToStringNoAmpersand(i: int)
    ensures '&' !in IntToString(i)
  {
    var r := NatToString(if i < 0 then -i else i);
    assert forall k :: 0 <= k < |r| ==> r[k] != '&';
  }

  /** Different integers render differently. */
  lemma IntToStringInjective(a: int, b: int)
    requires IntToString(a) == IntToString(b)
    ensures a == b
  {
    if a >= 0 && b >= 0 {
      NatToStringInjective(a, b);
    } else if a < 0 && b < 0 {
      assert NatToString(-a) == IntToString(a)[1..];
      assert NatToString(-b) == IntToString(b)[1..];
      NatToStringInjective(-a, -b);
    }
  }

  /** Splitting at the first ampersand: two strings free of `&` followed by `&` part the same way. */
  lemma SplitAtAmpersand(a1: string, b1: string, a2: string, b2: string)
    requires '&' !in a1 && '&' !in a2
    requires a1 + "&" + b1 == a2 + "&" + b2
    ensures a1 == a2 && b1 == b2
  {
    var s := a1 + "&" + b1;
    FirstAmpersand(a1, b1);
    FirstAmpersand(a2, b2);
    assert |a1| == |a2|;
    assert a1 == s[..|a1|];
    assert a2 == (a2 + "&" + b2)[..|a2|];
    assert b1 == s[|a1| + 1..];
    assert b2 == (a2 + "&" + b2)[|a2| + 1..];
  }

  /** In `a + "&" + b` with `a` free of ampersands, the first ampersand sits right after `a`. */
  lemma FirstAmpersand(a: string, b: string)
    requires '&' !in a
    ensures (a + "&" + b)[|a|] == '&'
    ensures forall k :: 0 <= k < |a| ==> (a + "&" + b)[k] != '&'
  {
    forall k | 0 <= k < |a| ensures (a + "&" + b)[k] != '&' {
      assert (a + "&" + b)[k] == a[k];
    }
  }

  /** A common prefix cancels. */
  lemma PrefixCancel(p: string, r1: string, r2: string)
    requires p + r1 == p + r2
    ensures r1 == r2
  {
    assert r1 == (p + r1)[|p|..];
    assert r2 == (p + r2)[|p|..];
  }

  /** The month url as the fixed prefix, then the year, an ampersand and the month part. */
  lemma MonthUrlShape(year: int, month: int)
    ensures MonthUrl(year, month) ==
      (Base + "?Year=") + (IntToString(year) + "&" + ("Month=" + IntToString(month)))
  {
    var a, b := IntToString(year), IntToString(month);
    assert "&Month=" + b == "&" + ("Month=" + b);
  }

  /** Each (year, month) pair has its own month page url. */
  lemma MonthUrlInjective(y1: int, m1: int, y2: int, m2: int)
    requires MonthUrl(y1, m1) == MonthUrl(y2, m2)
    ensures y1 == y2 && m1 == m2
  {
    var a1, a2 := IntToString(y1), IntToString(y2);
    var b1, b2 := IntToString(m1), IntToString(m2);
    MonthUrlShape(y1, m1);
    MonthUrlShape(y2, m2);
    PrefixCancel(Base + "?Year=", a1 + "&" + ("Month=" + b1), a2 + "&" + ("Month=" + b2));
    IntToStringNoAmpersand(y1);
    IntToStringNoAmpersand(y2);
    SplitAtAmpersand(a1, "Month=" + b1, a2, "Month=" + b2);
    IntToStringInjective(y1, y2);
    PrefixCancel("Month=", b1, b2);
    IntToStringInjective(m1, m2);
  }

  // ---------------------------------------------------------------------
  // The window of months
  // ---------------------------------------------------------------------

  /** A (year, month) pair counted in months from year 0. */
  function MonthIndex(ym: (int, int)): int
  {
    ym.0 * 12 + ym.1 - 1
  }

  /**
   * `(year + (month - 1) // 12, ((month - 1) % 12) + 1)`: a month number
   * outside 1..12 carried into the year. Python's floor division and modulo
   * agree with Dafny's for the positive divisor 12.
   */
  function NormMonth(year: int, month: int): (ym: (int, int))
    ensures 1 <= ym.1 <= 12
    ensures MonthIndex(ym) == year * 12 + month - 1
  {
    (year + (month - 1) / 12, (month - 1) % 12 + 1)
  }

  /** The month `d` months after the current month of `year`. */
  function MonthAt(year: int, todayMonth: int, d: int): (int, int)
  {
    NormMonth(year, todayMonth + d)
  }

  /** The months from offset `lo` up to, not including, offset `hi`. */
  function MonthsFrom(year: int, todayMonth: int, lo: int, hi: int): set<(int, int)>
  {
    set d | lo <= d < hi :: MonthAt(year, todayMonth, d)
  }

  /** The months `crawl` targets: the current month of `year`, `behind` months before it and `ahead` after it. */
  function MonthWindow(year: int, todayMonth: int, behind: int, ahead: int): set<(int, int)>
  {
    MonthsFrom(year, todayMonth, -behind, ahead + 1)
  }

  lemma MonthsFromStep(year: int, todayMonth: int, lo: int, hi: int)
    requires lo <= hi
    ensures MonthsFrom(year, todayMonth, lo, hi + 1) == MonthsFrom(year, todayMonth, lo, hi) + {MonthAt(year, todayMonth, hi)}
  {
    var bigger := MonthsFrom(year, todayMonth, lo, hi + 1);
    forall ym | ym in bigger ensures ym in MonthsFrom(year, todayMonth, lo, hi) + {MonthAt(year, todayMonth, hi)} {
      var d :| lo <= d < hi + 1 && ym == MonthAt(year, todayMonth, d);
      if d < hi {
        assert ym in MonthsFrom(year, todayMonth, lo, hi);
      }
    }
  }

  /** The month-window loop of `crawl`. */
  method TargetMonths(year: int, todayMonth: int, behind: int, ahead: int) returns (months: set<(int, int)>)
    ensures months == MonthWindow(year, todayMonth, behind, ahead)
  {
    months := {};
    var d := -behind;
    while d <= ahead
      invariant -behind <= d <= ahead + 1 || d == -behind
      invariant months == MonthsFrom(year, todayMonth, -behind, d)
      decreases ahead + 1 - d
    {
      MonthsFromStep(year, todayMonth, -behind, d);
      months := months + {MonthAt(year, todayMonth, d)};
      d := d + 1;
    }
    assert MonthsFrom(year, todayMonth, -behind, d) == MonthsFrom(year, todayMonth, -behind, ahead + 1);
  }

  /** A pair with its month in 1..12 is determined by its month index. */
  lemma MonthIndexInjective(a: (int, int), b: (int, int))
    requires 1 <= a.1 <= 12 && 1 <= b.1 <= 12
    requires MonthIndex(a) == MonthIndex(b)
    ensures a == b
  {
    assert (a.0 - b.0) * 12 == b.1 - a.1;
  }

  /**
   * The window is exactly the months, written with a month in 1..12, whose
   * index lies from `behind` before to `ahead` after the current month.
   */
  lemma MonthWindowMembers(year: int, todayMonth: int, behind: int, ahead: int, ym: (int, int))
    ensures ym in MonthWindow(year, todayMonth, behind, ahead) <==>
      (1 <= ym.1 <= 12 && -behind <= MonthIndex(ym) - (year * 12 + todayMonth - 1) <= ahead)
  {
    var d := MonthIndex(ym) - (year * 12 + todayMonth - 1);
    if 1 <= ym.1 <= 12 && -behind <= d <= ahead {
      MonthIndexInjective(ym, MonthAt(year, todayMonth, d));
      assert ym in MonthsFrom(year, todayMonth, -behind, ahead + 1);
    }
  }

  /** The window holds `behind + ahead + 1` months, none twice. */
  lemma {:induction false} MonthWindowSize(year: int, todayMonth: int, behind: int, ahead: int)
    requires behind + ahead + 1 >= 0
    ensures |MonthWindow(year, todayMonth, behind, ahead)| == behind + ahead + 1
    decreases behind + ahead + 1
  {
    if behind + ahead + 1 == 0 {
      MonthWindowEmpty(year, todayMonth, behind, ahead);
    } else {
      MonthWindowSize(year, todayMonth, behind, ahead - 1);
      MonthWindowStep(year, todayMonth, behind, ahead);
    }
  }

  lemma MonthWindowEmpty(year: int, todayMonth: int, behind: int, ahead: int)
    requires behind + ahead + 1 == 0
    ensures MonthWindow(year, todayMonth, behind, ahead) == {}
  {
  }

  /** Widening the window by one month ahead adds one month it did not hold. */
  lemma MonthWindowStep(year: int, todayMonth: int, behind: int, ahead: int)
    requires behind + ahead >= 0
    ensures var last := MonthAt(year, todayMonth, ahead);
      && last !in MonthWindow(year, todayMonth, behind, ahead - 1)
      && MonthWindow(year, todayMonth, behind, ahead) == MonthWindow(year, todayMonth, behind, ahead - 1) + {last}
  {
    var last := MonthAt(year, todayMonth, ahead);
    MonthsFromStep(year, todayMonth, -behind, ahead);
    assert MonthIndex(last) - (year * 12 + todayMonth - 1) == ahead;
    MonthWindowMembers(year, todayMonth, behind, ahead - 1, last);
  }

  /** Python's tuple order on (year, month). */
  predicate MonthLess(a: (int, int), b: (int, int))
  {
    a.0 < b.0 || (a.0 == b.0 && a.1 < b.1)
  }

  lemma MonthLessStrictTotal()
    ensures StrictTotal(MonthLess)
  {
  }

  /** `sorted(target_months)`: on months written with a month in 1..12, tuple order is chronological order. */
  function SortedMonths(months: set<(int, int)>): (r: seq<(int, int)>)
    ensures Ascending(r, MonthLess)
    ensures forall ym :: ym in r <==> ym in months
    ensures |r| == |months|
  {
    MonthLessStrictTotal();
    SortedSet(months, MonthLess)
  }

  /** `crawl` visits the window's months in chronological order. */
  lemma SortedWindowChronological(year: int, todayMonth: int, behind: int, ahead: int)
    ensures var r := SortedMonths(MonthWindow(year, todayMonth, behind, ahead));
      forall i, j :: 0 <= i < j < |r| ==> MonthIndex(r[i]) < MonthIndex(r[j])
  {
    var r := SortedMonths(MonthWindow(year, todayMonth, behind, ahead));
    forall i, j | 0 <= i < j < |r| ensures MonthIndex(r[i]) < MonthIndex(r[j]) {
      MonthWindowMembers(year, todayMonth, behind, ahead, r[i]);
      MonthWindowMembers(year, todayMonth, behind, ahead, r[j]);
      assert MonthLess(r[i], r[j]);
    }
  }

  // ---------------------------------------------------------------------
  // parse_month
  // ---------------------------------------------------------------------

  /**
   * What the HTML parser gives of a month page: the `href` attribute of every
   * `a` element in document order, None where the element has none.
   */
  type Hrefs = seq<Option<string>>

  /** The CSS selector `a[href*='Meeting?Id'], a[href*='Meeting?']`: either alternative holds when the second does. */
  predicate Selected(href: Option<string>)
  {
    href.Some? && Find(href.value, "Meeting?")
  }

  /** The first loop of `parse_month` keeps a selected link whose `href or ""` contains "Meeting". */
  predicate FirstLoopKeeps(href: Option<string>)
  {
    Selected(href) && Find(href.GetOr(""), "Meeting")
  }

  /** The second loop keeps any `href` containing "Meeting?Id=". */
  predicate SecondLoopKeeps(href: Option<string>)
  {
    href.Some? && Find(href.value, "Meeting?Id=")
  }

  /** `urljoin(BASE, href)` */
  function DetailUrl(env: Env, href: Option<string>): string
  {
    env.urlJoin(Base, href.GetOr(""))
  }

  /** The links the first loop appends, for the anchors `hrefs`. */
  function FirstLoop(env: Env, hrefs: Hrefs): seq<string>
    decreases |hrefs|
  {
    if hrefs == [] then []
    else
      var last := hrefs[|hrefs| - 1];
      FirstLoop(env, hrefs[..|hrefs| - 1]) + (if FirstLoopKeeps(last) then [DetailUrl(env, last)] else [])
  }

  /** The links the second loop appends. */
  function SecondLoop(env: Env, hrefs: Hrefs): seq<string>
    decreases |hrefs|
  {
    if hrefs == [] then []
    else
      var last := hrefs[|hrefs| - 1];
      SecondLoop(env, hrefs[..|hrefs| - 1]) + (if SecondLoopKeeps(last) then [DetailUrl(env, last)] else [])
  }

  /** The links `parse_month` returns for a month page. */
  function MonthLinks(env: Env, hrefs: Hrefs): seq<string>
  {
    SortedStrings(set u | u in FirstLoop(env, hrefs) + SecondLoop(env, hrefs))
  }

  /** `parse_month(url)` on the fetched month page. */
  method ParseMonth(env: Env, hrefs: Hrefs) returns (links: seq<string>)
    ensures links == MonthLinks(env, hrefs)
  {
    var detailLinks: seq<string> := [];
    for i := 0 to |hrefs|
      invariant detailLinks == FirstLoop(env, hrefs[..i])
    {
      assert hrefs[..i + 1][..i] == hrefs[..i];
      var href := hrefs[i].GetOr("");
      if Selected(hrefs[i]) && Find(href, "Meeting") {
        detailLinks := detailLinks + [env.urlJoin(Base, href)];
      }
    }
    assert hrefs[..|hrefs|] == hrefs;
    for i := 0 to |hrefs|
      invariant detailLinks == FirstLoop(env, hrefs) + SecondLoop(env, hrefs[..i])
    {
      assert hrefs[..i + 1][..i] == hrefs[..i];
      if hrefs[i].Some? && Find(hrefs[i].value, "Meeting?Id=") {
        detailLinks := detailLinks + [env.urlJoin(Base, hrefs[i].value)];
      }
    }
    links := SortedStrings(set u | u in detailLinks);
  }

  /** An occurrence of a pattern is an occurrence of each of its prefixes. */
  lemma ContainsPrefix(s: string, pat: string, n: nat)
    requires n <= |pat| && Contains(s, pat)
    ensures Contains(s, pat[..n])
  {
    var i :| 0 <= i <= |s| - |pat| && OccursAt(s, i, pat);
    assert s[i..i + n] == s[i..i + |pat|][..n];
    assert OccursAt(s, i, pat[..n]);
  }

  /** The first loop's extra test never fails, and the second loop only keeps selected links. */
  lemma LoopTests(href: Option<string>)
    ensures FirstLoopKeeps(href) <==> Selected(href)
    ensures SecondLoopKeeps(href) ==> Selected(href)
  {
    if Selected(href) {
      ContainsPrefix(href.value, "Meeting?", 7);
      assert "Meeting?"[..7] == "Meeting";
    }
    if SecondLoopKeeps(href) {
      ContainsPrefix(href.value, "Meeting?Id=", 8);
      assert "Meeting?Id="[..8] == "Meeting?";
    }
  }

  /** The first loop collects exactly the selected links. */
  lemma FirstLoopMembers(env: Env, hrefs: Hrefs, u: string)
    ensures u in FirstLoop(env, hrefs) <==>
      exists i :: 0 <= i < |hrefs| && Selected(hrefs[i]) && u == DetailUrl(env, hrefs[i])
  {
    if u in FirstLoop(env, hrefs) {
      FirstLoopFrom(env, hrefs, u);
    }
    if exists i :: 0 <= i < |hrefs| && Selected(hrefs[i]) && u == DetailUrl(env, hrefs[i]) {
      var i :| 0 <= i < |hrefs| && Selected(hrefs[i]) && u == DetailUrl(env, hrefs[i]);
      FirstLoopHas(env, hrefs, i);
    }
  }

  lemma {:induction false} FirstLoopFrom(env: Env, hrefs: Hrefs, u: string)
    requires u in FirstLoop(env, hrefs)
    ensures exists i :: 0 <= i < |hrefs| && Selected(hrefs[i]) && u == DetailUrl(env, hrefs[i])
    decreases |hrefs|
  {
    var init := hrefs[..|hrefs| - 1];
    var last := hrefs[|hrefs| - 1];
    if u in FirstLoop(env, init) {
      FirstLoopFrom(env, init, u);
      var i :| 0 <= i < |init| && Selected(init[i]) && u == DetailUrl(env, init[i]);
      assert hrefs[i] == init[i];
    } else {
      LoopTests(last);
      assert Selected(hrefs[|hrefs| - 1]);
    }
  }

  lemma {:induction false} FirstLoopHas(env: Env, hrefs: Hrefs, i: nat)
    requires i < |hrefs| && Selected(hrefs[i])
    ensures DetailUrl(env, hrefs[i]) in FirstLoop(env, hrefs)
    decreases |hrefs|
  {
    var init := hrefs[..|hrefs| - 1];
    LoopTests(hrefs[i]);
    if i < |init| {
      FirstLoopHas(env, init, i);
      assert init[i] == hrefs[i];
    }
  }

  /** Every link the second loop appends was already appended by the first. */
  lemma {:induction false} SecondLoopWithinFirst(env: Env, hrefs: Hrefs, u: string)
    requires u in SecondLoop(env, hrefs)
    ensures u in FirstLoop(env, hrefs)
    decreases |hrefs|
  {
    var init := hrefs[..|hrefs| - 1];
    var last := hrefs[|hrefs| - 1];
    if u in SecondLoop(env, init) {
      SecondLoopWithinFirst(env, init, u);
    } else {
      LoopTests(last);
    }
    FirstLoopMembers(env, init, u);
    FirstLoopMembers(env, hrefs, u);
    if u in FirstLoop(env, init) {
      var i :| 0 <= i < |init| && Selected(init[i]) && u == DetailUrl(env, init[i]);
      assert hrefs[i] == init[i];
    }
  }

  /**
   * `parse_month` returns, in ascending order and each once, the absolute
   * form of every `href` the selector matches, and nothing else.
   */
  lemma MonthLinksSpec(env: Env, hrefs: Hrefs)
    ensures Ascending(MonthLinks(env, hrefs), LexLess)
    ensures forall u :: u in MonthLinks(env, hrefs) <==>
      exists i :: 0 <= i < |hrefs| && Selected(hrefs[i]) && u == DetailUrl(env, hrefs[i])
  {
    forall u ensures u in MonthLinks(env, hrefs) <==>
      exists i :: 0 <= i < |hrefs| && Selected(hrefs[i]) && u == DetailUrl(env, hrefs[i])
    {
      FirstLoopMembers(env, hrefs, u);
      if u in SecondLoop(env, hrefs) {
        SecondLoopWithinFirst(env, hrefs, u);
      }
    }
  }

  // ---------------------------------------------------------------------
  // crawl
  // ---------------------------------------------------------------------

  /** A month page fetched and parsed into its anchors; None when `get` raises. */
  type MonthServer = string -> Option<Hrefs>

  /** A meeting page fetched and parsed; None when `get` raises. */
  type DetailServer = string -> Option<Page>

  /** The links of one month's page; none when the page cannot be fetched. */
  function LinksOfMonth(env: Env, months: MonthServer, ym: (int, int)): seq<string>
  {
    match months(MonthUrl(ym.0, ym.1))
    case None => []
    case Some(hrefs) => MonthLinks(env, hrefs)
  }

  /** Each month's links, as the month loop sees them. */
  function Lister(env: Env, months: MonthServer): ((int, int)) -> seq<string>
  {
    ym => LinksOfMonth(env, months, ym)
  }

  /** The `details` set after visiting the months `visited`. */
  function DetailsOf(linksOf: ((int, int)) -> seq<string>, visited: seq<(int, int)>): set<string>
    decreases |visited|
  {
    if visited == [] then {}
    else DetailsOf(linksOf, visited[..|visited| - 1]) + AsSet(linksOf(visited[|visited| - 1]))
  }

  /** The elements of a list, as `set(...)` gives them. */
  function AsSet(xs: seq<string>): (s: set<string>)
    ensures forall x :: x in s <==> x in xs
  {
    set x | x in xs
  }

  /** The meetings the detail loop appends for the links `urls`: those whose page parses to a meeting. */
  function ParsedFrom(env: Env, textDate: string -> TextDate, pages: DetailServer, urls: seq<string>): seq<Meeting>
    decreases |urls|
  {
    if urls == [] then []
    else
      var u := urls[|urls| - 1];
      var r := DetailOf(env, textDate, u, pages(u));
      ParsedFrom(env, textDate, pages, urls[..|urls| - 1]) + (if r.Parsed? then [r.meeting] else [])
  }

  /** The detail links `crawl` collects from its window of months. */
  function CrawlDetails(env: Env, months: MonthServer, year: int, todayMonth: int, behind: int, ahead: int): set<string>
  {
    DetailsOf(Lister(env, months), SortedMonths(MonthWindow(year, todayMonth, behind, ahead)))
  }

  /** `for du in links: details.add(du)` */
  method AddAll(details: set<string>, links: seq<string>) returns (r: set<string>)
    ensures r == details + AsSet(links)
  {
    r := details;
    for k := 0 to |links|
      invariant r == details + AsSet(links[..k])
    {
      assert AsSet(links[..k + 1]) == AsSet(links[..k]) + {links[k]} by {
        assert links[..k + 1] == links[..k] + [links[k]];
      }
      r := r + {links[k]};
    }
    assert links[..|links|] == links;
  }

  /** The details after one more month. */
  lemma DetailsOfSnoc(linksOf: ((int, int)) -> seq<string>, visited: seq<(int, int)>, i: nat)
    requires i < |visited|
    ensures DetailsOf(linksOf, visited[..i + 1]) == DetailsOf(linksOf, visited[..i]) + AsSet(linksOf(visited[i]))
  {
    assert visited[..i + 1][..i] == visited[..i];
  }

  /** The body of the month loop: fetch the month page and parse its links, none when `get` raises. */
  method MonthPageLinks(env: Env, months: MonthServer, ym: (int, int)) returns (links: seq<string>)
    ensures links == LinksOfMonth(env, months, ym)
  {
    var page := months(MonthUrl(ym.0, ym.1));
    links := [];
    if page.Some? {
      links := ParseMonth(env, page.value);
    }
  }

  /** The month loop of `crawl`. */
  method CollectDetails(env: Env, months: MonthServer, visited: seq<(int, int)>) returns (details: set<string>)
    ensures details == DetailsOf(Lister(env, months), visited)
  {
    details := {};
    for i := 0 to |visited|
      invariant details == DetailsOf(Lister(env, months), visited[..i])
    {
      DetailsOfSnoc(Lister(env, months), visited, i);
      var links := MonthPageLinks(env, months, visited[i]);
      details := AddAll(details, links);
    }
    assert visited[..|visited|] == visited;
  }

  /** The detail loop of `crawl`. */
  method ParseDetails(env: Env, textDate: string -> TextDate, pages: DetailServer, urls: seq<string>)
    returns (items: seq<Meeting>)
    ensures items == ParsedFrom(env, textDate, pages, urls)
  {
    items := [];
    for i := 0 to |urls|
      invariant items == ParsedFrom(env, textDate, pages, urls[..i])
    {
      assert urls[..i + 1][..i] == urls[..i];
      var r := ParseDetail(env, textDate, urls[i], pages(urls[i]));
      if r.Parsed? {
        items := items + [r.meeting];
      }
    }
    assert urls[..|urls|] == urls;
  }

  /**
   * `crawl(year, months_ahead, months_behind)`: the detail pages linked from
   * the window's month pages, parsed in ascending url order, de-duplicated
   * and sorted by start.
   */
  method Crawl(env: Env, textDate: string -> TextDate, months: MonthServer, pages: DetailServer,
               year: int, todayMonth: int, ahead: int, behind: int) returns (unique: seq<Meeting>)
    ensures unique == Dedup.DedupeAndSort(ParsedFrom(env, textDate, pages,
      SortedStrings(CrawlDetails(env, months, year, todayMonth, behind, ahead))))
    ensures Dedup.SortedByStart(unique) && Dedup.DistinctKeys(unique)
  {
    var target := TargetMonths(year, todayMonth, behind, ahead);
    var details := CollectDetails(env, months, SortedMonths(target));
    var items := ParseDetails(env, textDate, pages, SortedStrings(details));
    unique := Dedup.Finish(items);
  }

  /** Every meeting of the detail loop is the parse of one of its links. */
  lemma {:induction false} ParsedFromOrigin(env: Env, textDate: string -> TextDate, pages: DetailServer,
                                            urls: seq<string>, m: Meeting)
    requires m in ParsedFrom(env, textDate, pages, urls)
    ensures exists u :: u in urls && DetailOf(env, textDate, u, pages(u)) == Parsed(m)
    decreases |urls|
  {
    var init := urls[..|urls| - 1];
    var u := urls[|urls| - 1];
    if m in ParsedFrom(env, textDate, pages, init) {
      ParsedFromOrigin(env, textDate, pages, init, m);
      var v :| v in init && DetailOf(env, textDate, v, pages(v)) == Parsed(m);
      assert v in urls;
    } else {
      assert DetailOf(env, textDate, u, pages(u)) == Parsed(m);
    }
  }

  /** A link is collected exactly when some visited month lists it. */
  lemma {:induction false} DetailsOfMembers(linksOf: ((int, int)) -> seq<string>, visited: seq<(int, int)>, u: string)
    ensures u in DetailsOf(linksOf, visited) <==> exists i :: 0 <= i < |visited| && u in linksOf(visited[i])
    decreases |visited|
  {
    if visited != [] {
      var init := visited[..|visited| - 1];
      DetailsOfMembers(linksOf, init, u);
      if exists i :: 0 <= i < |visited| && u in linksOf(visited[i]) {
        var i :| 0 <= i < |visited| && u in linksOf(visited[i]);
        if i < |init| {
          assert init[i] == visited[i];
        }
      }
      if u in DetailsOf(linksOf, init) {
        var i :| 0 <= i < |init| && u in linksOf(init[i]);
        assert visited[i] == init[i];
      }
    }
  }

  /** De-duplicating and sorting only drops meetings. */
  lemma DedupeKeepsOnlyItems(items: seq<Meeting>, m: Meeting)
    requires m in Dedup.DedupeAndSort(items)
    ensures m in items
  {
    Dedup.FirstOccurrencesSpec(items);
    assert m in multiset(Dedup.FirstOccurrences(items));
  }

  /**
   * Every meeting `crawl` returns is what a meeting page parses to, for a
   * link listed on the page of a month in the window.
   */
  lemma CrawlOrigin(env: Env, textDate: string -> TextDate, months: MonthServer, pages: DetailServer,
                    year: int, todayMonth: int, ahead: int, behind: int, m: Meeting)
    requires m in Dedup.DedupeAndSort(ParsedFrom(env, textDate, pages,
      SortedStrings(CrawlDetails(env, months, year, todayMonth, behind, ahead))))
    ensures exists ym, u :: (ym in MonthWindow(year, todayMonth, behind, ahead) && u in LinksOfMonth(env, months, ym)
      && DetailOf(env, textDate, u, pages(u)) == Parsed(m))
  {
    var urls := SortedStrings(CrawlDetails(env, months, year, todayMonth, behind, ahead));
    DedupeKeepsOnlyItems(ParsedFrom(env, textDate, pages, urls), m);
    ParsedFromOrigin(env, textDate, pages, urls, m);
    var u :| u in urls && DetailOf(env, textDate, u, pages(u)) == Parsed(m);
    DetailLinkOrigin(env, months, year, todayMonth, behind, ahead, u);
  }

  /** Every collected detail link is listed on the page of a month in the window. */
  lemma DetailLinkOrigin(env: Env, months: MonthServer, year: int, todayMonth: int, behind: int, ahead: int, u: string)
    requires u in CrawlDetails(env, months, year, todayMonth, behind, ahead)
    ensures exists ym :: ym in MonthWindow(year, todayMonth, behind, ahead) && u in LinksOfMonth(env, months, ym)
  {
    var visited := SortedMonths(MonthWindow(year, todayMonth, behind, ahead));
    DetailsOfMembers(Lister(env, months), visited, u);
    var i :| 0 <= i < |visited| && u in Lister(env, months)(visited[i]);
    assert visited[i] in visited;
  }
}
