/**
 * The last step of both scrapers' `crawl`: keep the first meeting for each
 * `(title.lower(), body.lower(), start)` key, then `unique.sort(key=start)`.
 */
module Dedup {
  import opened Text
  import opened Model

  type Key = (string, string, Instant)

  /** The de-duplication key. */
  function KeyOf(m: Meeting): Key
  {
    (Lower(m.title), Lower(m.body), m.start)
  }

  function Keys(ms: seq<Meeting>): set<Key>
  {
    set m | m in ms :: KeyOf(m)
  }

  /** No earlier meeting has the key of `items[i]`. */
  predicate IsFirst(items: seq<Meeting>, i: nat)
    requires i < |items|
  {
    forall j :: 0 <= j < i ==> KeyOf(items[j]) != KeyOf(items[i])
  }

  /** The first occurrences among `items[..n]`, in input order. */
  function FirstsUpTo(items: seq<Meeting>, n: nat): (r: seq<Meeting>)
    requires n <= |items|
    ensures |r| <= n
  {
    if n == 0 then []
    else FirstsUpTo(items, n - 1) + (if IsFirst(items, n - 1) then [items[n - 1]] else [])
  }

  /** The meetings the `seen`/`unique` loop keeps. */
  function FirstOccurrences(items: seq<Meeting>): seq<Meeting>
  {
    FirstsUpTo(items, |items|)
  }

  /** The keys collected so far are the keys of the whole prefix. */
  lemma {:induction false} KeysOfFirsts(items: seq<Meeting>, n: nat)
    requires n <= |items|
    ensures Keys(FirstsUpTo(items, n)) == Keys(items[..n])
  {
    if n > 0 {
      KeysOfFirsts(items, n - 1);
      var prev := FirstsUpTo(items, n - 1);
      var x := items[n - 1];
      assert items[..n] == items[..n - 1] + [x];
      KeysSnoc(items[..n - 1], x);
      if IsFirst(items, n - 1) {
        KeysSnoc(prev, x);
      } else {
        var j :| 0 <= j < n - 1 && KeyOf(items[j]) == KeyOf(x);
        assert items[..n - 1][j] == items[j];
        assert KeyOf(x) in Keys(items[..n - 1]);
      }
    }
  }

  lemma KeysSnoc(ms: seq<Meeting>, x: Meeting)
    ensures Keys(ms + [x]) == Keys(ms) + {KeyOf(x)}
  {
    forall k ensures k in Keys(ms + [x]) <==> k in Keys(ms) + {KeyOf(x)} {
      if k in Keys(ms + [x]) {
        var m :| m in ms + [x] && KeyOf(m) == k;
        assert m in ms || m == x;
      }
      if k in Keys(ms) {
        var m :| m in ms && KeyOf(m) == k;
        assert m in ms + [x];
      }
      assert x in ms + [x];
    }
  }

  /** `items[j]` is a first occurrence exactly when its key is not among the keys before it. */
  lemma SeenMeansNotFirst(items: seq<Meeting>, j: nat)
    requires j < |items|
    ensures IsFirst(items, j) <==> KeyOf(items[j]) !in Keys(items[..j])
  {
    var key := KeyOf(items[j]);
    if key in Keys(items[..j]) {
      var m :| m in items[..j] && KeyOf(m) == key;
      var i :| 0 <= i < j && items[..j][i] == m;
    } else {
      forall i | 0 <= i < j
        ensures KeyOf(items[i]) != key
      {
        assert items[..j][i] == items[i];
      }
    }
  }

  /** The de-duplication loop: a set of seen keys and the list of kept meetings. */
  method DedupeFirst(items: seq<Meeting>) returns (unique: seq<Meeting>)
    ensures unique == FirstOccurrences(items)
  {
    var seen: set<Key> := {};
    unique := [];
    for j := 0 to |items|
      invariant unique == FirstsUpTo(items, j)
      invariant seen == Keys(items[..j])
    {
      var key := KeyOf(items[j]);
      KeysOfFirsts(items, j);
      assert items[..j + 1] == items[..j] + [items[j]];
      SeenMeansNotFirst(items, j);
      if key !in seen {
        seen := seen + {key};
        unique := unique + [items[j]];
      }
    }
    assert items[..|items|] == items;
  }

  // ---------------------------------------------------------------------
  // Properties of the kept meetings
  // ---------------------------------------------------------------------

  /** No two meetings share a key. */
  ghost predicate DistinctKeys(ms: seq<Meeting>)
  {
    forall i, j :: 0 <= i < j < |ms| ==> KeyOf(ms[i]) != KeyOf(ms[j])
  }

  /** The kept meetings come from the input, in order, and have pairwise different keys. */
  lemma {:induction false} FirstsDistinct(items: seq<Meeting>, n: nat)
    requires n <= |items|
    ensures DistinctKeys(FirstsUpTo(items, n))
    ensures forall m :: m in FirstsUpTo(items, n) ==> m in items[..n]
  {
    if n > 0 {
      FirstsDistinct(items, n - 1);
      var prev := FirstsUpTo(items, n - 1);
      assert items[..n] == items[..n - 1] + [items[n - 1]];
      if IsFirst(items, n - 1) {
        var x := items[n - 1];
        forall i | 0 <= i < |prev| ensures KeyOf(prev[i]) != KeyOf(x) {
          assert prev[i] in items[..n - 1];
          var j :| 0 <= j < n - 1 && items[..n - 1][j] == prev[i];
          assert items[j] == prev[i];
        }
        var r := prev + [x];
        forall i, j | 0 <= i < j < |r| ensures KeyOf(r[i]) != KeyOf(r[j]) {
          if j < |prev| {
            assert r[i] == prev[i] && r[j] == prev[j];
          } else {
            assert r[i] == prev[i] && r[j] == x;
          }
        }
      }
    }
  }

  /**
   * De-duplication: no key twice, every input key kept, each kept meeting is
   * the first input meeting with its key, and input order is preserved.
   */
  lemma FirstOccurrencesSpec(items: seq<Meeting>)
    ensures DistinctKeys(FirstOccurrences(items))
    ensures Keys(FirstOccurrences(items)) == Keys(items)
    ensures forall m :: m in FirstOccurrences(items) ==> m in items
  {
    FirstsDistinct(items, |items|);
    KeysOfFirsts(items, |items|);
    assert items[..|items|] == items;
  }

  /** The kept meeting for position `i` is `items[i]` itself exactly when no earlier meeting has its key. */
  lemma {:induction false} FirstsKeepExactlyFirsts(items: seq<Meeting>, n: nat, i: nat)
    requires i < n <= |items|
    ensures IsFirst(items, i) ==> items[i] in FirstsUpTo(items, n)
  {
    if i < n - 1 {
      FirstsKeepExactlyFirsts(items, n - 1, i);
    }
  }

  /** A list without repeated keys is left as it is. */
  lemma {:induction false} FirstsOfDistinct(items: seq<Meeting>, n: nat)
    requires n <= |items| && DistinctKeys(items)
    ensures FirstsUpTo(items, n) == items[..n]
  {
    if n > 0 {
      FirstsOfDistinct(items, n - 1);
      assert IsFirst(items, n - 1);
      assert items[..n] == items[..n - 1] + [items[n - 1]];
    }
  }

  // ---------------------------------------------------------------------
  // Stable sort by start
  // ---------------------------------------------------------------------

  ghost predicate SortedByStart(ms: seq<Meeting>)
  {
    forall i, j :: 0 <= i < j < |ms| ==> ms[i].start <= ms[j].start
  }

  /** Puts `x` after every meeting that does not start later: how a stable sort places a later element. */
  function InsertByStart(sorted: seq<Meeting>, x: Meeting): (r: seq<Meeting>)
    ensures |r| == |sorted| + 1
  {
    if sorted == [] then [x]
    else if sorted[|sorted| - 1].start <= x.start then sorted + [x]
    else InsertByStart(sorted[..|sorted| - 1], x) + [sorted[|sorted| - 1]]
  }

  /** Inserting adds `x` and loses nothing. */
  lemma {:induction false} InsertMultiset(sorted: seq<Meeting>, x: Meeting)
    ensures multiset(InsertByStart(sorted, x)) == multiset(sorted) + multiset{x}
    decreases |sorted|
  {
    if sorted != [] && sorted[|sorted| - 1].start > x.start {
      var init := sorted[..|sorted| - 1];
      InsertMultiset(init, x);
      assert sorted == init + [sorted[|sorted| - 1]];
    }
  }

  /** Inserting into a sorted list keeps it sorted. */
  lemma {:induction false} InsertSorted(sorted: seq<Meeting>, x: Meeting)
    requires SortedByStart(sorted)
    ensures SortedByStart(InsertByStart(sorted, x))
    decreases |sorted|
  {
    if sorted == [] {
    } else {
      var init := sorted[..|sorted| - 1];
      var last := sorted[|sorted| - 1];
      if last.start <= x.start {
        forall m | m in sorted
          ensures m.start <= x.start
        {
          var k :| 0 <= k < |sorted| && sorted[k] == m;
        }
        SortedSnoc(sorted, x);
      } else {
        assert SortedByStart(init);
        InsertSorted(init, x);
        InsertMultiset(init, x);
        var s := InsertByStart(init, x);
        forall m | m in s
          ensures m.start <= last.start
        {
          assert m in multiset(s);
          if m != x {
            assert m in multiset(init);
            var k :| 0 <= k < |init| && init[k] == m;
            assert sorted[k] == m;
          }
        }
        SortedSnoc(s, last);
      }
    }
  }

  /** Appending a meeting that starts no earlier than any other keeps a sorted list sorted. */
  lemma SortedSnoc(s: seq<Meeting>, y: Meeting)
    requires SortedByStart(s)
    requires forall m :: m in s ==> m.start <= y.start
    ensures SortedByStart(s + [y])
  {
    var r := s + [y];
    forall i, j | 0 <= i < j < |r|
      ensures r[i].start <= r[j].start
    {
      assert r[i] == s[i];
      if j == |s| {
        assert s[i] in s;
      } else {
        assert r[j] == s[j];
      }
    }
  }

  /** `list.sort(key=lambda x: x.start)`: Python's sort is stable. */
  function SortByStart(ms: seq<Meeting>): (r: seq<Meeting>)
    ensures SortedByStart(r)
    ensures multiset(r) == multiset(ms)
    ensures |r| == |ms|
  {
    if ms == [] then []
    else
      var init := ms[..|ms| - 1];
      var last := ms[|ms| - 1];
      assert ms == init + [last];
      var sorted := SortByStart(init);
      InsertMultiset(sorted, last);
      InsertSorted(sorted, last);
      InsertByStart(sorted, last)
  }

  lemma InsertAtEnd(sorted: seq<Meeting>, x: Meeting)
    requires sorted == [] || sorted[|sorted| - 1].start <= x.start
    ensures InsertByStart(sorted, x) == sorted + [x]
  {
  }

  /** Sorting an already sorted list changes nothing. */
  lemma {:induction false} SortSorted(ms: seq<Meeting>)
    requires SortedByStart(ms)
    ensures SortByStart(ms) == ms
  {
    if ms != [] {
      var init := ms[..|ms| - 1];
      var x := ms[|ms| - 1];
      assert SortedByStart(init);
      SortSorted(init);
      assert ms == init + [x];
      InsertAtEnd(init, x);
    }
  }

  /** The meetings of `ms` that start at `t`, in their order in `ms`. */
  function StartingAt(ms: seq<Meeting>, t: Instant): seq<Meeting>
    decreases |ms|
  {
    if ms == [] then []
    else StartingAt(ms[..|ms| - 1], t) + (if ms[|ms| - 1].start == t then [ms[|ms| - 1]] else [])
  }

  /**
   * Stability: the meetings that start at the same time come out of the sort
   * in the order they went in.
   */
  lemma {:induction false} SortStable(ms: seq<Meeting>, t: Instant)
    ensures StartingAt(SortByStart(ms), t) == StartingAt(ms, t)
    decreases |ms|
  {
    if ms != [] {
      var init := ms[..|ms| - 1];
      var last := ms[|ms| - 1];
      SortStable(init, t);
      InsertStable(SortByStart(init), last, t);
    }
  }

  /** Inserting `x` puts it after the meetings with its start, and changes nothing else at any start. */
  lemma {:induction false} InsertStable(sorted: seq<Meeting>, x: Meeting, t: Instant)
    ensures StartingAt(InsertByStart(sorted, x), t) == StartingAt(sorted, t) + (if x.start == t then [x] else [])
    decreases |sorted|
  {
    if sorted == [] {
      assert [x][..0] == [];
    } else if sorted[|sorted| - 1].start <= x.start {
      assert (sorted + [x])[..|sorted|] == sorted;
    } else {
      var init := sorted[..|sorted| - 1];
      var last := sorted[|sorted| - 1];
      var r := InsertByStart(init, x);
      InsertStable(init, x, t);
      assert (r + [last])[..|r|] == r;
      assert StartingAt(r + [last], t) == StartingAt(r, t) + (if last.start == t then [last] else []);
    }
  }

  /** What `crawl` returns from the parsed meetings. */
  function DedupeAndSort(items: seq<Meeting>): seq<Meeting>
  {
    SortByStart(FirstOccurrences(items))
  }

  /** The final step of `crawl`: the de-duplication loop, then the in-place sort. */
  method Finish(items: seq<Meeting>) returns (unique: seq<Meeting>)
    ensures unique == DedupeAndSort(items)
    ensures SortedByStart(unique) && DistinctKeys(unique)
    ensures Keys(unique) == Keys(items)
  {
    unique := DedupeFirst(items);
    FirstOccurrencesSpec(items);
    DistinctUnderPermutation(unique, SortByStart(unique));
    KeysUnderPermutation(unique, SortByStart(unique));
    unique := SortByStart(unique);
  }

  lemma DistinctUnderPermutation(a: seq<Meeting>, b: seq<Meeting>)
    requires DistinctKeys(a) && multiset(a) == multiset(b)
    ensures DistinctKeys(b)
  {
    forall i, j | 0 <= i < j < |b| ensures KeyOf(b[i]) != KeyOf(b[j]) {
      assert b[i] in multiset(a) && b[j] in multiset(a);
      var i' :| 0 <= i' < |a| && a[i'] == b[i];
      var j' :| 0 <= j' < |a| && a[j'] == b[j];
      if i' == j' {
        assert multiset(b)[b[i]] >= 2 by {
          assert b[i] == b[j];
          var rest := b[..i] + b[i + 1..j] + b[j + 1..];
          assert b == b[..i] + [b[i]] + b[i + 1..j] + [b[j]] + b[j + 1..];
          assert multiset(b) == multiset(rest) + multiset{b[i], b[j]};
        }
        DistinctNoRepeat(a, i');
        assert false;
      }
    }
  }

  /** In a list without repeated keys, every element occurs once. */
  lemma DistinctNoRepeat(a: seq<Meeting>, i: nat)
    requires DistinctKeys(a) && i < |a|
    ensures multiset(a)[a[i]] == 1
  {
    assert a == a[..i] + [a[i]] + a[i + 1..];
    forall k | 0 <= k < |a[..i]| ensures a[..i][k] != a[i] {
      assert a[..i][k] == a[k];
    }
    var tail := a[i + 1..];
    forall k | 0 <= k < |tail| ensures tail[k] != a[i] {
      assert tail[k] == a[i + 1 + k];
    }
    NotInMultiset(a[..i], a[i]);
    NotInMultiset(a[i + 1..], a[i]);
  }

  lemma NotInMultiset(s: seq<Meeting>, x: Meeting)
    requires forall k :: 0 <= k < |s| ==> s[k] != x
    ensures multiset(s)[x] == 0
  {
    assert x !in s;
  }

  lemma KeysUnderPermutation(a: seq<Meeting>, b: seq<Meeting>)
    requires multiset(a) == multiset(b)
    ensures Keys(a) == Keys(b)
  {
    forall m ensures m in a <==> m in b {
      assert m in a <==> m in multiset(a);
      assert m in b <==> m in multiset(b);
    }
  }

  /** Running the final step on its own output changes nothing. */
  lemma DedupeAndSortIdempotent(items: seq<Meeting>)
    ensures DedupeAndSort(DedupeAndSort(items)) == DedupeAndSort(items)
  {
    var once := DedupeAndSort(items);
    FirstOccurrencesSpec(items);
    DistinctUnderPermutation(FirstOccurrences(items), once);
    FirstsOfDistinct(once, |once|);
    assert once[..|once|] == once;
    SortSorted(once);
  }
}
