/**
 * Orders and `sorted(set(...))`: Python's string comparison, strict total
 * orders, and the ascending listing of a finite set under such an order.
 */
module Ordering {

  /** Python's `a < b` on `str`: lexicographic by code point, a proper prefix first. */
  predicate LexLess(a: string, b: string)
  {
    if a == [] then b != []
    else if b == [] then false
    else if a[0] != b[0] then a[0] < b[0]
    else LexLess(a[1..], b[1..])
  }

  lemma {:induction false} LexIrreflexive(a: string)
    ensures !LexLess(a, a)
  {
    if a != [] {
      LexIrreflexive(a[1..]);
    }
  }

  lemma {:induction false} LexTransitive(a: string, b: string, c: string)
    requires LexLess(a, b) && LexLess(b, c)
    ensures LexLess(a, c)
  {
    if a != [] && b != [] && c != [] && a[0] == b[0] && b[0] == c[0] {
      LexTransitive(a[1..], b[1..], c[1..]);
    }
  }

  lemma {:induction false} LexTotal(a: string, b: string)
    requires a != b
    ensures LexLess(a, b) || LexLess(b, a)
  {
    if a != [] && b != [] && a[0] == b[0] {
      assert a == [a[0]] + a[1..] && b == [b[0]] + b[1..];
      LexTotal(a[1..], b[1..]);
    }
  }

  /** `lt` is irreflexive, transitive and relates any two different values. */
  ghost predicate StrictTotal<T(!new)>(lt: (T, T) -> bool)
  {
    && (forall x :: !lt(x, x))
    && (forall x, y, z :: lt(x, y) && lt(y, z) ==> lt(x, z))
    && (forall x, y :: x != y ==> lt(x, y) || lt(y, x))
  }

  /** Python's string `<` is a strict total order. */
  lemma LexStrictTotal()
    ensures StrictTotal(LexLess)
  {
    forall x: string ensures !LexLess(x, x) {
      LexIrreflexive(x);
    }
    forall x: string, y: string, z: string | LexLess(x, y) && LexLess(y, z)
      ensures LexLess(x, z)
    {
      LexTransitive(x, y, z);
    }
    forall x: string, y: string | x != y ensures LexLess(x, y) || LexLess(y, x) {
      LexTotal(x, y);
    }
  }

  /** Every element is strictly smaller than every later one. */
  ghost predicate Ascending<T>(xs: seq<T>, lt: (T, T) -> bool)
  {
    forall i, j :: 0 <= i < j < |xs| ==> lt(xs[i], xs[j])
  }

  predicate IsMin<T(==)>(m: T, s: set<T>, lt: (T, T) -> bool)
  {
    m in s && forall y :: y in s && y != m ==> lt(m, y)
  }

  lemma {:induction false} MinExists<T(!new)>(s: set<T>, lt: (T, T) -> bool)
    requires s != {} && StrictTotal(lt)
    ensures exists m :: IsMin(m, s, lt)
    decreases |s|
  {
    var x :| x in s;
    if s == {x} {
      assert IsMin(x, s, lt);
    } else {
      MinExists(s - {x}, lt);
      var m :| IsMin(m, s - {x}, lt);
      if lt(x, m) {
        forall y | y in s && y != x ensures lt(x, y) {
          if y != m {
            assert y in s - {x};
            assert lt(m, y);
          }
        }
        assert IsMin(x, s, lt);
      } else {
        assert IsMin(m, s, lt);
      }
    }
  }

  lemma MinUnique<T(!new)>(s: set<T>, lt: (T, T) -> bool)
    requires StrictTotal(lt)
    ensures forall m1, m2 :: IsMin(m1, s, lt) && IsMin(m2, s, lt) ==> m1 == m2
  {
  }

  /** `sorted(s)` for a set: its elements, each once, in ascending order. */
  function SortedSet<T(!new)>(s: set<T>, lt: (T, T) -> bool): (r: seq<T>)
    requires StrictTotal(lt)
    ensures Ascending(r, lt)
    ensures forall x :: x in r <==> x in s
    ensures |r| == |s|
    decreases |s|
  {
    if s == {} then []
    else
      MinExists(s, lt);
      MinUnique(s, lt);
      var m :| IsMin(m, s, lt);
      [m] + SortedSet(s - {m}, lt)
  }

  /** The head of an ascending listing of `s` is the minimum of `s`. */
  lemma AscendingHeadIsMin<T(!new)>(xs: seq<T>, s: set<T>, lt: (T, T) -> bool)
    requires xs != [] && Ascending(xs, lt) && (forall x :: x in xs <==> x in s)
    ensures IsMin(xs[0], s, lt)
  {
    forall y | y in s && y != xs[0] ensures lt(xs[0], y) {
      var j :| 0 <= j < |xs| && xs[j] == y;
    }
  }

  /** The tail of an ascending listing of `s` lists `s` without its head. */
  lemma AscendingTail<T(!new)>(xs: seq<T>, s: set<T>, lt: (T, T) -> bool)
    requires StrictTotal(lt)
    requires xs != [] && Ascending(xs, lt) && (forall x :: x in xs <==> x in s)
    ensures Ascending(xs[1..], lt)
    ensures forall x :: x in xs[1..] <==> x in s - {xs[0]}
  {
    forall x ensures x in xs[1..] <==> x in s - {xs[0]} {
      if x in xs[1..] {
        var j :| 1 <= j < |xs| && xs[j] == x;
        assert lt(xs[0], xs[j]);
      }
      if x in s - {xs[0]} {
        var j :| 0 <= j < |xs| && xs[j] == x;
        assert j != 0;
        assert xs[1..][j - 1] == x;
      }
    }
  }

  /** `SortedSet` of a non-empty set starts at its minimum and goes on with the rest. */
  lemma SortedSetUnfold<T(!new)>(s: set<T>, lt: (T, T) -> bool)
    requires StrictTotal(lt) && s != {}
    ensures SortedSet(s, lt) != [] && IsMin(SortedSet(s, lt)[0], s, lt)
    ensures SortedSet(s, lt)[1..] == SortedSet(s - {SortedSet(s, lt)[0]}, lt)
  {
  }

  /** An ascending listing of a set is the one `SortedSet` gives. */
  lemma {:induction false} AscendingListingUnique<T(!new)>(xs: seq<T>, s: set<T>, lt: (T, T) -> bool)
    requires StrictTotal(lt)
    requires Ascending(xs, lt) && (forall x :: x in xs <==> x in s)
    ensures xs == SortedSet(s, lt)
    decreases |xs|
  {
    var r := SortedSet(s, lt);
    if xs == [] {
      assert s == {};
    } else {
      AscendingHeadIsMin(xs, s, lt);
      SortedSetUnfold(s, lt);
      MinUnique(s, lt);
      assert xs[0] == r[0];
      AscendingTail(xs, s, lt);
      AscendingListingUnique(xs[1..], s - {xs[0]}, lt);
      assert xs == [xs[0]] + xs[1..];
      assert r == [r[0]] + r[1..];
    }
  }

  /** `sorted(s)` for a set of strings. */
  function SortedStrings(s: set<string>): (r: seq<string>)
    ensures Ascending(r, LexLess)
    ensures forall x :: x in r <==> x in s
    ensures |r| == |s|
  {
    LexStrictTotal();
    SortedSet(s, LexLess)
  }
}
