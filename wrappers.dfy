/** Optional values: Python's `None` versus a present value. */
module Wrappers {

  datatype Option<+T> = None | Some(value: T) {

    /** The value, or `default` when there is none. */
    function GetOr(default: T): T
    {
      match this
      case Some(v) => v
      case None => default
    }
  }

  /** The present values of `os`, in order: a loop that appends only the values it gets. */
  function Somes<T>(os: seq<Option<T>>): (r: seq<T>)
    ensures |r| <= |os|
  {
    if os == [] then [] else (if os[0].Some? then [os[0].value] else []) + Somes(os[1..])
  }

  lemma {:induction false} SomesAppend<T>(a: seq<Option<T>>, b: seq<Option<T>>)
    ensures Somes(a + b) == Somes(a) + Somes(b)
    decreases |a|
  {
    if a == [] {
      assert a + b == b;
    } else {
      assert (a + b)[0] == a[0];
      assert (a + b)[1..] == a[1..] + b;
      SomesAppend(a[1..], b);
    }
  }

  /** Appending one more optional value appends its value, if any. */
  lemma SomesSnoc<T>(a: seq<Option<T>>, o: Option<T>)
    ensures Somes(a + [o]) == Somes(a) + (if o.Some? then [o.value] else [])
  {
    SomesAppend(a, [o]);
    assert [o][1..] == [];
  }

  /** `x` is kept exactly when `Some(x)` is among the optional values. */
  lemma {:induction false} SomesMember<T>(os: seq<Option<T>>, x: T)
    ensures x in Somes(os) <==> Some(x) in os
    decreases |os|
  {
    if os != [] {
      SomesMember(os[1..], x);
      assert os == [os[0]] + os[1..];
    }
  }

  /** `f` applied to every element, in order. */
  function Mapped<T, U>(xs: seq<T>, f: T -> U): (ys: seq<U>)
    ensures |ys| == |xs|
    decreases |xs|
  {
    if xs == [] then [] else Mapped(xs[..|xs| - 1], f) + [f(xs[|xs| - 1])]
  }

  /** Each element of the map is `f` of the element at the same place. */
  lemma {:induction false} MappedAt<T, U>(xs: seq<T>, f: T -> U, i: nat)
    requires i < |xs|
    ensures Mapped(xs, f)[i] == f(xs[i])
    decreases |xs|
  {
    var n := |xs| - 1;
    if i < n {
      MappedAt(xs[..n], f, i);
    }
  }

  /** The map taken from the front: the first element's image, then the rest's. */
  lemma MappedCons<T, U>(xs: seq<T>, f: T -> U)
    requires xs != []
    ensures Mapped(xs, f) == [f(xs[0])] + Mapped(xs[1..], f)
  {
    var l := Mapped(xs, f);
    var r := [f(xs[0])] + Mapped(xs[1..], f);
    forall i | 0 <= i < |xs| ensures l[i] == r[i] {
      MappedAt(xs, f, i);
      if i > 0 {
        MappedAt(xs[1..], f, i - 1);
      }
    }
  }
}
