// Small shared vocabulary: optional values, enumerations of sets, prefixes of runs.
module Prelude {

  datatype Option<+T> = None | Some(value: T)
  {
    function GetOr(default: T): T {
      if Some? then value else default
    }
  }

  /** `q` lists every element of `s` exactly once. This is all a caller may rely on when it
      iterates over a hash map, a hash set, or the reply of a set command. */
  ghost predicate Enumerates<T(!new)>(q: seq<T>, s: set<T>) {
    && (forall x :: x in s <==> x in q)
    && (forall i, j :: 0 <= i < j < |q| ==> q[i] != q[j])
  }

  /** Iteration over a set in an order the caller cannot predict. */
  method Enumerate<T(==,!new)>(s: set<T>) returns (q: seq<T>)
    ensures Enumerates(q, s)
    ensures |q| == |s|
  {
    q := [];
    var rest := s;
    while rest != {}
      invariant rest <= s
      invariant forall x :: x in s <==> x in rest || x in q
      invariant forall x :: x in q ==> x !in rest
      invariant forall i, j :: 0 <= i < j < |q| ==> q[i] != q[j]
      invariant |q| + |rest| == |s|
      decreases rest
    {
      var x :| x in rest;
      rest := rest - {x};
      q := q + [x];
    }
  }

  // ---------------------------------------------------------------- stable sorting

  function Insert<T>(less: (T, T) -> bool, s: seq<T>, x: T): seq<T> {
    if s != [] && less(x, s[|s| - 1]) then Insert(less, s[..|s| - 1], x) + [s[|s| - 1]] else s + [x]
  }

  /** The stable sort, as an array's own sort method gives it. */
  function Sort<T>(less: (T, T) -> bool, s: seq<T>): seq<T> {
    if s == [] then [] else Insert(less, Sort(less, s[..|s| - 1]), s[|s| - 1])
  }

  ghost predicate WeakOrder<T(!new)>(less: (T, T) -> bool) {
    && (forall a, b :: less(a, b) ==> !less(b, a))
    && (forall a, b, c :: less(a, c) ==> less(a, b) || less(b, c))
  }

  ghost predicate Ordered<T>(less: (T, T) -> bool, s: seq<T>) {
    forall i, j :: 0 <= i < j < |s| ==> !less(s[j], s[i])
  }

  lemma {:induction false} InsertKeepsOrder<T(!new)>(less: (T, T) -> bool, s: seq<T>, x: T)
    requires WeakOrder(less) && Ordered(less, s)
    ensures Ordered(less, Insert(less, s, x))
    ensures multiset(Insert(less, s, x)) == multiset(s) + multiset{x}
  {
    if s != [] {
      var before, last := s[..|s| - 1], s[|s| - 1];
      assert s == before + [last];
      if less(x, last) {
        InsertKeepsOrder(less, before, x);
        forall y | y in Insert(less, before, x) ensures !less(last, y) {
          assert y in multiset(Insert(less, before, x));
        }
      }
    }
  }

  lemma {:induction false} SortOrders<T(!new)>(less: (T, T) -> bool, s: seq<T>)
    requires WeakOrder(less)
    ensures Ordered(less, Sort(less, s)) && multiset(Sort(less, s)) == multiset(s)
    ensures |Sort(less, s)| == |s| && forall x :: x in Sort(less, s) <==> x in s
  {
    if s != [] {
      var before, last := s[..|s| - 1], s[|s| - 1];
      assert s == before + [last];
      SortOrders(less, before);
      InsertKeepsOrder(less, Sort(less, before), last);
    }
    assert |multiset(Sort(less, s))| == |multiset(s)|;
    forall x ensures x in Sort(less, s) <==> x in s {
      assert x in multiset(s) <==> x in s;
    }
  }

  /** The elements like this, in their order. */
  function Picked<T>(like: T -> bool, s: seq<T>): seq<T> {
    if s == [] then []
    else Picked(like, s[..|s| - 1]) + if like(s[|s| - 1]) then [s[|s| - 1]] else []
  }

  /** Elements of which none goes before another. */
  ghost predicate Alike<T(!new)>(less: (T, T) -> bool, like: T -> bool) {
    forall a, b :: like(a) && like(b) ==> !less(a, b)
  }

  lemma {:induction false} InsertIsStable<T(!new)>(less: (T, T) -> bool, like: T -> bool, s: seq<T>, x: T)
    requires Alike(less, like)
    ensures Picked(like, Insert(less, s, x)) == Picked(like, s) + if like(x) then [x] else []
  {
    if s != [] && less(x, s[|s| - 1]) {
      var before, last := s[..|s| - 1], s[|s| - 1];
      InsertIsStable(less, like, before, x);
      var r := Insert(less, before, x) + [last];
      assert r[..|r| - 1] == Insert(less, before, x);
    } else {
      var r := s + [x];
      assert r[..|r| - 1] == s;
    }
  }

  /** Elements of which none goes before another stay in the order they had. */
  lemma {:induction false} SortIsStable<T(!new)>(less: (T, T) -> bool, like: T -> bool, s: seq<T>)
    requires Alike(less, like)
    ensures Picked(like, Sort(less, s)) == Picked(like, s)
  {
    if s != [] {
      SortIsStable(less, like, s[..|s| - 1]);
      InsertIsStable(less, like, Sort(less, s[..|s| - 1]), s[|s| - 1]);
    }
  }
}
