/** Stable insertion sort, for any strict weak order. */
module Sorting {
  /** Puts x behind everything it is not less than. */
  function Insert<T>(s: seq<T>, x: T, less: (T, T) -> bool): seq<T> {
    if s == [] || !less(x, s[|s| - 1]) then s + [x] else Insert(s[..|s| - 1], x, less) + [s[|s| - 1]]
  }

  function Sort<T>(s: seq<T>, less: (T, T) -> bool): seq<T> {
    if s == [] then [] else Insert(Sort(s[..|s| - 1], less), s[|s| - 1], less)
  }

  // ---- Strict weak orders ----

  ghost predicate Asymmetric<T>(less: (T, T) -> bool, a: T, b: T) {
    less(a, b) ==> !less(b, a)
  }

  ghost predicate Between<T>(less: (T, T) -> bool, a: T, b: T, c: T) {
    less(a, b) ==> less(a, c) || less(c, b)
  }

  ghost predicate WeakOrder<T(!new)>(less: (T, T) -> bool) {
    && (forall a, b :: Asymmetric(less, a, b))
    && (forall a, b, c :: Between(less, a, b, c))
  }

  ghost predicate Ordered<T(!new)>(s: seq<T>, less: (T, T) -> bool) {
    forall i, j :: 0 <= i < j < |s| ==> !less(s[j], s[i])
  }

  // ---- The result is the same elements in order ----

  lemma {:induction false} InsertContents<T(!new)>(s: seq<T>, x: T, less: (T, T) -> bool)
    ensures |Insert(s, x, less)| == |s| + 1 && multiset(Insert(s, x, less)) == multiset(s) + multiset{x}
  {
    if !(s == [] || !less(x, s[|s| - 1])) {
      InsertContents(s[..|s| - 1], x, less);
      assert s == s[..|s| - 1] + [s[|s| - 1]];
    }
  }

  lemma {:induction false} InsertOrdered<T(!new)>(s: seq<T>, x: T, less: (T, T) -> bool)
    requires WeakOrder(less) && Ordered(s, less)
    ensures Ordered(Insert(s, x, less), less)
  {
    var last := |s| - 1;
    if s == [] || !less(x, s[last]) {
      forall i | 0 <= i < |s|
        ensures !less(x, s[i])
      {
        assert i < last ==> !less(s[last], s[i]);
        assert Between(less, x, s[i], s[last]);
      }
    } else {
      var r := Insert(s[..last], x, less);
      InsertOrdered(s[..last], x, less);
      InsertContents(s[..last], x, less);
      forall i | 0 <= i < |r|
        ensures !less(s[last], r[i])
      {
        assert r[i] in multiset(r);
        assert Asymmetric(less, x, s[last]);
      }
    }
  }

  lemma {:induction false} SortContents<T(!new)>(s: seq<T>, less: (T, T) -> bool)
    ensures |Sort(s, less)| == |s| && multiset(Sort(s, less)) == multiset(s)
  {
    if s != [] {
      var last := |s| - 1;
      assert multiset(s) == multiset(s[..last]) + multiset{s[last]} by {
        assert s == s[..last] + [s[last]];
      }
      SortContents(s[..last], less);
      InsertContents(Sort(s[..last], less), s[last], less);
    }
  }

  lemma {:induction false} SortOrdered<T(!new)>(s: seq<T>, less: (T, T) -> bool)
    requires WeakOrder(less)
    ensures Ordered(Sort(s, less), less)
  {
    if s != [] {
      SortOrdered(s[..|s| - 1], less);
      InsertOrdered(Sort(s[..|s| - 1], less), s[|s| - 1], less);
    }
  }

  // ---- Stability ----

  ghost predicate Tied<T>(less: (T, T) -> bool, a: T, b: T) {
    !less(a, b) && !less(b, a)
  }

  /** The elements that the order does not tell from x, in their order. */
  ghost function TiedWith<T>(s: seq<T>, x: T, less: (T, T) -> bool): seq<T> {
    if s == [] then []
    else TiedWith(s[..|s| - 1], x, less) + (if Tied(less, s[|s| - 1], x) then [s[|s| - 1]] else [])
  }

  lemma {:induction false} InsertStable<T(!new)>(s: seq<T>, e: T, x: T, less: (T, T) -> bool)
    requires WeakOrder(less)
    ensures TiedWith(Insert(s, e, less), x, less)
         == TiedWith(s, x, less) + (if Tied(less, e, x) then [e] else [])
  {
    var last := |s| - 1;
    if s == [] || !less(e, s[last]) {
      assert (s + [e])[..|s|] == s;
    } else {
      var r := Insert(s[..last], e, less);
      InsertStable(s[..last], e, x, less);
      assert (r + [s[last]])[..|r|] == r;
      assert Between(less, e, s[last], x);
    }
  }

  /** Elements that the order does not tell apart stay in their order. */
  lemma {:induction false} SortStable<T(!new)>(s: seq<T>, x: T, less: (T, T) -> bool)
    requires WeakOrder(less)
    ensures TiedWith(Sort(s, less), x, less) == TiedWith(s, x, less)
  {
    if s != [] {
      SortStable(s[..|s| - 1], x, less);
      InsertStable(Sort(s[..|s| - 1], less), s[|s| - 1], x, less);
    }
  }
}
