/** The array idioms of the product store: find by key, replace by key, sort, and the lack of
    duplicate keys they rely on. */
module Lists {
  import opened Prelude

  /** `find`: the first element that satisfies `p`. */
  function First<T(!new)>(s: seq<T>, p: T -> bool): (r: Option<T>)
    ensures r.Some? ==> r.value in s && p(r.value)
    ensures r.None? ==> forall x :: x in s ==> !p(x)
  {
    if s == [] then None
    else if p(s[0]) then Some(s[0])
    else First(s[1..], p)
  }

  /** No two elements share a key. */
  predicate Unique<T(==), K(==)>(s: seq<T>, key: T -> K) {
    s == [] ||
    var front, last := s[..|s| - 1], s[|s| - 1];
    Unique(front, key) && forall x :: x in front ==> key(x) != key(last)
  }

  /** `y` in the place of the element with its key. */
  function Put<T(!new), K(==)>(s: seq<T>, key: T -> K, y: T): (r: seq<T>)
    ensures |r| == |s|
    ensures forall x :: x in r ==> (x in s && key(x) != key(y)) || x == y
    ensures forall x :: x in s && key(x) != key(y) ==> x in r
    ensures y in r <==> exists x :: x in s && key(x) == key(y)
  {
    if s == [] then
      []
    else
      var front, last := s[..|s| - 1], s[|s| - 1];
      assert s == front + [last];
      Put(front, key, y) + [if key(last) == key(y) then y else last]
  }

  /** One step of the sort: `x` before the first element it comes before. */
  function Insert<T(!new)>(s: seq<T>, x: T, before: (T, T) -> bool): (r: seq<T>)
    ensures |r| == |s| + 1
    ensures forall y :: y in r <==> y in s || y == x
  {
    if s == [] then
      [x]
    else
      var front, last := s[..|s| - 1], s[|s| - 1];
      assert s == front + [last];
      if before(x, last) then Insert(front, x, before) + [last] else s + [x]
  }

  /** A stable sort. */
  function Sort<T(!new)>(s: seq<T>, before: (T, T) -> bool): (r: seq<T>)
    ensures |r| == |s|
    ensures forall y :: y in r <==> y in s
  {
    if s == [] then
      []
    else
      var front, last := s[..|s| - 1], s[|s| - 1];
      assert s == front + [last];
      Insert(Sort(front, before), last, before)
  }

  /** A filter that drops an element makes the list shorter. */
  lemma {:induction false} FilterShrinks<T(!new)>(s: seq<T>, keep: T -> bool)
    ensures (exists x :: x in s && !keep(x)) ==> |Filter(s, keep)| < |s|
  {
    if s != [] {
      var front, last := s[..|s| - 1], s[|s| - 1];
      assert s == front + [last];
      FilterShrinks(front, keep);
    }
  }

  lemma {:induction false} UniqueMember<T, K>(s: seq<T>, key: T -> K, x: T, y: T)
    requires Unique(s, key) && x in s && y in s && key(x) == key(y)
    ensures x == y
  {
    var front, last := s[..|s| - 1], s[|s| - 1];
    assert s == front + [last];
    if x in front && y in front {
      UniqueMember(front, key, x, y);
    }
  }

  lemma {:induction false} AppendUnique<T, K>(s: seq<T>, key: T -> K, y: T)
    requires Unique(s, key) && forall x :: x in s ==> key(x) != key(y)
    ensures Unique(s + [y], key)
  {
    assert (s + [y])[..|s|] == s;
  }

  lemma {:induction false} FilterUnique<T(!new), K>(s: seq<T>, keep: T -> bool, key: T -> K)
    requires Unique(s, key)
    ensures Unique(Filter(s, keep), key)
  {
    if s != [] {
      var front, last := s[..|s| - 1], s[|s| - 1];
      FilterUnique(front, keep, key);
      if keep(last) {
        AppendUnique(Filter(front, keep), key, last);
      }
    }
  }

  lemma {:induction false} PutUnique<T(!new), K>(s: seq<T>, key: T -> K, y: T)
    requires Unique(s, key)
    ensures Unique(Put(s, key, y), key)
  {
    if s != [] {
      var front, last := s[..|s| - 1], s[|s| - 1];
      PutUnique(front, key, y);
      AppendUnique(Put(front, key, y), key, if key(last) == key(y) then y else last);
    }
  }

  lemma {:induction false} InsertUnique<T(!new), K>(s: seq<T>, x: T, before: (T, T) -> bool, key: T -> K)
    requires Unique(s, key) && forall y :: y in s ==> key(y) != key(x)
    ensures Unique(Insert(s, x, before), key)
  {
    if s == [] {
      AppendUnique([], key, x);
    } else {
      var front, last := s[..|s| - 1], s[|s| - 1];
      assert s == front + [last];
      if before(x, last) {
        InsertUnique(front, x, before, key);
        AppendUnique(Insert(front, x, before), key, last);
      } else {
        AppendUnique(s, key, x);
      }
    }
  }

  lemma {:induction false} SortUnique<T(!new), K>(s: seq<T>, before: (T, T) -> bool, key: T -> K)
    requires Unique(s, key)
    ensures Unique(Sort(s, before), key)
  {
    if s != [] {
      var front, last := s[..|s| - 1], s[|s| - 1];
      SortUnique(front, before, key);
      InsertUnique(Sort(front, before), last, before, key);
    }
  }

  /** Nothing comes before anything to its left. */
  ghost predicate Ordered<T>(s: seq<T>, before: (T, T) -> bool) {
    s == [] ||
    var front, last := s[..|s| - 1], s[|s| - 1];
    Ordered(front, before) && forall x :: x in front ==> !before(last, x)
  }

  /** A strict weak order. */
  ghost predicate IsOrder<T(!new)>(before: (T, T) -> bool) {
    && (forall x, y :: before(x, y) ==> !before(y, x))
    && (forall x, y, z :: !before(x, y) && !before(y, z) ==> !before(x, z))
  }

  lemma {:induction false} InsertOrders<T(!new)>(s: seq<T>, x: T, before: (T, T) -> bool)
    requires IsOrder(before) && Ordered(s, before)
    ensures Ordered(Insert(s, x, before), before)
  {
    if s != [] {
      var front, last := s[..|s| - 1], s[|s| - 1];
      assert s == front + [last];
      if before(x, last) {
        InsertOrders(front, x, before);
        assert (Insert(front, x, before) + [last])[..|s|] == Insert(front, x, before);
      } else {
        assert (s + [x])[..|s|] == s;
      }
    }
  }

  lemma {:induction false} SortOrders<T(!new)>(s: seq<T>, before: (T, T) -> bool)
    requires IsOrder(before)
    ensures Ordered(Sort(s, before), before)
  {
    if s != [] {
      SortOrders(s[..|s| - 1], before);
      InsertOrders(Sort(s[..|s| - 1], before), s[|s| - 1], before);
    }
  }
}
