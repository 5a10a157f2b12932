/** `Array.prototype.sort(comparefn)`.
    The sort is stable (ECMAScript 2019 onwards); when the comparator is not
    consistent the order it produces is implementation-defined.  The model is
    a stable insertion sort: an element moves in front of every element of
    the already-sorted prefix that compares greater than it.  What the
    lemmas below promise holds of every stable sort: a permutation always,
    ascending by the key whenever the comparator is a difference of keys, and
    no movement at all when nothing compares greater. */
module JsSort {

  function Insert<T>(sorted: seq<T>, x: T, cmp: (T, T) -> int): (r: seq<T>)
    ensures |r| == |sorted| + 1
    ensures multiset(r) == multiset(sorted) + multiset{x}
  {
    if sorted == [] then [x]
    else
      var last := sorted[|sorted| - 1];
      if cmp(last, x) > 0 then
        var r := Insert(sorted[..|sorted| - 1], x, cmp) + [last];
        assert sorted == sorted[..|sorted| - 1] + [last];
        r
      else sorted + [x]
  }

  /** `s.slice().sort(cmp)`. */
  function Sort<T>(s: seq<T>, cmp: (T, T) -> int): (r: seq<T>)
    ensures |r| == |s|
    ensures multiset(r) == multiset(s)
  {
    if s == [] then []
    else
      var r := Insert(Sort(s[..|s| - 1], cmp), s[|s| - 1], cmp);
      assert s == s[..|s| - 1] + [s[|s| - 1]];
      r
  }

  ghost predicate SortedBy<T>(s: seq<T>, key: T -> int) {
    forall i, j | 0 <= i < j < |s| :: key(s[i]) <= key(s[j])
  }

  /** On the elements of `s`, `cmp` is the difference of their keys. */
  ghost predicate ConsistentOn<T>(s: seq<T>, cmp: (T, T) -> int, key: T -> int) {
    forall a, b | a in s && b in s :: cmp(a, b) == key(a) - key(b)
  }

  /** Every element of an insertion is the inserted one or was there before. */
  lemma InsertMembers<T>(sorted: seq<T>, x: T, cmp: (T, T) -> int)
    ensures forall e | e in Insert(sorted, x, cmp) :: e == x || e in sorted
  {
    forall e | e in Insert(sorted, x, cmp) ensures e == x || e in sorted {
      assert e in multiset(Insert(sorted, x, cmp));
    }
  }

  /** Appending an element no smaller than any other keeps a list sorted. */
  lemma SortedSnoc<T>(s: seq<T>, y: T, key: T -> int)
    requires SortedBy(s, key)
    requires forall e | e in s :: key(e) <= key(y)
    ensures SortedBy(s + [y], key)
  {
    var r := s + [y];
    forall i, j | 0 <= i < j < |r| ensures key(r[i]) <= key(r[j]) {
      assert r[i] == s[i];
      if j < |s| {
        assert r[j] == s[j];
      } else {
        assert s[i] in s;
      }
    }
  }

  lemma {:induction false} InsertSorted<T>(sorted: seq<T>, x: T, cmp: (T, T) -> int, key: T -> int)
    requires SortedBy(sorted, key)
    requires ConsistentOn(sorted + [x], cmp, key)
    ensures SortedBy(Insert(sorted, x, cmp), key)
  {
    if sorted != [] {
      var init, last := sorted[..|sorted| - 1], sorted[|sorted| - 1];
      assert last in sorted + [x] && x in sorted + [x];
      forall e | e in sorted ensures key(e) <= key(last) {
        var k :| 0 <= k < |sorted| && sorted[k] == e;
        if k < |sorted| - 1 {
          assert key(sorted[k]) <= key(sorted[|sorted| - 1]);
        }
      }
      if cmp(last, x) > 0 {
        assert SortedBy(init, key) by {
          forall i, j | 0 <= i < j < |init| ensures key(init[i]) <= key(init[j]) {
            assert init[i] == sorted[i] && init[j] == sorted[j];
          }
        }
        assert forall e | e in init + [x] :: e in sorted + [x];
        InsertSorted(init, x, cmp, key);
        InsertMembers(init, x, cmp);
        assert forall e | e in init :: e in sorted;
        SortedSnoc(Insert(init, x, cmp), last, key);
      } else {
        SortedSnoc(sorted, x, key);
      }
    }
  }

  /** With a comparator that is a difference of keys, the sort orders by the key. */
  lemma {:induction false} SortSorts<T>(s: seq<T>, cmp: (T, T) -> int, key: T -> int)
    requires ConsistentOn(s, cmp, key)
    ensures SortedBy(Sort(s, cmp), key)
  {
    if s != [] {
      var init := s[..|s| - 1];
      assert forall e | e in init :: e in s;
      SortSorts(init, cmp, key);
      var sorted := Sort(init, cmp);
      forall e | e in sorted + [s[|s| - 1]]
        ensures e in s
      {
        if e in sorted { assert e in multiset(sorted); assert e in multiset(init); }
      }
      InsertSorted(sorted, s[|s| - 1], cmp, key);
    }
  }

  /** When no element compares greater than another, the sort leaves the order alone. */
  lemma {:induction false} SortKeepsOrder<T>(s: seq<T>, cmp: (T, T) -> int)
    requires forall a, b | a in s && b in s :: cmp(a, b) <= 0
    ensures Sort(s, cmp) == s
  {
    if s != [] {
      var init, x := s[..|s| - 1], s[|s| - 1];
      assert s == init + [x];
      forall a, b | a in init && b in init ensures cmp(a, b) <= 0 {
        assert a in s && b in s;
      }
      SortKeepsOrder(init, cmp);
      assert Sort(s, cmp) == Insert(init, x, cmp);
      if init != [] {
        assert init[|init| - 1] in s && x in s;
        assert cmp(init[|init| - 1], x) <= 0;
      }
    }
  }

  /** Two elements are swapped exactly when the first compares greater. */
  lemma SortPair<T>(a: T, b: T, cmp: (T, T) -> int)
    ensures Sort([a, b], cmp) == if cmp(a, b) > 0 then [b, a] else [a, b]
  {
    assert [a, b][..1] == [a];
    assert [a][..0] == [];
    assert Sort([a], cmp) == [a];
  }

  /** Concatenation is associative. */
  lemma ConcatAssoc<T>(x: seq<T>, y: seq<T>, z: seq<T>)
    ensures x + (y + z) == (x + y) + z
  {
  }

  /** The head and the tail of a concatenation with a non-empty front. */
  lemma ConcatTail<T>(a: seq<T>, b: seq<T>)
    requires a != []
    ensures (a + b)[0] == a[0] && (a + b)[1..] == a[1..] + b
  {
  }
}
