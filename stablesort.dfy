// The stable sort the display applies to the sprites it keeps (gpu.go calls Go's `sort.Stable`).
// The ordering itself is not part of this model: it is any integer key on the elements.

module StableSort {

  /** `s` is in non-decreasing order of `key`. */
  ghost predicate SortedBy<T>(s: seq<T>, key: T -> int)
  {
    forall i, j :: 0 <= i < j < |s| ==> key(s[i]) <= key(s[j])
  }

  /** The elements of `s` whose key is `k`, in their order in `s`. */
  function WithKey<T>(s: seq<T>, key: T -> int, k: int): seq<T>
    decreases |s|
  {
    if |s| == 0 then []
    else WithKey(s[..|s| - 1], key, k) + (if key(s[|s| - 1]) == k then [s[|s| - 1]] else [])
  }

  /** Inserts `x` into `t` after every element whose key is not larger. */
  function Insert<T>(t: seq<T>, x: T, key: T -> int): (r: seq<T>)
    decreases |t|
  {
    if |t| == 0 then [x]
    else if key(t[|t| - 1]) <= key(x) then t + [x]
    else Insert(t[..|t| - 1], x, key) + [t[|t| - 1]]
  }

  /** Insertion sort: each element in turn is inserted behind the sorted elements before it. */
  function Sort<T>(s: seq<T>, key: T -> int): (r: seq<T>)
    decreases |s|
  {
    if |s| == 0 then []
    else Insert(Sort(s[..|s| - 1], key), s[|s| - 1], key)
  }

  /** Inserting into a sorted sequence keeps it sorted and adds exactly the inserted element. */
  lemma {:induction false} InsertSorted<T>(t: seq<T>, x: T, key: T -> int)
    requires SortedBy(t, key)
    ensures SortedBy(Insert(t, x, key), key)
    ensures multiset(Insert(t, x, key)) == multiset(t) + multiset{x}
    decreases |t|
  {
    if |t| == 0 {
    } else if key(t[|t| - 1]) <= key(x) {
    } else {
      var front, last := t[..|t| - 1], t[|t| - 1];
      assert t == front + [last];
      InsertSorted(front, x, key);
      var r := Insert(front, x, key);
      forall y | y in r
        ensures key(y) <= key(last)
      {
        assert y in multiset(r);
        if y != x {
          assert y in multiset(front);
          var i :| 0 <= i < |front| && front[i] == y;
          assert t[i] == y;
        }
      }
      forall i, j | 0 <= i < j < |r| + 1
        ensures key((r + [last])[i]) <= key((r + [last])[j])
      {
        if j == |r| {
          assert (r + [last])[i] in r;
        }
      }
    }
  }

  /** Insertion puts `x` behind every element with its key, so each key's elements keep their order. */
  lemma {:induction false} InsertStable<T>(t: seq<T>, x: T, key: T -> int, k: int)
    ensures WithKey(Insert(t, x, key), key, k) == WithKey(t, key, k) + (if key(x) == k then [x] else [])
    decreases |t|
  {
    if |t| == 0 {
      assert WithKey([x], key, k) == WithKey([], key, k) + (if key(x) == k then [x] else []) by {
        assert [x][..0] == [];
      }
    } else if key(t[|t| - 1]) <= key(x) {
      assert (t + [x])[..|t|] == t;
    } else {
      var front, last := t[..|t| - 1], t[|t| - 1];
      var r := Insert(front, x, key);
      assert (r + [last])[..|r|] == r;
      InsertStable(front, x, key, k);
      assert WithKey(t, key, k) == WithKey(front, key, k) + (if key(last) == k then [last] else []);
    }
  }

  /**
    * The sort orders by key, is a permutation, and is stable: the elements with any one key
    * come out in the order they went in.
    */
  lemma {:induction false} SortIsStable<T>(s: seq<T>, key: T -> int)
    ensures SortedBy(Sort(s, key), key)
    ensures multiset(Sort(s, key)) == multiset(s)
    ensures forall k :: WithKey(Sort(s, key), key, k) == WithKey(s, key, k)
    decreases |s|
  {
    if |s| > 0 {
      var front, last := s[..|s| - 1], s[|s| - 1];
      assert s == front + [last];
      SortIsStable(front, key);
      InsertSorted(Sort(front, key), last, key);
      forall k
        ensures WithKey(Sort(s, key), key, k) == WithKey(s, key, k)
      {
        InsertStable(Sort(front, key), last, key, k);
      }
    }
  }
}
