/**
  Python's `list.sort(key=..., reverse=True)`: a stable sort into non-increasing
  key order, where elements with equal keys keep their original relative order.
  An ascending stable sort by `k` is the same as this sort by `-k`.
*/
module StableSort {

  /** Non-increasing key order. */
  ghost predicate SortedDesc<T>(xs: seq<T>, key: T -> int) {
    forall i, j | 0 <= i < j < |xs| :: key(xs[i]) >= key(xs[j])
  }

  /** The elements of `xs` whose key is `k`, in their order in `xs`. */
  function WithKey<T>(xs: seq<T>, key: T -> int, k: int): seq<T> {
    if xs == [] then []
    else (if key(xs[0]) == k then [xs[0]] else []) + WithKey(xs[1..], key, k)
  }

  /** Places `x` after every element whose key is at least `key(x)`. */
  function Insert<T>(s: seq<T>, x: T, key: T -> int): (r: seq<T>)
    ensures |r| == |s| + 1
  {
    if s == [] then [x]
    else if key(s[0]) >= key(x) then [s[0]] + Insert(s[1..], x, key)
    else [x] + s
  }

  /** Stable sort into non-increasing key order. */
  function SortDesc<T>(xs: seq<T>, key: T -> int): (r: seq<T>)
    ensures |r| == |xs|
  {
    if xs == [] then [] else Insert(SortDesc(xs[..|xs| - 1], key), xs[|xs| - 1], key)
  }

  // ---------------------------------------------------------------------------

  lemma {:induction false} WithKeyAppend<T>(a: seq<T>, b: seq<T>, key: T -> int, k: int)
    ensures WithKey(a + b, key, k) == WithKey(a, key, k) + WithKey(b, key, k)
  {
    if a == [] {
      assert a + b == b;
    } else {
      var head := if key(a[0]) == k then [a[0]] else [];
      assert (a + b)[0] == a[0];
      assert (a + b)[1..] == a[1..] + b;
      WithKeyAppend(a[1..], b, key, k);
      assert WithKey(a + b, key, k) == head + WithKey(a[1..] + b, key, k);
      assert WithKey(a, key, k) == head + WithKey(a[1..], key, k);
    }
  }

  lemma {:induction false} WithKeyAbsent<T>(s: seq<T>, key: T -> int, k: int)
    requires forall i | 0 <= i < |s| :: key(s[i]) < k
    ensures WithKey(s, key, k) == []
  {
    if s != [] {
      WithKeyAbsent(s[1..], key, k);
    }
  }

  lemma {:induction false} InsertPermutation<T>(s: seq<T>, x: T, key: T -> int)
    ensures multiset(Insert(s, x, key)) == multiset(s) + multiset{x}
  {
    if s != [] && key(s[0]) >= key(x) {
      InsertPermutation(s[1..], x, key);
      assert s == [s[0]] + s[1..];
    }
  }

  lemma {:induction false} InsertBounded<T>(s: seq<T>, x: T, key: T -> int, b: int)
    requires forall i | 0 <= i < |s| :: key(s[i]) <= b
    requires key(x) <= b
    ensures forall j | 0 <= j < |Insert(s, x, key)| :: key(Insert(s, x, key)[j]) <= b
  {
    if s != [] && key(s[0]) >= key(x) {
      assert forall i | 0 <= i < |s[1..]| :: s[1..][i] == s[i + 1];
      InsertBounded(s[1..], x, key, b);
    }
  }

  lemma {:induction false} InsertSorted<T>(s: seq<T>, x: T, key: T -> int)
    requires SortedDesc(s, key)
    ensures SortedDesc(Insert(s, x, key), key)
  {
    if s != [] && key(s[0]) >= key(x) {
      var tail := s[1..];
      assert forall i | 0 <= i < |tail| :: tail[i] == s[i + 1];
      var r := Insert(tail, x, key);
      InsertSorted(tail, x, key);
      InsertBounded(tail, x, key, key(s[0]));
      var out := [s[0]] + r;
      forall i, j | 0 <= i < j < |out| ensures key(out[i]) >= key(out[j]) {
        assert out[j] == r[j - 1];
        if i > 0 { assert out[i] == r[i - 1]; }
      }
    } else if s != [] {
      var out := [x] + s;
      forall i, j | 0 <= i < j < |out| ensures key(out[i]) >= key(out[j]) {
        assert out[j] == s[j - 1];
        if i > 0 { assert out[i] == s[i - 1]; } else { assert key(s[0]) >= key(s[j - 1]); }
      }
    }
  }

  lemma {:induction false} InsertWithKey<T>(s: seq<T>, x: T, key: T -> int, k: int)
    requires SortedDesc(s, key)
    ensures WithKey(Insert(s, x, key), key, k) == WithKey(s, key, k) + (if key(x) == k then [x] else [])
  {
    if s == [] {
      assert WithKey([x], key, k) == (if key(x) == k then [x] else []) + WithKey([x][1..], key, k);
      assert [x][1..] == [];
    } else if key(s[0]) >= key(x) {
      var tail := s[1..];
      assert SortedDesc(tail, key) by {
        assert forall i | 0 <= i < |tail| :: tail[i] == s[i + 1];
      }
      assert Insert(s, x, key) == [s[0]] + Insert(tail, x, key);
      InsertWithKey(tail, x, key, k);
      WithKeyAppend([s[0]], Insert(tail, x, key), key, k);
      WithKeyAppend([s[0]], tail, key, k);
      assert [s[0]] + tail == s;
    } else {
      assert Insert(s, x, key) == [x] + s;
      WithKeyAppend([x], s, key, k);
      assert WithKey([x], key, k) == (if key(x) == k then [x] else []) + WithKey([x][1..], key, k);
      assert [x][1..] == [];
      if key(x) == k {
        assert forall i | 0 <= i < |s| :: key(s[i]) < k by {
          assert forall i | 0 <= i < |s| :: key(s[i]) <= key(s[0]);
        }
        WithKeyAbsent(s, key, k);
      }
    }
  }

  /** The sort returns its input in non-increasing key order. */
  lemma SortDescSorted<T>(xs: seq<T>, key: T -> int)
    ensures SortedDesc(SortDesc(xs, key), key)
  {
    SortDescSortedPermutation(xs, key);
  }

  /** The sort returns its input in non-increasing key order, as a permutation. */
  lemma {:induction false} SortDescSortedPermutation<T>(xs: seq<T>, key: T -> int)
    ensures SortedDesc(SortDesc(xs, key), key)
    ensures multiset(SortDesc(xs, key)) == multiset(xs)
    ensures |SortDesc(xs, key)| == |xs|
  {
    if xs != [] {
      var init := xs[..|xs| - 1];
      SortDescSortedPermutation(init, key);
      InsertSorted(SortDesc(init, key), xs[|xs| - 1], key);
      InsertPermutation(SortDesc(init, key), xs[|xs| - 1], key);
      assert xs == init + [xs[|xs| - 1]];
    }
  }

  /** Stability: the elements of each key come out in their original order. */
  lemma {:induction false} SortDescStable<T>(xs: seq<T>, key: T -> int, k: int)
    ensures WithKey(SortDesc(xs, key), key, k) == WithKey(xs, key, k)
  {
    if xs != [] {
      var init := xs[..|xs| - 1];
      var x := xs[|xs| - 1];
      var last := if key(x) == k then [x] else [];
      assert SortDesc(xs, key) == Insert(SortDesc(init, key), x, key);
      SortDescStable(init, key, k);
      SortDescSorted(init, key);
      InsertWithKey(SortDesc(init, key), x, key, k);
      assert xs == init + [x];
      WithKeyAppend(init, [x], key, k);
      assert WithKey([x], key, k) == last + WithKey([x][1..], key, k);
      assert [x][1..] == [];
    }
  }

  /** A sequence that is already in non-increasing key order is left as it is. */
  lemma {:induction false} SortDescOfSorted<T>(xs: seq<T>, key: T -> int)
    requires SortedDesc(xs, key)
    ensures SortDesc(xs, key) == xs
  {
    if xs != [] {
      var init := xs[..|xs| - 1];
      var x := xs[|xs| - 1];
      SortDescOfSorted(init, key);
      InsertAtEnd(init, x, key);
      assert xs == init + [x];
    }
  }

  lemma {:induction false} InsertAtEnd<T>(s: seq<T>, x: T, key: T -> int)
    requires forall i | 0 <= i < |s| :: key(s[i]) >= key(x)
    ensures Insert(s, x, key) == s + [x]
  {
    if s != [] {
      InsertAtEnd(s[1..], x, key);
      assert [s[0]] + (s[1..] + [x]) == s + [x];
    }
  }

  /**
    A prefix of a sequence in non-increasing key order is itself in that order,
    and no element after it has a higher key than one in it.
  */
  lemma SortedPrefixBest<T>(s: seq<T>, key: T -> int, n: int)
    requires SortedDesc(s, key) && 0 <= n <= |s|
    ensures SortedDesc(s[..n], key)
    ensures multiset(s[..n]) <= multiset(s)
    ensures forall d | d in multiset(s) - multiset(s[..n]) :: forall x | x in s[..n] :: key(x) >= key(d)
  {
    var r := s[..n];
    assert s == r + s[n..];
    assert multiset(s) == multiset(r) + multiset(s[n..]);
    forall d | d in multiset(s) - multiset(r)
      ensures forall x | x in r :: key(x) >= key(d)
    {
      assert d in multiset(s[n..]);
      var j :| 0 <= j < |s[n..]| && s[n..][j] == d;
      forall x | x in r ensures key(x) >= key(d) {
        var i :| 0 <= i < n && r[i] == x;
        assert s[i] == x && s[n + j] == d;
      }
    }
  }
}
