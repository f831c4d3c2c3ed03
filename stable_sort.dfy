/** A stable sort by an integer-pair key, as Python's `sorted` with a
    `key=` function: ordered by key, a permutation of its input, and
    keeping the input order among equal keys.  The last three properties
    determine the result, so this insertion sort stands for any stable
    sort. */
module StableSort {

  /** Lexicographic order on (major, minor) keys, as Python compares
      tuples. */
  predicate KeyLe(a: (int, int), b: (int, int))
  {
    a.0 < b.0 || (a.0 == b.0 && a.1 <= b.1)
  }

  predicate SortedBy<T>(s: seq<T>, key: T -> (int, int))
  {
    forall i, j :: 0 <= i < j < |s| ==> KeyLe(key(s[i]), key(s[j]))
  }

  /** Inserts `x` after every element whose key is not above its own. */
  function InsertBy<T>(s: seq<T>, x: T, key: T -> (int, int)): seq<T>
    decreases |s|
  {
    if s == [] || KeyLe(key(s[|s| - 1]), key(x)) then s + [x]
    else InsertBy(s[..|s| - 1], x, key) + [s[|s| - 1]]
  }

  /** `sorted(..., key=...)`: a stable sort, here by insertion. */
  function SortBy<T>(s: seq<T>, key: T -> (int, int)): seq<T>
    decreases |s|
  {
    if s == [] then [] else InsertBy(SortBy(s[..|s| - 1], key), s[|s| - 1], key)
  }

  /** The elements of `s` with key `k`, in order. */
  function WithKey<T>(s: seq<T>, key: T -> (int, int), k: (int, int)): seq<T>
    decreases |s|
  {
    if s == [] then []
    else WithKey(s[..|s| - 1], key, k) + (if key(s[|s| - 1]) == k then [s[|s| - 1]] else [])
  }

  lemma {:induction false} WithKeyAppend<T>(s: seq<T>, t: seq<T>, key: T -> (int, int), k: (int, int))
    ensures WithKey(s + t, key, k) == WithKey(s, key, k) + WithKey(t, key, k)
    decreases |t|
  {
    if t == [] {
      assert s + t == s;
    } else {
      assert (s + t)[..|s + t| - 1] == s + t[..|t| - 1];
      WithKeyAppend(s, t[..|t| - 1], key, k);
    }
  }

  lemma {:induction false} InsertBySorted<T>(s: seq<T>, x: T, key: T -> (int, int))
    requires SortedBy(s, key)
    ensures SortedBy(InsertBy(s, x, key), key)
    ensures multiset(InsertBy(s, x, key)) == multiset(s) + multiset{x}
    decreases |s|
  {
    var r := InsertBy(s, x, key);
    if s != [] && !KeyLe(key(s[|s| - 1]), key(x)) {
      var init := s[..|s| - 1];
      var last := s[|s| - 1];
      assert s == init + [last];
      InsertBySorted(init, x, key);
      var r0 := InsertBy(init, x, key);
      assert r == r0 + [last];
      forall y | y in r0 ensures KeyLe(key(y), key(last)) {
        assert y in multiset(r0);
        if y != x {
          assert y in multiset(init);
          assert y in init;
        }
      }
      forall i, j | 0 <= i < j < |r| ensures KeyLe(key(r[i]), key(r[j])) {
        if j == |r| - 1 {
          assert r[i] in r0;
        } else {
          assert r[i] == r0[i] && r[j] == r0[j];
        }
      }
    }
  }

  lemma WithKeyOne<T>(x: T, key: T -> (int, int), k: (int, int))
    ensures WithKey([x], key, k) == (if key(x) == k then [x] else [])
  {
    assert [x][..0] == [];
  }

  /** Inserting keeps the order among the elements of each key: `x` goes
      after those sharing its key. */
  lemma {:induction false} InsertByStable<T>(s: seq<T>, x: T, key: T -> (int, int), k: (int, int))
    ensures WithKey(InsertBy(s, x, key), key, k) == WithKey(s, key, k) + WithKey([x], key, k)
    decreases |s|
  {
    var r := InsertBy(s, x, key);
    WithKeyOne(x, key, k);
    if s == [] || KeyLe(key(s[|s| - 1]), key(x)) {
      WithKeyAppend(s, [x], key, k);
    } else {
      var init := s[..|s| - 1];
      var last := s[|s| - 1];
      assert s == init + [last];
      InsertByStable(init, x, key, k);
      var r0 := InsertBy(init, x, key);
      assert r == r0 + [last];
      WithKeyAppend(r0, [last], key, k);
      WithKeyAppend(init, [last], key, k);
      WithKeyOne(last, key, k);
      var wi, wx, wl := WithKey(init, key, k), WithKey([x], key, k), WithKey([last], key, k);
      // `last` keys above `x`, so at most one of the two is kept for `k`.
      assert key(last) != key(x);
      assert wx + wl == wl + wx;
      assert WithKey(r, key, k) == (wi + wx) + wl;
      assert WithKey(s, key, k) == wi + wl;
      assert (wi + wx) + wl == (wi + wl) + wx;
    }
  }

  /** The sort orders by key, keeps every element, and keeps the order of
      the elements sharing a key. */
  lemma {:induction false} SortBySpec<T>(s: seq<T>, key: T -> (int, int))
    ensures SortedBy(SortBy(s, key), key)
    ensures multiset(SortBy(s, key)) == multiset(s)
    ensures forall k :: WithKey(SortBy(s, key), key, k) == WithKey(s, key, k)
    decreases |s|
  {
    if s != [] {
      var init := s[..|s| - 1];
      var last := s[|s| - 1];
      assert s == init + [last];
      SortBySpec(init, key);
      InsertBySorted(SortBy(init, key), last, key);
      forall k ensures WithKey(SortBy(s, key), key, k) == WithKey(s, key, k) {
        InsertByStable(SortBy(init, key), last, key, k);
        WithKeyAppend(init, [last], key, k);
      }
    }
  }

  /** Sorted and stable determine the result: any stable sort by the same
      key, Python's among them, yields the same sequence. */
  lemma {:induction false} StableSortUnique<T>(a: seq<T>, b: seq<T>, key: T -> (int, int))
    requires SortedBy(a, key) && SortedBy(b, key)
    requires forall k :: WithKey(a, key, k) == WithKey(b, key, k)
    ensures a == b
    decreases |a|
  {
    if a == [] {
      if b != [] {
        WithKeyLast(b, key);
      }
    } else {
      StableSortLast(a, b, key);
      var ai, bi := a[..|a| - 1], b[..|b| - 1];
      forall k ensures WithKey(ai, key, k) == WithKey(bi, key, k) {
        WithKeyInit(a, key, k);
        WithKeyInit(b, key, k);
      }
      assert SortedBy(ai, key) && SortedBy(bi, key);
      StableSortUnique(ai, bi, key);
      assert a == ai + [a[|a| - 1]] && b == bi + [b[|b| - 1]];
    }
  }

  /** Two sorted sequences with the same elements per key end alike. */
  lemma StableSortLast<T>(a: seq<T>, b: seq<T>, key: T -> (int, int))
    requires SortedBy(a, key) && SortedBy(b, key) && a != []
    requires forall k :: WithKey(a, key, k) == WithKey(b, key, k)
    ensures b != [] && a[|a| - 1] == b[|b| - 1]
  {
    WithKeyLast(a, key);
    var ka := key(a[|a| - 1]);
    assert b != [];
    WithKeyLast(b, key);
    var kb := key(b[|b| - 1]);
    WithKeyMember(a, key, kb);
    WithKeyMember(b, key, ka);
    assert ka == kb;
  }

  /** Dropping the last element drops it from its key's list. */
  lemma WithKeyInit<T>(s: seq<T>, key: T -> (int, int), k: (int, int))
    requires s != []
    ensures WithKey(s[..|s| - 1], key, k) ==
      (if key(s[|s| - 1]) == k then WithKey(s, key, k)[..|WithKey(s, key, k)| - 1] else WithKey(s, key, k))
  {
    var tail := if key(s[|s| - 1]) == k then [s[|s| - 1]] else [];
    assert WithKey(s, key, k) == WithKey(s[..|s| - 1], key, k) + tail;
  }

  lemma {:induction false} WithKeyLast<T>(s: seq<T>, key: T -> (int, int))
    requires s != []
    ensures WithKey(s, key, key(s[|s| - 1])) != []
    ensures WithKey(s, key, key(s[|s| - 1]))[|WithKey(s, key, key(s[|s| - 1]))| - 1] == s[|s| - 1]
  {
  }

  /** Every element of a sorted sequence whose key has members sits below
      its last element's key. */
  lemma {:induction false} WithKeyMember<T>(s: seq<T>, key: T -> (int, int), k: (int, int))
    requires SortedBy(s, key) && s != [] && WithKey(s, key, k) != []
    ensures KeyLe(k, key(s[|s| - 1]))
  {
    var i := WithKeyIndex(s, key, k);
    if i < |s| - 1 {
      assert KeyLe(key(s[i]), key(s[|s| - 1]));
    }
  }

  lemma {:induction false} WithKeyIndex<T>(s: seq<T>, key: T -> (int, int), k: (int, int)) returns (i: nat)
    requires WithKey(s, key, k) != []
    ensures i < |s| && key(s[i]) == k
    decreases |s|
  {
    var init := s[..|s| - 1];
    if key(s[|s| - 1]) == k {
      i := |s| - 1;
    } else {
      i := WithKeyIndex(init, key, k);
    }
  }
}
