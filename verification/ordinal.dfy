/** `sortNumberedEntries`: order entries by the number found in their title.
    The comparator of the source ranks numbered entries before unnumbered
    ones, numbered ones by their number, and unnumbered ones by their original
    index; with a stable sort this is the same as a stable sort on the key
    below, where "no number" is larger than every number. */
module Ordinal {
  import opened Strings

  /** The comparator's order on keys: numbers ascending, then null. */
  predicate KeyLe(a: Option<nat>, b: Option<nat>) {
    match a
    case None => b.None?
    case Some(x) => b.None? || x <= b.value
  }

  predicate Sorted<T>(s: seq<T>, key: T -> Option<nat>) {
    forall i, j :: 0 <= i < j < |s| ==> KeyLe(key(s[i]), key(s[j]))
  }

  /** The entries of `s` whose key is `k`, in their order in `s`. */
  function WithKey<T>(s: seq<T>, key: T -> Option<nat>, k: Option<nat>): seq<T> {
    if s == [] then []
    else WithKey(s[..|s| - 1], key, k) + (if key(s[|s| - 1]) == k then [s[|s| - 1]] else [])
  }

  /** Puts `x` behind every entry whose key is at most its own. */
  function Insert<T>(sorted: seq<T>, x: T, key: T -> Option<nat>): (r: seq<T>)
    ensures |r| == |sorted| + 1
    ensures multiset(r) == multiset(sorted) + multiset{x}
  {
    if sorted == [] then [x]
    else if KeyLe(key(sorted[|sorted| - 1]), key(x)) then sorted + [x]
    else
      assert sorted == sorted[..|sorted| - 1] + [sorted[|sorted| - 1]];
      Insert(sorted[..|sorted| - 1], x, key) + [sorted[|sorted| - 1]]
  }

  lemma {:induction false} InsertSorted<T>(sorted: seq<T>, x: T, key: T -> Option<nat>)
    requires Sorted(sorted, key)
    ensures Sorted(Insert(sorted, x, key), key)
    decreases |sorted|
  {
    if sorted != [] {
      var n := |sorted|;
      var init, last := sorted[..n - 1], sorted[n - 1];
      if KeyLe(key(last), key(x)) {
        var r := sorted + [x];
        forall i, j | 0 <= i < j < |r| ensures KeyLe(key(r[i]), key(r[j])) {
          if j == n {
            assert KeyLe(key(r[i]), key(last));
          }
        }
      } else {
        assert Sorted(init, key);
        InsertSorted(init, x, key);
        var m := Insert(init, x, key);
        var r := m + [last];
        forall i, j | 0 <= i < j < |r| ensures KeyLe(key(r[i]), key(r[j])) {
          if j == |r| - 1 {
            assert r[i] in multiset(m);
            assert r[i] in multiset(init) + multiset{x};
            if r[i] in multiset(init) {
              var i' :| 0 <= i' < |init| && init[i'] == r[i];
              assert sorted[i'] == r[i];
            }
          }
        }
      }
    }
  }

  lemma WithKeySnoc<T>(s: seq<T>, y: T, key: T -> Option<nat>, k: Option<nat>)
    ensures WithKey(s + [y], key, k) == WithKey(s, key, k) + (if key(y) == k then [y] else [])
  {
    assert (s + [y])[..|s|] == s;
  }

  lemma {:induction false} InsertStable<T>(sorted: seq<T>, x: T, key: T -> Option<nat>, k: Option<nat>)
    ensures WithKey(Insert(sorted, x, key), key, k)
            == WithKey(sorted, key, k) + (if key(x) == k then [x] else [])
    decreases |sorted|
  {
    if sorted == [] {
      WithKeySnoc([], x, key, k);
      assert [] + [x] == [x];
    } else {
      var n := |sorted|;
      var init, last := sorted[..n - 1], sorted[n - 1];
      if KeyLe(key(last), key(x)) {
        WithKeySnoc(sorted, x, key, k);
      } else {
        var m := Insert(init, x, key);
        assert Insert(sorted, x, key) == m + [last];
        assert init + [last] == sorted;
        InsertStable(init, x, key, k);
        WithKeySnoc(m, last, key, k);
        WithKeySnoc(init, last, key, k);
        var xs := if key(x) == k then [x] else [];
        var ls := if key(last) == k then [last] else [];
        assert xs == [] || ls == [] by {
          assert key(last) != key(x);
        }
        assert WithKey(m + [last], key, k) == WithKey(init, key, k) + xs + ls;
        assert WithKey(sorted, key, k) + xs == WithKey(init, key, k) + ls + xs;
      }
    }
  }

  /** `sortNumberedEntries(entries, numberExtractor)`: a stable insertion
      sort on the key. */
  function SortNumbered<T>(s: seq<T>, key: T -> Option<nat>): (r: seq<T>)
    ensures |r| == |s|
  {
    if s == [] then [] else Insert(SortNumbered(s[..|s| - 1], key), s[|s| - 1], key)
  }

  /** The sort returns a permutation of the entries. */
  lemma {:induction false} SortNumberedPermutes<T>(s: seq<T>, key: T -> Option<nat>)
    ensures multiset(SortNumbered(s, key)) == multiset(s)
    decreases |s|
  {
    if s != [] {
      var init := s[..|s| - 1];
      SortNumberedPermutes(init, key);
      assert s == init + [s[|s| - 1]];
    }
  }

  /** The sort returns its entries in key order. */
  lemma {:induction false} SortNumberedSorted<T>(s: seq<T>, key: T -> Option<nat>)
    ensures Sorted(SortNumbered(s, key), key)
    decreases |s|
  {
    if s != [] {
      var init := s[..|s| - 1];
      SortNumberedSorted(init, key);
      InsertSorted(SortNumbered(init, key), s[|s| - 1], key);
    }
  }

  /** Among entries with equal keys the sort keeps the input order. */
  lemma {:induction false} SortNumberedStable<T>(s: seq<T>, key: T -> Option<nat>, k: Option<nat>)
    ensures WithKey(SortNumbered(s, key), key, k) == WithKey(s, key, k)
    decreases |s|
  {
    if s != [] {
      var init := s[..|s| - 1];
      SortNumberedStable(init, key, k);
      SortNumberedSorted(init, key);
      InsertStable(SortNumbered(init, key), s[|s| - 1], key, k);
    }
  }

  lemma SortNumberedCorrect<T>(s: seq<T>, key: T -> Option<nat>)
    ensures multiset(SortNumbered(s, key)) == multiset(s)
    ensures Sorted(SortNumbered(s, key), key)
    ensures forall k :: WithKey(SortNumbered(s, key), key, k) == WithKey(s, key, k)
  {
    SortNumberedPermutes(s, key);
    SortNumberedSorted(s, key);
    forall k ensures WithKey(SortNumbered(s, key), key, k) == WithKey(s, key, k) {
      SortNumberedStable(s, key, k);
    }
  }

  lemma {:induction false} WithKeyAppend<T>(a: seq<T>, b: seq<T>, key: T -> Option<nat>, k: Option<nat>)
    ensures WithKey(a + b, key, k) == WithKey(a, key, k) + WithKey(b, key, k)
    decreases |b|
  {
    if b == [] {
      assert a + b == a;
    } else {
      assert (a + b)[..|a + b| - 1] == a + b[..|b| - 1];
      WithKeyAppend(a, b[..|b| - 1], key, k);
    }
  }

  lemma {:induction false} WithKeyOfUniform<T>(a: seq<T>, key: T -> Option<nat>, numbered: bool)
    requires forall i :: 0 <= i < |a| ==> key(a[i]).Some? == numbered
    ensures WithKey(a, key, None) == if numbered then [] else a
    decreases |a|
  {
    if a != [] {
      WithKeyOfUniform(a[..|a| - 1], key, numbered);
    }
  }

  lemma SortedSplits<T>(r: seq<T>, key: T -> Option<nat>) returns (m: nat)
    requires Sorted(r, key)
    ensures m <= |r| && (forall i :: 0 <= i < m ==> key(r[i]).Some?)
    ensures r[m..] == WithKey(r, key, None)
  {
    m := 0;
    while m < |r| && key(r[m]).Some?
      invariant 0 <= m <= |r|
      invariant forall i :: 0 <= i < m ==> key(r[i]).Some?
    {
      m := m + 1;
    }
    forall i | m < i < |r| ensures key(r[i]).None? {
      assert KeyLe(key(r[m]), key(r[i]));
    }
    assert r == r[..m] + r[m..];
    WithKeyAppend(r[..m], r[m..], key, None);
    WithKeyOfUniform(r[..m], key, true);
    WithKeyOfUniform(r[m..], key, false);
  }

  /** `r` is `m` numbered entries followed by `tail`. */
  ghost predicate NumberedThen<T>(r: seq<T>, key: T -> Option<nat>, m: int, tail: seq<T>) {
    0 <= m <= |r| && (forall i :: 0 <= i < m ==> key(r[i]).Some?) && r[m..] == tail
  }

  /** The sorted entries are the numbered ones followed by the unnumbered
      ones, and the unnumbered ones are in their original order. */
  lemma UnnumberedTail<T>(s: seq<T>, key: T -> Option<nat>)
    ensures exists m :: NumberedThen(SortNumbered(s, key), key, m, WithKey(s, key, None))
  {
    var r := SortNumbered(s, key);
    SortNumberedCorrect(s, key);
    var m := SortedSplits(r, key);
    assert WithKey(r, key, None) == WithKey(s, key, None);
    assert NumberedThen(r, key, m, WithKey(s, key, None));
  }
  lemma SortedInit<T>(s: seq<T>, key: T -> Option<nat>)
    requires Sorted(s, key) && s != []
    ensures Sorted(s[..|s| - 1], key)
    ensures |s| > 1 ==> KeyLe(key(s[|s| - 2]), key(s[|s| - 1]))
  {
  }

  lemma InsertLast<T>(sorted: seq<T>, x: T, key: T -> Option<nat>)
    requires sorted == [] || KeyLe(key(sorted[|sorted| - 1]), key(x))
    ensures Insert(sorted, x, key) == sorted + [x]
  {
  }

  /** Sorting entries that are already in order changes nothing, so sorting
      twice is sorting once. */
  lemma {:induction false} SortSortedIsIdentity<T>(s: seq<T>, key: T -> Option<nat>)
    requires Sorted(s, key)
    ensures SortNumbered(s, key) == s
    decreases |s|
  {
    if s != [] {
      var init, last := s[..|s| - 1], s[|s| - 1];
      SortedInit(s, key);
      SortSortedIsIdentity(init, key);
      InsertLast(init, last, key);
      assert init + [last] == s;
    }
  }

  lemma SortTwice<T>(s: seq<T>, key: T -> Option<nat>)
    ensures SortNumbered(SortNumbered(s, key), key) == SortNumbered(s, key)
  {
    SortNumberedCorrect(s, key);
    SortSortedIsIdentity(SortNumbered(s, key), key);
  }

  /** The total of `f` over the entries. */
  function Sum<T>(s: seq<T>, f: T -> nat): nat {
    if s == [] then 0 else Sum(s[..|s| - 1], f) + f(s[|s| - 1])
  }

  lemma {:induction false} SumAppend<T>(a: seq<T>, b: seq<T>, f: T -> nat)
    ensures Sum(a + b, f) == Sum(a, f) + Sum(b, f)
    decreases |b|
  {
    if b == [] {
      assert a + b == a;
    } else {
      assert (a + b)[..|a + b| - 1] == a + b[..|b| - 1];
      SumAppend(a, b[..|b| - 1], f);
    }
  }

  lemma {:induction false} SumInsert<T>(sorted: seq<T>, x: T, key: T -> Option<nat>, f: T -> nat)
    ensures Sum(Insert(sorted, x, key), f) == Sum(sorted, f) + f(x)
    decreases |sorted|
  {
    if sorted == [] {
      assert [x][..0] == [];
    } else if KeyLe(key(sorted[|sorted| - 1]), key(x)) {
      assert (sorted + [x])[..|sorted|] == sorted;
    } else {
      var init := sorted[..|sorted| - 1];
      SumInsert(init, x, key, f);
      var r := Insert(init, x, key) + [sorted[|sorted| - 1]];
      assert r[..|r| - 1] == Insert(init, x, key);
    }
  }

  /** Sorting keeps every entry, so it keeps any total over them. */
  lemma {:induction false} SumSorted<T>(s: seq<T>, key: T -> Option<nat>, f: T -> nat)
    ensures Sum(SortNumbered(s, key), f) == Sum(s, f)
    decreases |s|
  {
    if s != [] {
      var init := s[..|s| - 1];
      SumSorted(init, key, f);
      SumInsert(SortNumbered(init, key), s[|s| - 1], key, f);
    }
  }
}
