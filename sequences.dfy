/**
 * `Array.prototype.filter` and the stable `Array.prototype.sort` with a string-key comparator
 * (`(a, b) => key(a).localeCompare(key(b))`, read as ordinal order).
 */
module Sequences {
  import opened Text
  import opened Numbers

  /** `s.filter(p)`: the elements satisfying `p`, in their original order. */
  function Filter<T>(s: seq<T>, p: T -> bool): (r: seq<T>)
    ensures |r| <= |s|
    ensures forall i :: 0 <= i < |r| ==> p(r[i]) && r[i] in s
    ensures forall i :: 0 <= i < |s| && p(s[i]) ==> s[i] in r
  {
    if s == [] then []
    else if p(s[0]) then [s[0]] + Filter(s[1..], p)
    else Filter(s[1..], p)
  }

  /** The filtered list holds exactly the elements of the input that pass. */
  lemma FilterMembers<T>(s: seq<T>, p: T -> bool)
    ensures forall x :: x in Filter(s, p) <==> x in s && p(x)
  {
    forall x | x in s && p(x) ensures x in Filter(s, p) {
      var i :| 0 <= i < |s| && s[i] == x;
    }
  }

  /** Filtering distributes over concatenation, so it keeps the relative order of what it keeps. */
  lemma {:induction false} FilterAppend<T>(s: seq<T>, t: seq<T>, p: T -> bool)
    ensures Filter(s + t, p) == Filter(s, p) + Filter(t, p)
  {
    if s == [] {
      assert s + t == t;
    } else {
      assert (s + t)[1..] == s[1..] + t;
      FilterAppend(s[1..], t, p);
    }
  }

  /** Filtering a list whose elements all pass keeps it whole. */
  lemma {:induction false} FilterAll<T>(s: seq<T>, p: T -> bool)
    requires forall i :: 0 <= i < |s| ==> p(s[i])
    ensures Filter(s, p) == s
  {
    if s != [] {
      FilterAll(s[1..], p);
      assert [s[0]] + s[1..] == s;
    }
  }

  /** Sorted by `key` in ordinal order. */
  ghost predicate SortedBy<T>(s: seq<T>, key: T -> string)
  {
    forall i, j :: 0 <= i < j < |s| ==> OrdinalLe(key(s[i]), key(s[j]))
  }

  /** Puts `x` in front of the first element whose key is not smaller, so that ties keep `x` first. */
  function Insert<T>(x: T, s: seq<T>, key: T -> string): (r: seq<T>)
    ensures |r| == |s| + 1
    ensures multiset(r) == multiset(s) + multiset{x}
  {
    if s == [] then [x]
    else if OrdinalLe(key(x), key(s[0])) then [x] + s
    else assert s == [s[0]] + s[1..]; [s[0]] + Insert(x, s[1..], key)
  }

  /** `[...s].sort((a, b) => key(a).localeCompare(key(b)))`: a stable insertion sort. */
  function SortBy<T>(s: seq<T>, key: T -> string): (r: seq<T>)
    ensures |r| == |s|
    ensures multiset(r) == multiset(s)
  {
    if s == [] then [] else assert s == [s[0]] + s[1..]; Insert(s[0], SortBy(s[1..], key), key)
  }

  lemma {:induction false} InsertSorted<T>(x: T, s: seq<T>, key: T -> string)
    requires SortedBy(s, key)
    ensures SortedBy(Insert(x, s, key), key)
  {
    if s == [] {
    } else if OrdinalLe(key(x), key(s[0])) {
      var r := [x] + s;
      forall i, j | 0 <= i < j < |r| ensures OrdinalLe(key(r[i]), key(r[j])) {
        if i == 0 && j > 1 {
          assert r[j] == s[j - 1];
          OrdinalTransitive(key(x), key(s[0]), key(r[j]));
        }
      }
    } else {
      InsertSorted(x, s[1..], key);
      OrdinalTotal(key(x), key(s[0]));
      var rest := Insert(x, s[1..], key);
      var r := [s[0]] + rest;
      forall j | 0 <= j < |rest| ensures OrdinalLe(key(s[0]), key(rest[j])) {
        assert rest[j] in multiset(s[1..]) + multiset{x};
        if rest[j] != x {
          assert rest[j] in s[1..];
          var k :| 0 <= k < |s[1..]| && s[1..][k] == rest[j];
          assert s[k + 1] == rest[j];
        }
      }
      forall i, j | 0 <= i < j < |r| ensures OrdinalLe(key(r[i]), key(r[j])) {
        if i == 0 { assert r[j] == rest[j - 1]; }
      }
    }
  }

  /** The sort yields a permutation of its input in ascending key order. */
  lemma {:induction false} SortBySorted<T>(s: seq<T>, key: T -> string)
    ensures SortedBy(SortBy(s, key), key)
    ensures multiset(SortBy(s, key)) == multiset(s)
  {
    if s != [] {
      SortBySorted(s[1..], key);
      InsertSorted(s[0], SortBy(s[1..], key), key);
    }
  }

  lemma {:induction false} InsertSum<T>(x: T, s: seq<T>, key: T -> string, f: T -> int)
    ensures SumOf(Insert(x, s, key), f) == f(x) + SumOf(s, f)
  {
    if s != [] && !OrdinalLe(key(x), key(s[0])) {
      InsertSum(x, s[1..], key, f);
      assert ([s[0]] + Insert(x, s[1..], key))[1..] == Insert(x, s[1..], key);
    } else if s != [] {
      assert ([x] + s)[1..] == s;
    }
  }

  /** Sorting does not change any sum over the list. */
  lemma {:induction false} SortBySum<T>(s: seq<T>, key: T -> string, f: T -> int)
    ensures SumOf(SortBy(s, key), f) == SumOf(s, f)
  {
    if s != [] {
      SortBySum(s[1..], key, f);
      InsertSum(s[0], SortBy(s[1..], key), key, f);
    }
  }

  /** The elements whose key is `k`. */
  function KeyIs<T>(key: T -> string, k: string): T -> bool
  {
    y => key(y) == k
  }

  lemma {:induction false} InsertFilter<T>(x: T, s: seq<T>, key: T -> string, k: string)
    ensures Filter(Insert(x, s, key), KeyIs(key, k)) ==
            (if key(x) == k then [x] + Filter(s, KeyIs(key, k)) else Filter(s, KeyIs(key, k)))
  {
    if s == [] {
    } else if OrdinalLe(key(x), key(s[0])) {
      assert ([x] + s)[1..] == s;
    } else {
      InsertFilter(x, s[1..], key, k);
      OrdinalReflexive(key(x));
      assert ([s[0]] + Insert(x, s[1..], key))[1..] == Insert(x, s[1..], key);
    }
  }

  /**
   * Stability: for every key, the elements with that key come out of the sort in the order
   * they went in.
   */
  lemma {:induction false} SortByStable<T>(s: seq<T>, key: T -> string, k: string)
    ensures Filter(SortBy(s, key), KeyIs(key, k)) == Filter(s, KeyIs(key, k))
  {
    if s != [] {
      SortByStable(s[1..], key, k);
      InsertFilter(s[0], SortBy(s[1..], key), key, k);
    }
  }

  /** `s.map(f)`. */
  function Map<T, U>(s: seq<T>, f: T -> U): (r: seq<U>)
    ensures |r| == |s|
    ensures forall i :: 0 <= i < |s| ==> r[i] == f(s[i])
  {
    if s == [] then [] else [f(s[0])] + Map(s[1..], f)
  }

  /** A sum over a mapped list is the sum of the composed projection. */
  lemma {:induction false} SumOfMap<T, U>(s: seq<T>, f: T -> U, g: U -> int, h: T -> int)
    requires forall x :: g(f(x)) == h(x)
    ensures SumOf(Map(s, f), g) == SumOf(s, h)
  {
    if s != [] {
      SumOfMap(s[1..], f, g, h);
      assert Map(s, f)[1..] == Map(s[1..], f);
    }
  }

  /** Filtering a mapped list is mapping the list filtered by the condition read through `f`. */
  lemma {:induction false} FilterMap<T, U>(s: seq<T>, f: T -> U, p: U -> bool, q: T -> bool)
    requires forall x :: p(f(x)) == q(x)
    ensures Filter(Map(s, f), p) == Map(Filter(s, q), f)
  {
    if s != [] {
      FilterMap(s[1..], f, p, q);
      assert Map(s, f)[1..] == Map(s[1..], f);
    }
  }

  /**
   * The points of a stable sort, per key: mapping the sorted list and keeping the elements whose
   * key (read through `f`) is `k` gives the input's elements with key `k`, mapped, in input order.
   */
  lemma MapSortByStable<T, U>(s: seq<T>, key: T -> string, f: T -> U, key': U -> string, k: string)
    requires forall x :: key'(f(x)) == key(x)
    ensures Filter(Map(SortBy(s, key), f), KeyIs(key', k)) == Map(Filter(s, KeyIs(key, k)), f)
  {
    FilterMap(SortBy(s, key), f, KeyIs(key', k), KeyIs(key, k));
    SortByStable(s, key, k);
  }

  /** Mapping a list sorted by `key` gives a list sorted by any key that agrees through `f`. */
  lemma SortedByMap<T, U>(s: seq<T>, f: T -> U, key: T -> string, key': U -> string)
    requires SortedBy(s, key)
    requires forall x :: key'(f(x)) == key(x)
    ensures SortedBy(Map(s, f), key')
  {
  }

  lemma {:induction false} MapInsert<T, U>(x: T, s: seq<T>, key: T -> string, f: T -> U)
    ensures multiset(Map(Insert(x, s, key), f)) == multiset{f(x)} + multiset(Map(s, f))
  {
    if s == [] {
    } else if OrdinalLe(key(x), key(s[0])) {
      assert Map([x] + s, f) == [f(x)] + Map(s, f);
    } else {
      MapInsert(x, s[1..], key, f);
      assert Map([s[0]] + Insert(x, s[1..], key), f) == [f(s[0])] + Map(Insert(x, s[1..], key), f);
      assert Map(s, f) == [f(s[0])] + Map(s[1..], f);
    }
  }

  /** Mapping after sorting gives a permutation of mapping the input. */
  lemma {:induction false} MapSortBy<T, U>(s: seq<T>, key: T -> string, f: T -> U)
    ensures multiset(Map(SortBy(s, key), f)) == multiset(Map(s, f))
  {
    if s != [] {
      MapSortBy(s[1..], key, f);
      MapInsert(s[0], SortBy(s[1..], key), key, f);
      assert Map(s, f) == [f(s[0])] + Map(s[1..], f);
    }
  }
}
