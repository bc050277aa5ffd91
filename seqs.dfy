/**
 * Sequence operations behind the store's queries: `WHERE` is a filter that
 * keeps row order, `ORDER BY` a stable sort on an integer key.
 */
module Seqs {

  /** The elements of `s` that satisfy `p`, in their order in `s`. */
  function Filter<T>(s: seq<T>, p: T -> bool): (r: seq<T>)
    ensures |r| <= |s|
  {
    if s == [] then []
    else (if p(s[0]) then [s[0]] else []) + Filter(s[1..], p)
  }

  /** The filter keeps exactly the elements that satisfy `p`. */
  lemma {:induction false} FilterMembers<T>(s: seq<T>, p: T -> bool)
    ensures forall i :: 0 <= i < |Filter(s, p)| ==> Filter(s, p)[i] in s && p(Filter(s, p)[i])
    ensures forall i :: 0 <= i < |s| && p(s[i]) ==> s[i] in Filter(s, p)
  {
    if s != [] {
      FilterMembers(s[1..], p);
      assert s == [s[0]] + s[1..];
    }
  }

  /** Filtering keeps everything exactly when every element passes. */
  lemma {:induction false} FilterKeepsAll<T>(s: seq<T>, p: T -> bool)
    ensures Filter(s, p) == s <==> forall i :: 0 <= i < |s| ==> p(s[i])
  {
    if s != [] {
      FilterKeepsAll(s[1..], p);
      if !p(s[0]) {
        assert |Filter(s, p)| < |s|;
      } else {
        assert Filter(s, p) == [s[0]] + Filter(s[1..], p);
        if Filter(s, p) == s {
          assert Filter(s[1..], p) == Filter(s, p)[1..] == s[1..];
        }
      }
    }
  }

  /** Filtering twice by the same predicate filters no further. */
  lemma {:induction false} FilterIdempotent<T>(s: seq<T>, p: T -> bool)
    ensures Filter(Filter(s, p), p) == Filter(s, p)
  {
    FilterMembers(s, p);
    var f := Filter(s, p);
    forall i | 0 <= i < |f| ensures p(f[i]) {
      assert f[i] in f;
    }
    FilterKeepsAll(f, p);
  }

  /** Filtering keeps the multiset of the kept elements only. */
  lemma {:induction false} FilterMultiset<T>(s: seq<T>, p: T -> bool)
    ensures multiset(Filter(s, p)) <= multiset(s)
  {
    if s != [] {
      FilterMultiset(s[1..], p);
      assert s == [s[0]] + s[1..];
    }
  }

  /** `s` is in ascending order of `key`. */
  predicate SortedBy<T>(s: seq<T>, key: T -> int) {
    forall i, j :: 0 <= i < j < |s| ==> key(s[i]) <= key(s[j])
  }

  /** Every element of `s` has a key of at least `k`. */
  predicate KeysAtLeast<T>(s: seq<T>, k: int, key: T -> int) {
    forall i :: 0 <= i < |s| ==> k <= key(s[i])
  }

  /** Puts `x` into `s` in front of the first element whose key is not smaller. */
  function Insert<T>(x: T, s: seq<T>, key: T -> int): (r: seq<T>)
    ensures |r| == |s| + 1
  {
    if s == [] then [x]
    else if key(x) <= key(s[0]) then [x] + s
    else [s[0]] + Insert(x, s[1..], key)
  }

  lemma {:induction false} InsertKeysAtLeast<T>(x: T, s: seq<T>, k: int, key: T -> int)
    requires k <= key(x) && KeysAtLeast(s, k, key)
    ensures KeysAtLeast(Insert(x, s, key), k, key)
  {
    if s != [] && key(s[0]) < key(x) {
      InsertKeysAtLeast(x, s[1..], k, key);
    }
  }

  /** Inserting into a sorted sequence keeps it sorted. */
  lemma {:induction false} InsertSorted<T>(x: T, s: seq<T>, key: T -> int)
    requires SortedBy(s, key)
    ensures SortedBy(Insert(x, s, key), key)
  {
    if s != [] && key(s[0]) < key(x) {
      InsertSorted(x, s[1..], key);
      InsertKeysAtLeast(x, s[1..], key(s[0]), key);
    }
  }

  /** Inserting adds exactly `x`. */
  lemma {:induction false} InsertMultiset<T>(x: T, s: seq<T>, key: T -> int)
    ensures multiset(Insert(x, s, key)) == multiset(s) + multiset{x}
  {
    if s != [] && key(s[0]) < key(x) {
      InsertMultiset(x, s[1..], key);
      assert s == [s[0]] + s[1..];
    }
  }

  /** A stable insertion sort of `s`, ascending by `key`: a sorted permutation of `s`. */
  function SortBy<T>(s: seq<T>, key: T -> int): (r: seq<T>)
    ensures multiset(r) == multiset(s)
    ensures SortedBy(r, key)
  {
    if s == [] then []
    else
      var rest := SortBy(s[1..], key);
      InsertMultiset(s[0], rest, key);
      InsertSorted(s[0], rest, key);
      assert s == [s[0]] + s[1..];
      Insert(s[0], rest, key)
  }

  /** A filter of a sorted sequence is sorted. */
  lemma {:induction false} FilterSorted<T>(s: seq<T>, p: T -> bool, key: T -> int)
    requires SortedBy(s, key)
    ensures SortedBy(Filter(s, p), key)
  {
    if s != [] {
      FilterSorted(s[1..], p, key);
      assert KeysAtLeast(s[1..], key(s[0]), key);
      FilterKeysAtLeast(s[1..], p, key(s[0]), key);
    }
  }

  /** Inserting `x` in front of keys no smaller than its own puts it first. */
  lemma {:induction false} InsertInFront<T>(x: T, s: seq<T>, key: T -> int)
    requires KeysAtLeast(s, key(x), key)
    ensures Insert(x, s, key) == [x] + s
  {
  }

  /** `Filter` unfolded on a sequence with a known first element. */
  lemma {:induction false} FilterCons<T>(a: T, t: seq<T>, p: T -> bool)
    ensures Filter([a] + t, p) == (if p(a) then [a] else []) + Filter(t, p)
  {
    assert ([a] + t)[0] == a;
    assert ([a] + t)[1..] == t;
  }

  /** A filter keeps the lower bound of a sequence's keys. */
  lemma {:induction false} FilterKeysAtLeast<T>(s: seq<T>, p: T -> bool, k: int, key: T -> int)
    requires KeysAtLeast(s, k, key)
    ensures KeysAtLeast(Filter(s, p), k, key)
  {
    FilterMembers(s, p);
    var f := Filter(s, p);
    forall i | 0 <= i < |f| ensures k <= key(f[i]) {
      assert f[i] in f;
      assert f[i] in s;
      var j :| 0 <= j < |s| && s[j] == f[i];
    }
  }

  /** Filtering commutes with inserting into a sorted sequence. */
  lemma {:induction false} FilterInsert<T>(x: T, s: seq<T>, p: T -> bool, key: T -> int)
    requires SortedBy(s, key)
    ensures Filter(Insert(x, s, key), p) == if p(x) then Insert(x, Filter(s, p), key) else Filter(s, p)
    decreases |s|, 1
  {
    if s == [] {
    } else if key(x) <= key(s[0]) {
      FilterCons(x, s, p);
      if p(x) {
        assert KeysAtLeast(s, key(x), key);
        FilterKeysAtLeast(s, p, key(x), key);
        InsertInFront(x, Filter(s, p), key);
      }
    } else {
      FilterInsertLater(x, s, p, key);
    }
  }

  /** The case of `FilterInsert` where `x` goes after the first element. */
  lemma {:induction false} FilterInsertLater<T>(x: T, s: seq<T>, p: T -> bool, key: T -> int)
    requires SortedBy(s, key) && s != [] && key(s[0]) < key(x)
    ensures Filter(Insert(x, s, key), p) == if p(x) then Insert(x, Filter(s, p), key) else Filter(s, p)
    decreases |s|, 0
  {
    var a, t := s[0], s[1..];
    var rest := Insert(x, t, key);
    assert s == [a] + t;
    assert Insert(x, s, key) == [a] + rest;
    FilterCons(a, rest, p);
    FilterCons(a, t, p);
    FilterInsert(x, t, p, key);
    if p(a) {
      assert Filter(Insert(x, s, key), p) == [a] + Filter(rest, p);
      assert Filter(s, p) == [a] + Filter(t, p);
      if p(x) {
        InsertCons(x, a, Filter(t, p), key);
      }
    } else {
      assert Filter(Insert(x, s, key), p) == Filter(rest, p);
      assert Filter(s, p) == Filter(t, p);
    }
  }

  /** `Insert` unfolded past a first element with a smaller key. */
  lemma {:induction false} InsertCons<T>(x: T, a: T, t: seq<T>, key: T -> int)
    requires key(a) < key(x)
    ensures Insert(x, [a] + t, key) == [a] + Insert(x, t, key)
  {
    assert ([a] + t)[0] == a;
    assert ([a] + t)[1..] == t;
  }

  /**
   * Sorting and filtering commute: selecting rows and then ordering them gives
   * the same sequence as ordering every row and then selecting.
   */
  lemma {:induction false} FilterSortBy<T>(s: seq<T>, p: T -> bool, key: T -> int)
    ensures Filter(SortBy(s, key), p) == SortBy(Filter(s, p), key)
  {
    if s != [] {
      var a, t := s[0], s[1..];
      assert s == [a] + t;
      FilterSortBy(t, p, key);
      FilterInsert(a, SortBy(t, key), p, key);
      FilterCons(a, t, p);
      if p(a) {
        SortByCons(a, Filter(t, p), key);
      } else {
        assert Filter(s, p) == Filter(t, p);
      }
    }
  }

  /** `SortBy` unfolded on a sequence with a known first element. */
  lemma {:induction false} SortByCons<T>(a: T, t: seq<T>, key: T -> int)
    ensures SortBy([a] + t, key) == Insert(a, SortBy(t, key), key)
  {
    assert ([a] + t)[0] == a;
    assert ([a] + t)[1..] == t;
  }

  /** Applies `f` to every element, keeping the order. */
  function Map<T, U>(s: seq<T>, f: T -> U): (r: seq<U>)
    ensures |r| == |s|
    ensures forall i :: 0 <= i < |s| ==> r[i] == f(s[i])
  {
    if s == [] then [] else [f(s[0])] + Map(s[1..], f)
  }
}
