/**
 * `Array.prototype.sort` / `toSorted` with a consistent comparator. ECMAScript requires
 * the sort to be stable, so the result is determined by the comparator alone; the model
 * computes it by a stable insertion sort. `le(a, b)` stands for `compare(a, b) <= 0`.
 */
module Sorting {
  import opened Seqs

  ghost predicate Total<T(!new)>(le: (T, T) -> bool) {
    forall a, b :: le(a, b) || le(b, a)
  }

  ghost predicate Transitive<T(!new)>(le: (T, T) -> bool) {
    forall a, b, c :: le(a, b) && le(b, c) ==> le(a, c)
  }

  /** Every earlier element compares at most equal to every later one. */
  ghost predicate SortedBy<T>(s: seq<T>, le: (T, T) -> bool) {
    forall i, j :: 0 <= i < j < |s| ==> le(s[i], s[j])
  }

  /** Keys of the elements are pairwise different. */
  ghost predicate DistinctBy<T, K>(s: seq<T>, key: T -> K) {
    forall i, j :: 0 <= i < j < |s| ==> key(s[i]) != key(s[j])
  }

  /** Inserts x after every leading element that compares at most equal to it. */
  function Insert<T(==)>(x: T, s: seq<T>, le: (T, T) -> bool): (r: seq<T>)
    ensures |r| == |s| + 1
    ensures multiset(r) == multiset(s) + multiset{x}
  {
    if |s| == 0 then [x]
    else if le(s[0], x) then
      assert s == [s[0]] + s[1..];
      [s[0]] + Insert(x, s[1..], le)
    else [x] + s
  }

  /** The stable sort of s under le: a permutation of s. */
  function SortBy<T(==)>(s: seq<T>, le: (T, T) -> bool): (r: seq<T>)
    ensures |r| == |s|
    ensures multiset(r) == multiset(s)
  {
    if |s| == 0 then []
    else
      assert s == s[..|s| - 1] + [s[|s| - 1]];
      Insert(s[|s| - 1], SortBy(s[..|s| - 1], le), le)
  }

  lemma {:induction false} InsertSorted<T(!new)>(x: T, s: seq<T>, le: (T, T) -> bool)
    requires Total(le) && Transitive(le)
    requires SortedBy(s, le)
    ensures SortedBy(Insert(x, s, le), le)
  {
    if |s| > 0 && le(s[0], x) {
      InsertSorted(x, s[1..], le);
      var rest := Insert(x, s[1..], le);
      forall k | 0 <= k < |rest| ensures le(s[0], rest[k]) {
        assert rest[k] in multiset(rest);
        assert rest[k] == x || rest[k] in s[1..];
      }
    }
  }

  /** Sorting with a total preorder yields a sorted sequence. */
  lemma {:induction false} SortBySorted<T(!new)>(s: seq<T>, le: (T, T) -> bool)
    requires Total(le) && Transitive(le)
    ensures SortedBy(SortBy(s, le), le)
  {
    if |s| > 0 {
      SortBySorted(s[..|s| - 1], le);
      InsertSorted(s[|s| - 1], SortBy(s[..|s| - 1], le), le);
    }
  }

  /** An element that compares at least equal to everything already present goes last. */
  lemma {:induction false} InsertAfterAll<T>(x: T, s: seq<T>, le: (T, T) -> bool)
    requires forall i :: 0 <= i < |s| ==> le(s[i], x)
    ensures Insert(x, s, le) == s + [x]
  {
    if |s| > 0 {
      InsertAfterAll(x, s[1..], le);
      assert [s[0]] + (s[1..] + [x]) == s + [x];
    }
  }

  /** x lands between a prefix it does not precede and a suffix whose head it precedes. */
  lemma {:induction false} InsertBetween<T>(x: T, p: seq<T>, q: seq<T>, le: (T, T) -> bool)
    requires forall i :: 0 <= i < |p| ==> le(p[i], x)
    requires |q| > 0 && !le(q[0], x)
    ensures Insert(x, p + q, le) == p + [x] + q
  {
    if |p| == 0 {
      assert p + q == q;
    } else {
      assert (p + q)[0] == p[0];
      assert (p + q)[1..] == p[1..] + q;
      InsertBetween(x, p[1..], q, le);
      assert [p[0]] + (p[1..] + [x] + q) == p + [x] + q;
    }
  }

  /** A sequence that is already sorted is left exactly as it is (stability). */
  lemma {:induction false} SortBySortedIdentity<T>(s: seq<T>, le: (T, T) -> bool)
    requires SortedBy(s, le)
    ensures SortBy(s, le) == s
  {
    if |s| > 0 {
      var init := s[..|s| - 1];
      assert SortedBy(init, le);
      SortBySortedIdentity(init, le);
      InsertAfterAll(s[|s| - 1], init, le);
      assert init + [s[|s| - 1]] == s;
    }
  }

  /** Sorting a sorted sequence extended by one element is inserting that element. */
  lemma SortByAppend<T>(s: seq<T>, x: T, le: (T, T) -> bool)
    requires SortedBy(s, le)
    ensures SortBy(s + [x], le) == Insert(x, s, le)
  {
    assert (s + [x])[..|s + [x]| - 1] == s;
    SortBySortedIdentity(s, le);
  }

  /** The last element of a sorted permutation of t compares at least equal to every element of t. */
  lemma SortedLastIsGreatest<T(!new)>(s: seq<T>, t: seq<T>, le: (T, T) -> bool)
    requires Total(le) && SortedBy(s, le) && multiset(s) == multiset(t) && |t| > 0
    ensures |s| == |t| && s[|s| - 1] in t
    ensures forall i :: 0 <= i < |t| ==> le(t[i], s[|s| - 1])
  {
    assert |s| == |t| by {
      assert |multiset(s)| == |multiset(t)|;
    }
    var last := s[|s| - 1];
    assert last in multiset(t);
    forall i | 0 <= i < |t| ensures le(t[i], last) {
      assert t[i] in multiset(s);
      var j :| 0 <= j < |s| && s[j] == t[i];
      if j < |s| - 1 {
        assert le(s[j], last);
      } else {
        assert le(last, last) || le(last, last);
      }
    }
  }

  lemma SplitLast<T>(s: seq<T>)
    requires |s| > 0
    ensures s == s[..|s| - 1] + [s[|s| - 1]]
  {
  }

  /** Appending an element that belongs just before the last one, then sorting, puts it there. */
  lemma SortAppendBeforeLast<T>(s: seq<T>, x: T, le: (T, T) -> bool)
    requires SortedBy(s, le) && |s| > 0
    requires forall i :: 0 <= i < |s| - 1 ==> le(s[i], x)
    requires !le(s[|s| - 1], x)
    ensures SortBy(s + [x], le) == s[..|s| - 1] + [x] + [s[|s| - 1]]
  {
    var p, last := s[..|s| - 1], s[|s| - 1];
    SplitLast(s);
    SortByAppend(s, x, le);
    assert forall i :: 0 <= i < |p| ==> le(p[i], x) by {
      forall i | 0 <= i < |p| ensures le(p[i], x) {
        assert p[i] == s[i];
      }
    }
    InsertBetween(x, p, [last], le);
  }

  lemma {:induction false} InsertDistinctBy<T, K>(x: T, s: seq<T>, le: (T, T) -> bool, key: T -> K)
    requires DistinctBy(s, key)
    requires forall i :: 0 <= i < |s| ==> key(s[i]) != key(x)
    ensures DistinctBy(Insert(x, s, le), key)
  {
    if |s| > 0 && le(s[0], x) {
      assert DistinctBy(s[1..], key);
      InsertDistinctBy(x, s[1..], le, key);
      var rest := Insert(x, s[1..], le);
      forall k | 0 <= k < |rest| ensures key(s[0]) != key(rest[k]) {
        assert rest[k] in multiset(rest);
        assert rest[k] == x || rest[k] in s[1..];
      }
    }
  }

  /** Sorting keeps keys distinct: it only reorders the elements. */
  lemma {:induction false} SortByDistinctBy<T, K>(s: seq<T>, le: (T, T) -> bool, key: T -> K)
    requires DistinctBy(s, key)
    ensures DistinctBy(SortBy(s, le), key)
  {
    if |s| > 0 {
      var init := s[..|s| - 1];
      assert DistinctBy(init, key);
      SortByDistinctBy(init, le, key);
      var sorted := SortBy(init, le);
      forall i | 0 <= i < |sorted| ensures key(sorted[i]) != key(s[|s| - 1]) {
        assert sorted[i] in multiset(sorted);
        assert sorted[i] in init;
      }
      InsertDistinctBy(s[|s| - 1], sorted, le, key);
    }
  }

  /** Keeping some elements of a sorted sequence leaves it sorted. */
  lemma {:induction false} FilterSorted<T>(s: seq<T>, p: T -> bool, le: (T, T) -> bool)
    requires SortedBy(s, le)
    ensures SortedBy(Filter(s, p), le)
  {
    if |s| > 0 {
      assert SortedBy(s[1..], le);
      FilterSorted(s[1..], p, le);
      var rest := Filter(s[1..], p);
      forall k | 0 <= k < |rest| ensures le(s[0], rest[k]) {
        assert rest[k] in s[1..];
      }
    }
  }

  /** Keeping some elements keeps their keys distinct. */
  lemma {:induction false} FilterDistinctBy<T, K>(s: seq<T>, p: T -> bool, key: T -> K)
    requires DistinctBy(s, key)
    ensures DistinctBy(Filter(s, p), key)
  {
    if |s| > 0 {
      assert DistinctBy(s[1..], key);
      FilterDistinctBy(s[1..], p, key);
      var rest := Filter(s[1..], p);
      forall k | 0 <= k < |rest| ensures key(s[0]) != key(rest[k]) {
        assert rest[k] in s[1..];
      }
    }
  }
}
