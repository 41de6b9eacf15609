/** `Array.prototype.sort` with a comparator `(a, b) => key(a) - key(b)`.
    Since ECMAScript 2019 that sort is stable: elements the comparator calls
    equal keep their relative order. It is modelled as a stable insertion
    sort, ascending by an integer key. */
module Sorting {
  import opened Seqs

  /** Keys never decrease from left to right. */
  ghost predicate SortedBy<T>(s: seq<T>, key: T -> int)
  {
    forall i, j :: 0 <= i < j < |s| ==> key(s[i]) <= key(s[j])
  }

  /** The elements whose key is `k`. */
  function KeyIs<T>(key: T -> int, k: int): T -> bool
  {
    x => key(x) == k
  }

  /** Places `x` in front of the first element whose key is not smaller
      than its own. */
  function Insert<T(!new)>(x: T, s: seq<T>, key: T -> int): (r: seq<T>)
    ensures multiset(r) == multiset(s) + multiset{x}
    decreases |s|
  {
    if |s| == 0 || key(x) <= key(s[0]) then [x] + s
    else
      assert s == [s[0]] + s[1..];
      [s[0]] + Insert(x, s[1..], key)
  }

  /** Inserting into a sorted sequence keeps it sorted. */
  lemma {:induction false} InsertSorted<T(!new)>(x: T, s: seq<T>, key: T -> int)
    requires SortedBy(s, key)
    ensures SortedBy(Insert(x, s, key), key)
    decreases |s|
  {
    if |s| == 0 || key(x) <= key(s[0]) {
      assert SortedBy(s, key) && forall y :: y in s ==> key(x) <= key(y);
      SortedCons(x, s, key);
    } else {
      var rest := Insert(x, s[1..], key);
      assert SortedBy(s[1..], key);
      InsertSorted(x, s[1..], key);
      forall y | y in rest
        ensures key(s[0]) <= key(y)
      {
        assert y in multiset(rest);
        if y != x {
          assert y in multiset(s[1..]);
        }
      }
      SortedCons(s[0], rest, key);
    }
  }

  /** An element no larger than everything after it extends a sorted
      sequence at the front. */
  lemma SortedCons<T>(h: T, s: seq<T>, key: T -> int)
    requires SortedBy(s, key)
    requires forall y :: y in s ==> key(h) <= key(y)
    ensures SortedBy([h] + s, key)
  {
    forall i, j | 0 <= i < j < |[h] + s|
      ensures key(([h] + s)[i]) <= key(([h] + s)[j])
    {
      assert ([h] + s)[j] == s[j - 1];
      if i > 0 {
        assert ([h] + s)[i] == s[i - 1];
      } else {
        assert s[j - 1] in s;
      }
    }
  }

  /** The stable sort of `s`, ascending by `key`. */
  function SortBy<T(!new)>(s: seq<T>, key: T -> int): (r: seq<T>)
    ensures SortedBy(r, key)
    ensures multiset(r) == multiset(s)
    decreases |s|
  {
    if |s| == 0 then []
    else
      assert s == [s[0]] + s[1..];
      InsertSorted(s[0], SortBy(s[1..], key), key);
      Insert(s[0], SortBy(s[1..], key), key)
  }

  /** Inserting `x` puts it ahead of every element with the same key. */
  lemma {:induction false} InsertKeepsTies<T(!new)>(x: T, s: seq<T>, key: T -> int, k: int)
    ensures Filter(Insert(x, s, key), KeyIs(key, k))
         == (if key(x) == k then [x] else []) + Filter(s, KeyIs(key, k))
    decreases |s|
  {
    var p := KeyIs(key, k);
    if |s| == 0 || key(x) <= key(s[0]) {
      FilterCons(x, s, p);
    } else {
      var rest := Insert(x, s[1..], key);
      var head := if p(s[0]) then [s[0]] else [];
      var mid := if key(x) == k then [x] else [];
      assert Insert(x, s, key) == [s[0]] + rest;
      FilterCons(s[0], rest, p);
      InsertKeepsTies(x, s[1..], key, k);
      FilterUnfold(s, p);
      // s[0] has a smaller key than x, so at most one of them is kept
      assert head == [] || mid == [];
      Interleave(Filter(Insert(x, s, key), p), head, mid, Filter(rest, p), Filter(s[1..], p), Filter(s, p));
    }
  }

  /** Moving a part past another part is harmless when one of them is
      empty. */
  lemma Interleave<T>(whole: seq<T>, head: seq<T>, mid: seq<T>, rest: seq<T>, tail: seq<T>, other: seq<T>)
    requires whole == head + rest && rest == mid + tail && other == head + tail
    requires head == [] || mid == []
    ensures whole == mid + other
  {
  }

  /** Stability: for every key, the elements with that key appear in the
      sorted sequence in the order they had before. */
  lemma {:induction false} SortByStable<T(!new)>(s: seq<T>, key: T -> int, k: int)
    ensures Filter(SortBy(s, key), KeyIs(key, k)) == Filter(s, KeyIs(key, k))
    decreases |s|
  {
    if |s| > 0 {
      SortByStable(s[1..], key, k);
      InsertKeepsTies(s[0], SortBy(s[1..], key), key, k);
    }
  }

  /** A sequence already in key order is left alone by the stable sort. */
  lemma {:induction false} SortBySorted<T(!new)>(s: seq<T>, key: T -> int)
    requires SortedBy(s, key)
    ensures SortBy(s, key) == s
    decreases |s|
  {
    if |s| > 0 {
      assert SortedBy(s[1..], key);
      SortBySorted(s[1..], key);
      assert s == [s[0]] + s[1..];
    }
  }
}
