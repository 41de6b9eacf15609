/** The array operations the reducers are built from -- `find`, `filter`,
    a summing `reduce` and `[...new Set(xs)]` -- as functions on sequences,
    with the facts about them the reducer proofs rely on. */
module Seqs {
  import opened Common

  /** The elements of `a` occur in `b` in the same relative order. */
  predicate IsSubseq<T(==)>(a: seq<T>, b: seq<T>)
    decreases |b|
  {
    if |a| == 0 then true
    else if |b| == 0 then false
    else (a[0] == b[0] && IsSubseq(a[1..], b[1..])) || IsSubseq(a, b[1..])
  }

  /** The predicate that holds exactly where `p` does not. */
  function Not<T>(p: T -> bool): T -> bool
  {
    x => !p(x)
  }

  /** Position of the first element satisfying `p`, the element that
      `Array.prototype.find` returns; `None` when no element does. */
  function FindIndex<T>(s: seq<T>, p: T -> bool): (r: Option<nat>)
    ensures r.Some? ==> r.value < |s| && p(s[r.value])
    ensures r.Some? ==> forall j :: 0 <= j < r.value ==> !p(s[j])
    ensures r.None? <==> forall j :: 0 <= j < |s| ==> !p(s[j])
    decreases |s|
  {
    if |s| == 0 then None
    else if p(s[0]) then Some(0)
    else
      match FindIndex(s[1..], p)
      case None => None
      case Some(i) => Some(i + 1)
  }

  /** Two sequences on which `p` and `q` give the same answers position by
      position have their first match in the same place. */
  lemma {:induction false} FindIndexAgrees<T>(a: seq<T>, p: T -> bool, b: seq<T>, q: T -> bool)
    requires |a| == |b|
    requires forall j :: 0 <= j < |a| ==> p(a[j]) == q(b[j])
    ensures FindIndex(a, p) == FindIndex(b, q)
    decreases |a|
  {
    if |a| > 0 && !p(a[0]) {
      assert !q(b[0]);
      assert forall j :: 0 <= j < |a| - 1 ==> a[1..][j] == a[j + 1] && b[1..][j] == b[j + 1];
      FindIndexAgrees(a[1..], p, b[1..], q);
    }
  }

  /** With no match in `s`, a matching element appended is the first
      match. */
  lemma {:induction false} FindIndexAfterMisses<T>(s: seq<T>, x: T, p: T -> bool)
    requires FindIndex(s, p).None? && p(x)
    ensures FindIndex(s + [x], p) == Some(|s|)
    decreases |s|
  {
    if |s| == 0 {
      assert s + [x] == [x];
    } else {
      assert (s + [x])[0] == s[0];
      assert (s + [x])[1..] == s[1..] + [x];
      FindIndexAfterMisses(s[1..], x, p);
    }
  }

  /** `Array.prototype.filter`: the elements satisfying `p`, in order. */
  function Filter<T(==,!new)>(s: seq<T>, p: T -> bool): (r: seq<T>)
    ensures IsSubseq(r, s)
    ensures forall i :: 0 <= i < |r| ==> p(r[i])
    ensures forall i :: 0 <= i < |s| && p(s[i]) ==> s[i] in r
    decreases |s|
  {
    if |s| == 0 then []
    else if p(s[0]) then [s[0]] + Filter(s[1..], p)
    else Filter(s[1..], p)
  }

  /** Filtering keeps every copy of each value `p` accepts and no copy of
      any other value. */
  lemma {:induction false} FilterCounts<T(!new)>(s: seq<T>, p: T -> bool)
    ensures forall x :: multiset(Filter(s, p))[x] == if p(x) then multiset(s)[x] else 0
    decreases |s|
  {
    if |s| > 0 {
      FilterCounts(s[1..], p);
      assert s == [s[0]] + s[1..];
    }
  }

  /** One step of the filter. */
  lemma FilterUnfold<T(!new)>(s: seq<T>, p: T -> bool)
    requires |s| > 0
    ensures Filter(s, p) == (if p(s[0]) then [s[0]] else []) + Filter(s[1..], p)
  {
  }

  /** Filtering a sequence with a known first element. */
  lemma FilterCons<T(!new)>(x: T, s: seq<T>, p: T -> bool)
    ensures Filter([x] + s, p) == (if p(x) then [x] else []) + Filter(s, p)
  {
    assert ([x] + s)[1..] == s;
  }

  /** Filtering by a predicate every element satisfies changes nothing. */
  lemma {:induction false} FilterKeepsAll<T(!new)>(s: seq<T>, p: T -> bool)
    requires forall i :: 0 <= i < |s| ==> p(s[i])
    ensures Filter(s, p) == s
    decreases |s|
  {
    if |s| > 0 {
      FilterKeepsAll(s[1..], p);
    }
  }

  /** Filtering distributes over appending one element. */
  lemma {:induction false} FilterAppend<T(!new)>(s: seq<T>, x: T, p: T -> bool)
    ensures Filter(s + [x], p) == Filter(s, p) + (if p(x) then [x] else [])
    decreases |s|
  {
    if |s| == 0 {
      assert s + [x] == [x] + [];
      FilterCons(x, [], p);
    } else {
      assert s + [x] == [s[0]] + (s[1..] + [x]);
      FilterCons(s[0], s[1..] + [x], p);
      FilterAppend(s[1..], x, p);
      assert s == [s[0]] + s[1..];
      FilterCons(s[0], s[1..], p);
    }
  }

  /** Filtering distributes over concatenation. */
  lemma {:induction false} FilterConcat<T(!new)>(a: seq<T>, b: seq<T>, p: T -> bool)
    ensures Filter(a + b, p) == Filter(a, p) + Filter(b, p)
    decreases |a|
  {
    if |a| == 0 {
      assert a + b == b;
    } else {
      assert (a + b)[0] == a[0] && (a + b)[1..] == a[1..] + b;
      FilterUnfold(a + b, p);
      FilterConcat(a[1..], b, p);
      FilterUnfold(a, p);
    }
  }

  /** Replacing an element by one the predicate judges alike changes the
      filtered sequence only at the replaced element's place in it. */
  lemma FilterUpdate<T(!new)>(s: seq<T>, j: nat, y: T, p: T -> bool)
    requires j < |s| && p(y) == p(s[j])
    ensures var n := |Filter(s[..j], p)|;
      if p(s[j]) then
        && n < |Filter(s, p)| && Filter(s, p)[n] == s[j]
        && Filter(s[j := y], p) == Filter(s, p)[n := y]
      else
        Filter(s[j := y], p) == Filter(s, p)
  {
    var pre, post := s[..j], s[j + 1..];
    assert s == pre + ([s[j]] + post);
    assert s[j := y] == pre + ([y] + post);
    FilterConcat(pre, [s[j]] + post, p);
    FilterConcat(pre, [y] + post, p);
    FilterCons(s[j], post, p);
    FilterCons(y, post, p);
  }

  /** Filtering by a predicate no element satisfies leaves nothing. */
  lemma {:induction false} FilterDropsAll<T(!new)>(s: seq<T>, p: T -> bool)
    requires forall i :: 0 <= i < |s| ==> !p(s[i])
    ensures Filter(s, p) == []
    decreases |s|
  {
    if |s| > 0 {
      FilterDropsAll(s[1..], p);
    }
  }

  /** Every element of a subsequence is an element of its source. */
  lemma {:induction false} SubseqIn<T>(a: seq<T>, b: seq<T>)
    requires IsSubseq(a, b)
    ensures forall i :: 0 <= i < |a| ==> a[i] in b
    decreases |b|
  {
    if |a| > 0 {
      if a[0] == b[0] && IsSubseq(a[1..], b[1..]) {
        SubseqIn(a[1..], b[1..]);
        assert forall i :: 1 <= i < |a| ==> a[i] == a[1..][i - 1];
      } else {
        SubseqIn(a, b[1..]);
      }
    }
  }

  /** A subsequence never holds more copies of a value than its source. */
  lemma {:induction false} SubseqMultiset<T>(a: seq<T>, b: seq<T>)
    requires IsSubseq(a, b)
    ensures multiset(a) <= multiset(b)
    decreases |b|
  {
    if |a| > 0 {
      assert b == [b[0]] + b[1..];
      if a[0] == b[0] && IsSubseq(a[1..], b[1..]) {
        SubseqMultiset(a[1..], b[1..]);
        assert a == [a[0]] + a[1..];
      } else {
        SubseqMultiset(a, b[1..]);
      }
    }
  }

  /** `xs.reduce((acc, x) => acc + f(x), 0)` over integers. */
  function SumOf<T>(s: seq<T>, f: T -> int): int
    decreases |s|
  {
    if |s| == 0 then 0 else f(s[0]) + SumOf(s[1..], f)
  }

  lemma {:induction false} SumOfAppend<T>(s: seq<T>, x: T, f: T -> int)
    ensures SumOf(s + [x], f) == SumOf(s, f) + f(x)
    decreases |s|
  {
    if |s| == 0 {
      assert (s + [x])[1..] == [];
    } else {
      assert (s + [x])[1..] == s[1..] + [x];
      SumOfAppend(s[1..], x, f);
    }
  }

  lemma {:induction false} SumOfUpdate<T>(s: seq<T>, i: nat, x: T, f: T -> int)
    requires i < |s|
    ensures SumOf(s[i := x], f) == SumOf(s, f) - f(s[i]) + f(x)
    decreases |s|
  {
    if i > 0 {
      assert s[i := x][1..] == s[1..][i - 1 := x];
      SumOfUpdate(s[1..], i - 1, x, f);
    }
  }

  /** A sum splits into the part `p` keeps and the part it drops. */
  lemma {:induction false} SumOfPartition<T(!new)>(s: seq<T>, p: T -> bool, f: T -> int)
    ensures SumOf(s, f) == SumOf(Filter(s, p), f) + SumOf(Filter(s, Not(p)), f)
    decreases |s|
  {
    if |s| > 0 {
      SumOfPartition(s[1..], p, f);
      var kept, dropped := Filter(s[1..], p), Filter(s[1..], Not(p));
      assert ([s[0]] + kept)[1..] == kept;
      assert ([s[0]] + dropped)[1..] == dropped;
    }
  }

  /** No value occurs twice. */
  predicate NoDuplicates<T(==)>(s: seq<T>)
  {
    forall i, j :: 0 <= i < j < |s| ==> s[i] != s[j]
  }

  /** Position of the first occurrence of `x`. */
  function IndexOf<T(==)>(s: seq<T>, x: T): (i: nat)
    requires x in s
    ensures i < |s| && s[i] == x
    ensures forall j :: 0 <= j < i ==> s[j] != x
    decreases |s|
  {
    if s[0] == x then 0 else 1 + IndexOf(s[1..], x)
  }

  /** Extending a sequence does not move the first occurrence of a value
      it already held. */
  lemma IndexOfInPrefix<T>(s: seq<T>, n: nat, x: T)
    requires n <= |s| && x in s[..n]
    ensures IndexOf(s, x) == IndexOf(s[..n], x)
  {
    var k := IndexOf(s[..n], x);
    assert s[k] == x;
    assert forall j :: 0 <= j < k ==> s[j] == s[..n][j];
  }

  /** Dropping the last element moves no first occurrence of a value the
      rest still holds. */
  lemma IndexOfInit<T>(s: seq<T>)
    requires |s| > 0
    ensures forall x :: x in s[..|s| - 1] ==>
      IndexOf(s, x) == IndexOf(s[..|s| - 1], x) < |s| - 1
  {
    forall x | x in s[..|s| - 1] {
      IndexOfInPrefix(s, |s| - 1, x);
    }
  }

  /** `[...new Set(s)]`: each value once, in order of first occurrence
      (a JavaScript `Set` iterates in insertion order, and inserting a value
      it already holds leaves that order alone). */
  function Distinct<T(==,!new)>(s: seq<T>): (r: seq<T>)
    ensures NoDuplicates(r)
    ensures forall x :: x in r <==> x in s
    ensures forall i, j :: 0 <= i < j < |r| ==> IndexOf(s, r[i]) < IndexOf(s, r[j])
    decreases |s|
  {
    if |s| == 0 then []
    else
      var init, last := s[..|s| - 1], s[|s| - 1];
      var d := Distinct(init);
      assert s == init + [last];
      IndexOfInit(s);
      if last in d then d
      else
        assert last !in init;
        assert IndexOf(s, last) == |init|;
        d + [last]
  }
}
