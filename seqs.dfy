/**
 * The array operations the pages use on their lists: `filter`, `find`,
 * `slice(0, n)`, `splice` (remove one, insert one) and a stable comparison
 * `sort`.
 */
module Seqs {
  import opened Common

  /** `a` is `b` with some elements dropped and the order kept. */
  predicate IsSubseq<T(==)>(a: seq<T>, b: seq<T>)
    decreases |b|
  {
    if a == [] then true
    else if b == [] then false
    else if a[0] == b[0] then IsSubseq(a[1..], b[1..])
    else IsSubseq(a, b[1..])
  }

  /** `s.filter(p)`: only elements satisfying `p`, none added or duplicated. */
  function Filter<T(==)>(s: seq<T>, p: T -> bool): (r: seq<T>)
    ensures |r| <= |s|
    ensures forall i :: 0 <= i < |r| ==> p(r[i])
    ensures multiset(r) <= multiset(s)
  {
    if s == [] then
      []
    else
      assert s == [s[0]] + s[1..];
      (if p(s[0]) then [s[0]] else []) + Filter(s[1..], p)
  }

  /** Every element of `s` satisfying `p` survives the filter, and nothing else is in it. */
  lemma {:induction false} FilterMembers<T>(s: seq<T>, p: T -> bool)
    ensures forall x :: x in Filter(s, p) <==> x in s && p(x)
  {
    if s != [] {
      FilterMembers(s[1..], p);
      assert s == [s[0]] + s[1..];
    }
  }

  /** The filter keeps the input order. */
  lemma {:induction false} FilterSubseq<T>(s: seq<T>, p: T -> bool)
    ensures IsSubseq(Filter(s, p), s)
  {
    if s != [] {
      FilterSubseq(s[1..], p);
      var rest := Filter(s[1..], p);
      if !p(s[0]) {
        assert Filter(s, p) == rest;
        assert rest != [] ==> p(rest[0]);
      } else {
        assert Filter(s, p) == [s[0]] + rest;
      }
    }
  }

  /** Filtering a list grown by one element: the filter grows by that element exactly when it passes. */
  lemma {:induction false} FilterAppend<T>(s: seq<T>, x: T, p: T -> bool)
    ensures Filter(s + [x], p) == Filter(s, p) + (if p(x) then [x] else [])
  {
    if s == [] {
      assert s + [x] == [x];
    } else {
      assert (s + [x])[1..] == s[1..] + [x];
      FilterAppend(s[1..], x, p);
    }
  }

  /** Filtering with a predicate every element satisfies keeps the list. */
  lemma {:induction false} FilterAll<T>(s: seq<T>, p: T -> bool)
    requires forall x :: x in s ==> p(x)
    ensures Filter(s, p) == s
  {
    if s != [] {
      FilterAll(s[1..], p);
    }
  }

  /** A prefix of a subsequence is a subsequence. */
  lemma {:induction false} SubseqPrefix<T>(a: seq<T>, b: seq<T>, n: nat)
    requires IsSubseq(a, b) && n <= |a|
    ensures IsSubseq(a[..n], b)
    decreases |b|
  {
    if n == 0 || a == [] {
    } else if a[0] == b[0] {
      SubseqPrefix(a[1..], b[1..], n - 1);
      assert a[..n][1..] == a[1..][..n - 1];
    } else {
      SubseqPrefix(a, b[1..], n);
    }
  }

  /** `s.slice(0, n)` */
  function Take<T>(s: seq<T>, n: nat): (r: seq<T>)
    ensures |r| == if |s| < n then |s| else n
    ensures r == s[..|r|]
  {
    if n < |s| then s[..n] else s
  }

  /** `s.findIndex(p)`: the first index whose element satisfies `p`, if any. */
  function FirstIndex<T>(s: seq<T>, p: T -> bool): (r: Option<nat>)
    ensures r.Some? ==> r.value < |s| && p(s[r.value]) && forall j :: 0 <= j < r.value ==> !p(s[j])
    ensures r.None? ==> forall j :: 0 <= j < |s| ==> !p(s[j])
  {
    if |s| == 0 then None
    else if p(s[0]) then Some(0)
    else
      var r := FirstIndex(s[1..], p);
      if r.Some? then Some(r.value + 1) else None
  }

  /** `s.find(p)`: the first element satisfying `p`, if any. */
  function Find<T>(s: seq<T>, p: T -> bool): (r: Option<T>)
    ensures r.Some? <==> exists i :: 0 <= i < |s| && p(s[i])
    ensures r.Some? ==> exists i :: 0 <= i < |s| && s[i] == r.value && p(s[i]) && forall j :: 0 <= j < i ==> !p(s[j])
  {
    var i := FirstIndex(s, p);
    if i.Some? then Some(s[i.value]) else None
  }

  // ---------------------------------------------------------------------------
  // splice

  /** `s.splice(i, 1)` for a valid index: the rest of the list, one shorter. */
  function Remove<T>(s: seq<T>, i: nat): (r: seq<T>)
    requires i < |s|
    ensures |r| == |s| - 1
    ensures multiset(r) + multiset{s[i]} == multiset(s)
  {
    assert s == s[..i] + [s[i]] + s[i + 1..];
    s[..i] + s[i + 1..]
  }

  /** Where `splice(i, 0, x)` puts `x`: at `i`, or at the end when `i` is past it. */
  function Clamp(i: nat, n: nat): nat {
    if i < n then i else n
  }

  /** `s.splice(i, 0, x)`: `x` lands at the clamped index, the rest keep their order around it. */
  function Insert<T>(s: seq<T>, i: nat, x: T): (r: seq<T>)
    ensures |r| == |s| + 1
    ensures r[Clamp(i, |s|)] == x
    ensures r[..Clamp(i, |s|)] == s[..Clamp(i, |s|)]
    ensures r[Clamp(i, |s|) + 1..] == s[Clamp(i, |s|)..]
    ensures multiset(r) == multiset(s) + multiset{x}
  {
    var k := Clamp(i, |s|);
    assert s == s[..k] + s[k..];
    s[..k] + [x] + s[k..]
  }

  /** A drag inside one list: take the element at `from` out and put it back at `to`. */
  function Reordered<T>(s: seq<T>, from: nat, to: nat): (r: seq<T>)
    requires from < |s|
    ensures |r| == |s|
    ensures multiset(r) == multiset(s)
    ensures r[Clamp(to, |s| - 1)] == s[from]
  {
    Insert(Remove(s, from), to, s[from])
  }

  /** Dropping an element back onto its own index changes nothing. */
  lemma ReorderedInPlace<T>(s: seq<T>, i: nat)
    requires i < |s|
    ensures Reordered(s, i, i) == s
  {
    var r := Remove(s, i);
    assert r[..i] == s[..i];
    assert r[i..] == s[i + 1..];
    assert s == s[..i] + [s[i]] + s[i + 1..];
  }

  // ---------------------------------------------------------------------------
  // sort

  /** `le` relates every pair one way or the other (as a sort comparator must). */
  ghost predicate Total<T(!new)>(le: (T, T) -> bool) {
    forall a, b :: le(a, b) || le(b, a)
  }

  /** Neighbours are in `le` order. */
  ghost predicate SortedBy<T>(s: seq<T>, le: (T, T) -> bool) {
    forall i :: 0 <= i < |s| - 1 ==> le(s[i], s[i + 1])
  }

  /** Insert `x` in front of the first element it may precede. */
  function InsertSorted<T>(x: T, s: seq<T>, le: (T, T) -> bool): (r: seq<T>)
    ensures |r| == |s| + 1
    ensures multiset(r) == multiset(s) + multiset{x}
    ensures r[0] == x || (s != [] && r[0] == s[0])
  {
    if s == [] then [x]
    else if le(x, s[0]) then [x] + s
    else
      assert s == [s[0]] + s[1..];
      [s[0]] + InsertSorted(x, s[1..], le)
  }

  /** `arr.sort(cmp)`: insertion sort on the comparator's "may precede" relation. */
  function SortBy<T>(s: seq<T>, le: (T, T) -> bool): (r: seq<T>)
    ensures |r| == |s|
    ensures multiset(r) == multiset(s)
  {
    if s == [] then []
    else
      assert s == [s[0]] + s[1..];
      InsertSorted(s[0], SortBy(s[1..], le), le)
  }

  lemma {:induction false} InsertSortedSorted<T(!new)>(x: T, s: seq<T>, le: (T, T) -> bool)
    requires Total(le) && SortedBy(s, le)
    ensures SortedBy(InsertSorted(x, s, le), le)
  {
    if s != [] && !le(x, s[0]) {
      assert le(s[0], x);
      InsertSortedSorted(x, s[1..], le);
      var r := InsertSorted(x, s, le);
      assert r[1..] == InsertSorted(x, s[1..], le);
      forall i | 0 <= i < |r| - 1 ensures le(r[i], r[i + 1]) {
        if i > 0 {
          assert r[i] == r[1..][i - 1] && r[i + 1] == r[1..][i];
        }
      }
    }
  }

  /** Under a total comparator the result is in order. */
  lemma {:induction false} SortBySorted<T(!new)>(s: seq<T>, le: (T, T) -> bool)
    requires Total(le)
    ensures SortedBy(SortBy(s, le), le)
  {
    if s != [] {
      SortBySorted(s[1..], le);
      InsertSortedSorted(s[0], SortBy(s[1..], le), le);
    }
  }

  /** `Filter` on a list with a known first element. */
  lemma FilterCons<T>(a: T, t: seq<T>, p: T -> bool)
    ensures p(a) ==> Filter([a] + t, p) == [a] + Filter(t, p)
    ensures !p(a) ==> Filter([a] + t, p) == Filter(t, p)
  {
    assert ([a] + t)[0] == a && ([a] + t)[1..] == t;
    assert [] + Filter(t, p) == Filter(t, p);
  }

  /**
   * Elements of a group that may all precede one another (`le` holds both
   * ways inside the group) are "ties". Inserting `x` keeps the group's order,
   * with `x` going in front of the tied elements already there.
   */
  lemma {:induction false} FilterInsertSorted<T(!new)>(x: T, s: seq<T>, le: (T, T) -> bool, p: T -> bool)
    requires p(x) ==> forall y :: p(y) ==> le(x, y)
    ensures p(x) ==> Filter(InsertSorted(x, s, le), p) == [x] + Filter(s, p)
    ensures !p(x) ==> Filter(InsertSorted(x, s, le), p) == Filter(s, p)
  {
    if s == [] || le(x, s[0]) {
      assert InsertSorted(x, s, le) == [x] + s;
      FilterCons(x, s, p);
    } else {
      var r' := InsertSorted(x, s[1..], le);
      assert InsertSorted(x, s, le) == [s[0]] + r';
      assert s == [s[0]] + s[1..];
      FilterCons(s[0], r', p);
      FilterCons(s[0], s[1..], p);
      FilterInsertSorted(x, s[1..], le, p);
      assert p(x) ==> !p(s[0]);
    }
  }

  /** The sort is stable: tied elements come out in the order they went in. */
  lemma {:induction false} SortByStable<T(!new)>(s: seq<T>, le: (T, T) -> bool, p: T -> bool)
    requires forall a, b :: p(a) && p(b) ==> le(a, b)
    ensures Filter(SortBy(s, le), p) == Filter(s, p)
  {
    if s != [] {
      assert s == [s[0]] + s[1..];
      SortByStable(s[1..], le, p);
      FilterInsertSorted(s[0], SortBy(s[1..], le), le, p);
    }
  }
}
