/** The handful of JavaScript array operations the data layer uses
    (`filter`, `find`, `sort` by a numeric key, `slice(0, n)`,
    `Math.min`/`Math.max` over a list), stated over Dafny sequences. */
module Seqs {
  import opened Optional

  function Min(a: int, b: int): int { if a <= b then a else b }

  function Max(a: int, b: int): int { if a <= b then b else a }

  /** `sub` consists of some of the elements of `s`, in the order they have in `s`. */
  ghost predicate IsSubsequence<T>(sub: seq<T>, s: seq<T>)
    decreases |s|
  {
    if |sub| == 0 then true
    else if |s| == 0 then false
    else if sub[0] == s[0] then IsSubsequence(sub[1..], s[1..])
    else IsSubsequence(sub, s[1..])
  }

  /** `Array.prototype.filter`: the elements of `s` that satisfy `p`, with
      their multiplicities, in their original order. */
  function Filter<T(!new)>(s: seq<T>, p: T -> bool): (r: seq<T>)
    ensures forall i :: 0 <= i < |r| ==> p(r[i])
    ensures forall x :: multiset(r)[x] == if p(x) then multiset(s)[x] else 0
    ensures forall x :: x in r <==> x in s && p(x)
    ensures IsSubsequence(r, s)
  {
    if |s| == 0 then []
    else
      var rest := Filter(s[1..], p);
      assert s == [s[0]] + s[1..];
      if p(s[0]) then
        assert ([s[0]] + rest)[1..] == rest;
        [s[0]] + rest
      else
        assert |rest| > 0 ==> rest[0] != s[0] by {
          if |rest| > 0 { assert p(rest[0]); }
        }
        rest
  }

  /** Filtering a one-element sequence keeps the element or drops it. */
  lemma FilterSingleton<T(!new)>(x: T, p: T -> bool)
    ensures Filter([x], p) == if p(x) then [x] else []
  {
    assert [x][1..] == [];
  }

  /** Filtering a non-empty sequence: the head is kept or dropped, then the
      tail is filtered. */
  lemma FilterUnfold<T(!new)>(s: seq<T>, p: T -> bool)
    requires |s| > 0
    ensures Filter(s, p) == (if p(s[0]) then [s[0]] else []) + Filter(s[1..], p)
  {
    if !p(s[0]) {
      assert [] + Filter(s[1..], p) == Filter(s[1..], p);
    }
  }

  /** A filter every element passes keeps the sequence as it is. */
  lemma {:induction false} FilterKeepsAll<T(!new)>(s: seq<T>, p: T -> bool)
    requires forall i :: 0 <= i < |s| ==> p(s[i])
    ensures Filter(s, p) == s
  {
    if |s| > 0 {
      FilterKeepsAll(s[1..], p);
      FilterUnfold(s, p);
      assert s == [s[0]] + s[1..];
    }
  }

  /** The length of a filtered non-empty sequence: one for a kept head,
      plus the length of the filtered tail. */
  lemma FilterLengthUnfold<T(!new)>(s: seq<T>, p: T -> bool)
    requires |s| > 0
    ensures |Filter(s, p)| == (if p(s[0]) then 1 else 0) + |Filter(s[1..], p)|
  {
    FilterUnfold(s, p);
  }

  /** The index `Array.prototype.find` stops at: the first element satisfying `p`. */
  function FindIndex<T>(s: seq<T>, p: T -> bool): (r: Option<nat>)
    ensures r.Some? ==> r.value < |s| && p(s[r.value])
    ensures r.Some? ==> forall j :: 0 <= j < r.value ==> !p(s[j])
    ensures r.None? ==> forall j :: 0 <= j < |s| ==> !p(s[j])
  {
    if |s| == 0 then None
    else if p(s[0]) then Some(0)
    else
      match FindIndex(s[1..], p)
      case None => None
      case Some(k) => Some(k + 1)
  }

  /** `Array.prototype.find`: the first element satisfying `p`, or `None`
      (JavaScript's `undefined`) when no element does. */
  function Find<T>(s: seq<T>, p: T -> bool): (r: Option<T>)
    ensures r.None? <==> forall j :: 0 <= j < |s| ==> !p(s[j])
    ensures r.Some? ==> r.value in s && p(r.value)
    ensures r.Some? ==> exists i :: 0 <= i < |s| && s[i] == r.value && forall j :: 0 <= j < i ==> !p(s[j])
  {
    match FindIndex(s, p)
    case None => None
    case Some(i) => Some(s[i])
  }

  ghost predicate SortedBy<T>(s: seq<T>, key: T -> int) {
    forall i, j :: 0 <= i < j < |s| ==> key(s[i]) <= key(s[j])
  }

  /** Places `x` into the sorted `s` in front of every element whose key is
      not smaller, so that `x` precedes the elements that followed it. */
  function Insert<T>(x: T, s: seq<T>, key: T -> int): (r: seq<T>)
    requires SortedBy(s, key)
    ensures SortedBy(r, key)
    ensures multiset(r) == multiset{x} + multiset(s)
  {
    if |s| == 0 then [x]
    else if key(x) <= key(s[0]) then [x] + s
    else
      var rest := Insert(x, s[1..], key);
      assert s == [s[0]] + s[1..];
      SortedTail(s, key);
      HeadBoundsInsert(s, x, rest, key);
      [s[0]] + rest
  }

  /** When `x` goes after the head of the sorted `s`, everything the tail
      becomes after inserting `x` has a key no smaller than the head's. */
  lemma HeadBoundsInsert<T>(s: seq<T>, x: T, rest: seq<T>, key: T -> int)
    requires |s| > 0 && SortedBy(s, key) && key(s[0]) < key(x)
    requires multiset(rest) == multiset{x} + multiset(s[1..])
    ensures forall y :: y in rest ==> key(s[0]) <= key(y)
  {
    forall y | y in rest
      ensures key(s[0]) <= key(y)
    {
      assert y in multiset(rest);
      if y != x {
        assert y in multiset(s[1..]);
        var j :| 0 <= j < |s[1..]| && s[1..][j] == y;
        assert s[j + 1] == y;
      }
    }
  }

  /** `Array.prototype.sort` with the comparator `(a, b) => key(a) - key(b)`:
      a permutation of `s` ordered by `key`. The definition is an insertion
      sort that keeps equal keys in input order, as ES2019 requires, but the
      contract does not state that. */
  function SortByKey<T>(s: seq<T>, key: T -> int): (r: seq<T>)
    ensures SortedBy(r, key)
    ensures multiset(r) == multiset(s)
    ensures |r| == |s|
  {
    if |s| == 0 then []
    else
      assert s == [s[0]] + s[1..];
      var r := Insert(s[0], SortByKey(s[1..], key), key);
      assert |r| == |multiset(r)|;
      r
  }

  /** Dropping the first element keeps a sequence sorted. */
  lemma SortedTail<T>(s: seq<T>, key: T -> int)
    requires |s| > 0 && SortedBy(s, key)
    ensures SortedBy(s[1..], key)
  {
    forall i, j | 0 <= i < j < |s[1..]|
      ensures key(s[1..][i]) <= key(s[1..][j])
    {
      assert s[1..][i] == s[i + 1] && s[1..][j] == s[j + 1];
    }
  }

  lemma SortByKeyUnfold<T>(s: seq<T>, key: T -> int)
    requires |s| > 0
    ensures SortByKey(s, key) == Insert(s[0], SortByKey(s[1..], key), key)
  {
  }

  /** An element no greater than the head goes in front. */
  lemma InsertLeast<T>(x: T, s: seq<T>, key: T -> int)
    requires SortedBy(s, key)
    requires |s| == 0 || key(x) <= key(s[0])
    ensures Insert(x, s, key) == [x] + s
  {
  }

  /** A sequence that is already in key order comes back unchanged. */
  lemma {:induction false} SortOfSortedIsIdentity<T>(s: seq<T>, key: T -> int)
    requires SortedBy(s, key)
    ensures SortByKey(s, key) == s
  {
    if |s| > 0 {
      var rest := s[1..];
      SortedTail(s, key);
      SortOfSortedIsIdentity(rest, key);
      SortByKeyUnfold(s, key);
      if |rest| > 0 {
        assert key(s[0]) <= key(s[1]);
        assert s[1] == rest[0];
      }
      InsertLeast(s[0], rest, key);
      assert s == [s[0]] + rest;
    }
  }

  /** The first element of a sorted sequence has the least key of all. */
  lemma SortedHeadIsLeast<T>(s: seq<T>, key: T -> int, x: T)
    requires SortedBy(s, key) && x in s
    ensures key(s[0]) <= key(x)
  {
    var j :| 0 <= j < |s| && s[j] == x;
    if j > 0 {
      assert key(s[0]) <= key(s[j]);
    }
  }

  /** Every element of a sequence whose multiset is contained in another's
      is an element of the other. */
  lemma SubMultisetMembers<T>(a: seq<T>, b: seq<T>)
    requires multiset(a) <= multiset(b)
    ensures forall x :: x in a ==> x in b
  {
    forall x | x in a
      ensures x in b
    {
      assert x in multiset(a);
    }
  }

  /** Sorting what a filter kept keeps exactly the elements that pass it. */
  lemma SortedFilterMembers<T(!new)>(s: seq<T>, p: T -> bool, key: T -> int)
    ensures forall x :: x in SortByKey(Filter(s, p), key) <==> x in s && p(x)
  {
    var kept := Filter(s, p);
    SubMultisetMembers(SortByKey(kept, key), kept);
    SubMultisetMembers(kept, SortByKey(kept, key));
  }

  /** `s.slice(0, end)` for an integer `end`: a prefix of `s` that stops
      at `end` when `end` is not negative, and drops the last `-end`
      elements when it is. */
  function SlicePrefix<T>(s: seq<T>, end: int): (r: seq<T>)
    ensures r <= s
    ensures multiset(r) <= multiset(s)
    ensures 0 <= end ==> |r| == Min(end, |s|)
    ensures end < 0 ==> |r| == Max(|s| + end, 0)
  {
    var stop := if end < 0 then Max(|s| + end, 0) else Min(end, |s|);
    assert s == s[..stop] + s[stop..];
    s[..stop]
  }

  /** `Math.max(...s)` over a non-empty list. */
  function MaxOf(s: seq<int>): (m: int)
    requires |s| > 0
    ensures m in s
    ensures forall i :: 0 <= i < |s| ==> s[i] <= m
  {
    if |s| == 1 then s[0] else Max(s[0], MaxOf(s[1..]))
  }

  /** `Math.min(...s)` over a non-empty list. */
  function MinOf(s: seq<int>): (m: int)
    requires |s| > 0
    ensures m in s
    ensures forall i :: 0 <= i < |s| ==> m <= s[i]
  {
    if |s| == 1 then s[0] else Min(s[0], MinOf(s[1..]))
  }

  /** `s.map(f)`. */
  function Map<T, U>(s: seq<T>, f: T -> U): (r: seq<U>)
    ensures |r| == |s|
    ensures forall i :: 0 <= i < |s| ==> r[i] == f(s[i])
  {
    if |s| == 0 then [] else [f(s[0])] + Map(s[1..], f)
  }

  /** Filtering on one value of a field keeps as many elements as there are
      occurrences of that value among the fields. */
  lemma {:induction false} FilterCountsValue<T(!new), U>(s: seq<T>, p: T -> bool, f: T -> U, v: U)
    requires forall x :: p(x) == (f(x) == v)
    ensures |Filter(s, p)| == multiset(Map(s, f))[v]
  {
    if |s| > 0 {
      FilterCountsValue(s[1..], p, f, v);
      FilterLengthUnfold(s, p);
      assert Map(s, f) == [f(s[0])] + Map(s[1..], f);
    }
  }
}
