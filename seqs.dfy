/** Sequence operations that the application performs through JavaScript's
    array built-ins: `filter`, `find`/`findIndex`, a stable `sort` with a
    numeric comparator, and insertion-ordered de-duplication (`new Set`). */
module Seqs {

  import opened Wrappers

  /** `a` can be obtained from `b` by deleting elements (order is kept). */
  ghost predicate IsSubsequence<T>(a: seq<T>, b: seq<T>)
  {
    if a == [] then true
    else if b == [] then false
    else if a[0] == b[0] then IsSubsequence(a[1..], b[1..])
    else IsSubsequence(a, b[1..])
  }

  /** The elements satisfying `p`, in their order. */
  function Kept<T>(s: seq<T>, p: T -> bool): seq<T>
  {
    if s == [] then []
    else if p(s[0]) then [s[0]] + Kept(s[1..], p)
    else Kept(s[1..], p)
  }

  /** Counting an element among the kept ones. */
  lemma {:induction false} KeptCounts<T>(s: seq<T>, p: T -> bool, x: T)
    ensures multiset(Kept(s, p))[x] == if p(x) then multiset(s)[x] else 0
  {
    if s != [] {
      KeptCounts(s[1..], p, x);
      assert s == [s[0]] + s[1..];
    }
  }

  /** The kept elements satisfy `p` and keep their order. */
  lemma {:induction false} KeptInOrder<T>(s: seq<T>, p: T -> bool)
    ensures |Kept(s, p)| <= |s|
    ensures forall i :: 0 <= i < |Kept(s, p)| ==> p(Kept(s, p)[i])
    ensures IsSubsequence(Kept(s, p), s)
  {
    if s != [] {
      KeptInOrder(s[1..], p);
      var rest := Kept(s[1..], p);
      if p(s[0]) {
        assert ([s[0]] + rest)[1..] == rest;
      } else {
        assert rest != [] ==> p(rest[0]) && rest[0] != s[0];
      }
    }
  }

  /** `Array.prototype.filter`: the elements satisfying `p`, in their order. */
  function Filter<T(==,!new)>(s: seq<T>, p: T -> bool): (r: seq<T>)
    ensures |r| <= |s|
    ensures forall i :: 0 <= i < |r| ==> p(r[i])
    ensures forall x :: x in r <==> x in s && p(x)
    ensures forall x :: multiset(r)[x] == if p(x) then multiset(s)[x] else 0
    ensures IsSubsequence(r, s)
  {
    var r := Kept(s, p);
    KeptInOrder(s, p);
    assert forall x :: multiset(r)[x] == if p(x) then multiset(s)[x] else 0 by {
      forall x ensures multiset(r)[x] == if p(x) then multiset(s)[x] else 0 {
        KeptCounts(s, p, x);
      }
    }
    assert forall x :: x in r <==> x in s && p(x) by {
      forall x ensures x in r <==> x in s && p(x) {
        assert x in r <==> x in multiset(r);
        assert x in s <==> x in multiset(s);
      }
    }
    r
  }

  /** Filtering keeps everything exactly when every element passes. */
  lemma {:induction false} FilterAll<T(!new)>(s: seq<T>, p: T -> bool)
    requires forall i :: 0 <= i < |s| ==> p(s[i])
    ensures Filter(s, p) == s
  {
    if s != [] {
      FilterAll(s[1..], p);
    }
  }

  /** `Array.prototype.findIndex`: the first index whose element satisfies
      `p`, or -1 when there is none. */
  function FindFirst<T>(s: seq<T>, p: T -> bool): (r: int)
    ensures -1 <= r < |s|
    ensures r == -1 <==> forall i :: 0 <= i < |s| ==> !p(s[i])
    ensures 0 <= r ==> p(s[r]) && forall i :: 0 <= i < r ==> !p(s[i])
  {
    if s == [] then -1
    else if p(s[0]) then 0
    else
      var k := FindFirst(s[1..], p);
      if k == -1 then -1 else k + 1
  }

  /** `Array.prototype.find`: the first element satisfying `p`, if any. */
  function Find<T>(s: seq<T>, p: T -> bool): (r: Option<T>)
    ensures r.None? <==> forall i :: 0 <= i < |s| ==> !p(s[i])
    ensures r.Some? ==> p(r.value) && exists i :: 0 <= i < |s| && s[i] == r.value && (forall j :: 0 <= j < i ==> !p(s[j]))
  {
    var k := FindFirst(s, p);
    if k == -1 then None else Some(s[k])
  }

  /** Every element's key is at least the key of every later element. */
  ghost predicate SortedDesc<T>(s: seq<T>, key: T -> real)
  {
    forall i, j :: 0 <= i < j < |s| ==> key(s[i]) >= key(s[j])
  }

  /** Places `x` before the first element whose key is not greater than its
      own, so that among equal keys the earlier-inserted element comes first. */
  function Place<T>(x: T, s: seq<T>, key: T -> real): seq<T>
  {
    if s == [] || key(x) >= key(s[0]) then [x] + s
    else [s[0]] + Place(x, s[1..], key)
  }

  /** Placing adds exactly `x`. */
  lemma {:induction false} PlaceCounts<T>(x: T, s: seq<T>, key: T -> real)
    ensures multiset(Place(x, s, key)) == multiset(s) + multiset{x}
  {
    if s != [] && key(x) < key(s[0]) {
      PlaceCounts(x, s[1..], key);
      assert s == [s[0]] + s[1..];
    }
  }

  /** Placing into a sorted sequence keeps it sorted. */
  lemma {:induction false} PlaceSorted<T>(x: T, s: seq<T>, key: T -> real)
    requires SortedDesc(s, key)
    ensures SortedDesc(Place(x, s, key), key)
  {
    var r := Place(x, s, key);
    if s == [] || key(x) >= key(s[0]) {
      forall i, j | 0 <= i < j < |r| ensures key(r[i]) >= key(r[j]) {
        assert r[j] == s[j - 1];
        if 0 < i { assert r[i] == s[i - 1]; }
      }
    } else {
      var rest := Place(x, s[1..], key);
      PlaceSorted(x, s[1..], key);
      PlaceCounts(x, s[1..], key);
      assert r == [s[0]] + rest;
      forall i, j | 0 <= i < j < |r| ensures key(r[i]) >= key(r[j]) {
        assert r[j] == rest[j - 1];
        if 0 < i { assert r[i] == rest[i - 1]; } else { HeadBound(x, s, key, rest, j - 1); }
      }
    }
  }

  /** Every element of `rest` is `x` or a later element of `s`, and so has a
      key no greater than that of `s[0]`. */
  lemma HeadBound<T>(x: T, s: seq<T>, key: T -> real, rest: seq<T>, k: nat)
    requires SortedDesc(s, key) && s != [] && key(x) < key(s[0])
    requires multiset(rest) == multiset(s[1..]) + multiset{x} && k < |rest|
    ensures key(s[0]) >= key(rest[k])
  {
    assert rest[k] in multiset(rest);
    if rest[k] != x {
      assert rest[k] in multiset(s[1..]);
      var m :| 0 <= m < |s[1..]| && s[1..][m] == rest[k];
      assert s[m + 1] == rest[k];
    }
  }

  /** A stable sort that puts larger keys first: JavaScript's
      `[...s].sort((a, b) => key(b) - key(a))`. */
  function SortDesc<T(==)>(s: seq<T>, key: T -> real): (r: seq<T>)
    ensures SortedDesc(r, key)
    ensures multiset(r) == multiset(s)
    ensures |r| == |s|
  {
    if s == [] then []
    else
      var sorted := SortDesc(s[1..], key);
      assert s == [s[0]] + s[1..];
      PlaceSorted(s[0], sorted, key);
      PlaceCounts(s[0], sorted, key);
      var r := Place(s[0], sorted, key);
      assert |r| == |multiset(r)|;
      r
  }

  /** No element occurs twice. */
  predicate NoDup<T(==)>(s: seq<T>)
  {
    forall i, j :: 0 <= i < j < |s| ==> s[i] != s[j]
  }

  /** Filtering a sequence without repetitions leaves none. */
  lemma {:induction false} FilterNoDup<T(!new)>(s: seq<T>, p: T -> bool)
    ensures NoDup(s) ==> NoDup(Filter(s, p))
  {
    if s != [] && NoDup(s) {
      assert NoDup(s[1..]);
      FilterNoDup(s[1..], p);
      assert s[0] !in s[1..];
    }
  }

  /** The index of the first occurrence of `x` in `s`. */
  function FirstIndex<T(==)>(s: seq<T>, x: T): (k: nat)
    requires x in s
    ensures k < |s| && s[k] == x && x !in s[..k]
  {
    if s[0] == x then 0 else 1 + FirstIndex(s[1..], x)
  }

  /** The first occurrence of an element that also occurs in a prefix is found
      in that prefix. */
  lemma {:induction false} FirstIndexOfPrefix<T>(s: seq<T>, n: nat, x: T)
    requires n <= |s| && x in s[..n]
    ensures x in s && FirstIndex(s, x) == FirstIndex(s[..n], x)
  {
    if s[0] != x {
      assert s[1..][..n - 1] == s[..n][1..];
      FirstIndexOfPrefix(s[1..], n - 1, x);
    }
  }

  /** The distinct elements of `s` in order of first occurrence: the iteration
      order of JavaScript's `new Set(s)`. */
  function Distinct<T(==,!new)>(s: seq<T>): (r: seq<T>)
    ensures NoDup(r)
    ensures forall x :: x in r <==> x in s
    ensures forall i, j :: 0 <= i < j < |r| ==> FirstIndex(s, r[i]) < FirstIndex(s, r[j])
  {
    if s == [] then []
    else
      var init := s[..|s| - 1];
      var last := s[|s| - 1];
      var d := Distinct(init);
      assert s == init + [last];
      forall x | x in init ensures x in s && FirstIndex(s, x) == FirstIndex(init, x) {
        FirstIndexOfPrefix(s, |s| - 1, x);
      }
      if last in d then d
      else
        var r := d + [last];
        assert FirstIndex(s, last) == |s| - 1;
        r
  }
}
