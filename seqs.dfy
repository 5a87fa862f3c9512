/**
 * Sequence combinators shared by the model: the JavaScript array methods
 * `filter`, `map`, `slice(0, n)`, de-duplication through a `Set`, and the
 * stable `sort` the engines implement.
 */
module Seqs {

  /** The elements of `s` satisfying `p`, in order (`Array.prototype.filter`). */
  function Filter<T>(s: seq<T>, p: T -> bool): (r: seq<T>)
    ensures |r| <= |s|
  {
    if s == [] then []
    else
      assert s == s[..|s| - 1] + [s[|s| - 1]];
      Filter(s[..|s| - 1], p) + (if p(s[|s| - 1]) then [s[|s| - 1]] else [])
  }

  /** The kept elements are exactly the elements of `s` satisfying `p`. */
  lemma {:induction false} FilterSpec<T>(s: seq<T>, p: T -> bool)
    ensures forall i :: 0 <= i < |Filter(s, p)| ==> Filter(s, p)[i] in s && p(Filter(s, p)[i])
    ensures forall i :: 0 <= i < |s| && p(s[i]) ==> s[i] in Filter(s, p)
  {
    if s != [] {
      var s' := s[..|s| - 1];
      FilterSpec(s', p);
      assert forall x :: x in s' ==> x in s;
      forall i | 0 <= i < |s| && p(s[i]) ensures s[i] in Filter(s, p) {
        if i < |s| - 1 {
          assert s[i] == s'[i];
        }
      }
    }
  }

  /** Filtering distributes over concatenation. */
  lemma {:induction false} FilterAppend<T>(a: seq<T>, b: seq<T>, p: T -> bool)
    ensures Filter(a + b, p) == Filter(a, p) + Filter(b, p)
  {
    if b == [] {
      assert a + b == a;
    } else {
      var b' := b[..|b| - 1];
      assert (a + b)[..|a + b| - 1] == a + b';
      FilterAppend(a, b', p);
    }
  }

  /** One more element of `s` is kept exactly when it satisfies `p`. */
  lemma FilterPrefixStep<T>(s: seq<T>, i: nat, p: T -> bool)
    requires i < |s|
    ensures Filter(s[..i + 1], p) == Filter(s[..i], p) + (if p(s[i]) then [s[i]] else [])
  {
    assert s[..i + 1][..i] == s[..i];
  }

  /** Filtering with a predicate every element satisfies is the identity. */
  lemma {:induction false} FilterAll<T>(s: seq<T>, p: T -> bool)
    requires forall i :: 0 <= i < |s| ==> p(s[i])
    ensures Filter(s, p) == s
  {
    if s != [] {
      FilterAll(s[..|s| - 1], p);
    }
  }

  /** Filtering with a predicate no element satisfies gives the empty sequence. */
  lemma {:induction false} FilterNone<T>(s: seq<T>, p: T -> bool)
    requires forall i :: 0 <= i < |s| ==> !p(s[i])
    ensures Filter(s, p) == []
  {
    if s != [] {
      FilterNone(s[..|s| - 1], p);
    }
  }

  /** Number of elements satisfying `p` (`filter(p).length`). */
  function Count<T>(s: seq<T>, p: T -> bool): nat {
    |Filter(s, p)|
  }

  /** `arr.map(f)`. */
  function Map<T, U>(s: seq<T>, f: T -> U): (r: seq<U>)
    ensures |r| == |s|
    ensures forall i :: 0 <= i < |s| ==> r[i] == f(s[i])
  {
    seq(|s|, i requires 0 <= i < |s| => f(s[i]))
  }

  lemma MapAppend<T, U>(a: seq<T>, b: seq<T>, f: T -> U)
    ensures Map(a + b, f) == Map(a, f) + Map(b, f)
  {
    assert forall i :: 0 <= i < |a| + |b| ==> Map(a + b, f)[i] == (Map(a, f) + Map(b, f))[i];
  }

  lemma MultisetCancel<T>(a: multiset<T>, b: multiset<T>, x: T)
    requires a + multiset{x} == b + multiset{x}
    ensures a == b
  {
    forall y ensures a[y] == b[y] {
      assert (a + multiset{x})[y] == a[y] + multiset{x}[y];
      assert (b + multiset{x})[y] == b[y] + multiset{x}[y];
    }
  }

  lemma RemoveAt<T>(b: seq<T>, k: nat)
    requires k < |b|
    ensures multiset(b) == multiset(b[..k] + b[k + 1..]) + multiset{b[k]}
  {
    assert b == b[..k] + [b[k]] + b[k + 1..];
  }

  /** Mapping two rearrangements of the same elements gives rearrangements of the same images. */
  lemma {:induction false} MapPermutation<T, U>(a: seq<T>, b: seq<T>, f: T -> U)
    requires multiset(a) == multiset(b)
    ensures multiset(Map(a, f)) == multiset(Map(b, f))
    decreases |a|
  {
    if a == [] {
      assert |multiset(b)| == 0;
    } else {
      var a', x := a[..|a| - 1], a[|a| - 1];
      assert a == a' + [x];
      assert x in multiset(b);
      var k :| 0 <= k < |b| && b[k] == x;
      var rest := b[..k] + b[k + 1..];
      RemoveAt(b, k);
      MultisetCancel(multiset(a'), multiset(rest), x);
      MapPermutation(a', rest, f);
      MapAppend(a', [x], f);
      assert Map([x], f) == [f(x)];
      assert multiset(Map(a, f)) == multiset(Map(a', f)) + multiset{f(x)};
      MapRemoveAt(b, k, f);
    }
  }

  /** Taking one element out of a sequence takes its image out of the mapped sequence. */
  lemma MapRemoveAt<T, U>(b: seq<T>, k: nat, f: T -> U)
    requires k < |b|
    ensures multiset(Map(b, f)) == multiset(Map(b[..k] + b[k + 1..], f)) + multiset{f(b[k])}
  {
    var b1, b2 := b[..k], b[k + 1..];
    assert b == (b1 + [b[k]]) + b2;
    MapAppend(b1 + [b[k]], b2, f);
    MapAppend(b1, [b[k]], f);
    MapAppend(b1, b2, f);
  }

  function Min(a: int, b: int): int { if a <= b then a else b }

  /** `arr.slice(0, n)`: the first `n` elements, or all of them when there are fewer. */
  function Take<T>(s: seq<T>, n: nat): (r: seq<T>)
    ensures |r| == Min(n, |s|)
    ensures forall i :: 0 <= i < |r| ==> r[i] == s[i]
  {
    s[..Min(n, |s|)]
  }

  /** No element occurs twice. */
  predicate NoDup<T(==)>(s: seq<T>) {
    forall i, j :: 0 <= i < j < |s| ==> s[i] != s[j]
  }

  /** Index of the first occurrence of `x` in `s` (`indexOf`). */
  function FirstIndex<T(==)>(s: seq<T>, x: T): (k: nat)
    requires x in s
    ensures k < |s| && s[k] == x
    ensures forall j :: 0 <= j < k ==> s[j] != x
  {
    if s[0] == x then 0 else 1 + FirstIndex(s[1..], x)
  }

  lemma {:induction false} FirstIndexExtend<T>(p: seq<T>, y: T, x: T)
    requires x in p
    ensures x in p + [y] && FirstIndex(p + [y], x) == FirstIndex(p, x)
  {
    if p[0] != x {
      assert (p + [y])[1..] == p[1..] + [y];
      FirstIndexExtend(p[1..], y, x);
    }
  }

  /**
   * The distinct elements of `s` in order of first occurrence: what
   * `[...new Set(s)]` and the keys of a `Map` filled from `s` give.
   */
  function Unique<T(==)>(s: seq<T>): (r: seq<T>)
    ensures NoDup(r)
    ensures forall i :: 0 <= i < |r| ==> r[i] in s
    ensures forall i :: 0 <= i < |s| ==> s[i] in r
  {
    if s == [] then []
    else
      var p := s[..|s| - 1];
      assert s == p + [s[|s| - 1]];
      var u := Unique(p);
      if s[|s| - 1] in p then u else u + [s[|s| - 1]]
  }

  /** `Unique` keeps the elements in the order of their first occurrence in the input. */
  lemma {:induction false} UniqueKeepsFirstOccurrenceOrder<T>(s: seq<T>)
    ensures forall i, j :: 0 <= i < j < |Unique(s)| ==>
      FirstIndex(s, Unique(s)[i]) < FirstIndex(s, Unique(s)[j])
  {
    if s != [] {
      var p, y := s[..|s| - 1], s[|s| - 1];
      assert s == p + [y];
      UniqueKeepsFirstOccurrenceOrder(p);
      var u := Unique(p);
      forall x | x in p ensures FirstIndex(s, x) == FirstIndex(p, x) {
        FirstIndexExtend(p, y, x);
      }
      if y !in p {
        assert FirstIndex(s, y) == |p|;
      }
    }
  }

  /** `Unique` leaves a sequence without duplicates unchanged. */
  lemma {:induction false} UniqueOfNoDup<T>(s: seq<T>)
    requires NoDup(s)
    ensures Unique(s) == s
  {
    if s != [] {
      var p := s[..|s| - 1];
      UniqueOfNoDup(p);
    }
  }

  /** Sorted so that keys never increase. */
  ghost predicate SortedDesc<T>(s: seq<T>, key: T -> real) {
    forall i, j :: 0 <= i < j < |s| ==> key(s[j]) <= key(s[i])
  }

  /** Puts `x` before the first element whose key is not larger than its own. */
  function InsertDesc<T>(x: T, s: seq<T>, key: T -> real): (r: seq<T>)
    ensures multiset(r) == multiset(s) + multiset{x}
  {
    if s == [] || key(s[0]) <= key(x) then [x] + s
    else
      assert s == [s[0]] + s[1..];
      [s[0]] + InsertDesc(x, s[1..], key)
  }

  /**
   * Stable sort by descending key: `arr.sort((a, b) => key(b) - key(a))` on an
   * engine whose sort is stable, as the ECMAScript 2019 specification requires.
   */
  function SortDesc<T>(s: seq<T>, key: T -> real): (r: seq<T>)
    ensures multiset(r) == multiset(s)
    ensures |r| == |s|
  {
    if s == [] then []
    else
      assert s == [s[0]] + s[1..];
      InsertDesc(s[0], SortDesc(s[1..], key), key)
  }

  lemma {:induction false} InsertDescSorted<T>(x: T, s: seq<T>, key: T -> real)
    requires SortedDesc(s, key)
    ensures SortedDesc(InsertDesc(x, s, key), key)
  {
    if s != [] && key(x) < key(s[0]) {
      var t := s[1..];
      InsertDescSorted(x, t, key);
      var r := InsertDesc(x, t, key);
      forall j | 0 <= j < |r| ensures key(r[j]) <= key(s[0]) {
        assert r[j] in multiset(r);
        assert r[j] == x || r[j] in multiset(t);
        if r[j] != x {
          var k :| 0 <= k < |t| && t[k] == r[j];
          assert t[k] == s[k + 1];
        }
      }
    }
  }

  /** The sort's output never increases in key. */
  lemma {:induction false} SortDescSorted<T>(s: seq<T>, key: T -> real)
    ensures SortedDesc(SortDesc(s, key), key)
  {
    if s != [] {
      SortDescSorted(s[1..], key);
      InsertDescSorted(s[0], SortDesc(s[1..], key), key);
    }
  }

  /** A prefix of a sorted sequence is sorted. */
  lemma SortedPrefix<T>(s: seq<T>, n: nat, key: T -> real)
    requires n <= |s| && SortedDesc(s, key)
    ensures SortedDesc(s[..n], key)
  {
  }

  /** Two rearrangements of each other have the same length and the same elements. */
  lemma SameElements<T>(a: seq<T>, b: seq<T>)
    requires multiset(a) == multiset(b)
    ensures |a| == |b|
    ensures forall x :: x in a <==> x in b
  {
    assert |multiset(a)| == |multiset(b)|;
    forall x ensures x in a <==> x in b {
      assert x in a <==> x in multiset(a);
      assert x in b <==> x in multiset(b);
    }
  }

  /** The predicate "has key `v`". */
  function KeyIs<T>(key: T -> real, v: real): T -> bool {
    x => key(x) == v
  }

  lemma {:induction false} InsertDescStable<T>(x: T, s: seq<T>, key: T -> real, v: real)
    requires SortedDesc(s, key)
    ensures Filter(InsertDesc(x, s, key), KeyIs(key, v))
         == Filter([x], KeyIs(key, v)) + Filter(s, KeyIs(key, v))
  {
    var p := KeyIs(key, v);
    if s == [] || key(s[0]) <= key(x) {
      FilterAppend([x], s, p);
    } else {
      var t := s[1..];
      assert s == [s[0]] + t;
      assert InsertDesc(x, s, key) == [s[0]] + InsertDesc(x, t, key);
      SortedDescTail(s, key);
      InsertDescStable(x, t, key, v);
      // `s[0]` has a larger key than `x`, so at most one of them has key `v`
      assert !(p(x) && p(s[0]));
      FilterPassOver(s[0], x, t, InsertDesc(x, t, key), p);
    }
  }

  /**
   * One step of stability: if `rest` filters like `x` followed by `t`, then
   * `y` followed by `rest` filters like `x` followed by `y` and `t`, as long as
   * `x` and `y` are not both kept.
   */
  lemma FilterPassOver<T>(y: T, x: T, t: seq<T>, rest: seq<T>, p: T -> bool)
    requires Filter(rest, p) == Filter([x], p) + Filter(t, p)
    requires !(p(x) && p(y))
    ensures Filter([y] + rest, p) == Filter([x], p) + Filter([y] + t, p)
  {
    FilterAppend([y], rest, p);
    FilterAppend([y], t, p);
    FilterSwap(y, x, p);
    var fy, fx, ft := Filter([y], p), Filter([x], p), Filter(t, p);
    assert Filter([y] + rest, p) == fy + (fx + ft);
    SwapFront(fy, fx, ft);
  }

  /** Two sequences that commute can be swapped in front of a third. */
  lemma SwapFront<T>(a: seq<T>, b: seq<T>, c: seq<T>)
    requires a + b == b + a
    ensures a + (b + c) == b + (a + c)
  {
    assert a + (b + c) == (a + b) + c;
    assert b + (a + c) == (b + a) + c;
  }

  /** Two elements of which at most one is kept can be filtered in either order. */
  lemma FilterSwap<T>(a: T, b: T, p: T -> bool)
    requires !(p(a) && p(b))
    ensures Filter([a], p) + Filter([b], p) == Filter([b], p) + Filter([a], p)
  {
    FilterSingleton(a, p);
    FilterSingleton(b, p);
  }

  lemma SortedDescTail<T>(s: seq<T>, key: T -> real)
    requires s != [] && SortedDesc(s, key)
    ensures SortedDesc(s[1..], key)
  {
    forall i, j | 0 <= i < j < |s| - 1 ensures key(s[1..][j]) <= key(s[1..][i]) {
      assert s[1..][i] == s[i + 1] && s[1..][j] == s[j + 1];
    }
  }

  lemma FilterSingleton<T>(x: T, p: T -> bool)
    ensures Filter([x], p) == if p(x) then [x] else []
  {
    assert [x][..0] == [];
  }

  /**
   * Stability: for every key value, the elements with that key appear in the
   * output in exactly the order they had in the input.
   */
  lemma {:induction false} SortDescStable<T>(s: seq<T>, key: T -> real, v: real)
    ensures Filter(SortDesc(s, key), KeyIs(key, v)) == Filter(s, KeyIs(key, v))
  {
    if s != [] {
      SortDescStable(s[1..], key, v);
      SortDescSorted(s[1..], key);
      InsertDescStable(s[0], SortDesc(s[1..], key), key, v);
      assert s == [s[0]] + s[1..];
      FilterAppend([s[0]], s[1..], KeyIs(key, v));
    }
  }

  /** The sum of a sequence of numbers, added left to right. */
  function Sum(s: seq<real>): real {
    if s == [] then 0.0 else Sum(s[..|s| - 1]) + s[|s| - 1]
  }

  lemma {:induction false} SumBounded(s: seq<real>, lo: real, hi: real)
    requires forall i :: 0 <= i < |s| ==> lo <= s[i] <= hi
    ensures lo * |s| as real <= Sum(s) <= hi * |s| as real
  {
    if s != [] {
      SumBounded(s[..|s| - 1], lo, hi);
    }
  }
}
