/**
 * The array pipeline operations the chat handler is built from:
 * `filter`, `map`, `some` and `flat`, each keeping the order of its input.
 */
module JsArray {

  /** `a` is `b` with some elements removed and the rest left in order. */
  predicate IsSubsequence<T(==)>(a: seq<T>, b: seq<T>)
    decreases |b|
  {
    a == [] || (b != [] && ((a[0] == b[0] && IsSubsequence(a[1..], b[1..])) || IsSubsequence(a, b[1..])))
  }

  /** `s.filter(p)`: the elements satisfying `p`, in their original order. */
  function Filter<T(==)>(s: seq<T>, p: T -> bool): (r: seq<T>)
    ensures |r| <= |s|
    ensures forall x :: x in r ==> x in s && p(x)
    decreases |s|
  {
    if s == [] then []
    else (if p(s[0]) then [s[0]] else []) + Filter(s[1..], p)
  }

  /** Every element satisfying `p` survives the filter. */
  lemma {:induction false} FilterKeeps<T>(s: seq<T>, p: T -> bool, x: T)
    requires x in s && p(x)
    ensures x in Filter(s, p)
    decreases |s|
  {
    if s[0] != x {
      FilterKeeps(s[1..], p, x);
    }
  }

  /** The filter keeps every occurrence of a passing element and none of a failing one. */
  lemma {:induction false} FilterCount<T>(s: seq<T>, p: T -> bool, x: T)
    ensures multiset(Filter(s, p))[x] == if p(x) then multiset(s)[x] else 0
    decreases |s|
  {
    if s != [] {
      FilterCount(s[1..], p, x);
      assert s == [s[0]] + s[1..];
    }
  }

  /** The filter's output is a subsequence of its input: nothing is reordered. */
  lemma {:induction false} FilterOrdered<T>(s: seq<T>, p: T -> bool)
    ensures IsSubsequence(Filter(s, p), s)
    decreases |s|
  {
    if s != [] {
      var r := Filter(s, p);
      FilterOrdered(s[1..], p);
      if p(s[0]) {
        assert r == [s[0]] + Filter(s[1..], p);
        assert r[1..] == Filter(s[1..], p);
      } else {
        assert r == Filter(s[1..], p);
      }
    }
  }

  /** A filter whose predicate holds everywhere returns its input unchanged. */
  lemma {:induction false} FilterAll<T>(s: seq<T>, p: T -> bool)
    requires forall i :: 0 <= i < |s| ==> p(s[i])
    ensures Filter(s, p) == s
    decreases |s|
  {
    if s != [] {
      FilterAll(s[1..], p);
      assert s == [s[0]] + s[1..];
    }
  }

  /** `s.map(f)`. */
  function Map<T, U>(s: seq<T>, f: T -> U): (r: seq<U>)
    ensures |r| == |s|
    ensures forall i :: 0 <= i < |s| ==> r[i] == f(s[i])
  {
    seq(|s|, i requires 0 <= i < |s| => f(s[i]))
  }

  /** Mapping both sides keeps a subsequence a subsequence. */
  lemma {:induction false} MapOrdered<T, U>(a: seq<T>, b: seq<T>, f: T -> U)
    requires IsSubsequence(a, b)
    ensures IsSubsequence(Map(a, f), Map(b, f))
    decreases |b|
  {
    var ma, mb := Map(a, f), Map(b, f);
    if a != [] {
      assert Map(b[1..], f) == mb[1..];
      if a[0] == b[0] && IsSubsequence(a[1..], b[1..]) {
        MapOrdered(a[1..], b[1..], f);
        assert Map(a[1..], f) == ma[1..];
      } else {
        MapOrdered(a, b[1..], f);
      }
    }
  }

  /**
   * `s.filter(p).map(f)`: the image of every passing element is in the output,
   * every output element is the image of a passing element, and the output
   * is a subsequence of the image of the whole input.
   */
  lemma FilterMapSpec<T, U>(s: seq<T>, p: T -> bool, f: T -> U)
    ensures var r := Map(Filter(s, p), f);
      && |r| <= |s|
      && (forall x :: x in s && p(x) ==> f(x) in r)
      && (forall x :: p(x) ==> multiset(r)[f(x)] >= multiset(s)[x])
      && (forall e :: e in r ==> exists x :: x in s && p(x) && e == f(x))
      && IsSubsequence(r, Map(s, f))
  {
    var kept := Filter(s, p);
    var r := Map(kept, f);
    forall x | x in s && p(x)
      ensures f(x) in r
    {
      FilterKeeps(s, p, x);
      var i :| 0 <= i < |kept| && kept[i] == x;
      assert r[i] == f(x);
    }
    forall e | e in r
      ensures exists x :: x in s && p(x) && e == f(x)
    {
      var i :| 0 <= i < |r| && r[i] == e;
      assert kept[i] in kept;
    }
    forall x | p(x)
      ensures multiset(r)[f(x)] >= multiset(s)[x]
    {
      FilterCount(s, p, x);
      MapCount(kept, f, x);
    }
    FilterOrdered(s, p);
    MapOrdered(kept, s, f);
  }

  /** Mapping keeps at least as many copies of an image as the input has of the element. */
  lemma {:induction false} MapCount<T, U>(s: seq<T>, f: T -> U, x: T)
    ensures multiset(Map(s, f))[f(x)] >= multiset(s)[x]
    decreases |s|
  {
    if s != [] {
      MapCount(s[1..], f, x);
      assert s == [s[0]] + s[1..];
      assert Map(s, f) == [f(s[0])] + Map(s[1..], f);
    }
  }

  /** `s.some(p)`: scan from the left for an element satisfying `p`. */
  function Any<T>(s: seq<T>, p: T -> bool): (b: bool)
    ensures b <==> exists i :: 0 <= i < |s| && p(s[i])
    decreases |s|
  {
    if s == [] then false
    else p(s[0]) || Any(s[1..], p)
  }

  /** `ss.flat()`: the inner sequences one after another. */
  function Flat<T>(ss: seq<seq<T>>): (r: seq<T>)
    decreases |ss|
  {
    if ss == [] then [] else ss[0] + Flat(ss[1..])
  }

  /** An element is in the flattened sequence exactly when it is in one of the inner sequences. */
  lemma {:induction false} FlatMembers<T>(ss: seq<seq<T>>, x: T)
    ensures x in Flat(ss) <==> exists i :: 0 <= i < |ss| && x in ss[i]
    decreases |ss|
  {
    if ss != [] {
      FlatMembers(ss[1..], x);
      if x in Flat(ss[1..]) {
        var i :| 0 <= i < |ss[1..]| && x in ss[1..][i];
        assert x in ss[i + 1];
      }
      if i :| 0 <= i < |ss| && x in ss[i] {
        if i > 0 {
          assert x in ss[1..][i - 1];
        }
      }
    }
  }

  /** Flattening keeps the outer order: the inner sequences of `a` come before those of `b`. */
  lemma {:induction false} FlatConcat<T>(a: seq<seq<T>>, b: seq<seq<T>>)
    ensures Flat(a + b) == Flat(a) + Flat(b)
    decreases |a|
  {
    if a != [] {
      assert (a + b)[1..] == a[1..] + b;
      FlatConcat(a[1..], b);
    } else {
      assert a + b == b;
    }
  }
}
