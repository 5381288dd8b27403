/**
 * Generic sequence vocabulary shared by every page and route of the site:
 * an optional value, the order-preserving filter behind every `Array.filter`
 * call, and the first-appearance de-duplication behind every
 * `[...new Set(xs)]` spread.
 */
module Seqs {

  /** A value that may be absent (`undefined` / `null` in the source). */
  datatype Option<+T> = None | Some(value: T) {
    function GetOr(default: T): T {
      match this
      case Some(v) => v
      case None => default
    }
  }

  /** `sub` can be obtained from `s` by deleting elements, keeping the order. */
  predicate Subseq<T(==)>(sub: seq<T>, s: seq<T>)
    decreases |s|
  {
    if |sub| == 0 then true
    else if |s| == 0 then false
    else if sub[0] == s[0] then Subseq(sub[1..], s[1..])
    else Subseq(sub, s[1..])
  }

  /** Every sequence is a subsequence of itself. */
  lemma {:induction false} SubseqRefl<T>(s: seq<T>)
    ensures Subseq(s, s)
  {
    if |s| > 0 {
      SubseqRefl(s[1..]);
    }
  }

  /** A filter that drops something is shorter. */
  lemma {:induction false} FilterShorter<T(!new)>(s: seq<T>, p: T -> bool)
    requires exists x :: x in s && !p(x)
    ensures |Filter(s, p)| < |s|
  {
    if !p(s[0]) {
      assert |Filter(s[1..], p)| <= |s[1..]|;
    } else {
      var x :| x in s && !p(x);
      assert x in s[1..];
      FilterShorter(s[1..], p);
    }
  }

  /** No element occurs twice. */
  predicate NoDup<T(==)>(s: seq<T>) {
    forall i, j :: 0 <= i < j < |s| ==> s[i] != s[j]
  }

  /** `Array.prototype.filter`: the elements satisfying `p`, in their original order. */
  function Filter<T(!new)>(s: seq<T>, p: T -> bool): (r: seq<T>)
    ensures |r| <= |s|
    ensures forall i :: 0 <= i < |r| ==> p(r[i]) && r[i] in s
    decreases |s|
  {
    if |s| == 0 then []
    else (if p(s[0]) then [s[0]] else []) + Filter(s[1..], p)
  }

  /** `Filter` keeps every occurrence of an element satisfying `p` and no occurrence of any other. */
  lemma {:induction false} FilterCount<T(!new)>(s: seq<T>, p: T -> bool, x: T)
    ensures multiset(Filter(s, p))[x] == if p(x) then multiset(s)[x] else 0
    decreases |s|
  {
    if |s| > 0 {
      FilterCount(s[1..], p, x);
      assert s == [s[0]] + s[1..];
      assert multiset(s) == multiset{s[0]} + multiset(s[1..]);
    }
  }

  lemma {:induction false} FilterIsSubseq<T(!new)>(s: seq<T>, p: T -> bool)
    ensures Subseq(Filter(s, p), s)
    decreases |s|
  {
    if |s| > 0 {
      var rest := Filter(s[1..], p);
      FilterIsSubseq(s[1..], p);
      assert s == [s[0]] + s[1..];
      if p(s[0]) {
        assert Filter(s, p) == [s[0]] + rest;
        assert ([s[0]] + rest)[1..] == rest;
      } else {
        assert Filter(s, p) == rest;
        SubseqSkip(s[0], rest, s[1..]);
      }
    }
  }

  lemma {:induction false} SubseqSkip<T>(x: T, sub: seq<T>, s: seq<T>)
    requires Subseq(sub, s)
    ensures Subseq(sub, [x] + s)
    decreases |s|, 1
  {
    assert ([x] + s)[1..] == s;
    if |sub| > 0 && sub[0] == x {
      SubseqTail(sub, s);
    }
  }

  lemma {:induction false} SubseqTail<T>(sub: seq<T>, s: seq<T>)
    requires |sub| > 0 && Subseq(sub, s)
    ensures Subseq(sub[1..], s)
    decreases |s|, 0
  {
    assert s == [s[0]] + s[1..];
    if sub[0] == s[0] {
      SubseqSkip(s[0], sub[1..], s[1..]);
    } else {
      SubseqTail(sub, s[1..]);
      SubseqSkip(s[0], sub[1..], s[1..]);
    }
  }

  /** Deleting elements twice is deleting elements once. */
  lemma {:induction false} SubseqTransitive<T>(a: seq<T>, b: seq<T>, c: seq<T>)
    requires Subseq(a, b) && Subseq(b, c)
    ensures Subseq(a, c)
    decreases |c|
  {
    if |a| > 0 && |c| > 0 {
      if b[0] == c[0] {
        if a[0] == b[0] {
          SubseqTransitive(a[1..], b[1..], c[1..]);
        } else {
          SubseqTransitive(a, b[1..], c[1..]);
        }
      } else {
        SubseqTransitive(a, b, c[1..]);
        if a[0] == c[0] {
          SubseqTail(a, c[1..]);
        }
      }
    }
  }

  /** An element kept by `Filter` is an element of the input, and conversely when it satisfies `p`. */
  lemma FilterMembership<T(!new)>(s: seq<T>, p: T -> bool, x: T)
    ensures x in Filter(s, p) <==> x in s && p(x)
  {
    FilterCount(s, p, x);
  }

  /** Filtering with a predicate every element meets changes nothing. */
  lemma {:induction false} FilterAll<T(!new)>(s: seq<T>, p: T -> bool)
    requires forall i :: 0 <= i < |s| ==> p(s[i])
    ensures Filter(s, p) == s
    decreases |s|
  {
    if |s| > 0 {
      FilterAll(s[1..], p);
      assert s == [s[0]] + s[1..];
    }
  }

  /** Filtering with a predicate no element meets leaves nothing. */
  lemma {:induction false} FilterNone<T(!new)>(s: seq<T>, p: T -> bool)
    requires forall i :: 0 <= i < |s| ==> !p(s[i])
    ensures Filter(s, p) == []
    decreases |s|
  {
    if |s| > 0 {
      FilterNone(s[1..], p);
    }
  }

  /** Filtering distributes over concatenation. */
  lemma {:induction false} FilterAppend<T(!new)>(a: seq<T>, b: seq<T>, p: T -> bool)
    ensures Filter(a + b, p) == Filter(a, p) + Filter(b, p)
    decreases |a|
  {
    if |a| == 0 {
      assert a + b == b;
    } else {
      FilterAppend(a[1..], b, p);
      assert (a + b)[0] == a[0];
      assert (a + b)[1..] == a[1..] + b;
      var head := if p(a[0]) then [a[0]] else [];
      assert Filter(a + b, p) == head + Filter(a[1..] + b, p);
      assert Filter(a, p) == head + Filter(a[1..], p);
    }
  }

  /** Two filters in a row keep exactly what both predicates accept, in either order. */
  lemma {:induction false} FilterFilter<T(!new)>(s: seq<T>, p: T -> bool, q: T -> bool)
    ensures Filter(Filter(s, p), q) == Filter(s, x => p(x) && q(x))
    ensures Filter(Filter(s, p), q) == Filter(Filter(s, q), p)
    decreases |s|
  {
    if |s| > 0 {
      FilterFilter(s[1..], p, q);
      var head := if p(s[0]) then [s[0]] else [];
      FilterAppend(head, Filter(s[1..], p), q);
      var head' := if q(s[0]) then [s[0]] else [];
      FilterAppend(head', Filter(s[1..], q), p);
    }
  }

  /** Filtering twice with the same predicate is the same as filtering once. */
  lemma FilterIdempotent<T(!new)>(s: seq<T>, p: T -> bool)
    ensures Filter(Filter(s, p), p) == Filter(s, p)
  {
    FilterAll(Filter(s, p), p);
  }

  /**
   * `[...new Set(s)]`: the distinct elements of `s`, each at the position of
   * its first appearance.
   */
  function Distinct<T(==,!new)>(s: seq<T>): (r: seq<T>)
    ensures NoDup(r)
    ensures forall x :: x in r <==> x in s
    ensures |r| <= |s|
    decreases |s|
  {
    if |s| == 0 then []
    else
      var d := Distinct(s[..|s| - 1]);
      var x := s[|s| - 1];
      assert s == s[..|s| - 1] + [x];
      if x in d then d else d + [x]
  }

  /** Index of the first occurrence of `x` in `s`. */
  function FirstIndex<T(==)>(s: seq<T>, x: T): (i: nat)
    requires x in s
    ensures i < |s| && s[i] == x
    ensures forall k :: 0 <= k < i ==> s[k] != x
  {
    if s[0] == x then 0 else 1 + FirstIndex(s[1..], x)
  }

  /**
   * `Distinct` lists elements in the order of their first appearance in the input,
   * which pins it down completely together with its contract.
   */
  lemma {:induction false} DistinctFirstAppearance<T(!new)>(s: seq<T>, i: int, j: int)
    requires 0 <= i < j < |Distinct(s)|
    ensures FirstIndex(s, Distinct(s)[i]) < FirstIndex(s, Distinct(s)[j])
    decreases |s|
  {
    var init := s[..|s| - 1];
    var x := s[|s| - 1];
    var d := Distinct(init);
    assert s == init + [x];
    var a := Distinct(s)[i];
    var b := Distinct(s)[j];
    assert a in init by {
      assert i < |d|;
      assert a == d[i];
    }
    FirstIndexPrefix(init, x, a);
    if j < |d| {
      assert b == d[j];
      DistinctFirstAppearance(init, i, j);
      FirstIndexPrefix(init, x, b);
    } else {
      assert b == x && x !in d;
      assert x !in init;
      FirstIndexNotInPrefix(init, x);
    }
  }

  lemma FirstIndexPrefix<T>(init: seq<T>, x: T, a: T)
    requires a in init
    ensures FirstIndex(init + [x], a) == FirstIndex(init, a)
  {
    var i := FirstIndex(init, a);
    var k := FirstIndex(init + [x], a);
    assert (init + [x])[i] == a;
    assert k <= i;
    assert init[k] == a;
  }

  lemma FirstIndexNotInPrefix<T>(init: seq<T>, x: T)
    requires x !in init
    ensures FirstIndex(init + [x], x) == |init|
  {
    assert forall k :: 0 <= k < |init| ==> (init + [x])[k] != x;
  }

  /** On a list without duplicates, `Distinct` is the identity. */
  lemma {:induction false} DistinctOfNoDup<T(!new)>(s: seq<T>)
    requires NoDup(s)
    ensures Distinct(s) == s
    decreases |s|
  {
    if |s| > 0 {
      var init := s[..|s| - 1];
      assert NoDup(init);
      DistinctOfNoDup(init);
      assert s[|s| - 1] !in init;
      assert s == init + [s[|s| - 1]];
    }
  }

  /** Concatenation of a list of lists (`flatMap` with the identity). */
  function Flatten<T(!new)>(ss: seq<seq<T>>): (r: seq<T>)
    ensures forall x :: x in r <==> exists i :: 0 <= i < |ss| && x in ss[i]
    decreases |ss|
  {
    if |ss| == 0 then []
    else
      var r := ss[0] + Flatten(ss[1..]);
      assert forall x :: (exists i :: 0 <= i < |ss| && x in ss[i]) <==> (x in ss[0] || exists i :: 0 <= i < |ss[1..]| && x in ss[1..][i]) by {
        forall x
          ensures (exists i :: 0 <= i < |ss| && x in ss[i]) <==> (x in ss[0] || exists i :: 0 <= i < |ss[1..]| && x in ss[1..][i])
        {
          if exists i :: 0 <= i < |ss| && x in ss[i] {
            var i :| 0 <= i < |ss| && x in ss[i];
            if i > 0 {
              assert x in ss[1..][i - 1];
            }
          }
          if exists i :: 0 <= i < |ss[1..]| && x in ss[1..][i] {
            var i :| 0 <= i < |ss[1..]| && x in ss[1..][i];
            assert x in ss[i + 1];
          }
        }
      }
      r
  }

  /** `Array.prototype.map`. */
  function Map<A, B>(s: seq<A>, f: A -> B): (r: seq<B>)
    ensures |r| == |s|
    ensures forall i :: 0 <= i < |s| ==> r[i] == f(s[i])
  {
    seq(|s|, i requires 0 <= i < |s| => f(s[i]))
  }

  lemma MapCons<A, B>(x: A, tail: seq<A>, f: A -> B)
    ensures Map([x] + tail, f) == [f(x)] + Map(tail, f)
  {
    var l := Map([x] + tail, f);
    var r := [f(x)] + Map(tail, f);
    forall i | 0 <= i < |l| ensures l[i] == r[i] {
      if i > 0 {
        assert ([x] + tail)[i] == tail[i - 1];
      }
    }
  }

  lemma MapAppend<A, B>(a: seq<A>, b: seq<A>, f: A -> B)
    ensures Map(a + b, f) == Map(a, f) + Map(b, f)
  {
  }

  /** The tail of a duplicate-free list is duplicate-free and lacks the head. */
  lemma NoDupTail<T>(s: seq<T>)
    requires NoDup(s) && |s| > 0
    ensures NoDup(s[1..]) && s[0] !in s[1..]
  {
    forall i, j | 0 <= i < j < |s[1..]| ensures s[1..][i] != s[1..][j] {
      assert s[1..][i] == s[i + 1] && s[1..][j] == s[j + 1];
    }
  }

  lemma DistinctSnoc<T(!new)>(s: seq<T>, x: T)
    ensures Distinct(s + [x]) == if x in Distinct(s) then Distinct(s) else Distinct(s) + [x]
  {
    assert (s + [x])[..|s + [x]| - 1] == s;
  }
}
