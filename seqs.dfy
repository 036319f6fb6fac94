/** The array combinators the source relies on (`filter`, `reduce` with `+`, `.length`),
    as functions over sequences, with the facts the aggregations need. */
module Seqs {

  /** `s.filter(p)`: the elements satisfying `p`, in their original order. */
  function Filter<T>(s: seq<T>, p: T -> bool): (r: seq<T>)
    ensures |r| <= |s|
    ensures forall i :: 0 <= i < |r| ==> r[i] in s && p(r[i])
    ensures forall i :: 0 <= i < |s| && p(s[i]) ==> s[i] in r
    decreases |s|
  {
    if |s| == 0 then []
    else (if p(s[0]) then [s[0]] else []) + Filter(s[1..], p)
  }

  /** `s.reduce((acc, x) => acc + f(x), 0)`: a left fold of `+` from 0. */
  function Sum<T>(s: seq<T>, f: T -> real): real
    decreases |s|
  {
    if |s| == 0 then 0.0 else Sum(s[..|s| - 1], f) + f(s[|s| - 1])
  }

  /** Mean with the "0 when empty" guard every aggregation uses. */
  function Mean(total: real, n: nat): (m: real)
    ensures n == 0 ==> m == 0.0
    ensures n > 0 ==> m * (n as real) == total
  {
    if n > 0 then total / (n as real) else 0.0
  }

  /** Membership in a filter, stated on elements. */
  lemma FilterMembers<T>(s: seq<T>, p: T -> bool)
    ensures forall x :: x in Filter(s, p) <==> x in s && p(x)
  {
    forall x | x in Filter(s, p) ensures x in s && p(x) {
      var i :| 0 <= i < |Filter(s, p)| && Filter(s, p)[i] == x;
    }
    forall x | x in s && p(x) ensures x in Filter(s, p) {
      var i :| 0 <= i < |s| && s[i] == x;
    }
  }

  lemma {:induction false} FilterAppend<T>(a: seq<T>, b: seq<T>, p: T -> bool)
    ensures Filter(a + b, p) == Filter(a, p) + Filter(b, p)
    decreases |a|
  {
    if |a| == 0 {
      assert a + b == b;
    } else {
      assert (a + b)[1..] == a[1..] + b;
      FilterAppend(a[1..], b, p);
    }
  }

  /** Appending elements that all fail the filter leaves the filter unchanged. */
  lemma FilterAppendNone<T>(s: seq<T>, extra: seq<T>, p: T -> bool)
    requires forall x :: x in extra ==> !p(x)
    ensures Filter(s + extra, p) == Filter(s, p)
  {
    FilterAppend(s, extra, p);
    FilterNone(extra, p);
    assert Filter(s, p) + [] == Filter(s, p);
  }

  /** Filtering keeps all of a sequence exactly when every element passes. */
  lemma {:induction false} FilterAll<T>(s: seq<T>, p: T -> bool)
    requires forall x :: x in s ==> p(x)
    ensures Filter(s, p) == s
    decreases |s|
  {
    if |s| > 0 {
      assert forall x :: x in s[1..] ==> x in s;
      FilterAll(s[1..], p);
      assert s == [s[0]] + s[1..];
    }
  }

  /** Nothing passes a filter no element satisfies. */
  lemma FilterNone<T>(s: seq<T>, p: T -> bool)
    requires forall x :: x in s ==> !p(x)
    ensures Filter(s, p) == []
  {
  }

  /** The first element a filter keeps is the first element of `s` satisfying `p`;
      `i` is its index. */
  lemma {:induction false} FilterFirst<T>(s: seq<T>, p: T -> bool) returns (i: nat)
    requires Filter(s, p) != []
    ensures i < |s| && s[i] == Filter(s, p)[0] && p(s[i])
    ensures forall j :: 0 <= j < i ==> !p(s[j])
    decreases |s|
  {
    if p(s[0]) {
      i := 0;
    } else {
      assert Filter(s, p) == Filter(s[1..], p);
      var k := FilterFirst(s[1..], p);
      i := k + 1;
      forall j | 0 <= j < i ensures !p(s[j]) {
        if j > 0 { assert s[j] == s[1..][j - 1]; }
      }
    }
  }

  /** The last element a filter keeps is the last element of `s` satisfying `p`;
      `i` is its index. */
  lemma {:induction false} FilterLast<T>(s: seq<T>, p: T -> bool) returns (i: nat)
    requires Filter(s, p) != []
    ensures i < |s| && s[i] == Filter(s, p)[|Filter(s, p)| - 1] && p(s[i])
    ensures forall j :: i < j < |s| ==> !p(s[j])
    decreases |s|
  {
    var n := |s|;
    var init, last := s[..n - 1], s[n - 1];
    FilterSnoc(init, last, p);
    assert s == init + [last];
    if p(last) {
      i := n - 1;
    } else {
      var k := FilterLast(init, p);
      i := k;
      forall j | i < j < n ensures !p(s[j]) {
        if j < n - 1 { assert s[j] == init[j]; }
      }
    }
  }

  lemma FilterSnoc<T>(s: seq<T>, x: T, p: T -> bool)
    ensures Filter(s + [x], p) == Filter(s, p) + (if p(x) then [x] else [])
  {
    FilterAppend(s, [x], p);
    assert Filter([x], p) == (if p(x) then [x] else []) + Filter([x][1..], p);
    assert [x][1..] == [];
  }

  /** Two predicates that agree on every element of `s` filter it alike. */
  lemma {:induction false} FilterCongruent<T>(s: seq<T>, p: T -> bool, q: T -> bool)
    requires forall x :: x in s ==> (p(x) <==> q(x))
    ensures Filter(s, p) == Filter(s, q)
    decreases |s|
  {
    if |s| > 0 {
      assert forall x :: x in s[1..] ==> x in s;
      FilterCongruent(s[1..], p, q);
    }
  }

  /** Counting by a three-valued classification: the three counts add up to the length. */
  lemma {:induction false} CountPartition3<T>(s: seq<T>, p: T -> bool, q: T -> bool, r: T -> bool)
    requires forall x :: x in s ==> (p(x) || q(x) || r(x))
    requires forall x :: x in s ==> !(p(x) && q(x)) && !(p(x) && r(x)) && !(q(x) && r(x))
    ensures |Filter(s, p)| + |Filter(s, q)| + |Filter(s, r)| == |s|
    decreases |s|
  {
    if |s| > 0 {
      assert forall x :: x in s[1..] ==> x in s;
      CountPartition3(s[1..], p, q, r);
    }
  }

  /** Counting by a two-valued classification. */
  lemma {:induction false} CountPartition2<T>(s: seq<T>, p: T -> bool, q: T -> bool)
    requires forall x :: x in s ==> (p(x) || q(x))
    requires forall x :: x in s ==> !(p(x) && q(x))
    ensures |Filter(s, p)| + |Filter(s, q)| == |s|
    decreases |s|
  {
    if |s| > 0 {
      assert forall x :: x in s[1..] ==> x in s;
      CountPartition2(s[1..], p, q);
    }
  }

  lemma {:induction false} SumAppend<T>(a: seq<T>, b: seq<T>, f: T -> real)
    ensures Sum(a + b, f) == Sum(a, f) + Sum(b, f)
    decreases |b|
  {
    if |b| == 0 {
      assert a + b == a;
    } else {
      assert (a + b)[..|a + b| - 1] == a + b[..|b| - 1];
      assert (a + b)[|a + b| - 1] == b[|b| - 1];
      SumAppend(a, b[..|b| - 1], f);
    }
  }

  /** The fold peeled from the front: useful with front-recursive definitions. */
  lemma SumCons<T>(x: T, s: seq<T>, f: T -> real)
    ensures Sum([x] + s, f) == f(x) + Sum(s, f)
  {
    SumAppend([x], s, f);
    assert Sum([x], f) == Sum([x][..0], f) + f(x);
    assert [x][..0] == [];
  }

  /** The sum does not depend on the order of the elements. */
  lemma {:induction false} SumPermutation<T>(a: seq<T>, b: seq<T>, f: T -> real)
    requires multiset(a) == multiset(b)
    ensures Sum(a, f) == Sum(b, f)
    decreases |a|
  {
    if |a| == 0 {
      assert |b| == |multiset(b)| == 0;
    } else {
      var n := |a|;
      var x := a[n - 1];
      assert a == a[..n - 1] + [x];
      assert x in multiset(b);
      var i :| 0 <= i < |b| && b[i] == x;
      var rest := b[..i] + b[i + 1..];
      RemoveAt(b, i);
      assert multiset(a[..n - 1]) == multiset(a) - multiset{x};
      SumPermutation(a[..n - 1], rest, f);
      SumRemoveAt(b, i, f);
    }
  }

  /** Taking out the element at `i` removes one copy of it. */
  lemma RemoveAt<T>(b: seq<T>, i: nat)
    requires i < |b|
    ensures multiset(b[..i] + b[i + 1..]) == multiset(b) - multiset{b[i]}
  {
    assert b == b[..i] + [b[i]] + b[i + 1..];
  }

  /** ... and its term from the sum. */
  lemma SumRemoveAt<T>(b: seq<T>, i: nat, f: T -> real)
    requires i < |b|
    ensures Sum(b, f) == Sum(b[..i] + b[i + 1..], f) + f(b[i])
  {
    var left, right := b[..i], b[i + 1..];
    var front := left + [b[i]];
    assert b == front + right;
    SumAppend(front, right, f);
    assert front[..|front| - 1] == left;
    SumAppend(left, right, f);
  }

  /** Summing two functions separately equals summing their pointwise sum. */
  lemma {:induction false} SumAdd<T>(s: seq<T>, f: T -> real, g: T -> real, h: T -> real)
    requires forall x :: x in s ==> h(x) == f(x) + g(x)
    ensures Sum(s, h) == Sum(s, f) + Sum(s, g)
    decreases |s|
  {
    if |s| > 0 {
      assert forall x :: x in s[..|s| - 1] ==> x in s;
      SumAdd(s[..|s| - 1], f, g, h);
    }
  }

  lemma {:induction false} SumSub<T>(s: seq<T>, f: T -> real, g: T -> real, h: T -> real)
    requires forall x :: x in s ==> h(x) == f(x) - g(x)
    ensures Sum(s, h) == Sum(s, f) - Sum(s, g)
    decreases |s|
  {
    if |s| > 0 {
      assert forall x :: x in s[..|s| - 1] ==> x in s;
      SumSub(s[..|s| - 1], f, g, h);
    }
  }

  /** A sum of terms each at most `hi` is at most `hi` times the count. */
  lemma {:induction false} SumAtMost<T>(s: seq<T>, f: T -> real, hi: real)
    requires forall x :: x in s ==> f(x) <= hi
    ensures Sum(s, f) <= hi * (|s| as real)
    decreases |s|
  {
    if |s| > 0 {
      assert forall x :: x in s[..|s| - 1] ==> x in s;
      SumAtMost(s[..|s| - 1], f, hi);
      assert hi * ((|s| - 1) as real) + hi == hi * (|s| as real);
    }
  }

  /** A sum of terms each at least `lo` is at least `lo` times the count. */
  lemma {:induction false} SumAtLeast<T>(s: seq<T>, f: T -> real, lo: real)
    requires forall x :: x in s ==> lo <= f(x)
    ensures lo * (|s| as real) <= Sum(s, f)
    decreases |s|
  {
    if |s| > 0 {
      assert forall x :: x in s[..|s| - 1] ==> x in s;
      SumAtLeast(s[..|s| - 1], f, lo);
      assert lo * ((|s| - 1) as real) + lo == lo * (|s| as real);
    }
  }

  /** A sum of non-negative terms is non-negative. */
  lemma {:induction false} SumNonNegative<T>(s: seq<T>, f: T -> real)
    requires forall x :: x in s ==> f(x) >= 0.0
    ensures Sum(s, f) >= 0.0
    decreases |s|
  {
    if |s| > 0 {
      assert forall x :: x in s[..|s| - 1] ==> x in s;
      SumNonNegative(s[..|s| - 1], f);
    }
  }

  /** Two functions that agree on every element give the same sum. */
  lemma {:induction false} SumCongruent<T>(s: seq<T>, f: T -> real, g: T -> real)
    requires forall x :: x in s ==> f(x) == g(x)
    ensures Sum(s, f) == Sum(s, g)
    decreases |s|
  {
    if |s| > 0 {
      assert forall x :: x in s[..|s| - 1] ==> x in s;
      SumCongruent(s[..|s| - 1], f, g);
    }
  }

  /** Summing over a filter is summing over everything with the rejected terms zeroed. */
  lemma {:induction false} SumFilter<T>(s: seq<T>, p: T -> bool, f: T -> real, g: T -> real)
    requires forall x :: x in s ==> g(x) == (if p(x) then f(x) else 0.0)
    ensures Sum(Filter(s, p), f) == Sum(s, g)
    decreases |s|
  {
    if |s| > 0 {
      assert forall x :: x in s[1..] ==> x in s;
      SumFilter(s[1..], p, f, g);
      assert s == [s[0]] + s[1..];
      SumCons(s[0], s[1..], g);
      SumFilterHead(s, p, f);
    }
  }

  /** The filtered sum peeled at the front. */
  lemma SumFilterHead<T>(s: seq<T>, p: T -> bool, f: T -> real)
    requires |s| > 0
    ensures Sum(Filter(s, p), f) == (if p(s[0]) then f(s[0]) else 0.0) + Sum(Filter(s[1..], p), f)
  {
    var rest := Filter(s[1..], p);
    if p(s[0]) {
      assert Filter(s, p) == [s[0]] + rest;
      SumCons(s[0], rest, f);
    } else {
      assert Filter(s, p) == rest;
    }
  }

  /** A mean of values at most `hi` is at most `hi`; the empty mean is 0. */
  lemma MeanAtMost<T>(s: seq<T>, f: T -> real, hi: real)
    requires forall x :: x in s ==> f(x) <= hi
    requires hi >= 0.0 || |s| > 0
    ensures Mean(Sum(s, f), |s|) <= hi
  {
    if |s| > 0 {
      SumAtMost(s, f, hi);
      var n := |s| as real;
      var m := Mean(Sum(s, f), |s|);
      assert m * n == Sum(s, f);
      assert (hi - m) * n == hi * n - Sum(s, f);
      NonNegativeFactor(hi - m, n);
    }
  }

  /** A mean of values at least `lo` is at least `lo`. */
  lemma MeanAtLeast<T>(s: seq<T>, f: T -> real, lo: real)
    requires forall x :: x in s ==> lo <= f(x)
    requires lo <= 0.0 || |s| > 0
    ensures lo <= Mean(Sum(s, f), |s|)
  {
    if |s| > 0 {
      SumAtLeast(s, f, lo);
      var n := |s| as real;
      var m := Mean(Sum(s, f), |s|);
      assert m * n == Sum(s, f);
      assert (m - lo) * n == Sum(s, f) - lo * n;
      NonNegativeFactor(m - lo, n);
    }
  }

  lemma NonNegativeFactor(d: real, n: real)
    requires n > 0.0 && d * n >= 0.0
    ensures d >= 0.0
  {
  }
}
