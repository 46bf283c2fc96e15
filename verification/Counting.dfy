/** Weighted totals over sequences, and what one point update does to them. */
module Counting {

  function Total<T>(s: seq<T>, weight: T -> nat): nat {
    if s == [] then 0 else Total(s[..|s| - 1], weight) + weight(s[|s| - 1])
  }

  lemma {:induction false} TotalPush<T>(s: seq<T>, x: T, weight: T -> nat)
    ensures Total(s + [x], weight) == Total(s, weight) + weight(x)
  {
    assert (s + [x])[..|s|] == s;
  }

  lemma {:induction false} TotalUpdate<T>(s: seq<T>, i: nat, x: T, weight: T -> nat)
    requires i < |s|
    ensures Total(s[i := x], weight) + weight(s[i]) == Total(s, weight) + weight(x)
  {
    var n := |s| - 1;
    if i == n {
      assert s[i := x][..n] == s[..n];
    } else {
      assert s[i := x][..n] == s[..n][i := x];
      TotalUpdate(s[..n], i, x, weight);
    }
  }

  lemma {:induction false} TotalAtLeast<T>(s: seq<T>, i: nat, weight: T -> nat)
    requires i < |s|
    ensures weight(s[i]) <= Total(s, weight)
  {
    if i < |s| - 1 {
      TotalAtLeast(s[..|s| - 1], i, weight);
    }
  }

  lemma {:induction false} TotalZero<T>(s: seq<T>, weight: T -> nat)
    requires forall i :: 0 <= i < |s| ==> weight(s[i]) == 0
    ensures Total(s, weight) == 0
  {
    if s != [] {
      TotalZero(s[..|s| - 1], weight);
    }
  }

  /** If weights agree pointwise with a sum of two others, so do the totals. */
  lemma {:induction false} TotalSplit<T>(s: seq<T>, whole: T -> nat, left: T -> nat, right: T -> nat)
    requires forall i :: 0 <= i < |s| ==> whole(s[i]) == left(s[i]) + right(s[i])
    ensures Total(s, whole) == Total(s, left) + Total(s, right)
  {
    if s != [] {
      TotalSplit(s[..|s| - 1], whole, left, right);
    }
  }

  /** Pointwise domination across two sequences of the same length. */
  lemma {:induction false} TotalDominated<A, B>(a: seq<A>, b: seq<B>, f: A -> nat, g: B -> nat)
    requires |a| == |b|
    requires forall i :: 0 <= i < |a| ==> f(a[i]) <= g(b[i])
    ensures Total(a, f) <= Total(b, g)
  {
    if a != [] {
      TotalDominated(a[..|a| - 1], b[..|b| - 1], f, g);
    }
  }

  /** Weights at most c higher on each element. */
  lemma {:induction false} TotalWithin<T>(s: seq<T>, f: T -> nat, g: T -> nat, c: nat)
    requires forall i :: 0 <= i < |s| ==> f(s[i]) <= g(s[i]) + c
    ensures Total(s, f) <= Total(s, g) + c * |s|
  {
    if s != [] {
      TotalWithin(s[..|s| - 1], f, g, c);
      assert c * |s| == c * (|s| - 1) + c;
    }
  }

  lemma TotalSame<A, B>(a: seq<A>, b: seq<B>, f: A -> nat, g: B -> nat)
    requires |a| == |b|
    requires forall i :: 0 <= i < |a| ==> f(a[i]) == g(b[i])
    ensures Total(a, f) == Total(b, g)
  {
    TotalDominated(a, b, f, g);
    TotalDominated(b, a, g, f);
  }

  lemma {:induction false} TotalPrefix<T>(s: seq<T>, n: nat, weight: T -> nat)
    requires n <= |s|
    ensures Total(s[..n], weight) <= Total(s, weight)
    decreases |s|
  {
    if n == |s| {
      assert s[..n] == s;
    } else {
      assert s[..|s| - 1][..n] == s[..n];
      TotalPrefix(s[..|s| - 1], n, weight);
    }
  }
}
