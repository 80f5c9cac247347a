/** Sums over sequences, weighted by a function of the index and the element. */
module Sums {

  ghost function SumOf<T>(s: seq<T>, f: (int, T) -> int): int {
    if s == [] then 0 else SumOf(s[..|s| - 1], f) + f(|s| - 1, s[|s| - 1])
  }

  lemma {:induction false} SumUpdate<T>(s: seq<T>, f: (int, T) -> int, i: nat, v: T)
    requires i < |s|
    ensures SumOf(s[i := v], f) == SumOf(s, f) - f(i, s[i]) + f(i, v)
  {
    var last := |s| - 1;
    if i == last {
      assert s[i := v][..last] == s[..last];
    } else {
      assert s[i := v][..last] == s[..last][i := v];
      SumUpdate(s[..last], f, i, v);
    }
  }

  lemma {:induction false} SumMonotone<T>(s: seq<T>, f: (int, T) -> int, g: (int, T) -> int)
    requires forall i :: 0 <= i < |s| ==> f(i, s[i]) <= g(i, s[i])
    ensures SumOf(s, f) <= SumOf(s, g)
  {
    if s != [] {
      SumMonotone(s[..|s| - 1], f, g);
    }
  }

  /** The same comparison between two sequences of one length. */
  lemma {:induction false} SumCompare<S, T>(s: seq<S>, f: (int, S) -> int, t: seq<T>, g: (int, T) -> int)
    requires |s| == |t|
    requires forall i :: 0 <= i < |s| ==> f(i, s[i]) <= g(i, t[i])
    ensures SumOf(s, f) <= SumOf(t, g)
  {
    if s != [] {
      SumCompare(s[..|s| - 1], f, t[..|t| - 1], g);
    }
  }

  lemma {:induction false} SumZero<T>(s: seq<T>, f: (int, T) -> int)
    requires forall i :: 0 <= i < |s| ==> f(i, s[i]) == 0
    ensures SumOf(s, f) == 0
  {
    if s != [] {
      SumZero(s[..|s| - 1], f);
    }
  }

  lemma {:induction false} SumPlus<T>(s: seq<T>, f: (int, T) -> int, g: (int, T) -> int, h: (int, T) -> int)
    requires forall i :: 0 <= i < |s| ==> h(i, s[i]) == f(i, s[i]) + g(i, s[i])
    ensures SumOf(s, h) == SumOf(s, f) + SumOf(s, g)
  {
    if s != [] {
      SumPlus(s[..|s| - 1], f, g, h);
    }
  }

  lemma SumSame<T>(s: seq<T>, f: (int, T) -> int, g: (int, T) -> int)
    requires forall i :: 0 <= i < |s| ==> f(i, s[i]) == g(i, s[i])
    ensures SumOf(s, f) == SumOf(s, g)
  {
    SumMonotone(s, f, g);
    SumMonotone(s, g, f);
  }

  /** A sum with at most one non-zero element. */
  lemma {:induction false} SumSingle<T>(s: seq<T>, f: (int, T) -> int, k: nat)
    requires k < |s|
    requires forall i :: 0 <= i < |s| && i != k ==> f(i, s[i]) == 0
    ensures SumOf(s, f) == f(k, s[k])
  {
    if k == |s| - 1 {
      SumZero(s[..k], f);
    } else {
      SumSingle(s[..|s| - 1], f, k);
    }
  }

  /** A bound on every element bounds the sum. */
  lemma {:induction false} SumBound<T>(s: seq<T>, f: (int, T) -> int, k: nat)
    requires forall i :: 0 <= i < |s| ==> 0 <= f(i, s[i]) <= k
    ensures 0 <= SumOf(s, f) <= k * |s|
  {
    if s != [] {
      SumBound(s[..|s| - 1], f, k);
    }
  }

  /** One element of a non-negative sum is at most the sum. */
  lemma {:induction false} SumAtLeast<T>(s: seq<T>, f: (int, T) -> int, i: nat)
    requires i < |s|
    requires forall k :: 0 <= k < |s| ==> 0 <= f(k, s[k])
    ensures f(i, s[i]) <= SumOf(s, f)
  {
    var last := |s| - 1;
    if i == last {
      var zero := (k: int, x: T) => 0;
      SumMonotone(s[..last], zero, f);
      SumZero(s[..last], zero);
    } else {
      SumAtLeast(s[..last], f, i);
    }
  }
}
