/**
 Slices of slices, and sums of sequences.
 */
module Slices {
  lemma SubSlice(w: seq<int>, p: int, q: int, a: int, b: int)
    requires 0 <= p <= a <= b <= q <= |w|
    ensures w[p..q][a - p..b - p] == w[a..b]
  {
    var s := w[p..q];
    forall i | 0 <= i < b - a ensures s[a - p..b - p][i] == w[a..b][i] {
      assert s[a - p..b - p][i] == s[a - p + i] && w[a..b][i] == w[a + i];
    }
  }

  lemma SameSlice(a: seq<int>, b: seq<int>, i: int, j: int)
    requires 0 <= i <= j <= |a| == |b| && forall k :: i <= k < j ==> a[k] == b[k]
    ensures a[i..j] == b[i..j]
  {
  }

  lemma Assoc<T>(a: seq<T>, b: seq<T>, c: seq<T>)
    ensures a + (b + c) == (a + b) + c
  {
  }

  /** A sum and its last element. */
  lemma SumLast<T>(a: seq<T>, b: seq<T>)
    requires b != []
    ensures (a + b)[..|a + b| - 1] == a + b[..|b| - 1] && (a + b)[|a + b| - 1] == b[|b| - 1]
  {
  }

  lemma ArraySlice(a: array<int>, p: int, q: int, lo: int, hi: int)
    requires 0 <= p <= lo <= hi <= q <= a.Length
    ensures a[p..q][lo - p..hi - p] == a[lo..hi]
  {
    SubSlice(a[..], p, q, lo, hi);
    assert a[..][p..q] == a[p..q] && a[..][lo..hi] == a[lo..hi];
  }

  /** `bcopy` of data words. */
  method CopyWords(w: array<int>, at: int, t: seq<int>)
    requires 0 <= at <= at + |t| <= w.Length
    modifies w
    ensures forall j :: 0 <= j < w.Length ==> w[j] == if at <= j < at + |t| then t[j - at] else old(w[j])
  {
    var i := 0;
    while i < |t|
      invariant 0 <= i <= |t|
      invariant forall j :: 0 <= j < w.Length ==> w[j] == if at <= j < at + i then t[j - at] else old(w[j])
    {
      w[at + i] := t[i];
      i := i + 1;
    }
  }
}
