/**
 Chains of named banks (nindex.c) and the invariant of the named-bank area.

 The banks of one name are linked through `w[x - INXT]` in ascending bank number.
 The chain head `w[h]` is read as the link word of a pseudo-bank `h + 1`.
 */
module Chains {
  import opened BankLayout

  /** The i-th element of a chain, or the terminating zero. */
  function At(c: seq<int>, i: nat): int {
    if i < |c| then c[i] else 0
  }

  /** Index of the word that points to the i-th element. */
  function LinkOf(h: int, c: seq<int>, i: nat): int
    requires i <= |c|
  {
    if i == 0 then h else c[i - 1] - INXT
  }

  ghost predicate Linked(w: seq<int>, b: set<int>, h: int, name: int, c: seq<int>) {
    && 0 <= h < |w| && w[h] == At(c, 0)
    && (forall i :: 0 <= i < |c| ==>
          && c[i] in b && NHW <= c[i] < |w|
          && w[c[i]] >= 0 && w[c[i] - INAM] == name)
    && (forall i, j :: 0 <= i < j < |c| && j == i + 1 ==> w[c[i] - INXT] == c[j])
    && (|c| > 0 ==> w[c[|c| - 1] - INXT] == 0)
  }

  ghost predicate Ascending(w: seq<int>, c: seq<int>)
    requires forall i :: 0 <= i < |c| ==> NHW <= c[i] < |w|
  {
    forall i, j :: 0 <= i < j < |c| ==> w[c[i] - INR] < w[c[j] - INR]
  }

  lemma DistinctElements(w: seq<int>, c: seq<int>, i: nat, j: nat)
    requires forall i :: 0 <= i < |c| ==> NHW <= c[i] < |w|
    requires Ascending(w, c) && i < |c| && j < |c| && c[i] == c[j]
    ensures i == j
  {
  }

  ghost predicate IsChain(w: seq<int>, b: set<int>, h: int, name: int, c: seq<int>) {
    Linked(w, b, h, name, c) && Ascending(w, c)
  }

  /** Where bank number `nr` is or belongs: all before are smaller, all from `k` on are not. */
  ghost predicate IsSlot(w: seq<int>, c: seq<int>, nr: int, k: nat) {
    && k <= |c|
    && (forall i :: 0 <= i < |c| ==> INR <= c[i] < |w|)
    && (forall i :: 0 <= i < k ==> w[c[i] - INR] < nr)
    && (forall i :: k <= i < |c| ==> w[c[i] - INR] >= nr)
  }

  /** Index of the first bank of the chain with number `nr`, or zero. */
  ghost function IndexOf(w: seq<int>, c: seq<int>, nr: int): int {
    if c == [] then 0
    else if INR <= c[0] < |w| && w[c[0] - INR] == nr then c[0]
    else IndexOf(w, c[1..], nr)
  }

  lemma {:induction false} IndexAt(w: seq<int>, c: seq<int>, nr: int, k: nat)
    requires IsSlot(w, c, nr, k) && (forall i :: 0 <= i < |c| ==> NHW <= c[i] < |w|) && Ascending(w, c)
    ensures IndexOf(w, c, nr) == if k < |c| && w[c[k] - INR] == nr then c[k] else 0
  {
    if c != [] && k > 0 {
      IndexAt(w, c[1..], nr, k - 1);
    } else if c != [] && w[c[0] - INR] != nr {
      NoIndex(w, c, nr);
    }
  }

  lemma IndexInChain(w: seq<int>, b: set<int>, h: int, name: int, c: seq<int>, nr: int, k: nat)
    requires IsChain(w, b, h, name, c) && IsSlot(w, c, nr, k)
    ensures IndexOf(w, c, nr) == if k < |c| && w[c[k] - INR] == nr then c[k] else 0
  {
    IndexAt(w, c, nr, k);
  }

  lemma {:induction false} IndexFirst(w: seq<int>, c: seq<int>, nr: int) returns (k: nat)
    ensures k <= |c| && IndexOf(w, c, nr) == if k < |c| then c[k] else 0
    ensures k < |c| ==> INR <= c[k] < |w| && w[c[k] - INR] == nr
    ensures k == |c| ==> forall i :: 0 <= i < |c| && INR <= c[i] < |w| ==> w[c[i] - INR] != nr
  {
    if c == [] || (INR <= c[0] < |w| && w[c[0] - INR] == nr) {
      k := 0;
    } else {
      k := IndexFirst(w, c[1..], nr);
      k := k + 1;
    }
  }

  lemma {:induction false} NoIndex(w: seq<int>, c: seq<int>, nr: int)
    requires forall i :: 0 <= i < |c| && INR <= c[i] < |w| ==> w[c[i] - INR] != nr
    ensures IndexOf(w, c, nr) == 0
  {
    if c != [] { NoIndex(w, c[1..], nr); }
  }

  /** No bank of the chain has number `nr`; it belongs at `k`. */
  ghost predicate FreeSlot(w: seq<int>, c: seq<int>, nr: int, k: nat) {
    IsSlot(w, c, nr, k) && (k < |c| ==> w[c[k] - INR] > nr)
  }

  function Insert<T>(c: seq<T>, k: nat, x: T): seq<T>
    requires k <= |c|
  {
    c[..k] + [x] + c[k..]
  }

  function Remove<T>(c: seq<T>, k: nat): seq<T>
    requires k < |c|
  {
    c[..k] + c[k + 1..]
  }

  ghost predicate SameHeader(w: seq<int>, w': seq<int>, x: int) {
    && NHW <= x < |w| && x < |w'|
    && (w[x] >= 0 ==> w'[x] >= 0) && w'[x - INXT] == w[x - INXT]
    && w'[x - INR] == w[x - INR] && w'[x - INAM] == w[x - INAM]
  }

  /** A chain is read only through its head and its banks' headers. */
  lemma ChainFrame(w: seq<int>, w': seq<int>, b: set<int>, b': set<int>, h: int, name: int, c: seq<int>)
    requires IsChain(w, b, h, name, c)
    requires h < |w'| && w'[h] == w[h]
    requires forall x :: x in c ==> x in b' && SameHeader(w, w', x)
    ensures IsChain(w', b', h, name, c)
  {
    assert forall i :: 0 <= i < |c| ==> c[i] in c;
  }

  /** Only the pointer to the `k`-th element of a chain differs, and it is now `x`; element `out` is exempt. */
  ghost predicate Relinked(w: seq<int>, w': seq<int>, h: int, c: seq<int>, k: nat, x: int, out: int)
    requires forall i :: 0 <= i < |c| ==> NHW <= c[i] < |w|
    requires 0 <= h < |w| && k <= |c|
  {
    && |w'| == |w|
    && w'[h] == (if k == 0 then x else w[h])
    && (forall i :: 0 <= i < |c| && i != out ==>
          && w'[c[i]] == w[c[i]] && w'[c[i] - INR] == w[c[i] - INR] && w'[c[i] - INAM] == w[c[i] - INAM]
          && w'[c[i] - INXT] == if i == k - 1 then x else w[c[i] - INXT])
  }

  lemma LinkedInsert(w: seq<int>, w': seq<int>, b: set<int>, h: int, name: int, c: seq<int>, k: nat, x: int)
    requires Linked(w, b, h, name, c) && k <= |c| && Relinked(w, w', h, c, k, x, -1)
    requires NHW <= x < |w|
    requires w'[x] >= 0 && w'[x - INAM] == name && w'[x - INXT] == At(c, k)
    ensures Linked(w', b + {x}, h, name, Insert(c, k, x))
  {
    hide Insert;
    var c' := Insert(c, k, x);
    InsertAt(c, k, x, 0);
    InsertAt(c, k, x, |c|);
    forall i | 0 <= i < |c'|
      ensures c'[i] in b + {x} && NHW <= c'[i] < |w'| && w'[c'[i]] >= 0 && w'[c'[i] - INAM] == name
    {
      InsertAt(c, k, x, i);
    }
    forall i, j | 0 <= i < j < |c'| && j == i + 1
      ensures w'[c'[i] - INXT] == c'[j]
    {
      InsertAt(c, k, x, i);
      InsertAt(c, k, x, j);
    }
  }

  lemma InsertAt(c: seq<int>, k: nat, x: int, i: nat)
    requires k <= |c| && i <= |c|
    ensures |Insert(c, k, x)| == |c| + 1
    ensures Insert(c, k, x)[i] == if i < k then c[i] else if i == k then x else c[i - 1]
  {
  }

  lemma AscendingInsert(w: seq<int>, w': seq<int>, c: seq<int>, k: nat, x: int)
    requires forall i :: 0 <= i < |c| ==> NHW <= c[i] < |w|
    requires |w'| == |w| && forall i :: 0 <= i < |c| ==> w'[c[i] - INR] == w[c[i] - INR]
    requires NHW <= x < |w| && Ascending(w, c)
    requires FreeSlot(w, c, w'[x - INR], k)
    ensures forall y :: y in Insert(c, k, x) ==> NHW <= y < |w'|
    ensures Ascending(w', Insert(c, k, x))
  {
    var c' := Insert(c, k, x);
    var nr := w'[x - INR];
    forall i, j | 0 <= i < j < |c'|
      ensures w'[c'[i] - INR] < w'[c'[j] - INR]
    {
      if i < k {
        assert c'[i] == c[i];
        if j < k { assert c'[j] == c[j]; } else if j > k { assert c'[j] == c[j - 1]; }
      } else {
        assert c'[j] == c[j - 1];
        assert k < j - 1 ==> w[c[k] - INR] < w[c[j - 1] - INR];
        if i > k { assert c'[i] == c[i - 1]; }
      }
    }
  }

  lemma ChainInsert(w: seq<int>, w': seq<int>, b: set<int>, h: int, name: int, c: seq<int>, k: nat, x: int)
    requires IsChain(w, b, h, name, c) && k <= |c| && Relinked(w, w', h, c, k, x, -1)
    requires NHW <= x < |w|
    requires FreeSlot(w, c, w'[x - INR], k)
    requires w'[x] >= 0 && w'[x - INAM] == name && w'[x - INXT] == At(c, k)
    ensures IsChain(w', b + {x}, h, name, Insert(c, k, x))
  {
    LinkedInsert(w, w', b, h, name, c, k, x);
    AscendingInsert(w, w', c, k, x);
  }

  lemma LinkedRemove(w: seq<int>, w': seq<int>, b: set<int>, h: int, name: int, c: seq<int>, k: nat, x: int)
    requires Linked(w, b, h, name, c) && k < |c| && x == At(c, k + 1)
    requires Relinked(w, w', h, c, k, x, k)
    ensures Linked(w', b, h, name, Remove(c, k))
  {
    var c' := Remove(c, k);
    assert 0 <= h < |w'| && w'[h] == At(c', 0);
    hide Linked, Relinked, At;
    forall i | 0 <= i < |c'|
      ensures c'[i] in b && NHW <= c'[i] < |w'| && w'[c'[i]] >= 0 && w'[c'[i] - INAM] == name
      ensures w'[c'[i] - INXT] == At(c', i + 1)
    {
      RemovedAt(w, w', b, h, name, c, k, x, if i < k then i else i + 1);
      RemovedNext(c, k, i);
    }
    LinkedByParts(w', b, h, name, c');
  }

  lemma RemovedNext(c: seq<int>, k: nat, i: nat)
    requires k < |c| && i + 1 < |c|
    ensures At(Remove(c, k), i + 1) == if i + 1 < k then At(c, i + 1) else At(c, i + 2)
  {
  }

  lemma LinkedByParts(w: seq<int>, b: set<int>, h: int, name: int, c: seq<int>)
    requires 0 <= h < |w| && w[h] == At(c, 0)
    requires forall i :: 0 <= i < |c| ==>
               c[i] in b && NHW <= c[i] < |w| && w[c[i]] >= 0 && w[c[i] - INAM] == name
                   && w[c[i] - INXT] == At(c, i + 1)
    ensures Linked(w, b, h, name, c)
  {
  }

  /** What stands in a bank that stays in the chain. */
  lemma RemovedAt(w: seq<int>, w': seq<int>, b: set<int>, h: int, name: int, c: seq<int>, k: nat, x: int, i: nat)
    requires Linked(w, b, h, name, c) && k < |c| && x == At(c, k + 1) && i < |c| && i != k
    requires Relinked(w, w', h, c, k, x, k)
    ensures c[i] in b && NHW <= c[i] < |w'| && w'[c[i]] >= 0 && w'[c[i] - INAM] == name
    ensures w'[c[i] - INXT] == if i + 1 == k then x else At(c, i + 1)
  {
    if i + 1 < |c| { assert w[c[i] - INXT] == c[i + 1]; }
  }

  lemma AscendingRemove(w: seq<int>, w': seq<int>, c: seq<int>, k: nat)
    requires forall i :: 0 <= i < |c| ==> NHW <= c[i] < |w|
    requires k < |c| && Ascending(w, c)
    requires |w'| == |w| && forall i :: 0 <= i < |c| && i != k ==> w'[c[i] - INR] == w[c[i] - INR]
    ensures Ascending(w', Remove(c, k))
  {
    var c' := Remove(c, k);
    forall i, j | 0 <= i < j < |c'|
      ensures w'[c'[i] - INR] < w'[c'[j] - INR]
    {
      assert c'[i] == c[if i < k then i else i + 1];
      assert c'[j] == c[if j < k then j else j + 1];
    }
  }

  lemma ChainRemove(w: seq<int>, w': seq<int>, b: set<int>, h: int, name: int, c: seq<int>, k: nat)
    requires IsChain(w, b, h, name, c) && k < |c|
    requires Relinked(w, w', h, c, k, At(c, k + 1), k)
    ensures IsChain(w', b, h, name, Remove(c, k))
  {
    LinkedRemove(w, w', b, h, name, c, k, At(c, k + 1));
    AscendingRemove(w, w', c, k);
  }
}
