/**
 Making a BOS array (bosinit.c): an empty array with its system work banks, in order.
 */
module Initialising {
  import opened BankLayout
  import opened WorkArea
  import opened LinkTables
  import opened BosArrays

  const BOS_INITIALIZATION_ERROR := -14
  const BOS_ARRAY_LENGTH_TOO_SMALL := -15
  const LNK := 0x4b4e_4c2b  // +LNK
  const NAM := 0x4d41_4e2b  // +NAM
  const PTR := 0x5254_502b  // +PTR
  const IDF := 0x4644_492b  // +IDF
  const FMT := 0x544d_462b  // +FMT

  /** Words of the five system work banks: links, names, pointers, formats and the first format. */
  function SystemWords(cap: nat, nprim: nat): nat {
    (cap + NHW) + (cap + NHW) + (cap + nprim + NHW) + (cap + NHW) + (9 + NHW)
  }

  /** A work bank at `id` with room for `nd` words, of which `n` are in use; word `l` leads to it. */
  datatype SystemBank = SystemBank(l: int, id: int, name: int, nd: nat, n: nat)

  ghost predicate IsThere(w: seq<int>, s: SystemBank) {
    && 0 <= s.l < |w| && 5 <= s.id && s.id + s.nd < |w| && w[s.l] == s.id
    && w[s.id - 5..s.id + 1] == [s.nd, 1, s.name, s.nd + 6, s.l, s.n]
  }

  /** The five system work banks, from the top of the array down; the last has the format of formats. */
  ghost predicate SystemBanks(w: seq<int>, cap: nat, nprim: nat) {
    var top := |w| - 1;
    && IsThere(w, SystemBank(13, top - cap, LNK, cap, cap))
    && IsThere(w, SystemBank(5, top - 2 * cap - 6, NAM, cap, 0))
    && IsThere(w, SystemBank(4, top - 3 * cap - nprim - 12, PTR, cap + nprim, cap + nprim))
    && IsThere(w, SystemBank(3, top - 4 * cap - nprim - 18, IDF, cap, cap))
    && IsThere(w, SystemBank(w[3] + 1, top - 4 * cap - nprim - 33, FMT, 9, 9))
    && w[w[w[3] + 1] + 1..w[3] - 5] == [FMT, 4, 0, 10, 13, 10, 1000002, 0, 0]
  }

  /** A system work bank that ends at `e`. */
  method WriteBank(w: array<int>, e: int, name: int, nd: nat, n: nat, l: int)
    requires 0 < e - (nd + NHW) && e <= w.Length && 0 <= l < w.Length && !(e - (nd + NHW) <= l < e - nd)
    modifies w
    ensures IsThere(w[..], SystemBank(l, e - nd - 1, name, nd, n))
    ensures forall i :: 0 <= i < w.Length && i != l && !(e - (nd + NHW) <= i < e - nd) ==> w[i] == old(w[i])
  {
    var id := e - nd - 1;
    w[l] := id;
    w[id - ICOL] := nd;
    w[id - IROW] := 1;
    w[id - INAM] := name;
    w[id - INR] := nd + NHW;
    w[id - INXT] := l;
    w[id] := n;
  }

  /** Makes a system work bank that ends at `e`, below those in `done`. */
  method MakeBank(w: array<int>, e: int, name: int, nd: nat, n: nat, l: int, ghost done: set<SystemBank>)
    returns (ghost done': set<SystemBank>)
    requires 0 < e - (nd + NHW) && e <= w.Length && 0 <= l < w.Length && !(e - (nd + NHW) <= l < e - nd)
    requires forall s <- done ::
               && IsThere(w[..], s) && s.l != l && !(s.id - 5 <= l <= s.id) && s.id - 5 >= e
               && !(e - (nd + NHW) <= s.l < e - nd)
    modifies w
    ensures done' == done + {SystemBank(l, e - nd - 1, name, nd, n)} && forall s <- done' :: IsThere(w[..], s)
    ensures forall i :: 0 <= i < w.Length && i != l && !(e - (nd + NHW) <= i < e - nd) ==> w[i] == old(w[i])
  {
    hide IsThere;
    WriteBank(w, e, name, nd, n, l);
    done' := done + {SystemBank(l, e - nd - 1, name, nd, n)};
    forall s <- done ensures IsThere(w[..], s) {
      StillThere(old(w[..]), w[..], s);
    }
  }

  /** An array without names and work banks is in order. */
  lemma EmptySound(v: Snapshot)
    requires v.a.names == [] && 0 < v.a.base && v.a.base + v.a.cap <= v.a.inm == v.a.igp <= v.a.iwk == v.fix <= v.a.njw
    requires |v.a.w| == v.a.njw + 1 && v.a.ndn == 0 && v.a.ign == v.a.njw && v.ndw == 0 && v.igw == 0
    requires v.fix <= v.idl + 1 && v.idl + v.a.cap <= v.a.njw
    requires forall h :: v.a.base <= h < v.a.base + v.a.cap ==> v.a.w[h] == 0
    requires forall h :: v.idl < h <= v.idl + v.a.cap ==> v.a.w[h] == 0
    ensures Sound(v, []) && Listing(v, []) == []
  {
    assert Tiles(v.a.w, v.a.inm, v.a.igp) && Inds(v.a.w, v.a.inm, v.a.igp) == {};
    assert WTiles(v.a.w, v.a.iwk, v.fix) && WInds(v.a.w, v.a.iwk, v.fix) == {};
    forall n: nat | n < v.a.cap ensures LinkState(WorkOf(v), v.idl, [], n) {
    }
  }

  /**
   bosInit: `nsyst` system words, up to `cap` names, at least 1000 words.  The array is empty
   and in order, or it cannot be made.
   */
  method Init(ndim: int, nsyst: nat, cap: nat, nprim: nat, pad: nat, nresr: nat) returns (status: int, b: BosArray?)
    requires 10 <= cap && nprim <= cap + 1 && nsyst >= 19
    ensures status == 0 ==> b != null && fresh(b) && fresh(b.w) && b.Valid() && b.names == [] && b.Contents() == []
    ensures status == 0 ==> b.ndn == 0 && b.ndw == 0 && b.igp == b.inm && b.iwk == b.fix && b.jw1 == 0 && b.cap == cap
    ensures status == 0 ==> b.bits == map[] && b.nresr == nresr && b.fix + NHW <= b.idl + 1 <= b.w.Length
    ensures status == 0 ==>
              && b.w.Length == (if ndim > 1000 then ndim else 1000) + 1 && b.inm == nsyst + cap + pad + 1
              && b.iwk == b.w.Length - (4 * cap + nprim + 39) && SystemBanks(b.w[..], cap, nprim)
    ensures status != 0 ==> b == null
    ensures ndim <= 0 <==> status == BOS_INITIALIZATION_ERROR
    ensures ndim > 0 && (if ndim > 1000 then ndim else 1000) < nsyst + 5 * cap + pad + nprim + 39 + nresr
            <==> status == BOS_ARRAY_LENGTH_TOO_SMALL
    ensures status in {0, BOS_INITIALIZATION_ERROR, BOS_ARRAY_LENGTH_TOO_SMALL}
  {
    if ndim <= 0 {
      return BOS_INITIALIZATION_ERROR, null;
    }
    var njw := if ndim > 1000 then ndim else 1000;
    if nsyst + cap + pad + 1 + SystemWords(cap, nprim) + nresr > njw + 1 {
      return BOS_ARRAY_LENGTH_TOO_SMALL, null;
    }
    var c := new BosArray(njw, nsyst, cap, pad, SystemWords(cap, nprim), nresr);
    PutSystemBanks(c.w, cap, nprim, c.fix);
    EmptySound(c.Value());
    status, b := 0, c;
  }

  /** The system work banks are made from the top of the array down. */
  method PutSystemBanks(w: array<int>, cap: nat, nprim: nat, fix: int)
    requires 19 < fix && fix + SystemWords(cap, nprim) == w.Length && 10 <= cap
    requires forall i :: 0 <= i < w.Length ==> w[i] == 0
    modifies w
    ensures SystemBanks(w[..], cap, nprim)
    ensures forall i :: 19 < i < fix || w.Length - cap <= i < w.Length ==> w[i] == 0
  {
    hide IsThere;
    var e1 := w.Length - (cap + NHW);
    var e2 := e1 - (cap + NHW);
    var e3 := e2 - (cap + nprim + NHW);
    var e4 := e3 - (cap + NHW);
    ghost var done := MakeBank(w, w.Length, LNK, cap, cap, 13, {});
    done := MakeBank(w, e1, NAM, cap, 0, 5, done);
    done := MakeBank(w, e2, PTR, cap + nprim, cap + nprim, 4, done);
    done := MakeBank(w, e3, IDF, cap, cap, 3, done);
    done := MakeBank(w, e4, FMT, 9, 9, e3 - cap, done);
    PutFormats(w, e4 - 9, done);
    LeadsTo(w[..], SystemBank(3, e3 - cap - 1, IDF, cap, cap));
    LeadsTo(w[..], SystemBank(e3 - cap, e4 - 10, FMT, 9, 9));
  }

  /** The first format describes the bank of formats itself. */
  method PutFormats(w: array<int>, at: int, ghost done: set<SystemBank>)
    requires 0 <= at && at + 9 <= w.Length
    requires forall s <- done ::
               IsThere(w[..], s) && !(at <= s.l < at + 9) && (s.id < at || at + 9 <= s.id - 5)
    modifies w
    ensures w[at..at + 9] == [FMT, 4, 0, 10, 13, 10, 1000002, 0, 0]
    ensures forall s <- done :: IsThere(w[..], s)
    ensures forall i :: 0 <= i < w.Length && !(at <= i < at + 9) ==> w[i] == old(w[i])
  {
    w[at], w[at + 1], w[at + 2], w[at + 3], w[at + 4] := FMT, 4, 0, 10, 13;
    w[at + 5], w[at + 6], w[at + 7], w[at + 8] := 10, 1000002, 0, 0;
    forall s <- done ensures IsThere(w[..], s) {
      StillThere(old(w[..]), w[..], s);
    }
  }

  lemma StillThere(w: seq<int>, w': seq<int>, s: SystemBank)
    requires IsThere(w, s) && |w'| == |w|
    requires forall i :: 0 <= i < |w| && (i == s.l || s.id - 5 <= i <= s.id) ==> w'[i] == w[i]
    ensures IsThere(w', s)
  {
    assert w'[s.id - 5..s.id + 1] == w[s.id - 5..s.id + 1];
  }

  lemma LeadsTo(w: seq<int>, s: SystemBank)
    requires IsThere(w, s)
    ensures 0 <= s.l < |w| && w[s.l] == s.id
  {
  }
}
