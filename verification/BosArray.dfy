/**
 The BOS array object: the flat array with its system words (bos.h), and the invariant
 that every operation keeps.
 */
module BosArrays {
  import opened BankLayout
  import opened Chains
  import opened Directory
  import opened NamedArea
  import opened WorkArea
  import opened LinkTables

  /** The array with all its system words, as a value. */
  datatype Snapshot = Snapshot(a: Area, fix: int, idl: int, ndw: int, igw: int)

  ghost function WorkOf(v: Snapshot): Work {
    Work(v.a.w, v.a.base, v.a.inm, v.a.iwk, v.fix, v.a.njw, v.ndw, v.igw)
  }

  /** Named banks, work banks and cached tables are all in order. */
  ghost predicate Sound(v: Snapshot, ch: seq<seq<int>>) {
    && Inv(v.a, ch) && WInv(WorkOf(v)) && Links(WorkOf(v), v.idl, v.a.cap, ch)
  }

  /** For every name in use, its banks in chain order. */
  ghost function Listing(v: Snapshot, ch: seq<seq<int>>): (m: seq<seq<Bank>>)
    requires Sound(v, ch)
    ensures |m| == |ch|
  {
    InvMeaningful(v.a, ch);
    Meaning(v.a.w, ch)
  }

  /** The array stays in order; bank `d` is put into the n-th list and nothing else changes. */
  ghost predicate ListPut(v: Snapshot, ch: seq<seq<int>>, v': Snapshot, ch': seq<seq<int>>, n: nat, d: Bank) {
    && Sound(v, ch) && Sound(v', ch') && n < |ch|
    && Listing(v', ch') == Listing(v, ch)[n := Put(Listing(v, ch)[n], d)]
  }

  /** The bank numbers of a chain are the same. */
  ghost predicate SameNumbers(w: seq<int>, w': seq<int>, c: seq<int>) {
    |w'| == |w| && forall x :: x in c ==> INR <= x < |w| && w'[x - INR] == w[x - INR]
  }

  ghost predicate OtherChainsSame(w: seq<int>, w': seq<int>, ch: seq<seq<int>>, ch': seq<seq<int>>, n: nat) {
    && |ch'| == |ch|
    && (forall m :: 0 <= m < |ch| && m != n ==> ch'[m] == ch[m] && SameNumbers(w, w', ch[m]))
  }

  lemma ChainsBelowGap(s: Area, ch: seq<seq<int>>)
    requires Inv(s, ch)
    ensures forall m :: 0 <= m < |ch| ==> forall x :: x in ch[m] ==> INR <= x < s.iwk
  {
    hide Tiles, Inds, InSome, Accounts;
    forall m, x | 0 <= m < |ch| && x in ch[m] ensures INR <= x < s.iwk {
      var i :| 0 <= i < |ch[m]| && ch[m][i] == x;
      ChainBank(s, ch, m, i);
    }
  }

  lemma ChainCount(s: Area, ch: seq<seq<int>>)
    requires Inv(s, ch)
    ensures |ch| == |s.names| <= s.cap
  {
  }

  /** A link bank's handle is zero or leads to a word of the work-bank area. */
  lemma HandleInRange(v: Snapshot, ch: seq<seq<int>>, n: nat)
    requires Sound(v, ch) && n < v.a.cap
    ensures v.a.iwk <= v.idl + 1 + n < |v.a.w|
    ensures var l := v.idl + 1 + n;
            v.a.w[l] == 0 || (v.a.iwk <= v.a.w[l] < v.fix < |v.a.w| && v.a.w[v.a.w[l]] >= 0)
  {
    assert LinkState(WorkOf(v), v.idl, ch, n);
  }

  /** Words at or above the gap do not matter to the meaning. */
  lemma SameListing(s: Area, w': seq<int>, ch: seq<seq<int>>)
    requires Inv(s, ch) && |w'| == |s.w| && s.igp <= s.iwk && w'[..s.iwk] == s.w[..s.iwk]
    ensures Meaningful(s.w, ch) && Meaningful(w', ch) && Meaning(w', ch) == Meaning(s.w, ch)
  {
    hide InSome, Accounts;
    forall n, i | 0 <= n < |ch| && 0 <= i < |ch[n]|
      ensures Holds(s.w, ch[n][i]) && Holds(w', ch[n][i]) && BankAt(w', ch[n][i]) == BankAt(s.w, ch[n][i])
    {
      ChainBank(s, ch, n, i);
      TilesApart(s.w, s.inm, s.igp);
      PrefixBank(s.w, w', s.iwk, ch[n][i]);
    }
    SameMeaning(s.w, ch, w', ch);
  }

  lemma PrefixBank(w: seq<int>, w': seq<int>, t: int, x: int)
    requires 0 <= t <= |w| == |w'| && w'[..t] == w[..t] && Holds(w, x) && x + 1 + w[x] <= t
    ensures Holds(w', x) && BankAt(w', x) == BankAt(w, x)
  {
    assert forall i :: 0 <= i < t ==> w[i] == w[..t][i] && w'[i] == w'[..t][i];
  }

  /** The named area has become `a`; then the link bank of the n-th name is emptied. */
  ghost function AfterChange(v: Snapshot, a: Area, n: nat): Snapshot {
    var l := v.idl + 1 + n;
    v.(a := if 0 <= l < |a.w| && 0 <= a.w[l] < |a.w| then a.(w := Emptied(a.w, l)) else a)
  }

  /** `a` is `v`'s named area with words, gap and dropped-bank accounts changed. */
  ghost predicate Changed(v: Snapshot, a: Area) {
    && a == v.a.(w := a.w, igp := a.igp, ndn := a.ndn, ign := a.ign)
    && SameWork(WorkOf(v), a.w)
  }

  /**
   A change of one chain of named banks that then empties its link bank keeps everything
   else of the array in order.
   */
  lemma ChangeChain(v: Snapshot, a: Area, ch: seq<seq<int>>, ch': seq<seq<int>>, n: nat)
    requires Sound(v, ch) && n < |ch|
    requires Inv(a, ch') && Changed(v, a) && OtherChainsSame(v.a.w, a.w, ch, ch', n)
    ensures Sound(AfterChange(v, a, n), ch') && Meaningful(a.w, ch')
    ensures Listing(AfterChange(v, a, n), ch') == Meaning(a.w, ch')
  {
    hide Inv, WInv, Links, Table, LinkState, IsChain, Meaning, Meaningful, Emptied;
    InvBounds(v.a, ch);
    InvBounds(a, ch');
    ChainCount(v.a, ch);
    HandleInRange(v, ch, n);
    var l := v.idl + 1 + n;
    var k := WorkOf(v);
    ChainsBelowGap(v.a, ch);
    EmptyLink(k, v.idl, v.a.cap, ch, n);
    var k1 := k.(w := Emptied(k.w, l));
    var w2 := Emptied(a.w, l);
    EmptiedAlike(v.a.w, a.w, l, v.a.base, v.a.iwk);
    ChainsRenumbered(v, a.w, w2, ch, ch', n);
    LinksKept(k1, k1.(w := w2), v.idl, v.a.cap, ch, ch', n);
    InvFrame(a, a.(w := w2), ch');
    SameListing(a, w2, ch');
  }

  lemma EmptiedAlike(w: seq<int>, w': seq<int>, l: int, base: int, iwk: int)
    requires |w'| == |w| && 0 <= iwk <= l < |w| && (w[l] == 0 || iwk <= w[l] < |w|)
    requires forall i :: 0 <= i < |w| && (i < base || iwk <= i) ==> w'[i] == w[i]
    ensures w'[l] == w[l] && |Emptied(w', l)| == |Emptied(w, l)| == |w| && 0 <= Emptied(w, l)[l] < |w|
    ensures forall i :: 0 <= i < |w| && (i < base || iwk <= i) ==> Emptied(w', l)[i] == Emptied(w, l)[i]
    ensures Emptied(w, l)[..iwk] == w[..iwk] && Emptied(w', l)[..iwk] == w'[..iwk]
  {
  }

  /** Outside the named area, `w'` is `w` with the link bank of handle `l` emptied. */
  ghost predicate Settled(w: seq<int>, w': seq<int>, base: int, iwk: int, l: int) {
    && 0 <= l < |w| && 0 <= w[l] < |w| && |w'| == |w|
    && (forall i :: 0 <= i < |w| && (i < base || iwk <= i) ==> w'[i] == Emptied(w, l)[i])
  }

  /** The same, for an array in which the link bank has already been emptied. */
  lemma SettleChain(v: Snapshot, a: Area, ch: seq<seq<int>>, ch': seq<seq<int>>, n: nat)
    requires Sound(v, ch) && n < |ch| && Inv(a, ch')
    requires a == v.a.(w := a.w, igp := a.igp, ndn := a.ndn, ign := a.ign)
    requires Settled(v.a.w, a.w, v.a.base, v.a.iwk, v.idl + 1 + n)
    requires OtherChainsSame(v.a.w, a.w, ch, ch', n)
    ensures Sound(v.(a := a), ch') && Meaningful(a.w, ch')
    ensures Listing(v.(a := a), ch') == Meaning(a.w, ch')
  {
    hide Inv, WInv, Links, Meaning, Meaningful;
    var l := v.idl + 1 + n;
    SettleBounds(v, ch, n);
    var w2 := a.w[..v.a.iwk] + v.a.w[v.a.iwk..];
    var a2 := a.(w := w2);
    assert w2[..v.a.iwk] == a.w[..v.a.iwk];
    InvBounds(a, ch');
    InvFrame(a, a2, ch');
    SettleOthers(v, a.w, w2, ch, ch', n);
    assert Emptied(w2, l) == a.w;
    ChangeChain(v, a2, ch, ch', n);
    SameListing(a, w2, ch');
  }

  lemma InvBounds(a: Area, ch: seq<seq<int>>)
    requires Inv(a, ch)
    ensures 0 < a.base <= a.inm <= a.igp <= a.iwk <= a.njw && |a.w| == a.njw + 1
  {
  }

  lemma SettleBounds(v: Snapshot, ch: seq<seq<int>>, n: nat)
    requires Sound(v, ch) && n < |ch|
    ensures 0 < v.a.base <= v.a.igp <= v.a.iwk <= v.idl + 1 + n < |v.a.w|
    ensures var h := v.a.w[v.idl + 1 + n]; h == 0 || v.a.iwk <= h < |v.a.w|
    ensures |ch| == |v.a.names|
  {
    InvBounds(v.a, ch);
    ChainCount(v.a, ch);
    HandleInRange(v, ch, n);
  }

  lemma SettleOthers(v: Snapshot, w: seq<int>, w2: seq<int>, ch: seq<seq<int>>, ch': seq<seq<int>>, n: nat)
    requires Sound(v, ch) && OtherChainsSame(v.a.w, w, ch, ch', n)
    requires |w2| == |w| == |v.a.w| && 0 <= v.a.iwk <= |w| && w2[..v.a.iwk] == w[..v.a.iwk]
    ensures OtherChainsSame(v.a.w, w2, ch, ch', n)
  {
    hide WInv, Links, Accounts, Chained, Tiles;
    ChainsBelowGap(v.a, ch);
    forall m, x | 0 <= m < |ch| && m != n && x in ch[m] ensures w2[x - INR] == v.a.w[x - INR] {
      assert SameNumbers(v.a.w, w, ch[m]);
      assert w2[x - INR] == w2[..v.a.iwk][x - INR];
    }
  }

  lemma ChainsRenumbered(v: Snapshot, w': seq<int>, w2: seq<int>, ch: seq<seq<int>>, ch': seq<seq<int>>, n: nat)
    requires Sound(v, ch) && n < |ch| && v.a.iwk <= v.idl + 1 + n < |v.a.w|
    requires 0 <= v.a.w[v.idl + 1 + n] < |v.a.w| && |w'| == |v.a.w| == |w2|
    requires w2[..v.a.iwk] == w'[..v.a.iwk] && OtherChainsSame(v.a.w, w', ch, ch', n)
    requires Emptied(v.a.w, v.idl + 1 + n)[..v.a.iwk] == v.a.w[..v.a.iwk]
    ensures OtherChainsSame(Emptied(v.a.w, v.idl + 1 + n), w2, ch, ch', n)
  {
    hide WInv, Links, Accounts, Chained, Tiles;
    ChainsBelowGap(v.a, ch);
    var w1 := Emptied(v.a.w, v.idl + 1 + n);
    forall m, x | 0 <= m < |ch| && m != n && x in ch[m]
      ensures w2[x - INR] == w1[x - INR]
    {
      assert SameNumbers(v.a.w, w', ch[m]);
      assert w2[x - INR] == w2[..v.a.iwk][x - INR] && w1[x - INR] == w1[..v.a.iwk][x - INR];
    }
  }

  class BosArray {
    const w: array<int>   // indexed from 1
    const base: int       // index of the first chain head
    const cap: nat        // number of possible names
    const inm: int        // first word of the named-bank area
    const njw: int        // last word of the array
    const fix: int        // first word of the system work banks
    const idl: int        // index of the work bank with link-bank handles
    const nlplm: nat := 40 // chains up to this length get no link bank
    const nresr: nat      // reserved words between the two areas

    var names: seq<int>      // names in order of first use
    var bits: map<int, int>  // bit code of the format declared for a name
    var igp: int             // first word of the gap
    var iwk: int             // first word of the work-bank area
    var ndn: int             // dropped words of named banks
    var ndw: int             // dropped words of work banks
    var ign: int             // lowest dropped named bank
    var igw: int             // end of the highest dropped work bank
    var jw1: int             // additional argument of the next call

    ghost var ch: seq<seq<int>>  // the chains, one per name in use

    /**
     An array of `njw` words, all zero, laid out for `cap` names behind `nsyst` system words and
     `pad` words of alignment, with `sys` words of system work banks at its top (bosInit).
     */
    constructor (njw: int, nsyst: nat, cap: nat, pad: nat, sys: nat, nresr: nat)
      requires 2 * NHW + cap <= sys && nsyst + cap + pad + 1 <= njw + 1 - sys
      ensures fresh(w) && w.Length == njw + 1 && forall i :: 0 <= i <= njw ==> w[i] == 0
      ensures this.base == nsyst + 1 && this.cap == cap && this.inm == nsyst + cap + pad + 1 && this.njw == njw
      ensures this.fix == njw + 1 - sys && this.idl == njw - cap && this.nresr == nresr
      ensures names == [] && bits == map[] && igp == this.inm && iwk == this.fix && ndn == 0 && ndw == 0
      ensures ign == njw && igw == 0 && jw1 == 0 && ch == []
    {
      w := new int[njw + 1](_ => 0);
      base, this.cap, inm, this.njw := nsyst + 1, cap, nsyst + cap + pad + 1, njw;
      fix, idl, this.nresr := njw + 1 - sys, njw - cap, nresr;
      names, bits, igp, iwk, ndn, ndw := [], map[], nsyst + cap + pad + 1, njw + 1 - sys, 0, 0;
      ign, igw, jw1 := njw, 0, 0;
      ch := [];
    }

    ghost function Value(): Snapshot
      reads this, w
    {
      Snapshot(Area(w[..], base, cap, names, inm, igp, iwk, njw, ndn, ign), fix, idl, ndw, igw)
    }

    /**
     The array while bank `rec` is being taken apart from the inside: `rec` counts as empty
     and the named area as ending at `top`.  With `rec == 0` it is the array as it is.
     */
    ghost function Seen(rec: int, top: int): Snapshot
      reads this, w
    {
      var v := Value();
      if 0 < rec < |v.a.w| then v.(a := v.a.(w := v.a.w[rec := 0], igp := top)) else v
    }

    ghost predicate Valid()
      reads this, w
    {
      Sound(Value(), ch)
    }

    /** For every name in use, its banks in chain order. */
    ghost function Contents(): seq<seq<Bank>>
      requires Valid()
      reads this, w
    {
      Listing(Value(), ch)
    }
  }

  // ---- Finding banks -------------------------------------------------------------------------

  /** Position of a name in the list of names, or its length (namez.c, its hash table aside). */
  function NameIndex(names: seq<int>, nama: int): (n: nat)
    ensures n <= |names|
    ensures n < |names| ==> names[n] == nama
    ensures n == |names| <==> nama !in names
  {
    if names == [] then 0
    else if names[0] == nama then 0
    else 1 + NameIndex(names[1..], nama)
  }

  /**
   Walks the chain with head `w[h]` (nindex.c): `indi` is the bank with number `nr` or zero,
   `indj` the bank or pseudo-bank before the place where `nr` is or belongs.
   */
  method Nindex(w: array<int>, nr: int, h: int, ghost b: set<int>, ghost name: int, ghost c: seq<int>)
    returns (nlpl: nat, indi: int, indj: int, ghost k: nat)
    requires IsChain(w[..], b, h, name, c)
    ensures IsSlot(w[..], c, nr, k) && indj - INXT == LinkOf(h, c, k)
    ensures indi == if k < |c| && w[c[k] - INR] == nr then c[k] else 0
    ensures nlpl == if k < |c| then k + 1 else k
  {
    hide Ascending;
    indi := h + 1;
    nlpl := 0;
    k := 0;
    while true
      invariant 0 <= k <= |c| && nlpl == k
      invariant indi == LinkOf(h, c, k) + INXT
      invariant forall i :: 0 <= i < k ==> w[c[i] - INR] < nr
      decreases |c| - k
    {
      assert w[indi - INXT] == At(c, k);
      indj := indi;
      indi := w[indj - INXT];
      if indi == 0 {
        break;
      }
      nlpl := nlpl + 1;
      if w[indi - INR] >= nr {
        ChainFrom(w[..], b, h, name, c, k, nr);
        if w[indi - INR] > nr {
          indi := 0;
        }
        break;
      }
      k := k + 1;
    }
  }

  lemma ChainFrom(w: seq<int>, b: set<int>, h: int, name: int, c: seq<int>, k: nat, nr: int)
    requires IsChain(w, b, h, name, c) && k < |c| && NHW <= c[k] < |w| && w[c[k] - INR] >= nr
    ensures forall i :: k <= i < |c| ==> w[c[i] - INR] >= nr
  {
    forall i | k <= i < |c| ensures w[c[i] - INR] >= nr {
      if k < i { assert w[c[k] - INR] < w[c[i] - INR]; }
    }
  }
}
