/**
 Loading a flat record into a BOS array (et2bos.c): its banks are laid down in the gap as the
 data of a record bank, which bosins then takes apart.
 */
module EventLoading {
  import opened Options
  import opened BankLayout
  import opened Chains
  import opened Directory
  import opened NamedArea
  import opened WorkArea
  import opened LinkTables
  import opened BosArrays
  import opened Dropping
  import opened Creating
  import opened Records
  import opened Splicing
  import opened Linking
  import opened Loading
  import opened GapEnds
  import opened Slices
  import opened HeaderTexts
  import opened EventWalking
  import Segments
  import EtWriting

  /** A header word of a bank; bank headers have at least nine. */
  function Head(d: Segments.Segment, i: nat): int {
    if i < |d.hd| then d.hd[i] else 0
  }

  /** The bank of a flat record as it is laid down in the gap: name, but no index of the name yet. */
  function Raw(d: Segments.Segment): (r: seq<int>)
    ensures |r| == NHW + |d.data|
  {
    [Head(d, Segments.idNCOL), Head(d, Segments.idNROW), Head(d, Segments.idNAME1), Head(d, Segments.idNSGM), 0,
        |d.data|] + d.data
  }

  function RawAll(ds: seq<Segments.Segment>): seq<int>
  {
    if ds == [] then [] else RawAll(ds[..|ds| - 1]) + Raw(ds[|ds| - 1])
  }

  lemma RawMore(ds: seq<Segments.Segment>, i: nat)
    requires i < |ds|
    ensures RawAll(ds[..i + 1]) == RawAll(ds[..i]) + Raw(ds[i])
    ensures |RawAll(ds[..i + 1])| == |RawAll(ds[..i])| + NHW + |ds[i].data|
  {
    assert ds[..i + 1][..i] == ds[..i];
  }

  lemma {:induction false} RawGrows(ds: seq<Segments.Segment>, i: nat)
    requires i <= |ds|
    ensures |RawAll(ds[..i])| <= |RawAll(ds)|
  {
    if i < |ds| {
      RawGrows(ds[..|ds| - 1], i);
      assert ds[..|ds| - 1][..i] == ds[..i];
    } else {
      assert ds[..i] == ds;
    }
  }

  // ---- Into the gap ---------------------------------------------------------------------------------

  /** Words are written into the gap: nothing changes for named and work banks. */
  lemma GapWritten(v: Snapshot, w': seq<int>, ch: seq<seq<int>>)
    requires Sound(v, ch) && |w'| == |v.a.w|
    requires forall i :: 0 <= i < |w'| && (i < v.a.igp || v.a.iwk <= i) ==> w'[i] == v.a.w[i]
    ensures Sound(v.(a := v.a.(w := w')), ch) && Listing(v.(a := v.a.(w := w')), ch) == Listing(v, ch)
  {
    GapSound(v, ch, w');
  }

  lemma RawWords(w: seq<int>, p: int, d: Segments.Segment)
    requires 0 <= p && p + NHW + |d.data| <= |w|
    requires w[p] == Head(d, Segments.idNCOL) && w[p + 1] == Head(d, Segments.idNROW)
    requires w[p + 2] == Head(d, Segments.idNAME1) && w[p + 3] == Head(d, Segments.idNSGM)
    requires w[p + 4] == 0 && w[p + 5] == |d.data|
    requires forall i :: p + NHW <= i < p + NHW + |d.data| ==> w[i] == d.data[i - (p + NHW)]
    ensures w[p..p + NHW + |d.data|] == Raw(d)
  {
    assert w[p..p + NHW] == Raw(d)[..NHW];
    assert w[p + NHW..p + NHW + |d.data|] == d.data;
    assert w[p..p + NHW + |d.data|] == w[p..p + NHW] + w[p + NHW..p + NHW + |d.data|];
  }

  /** The five header words that do not depend on the data. */
  function FiveOf(d: Segments.Segment): (h: seq<int>)
    ensures |h| == FIVE && h[FIVE - 1] == 0 && h == Raw(d)[..FIVE]
  {
    [Head(d, Segments.idNCOL), Head(d, Segments.idNROW), Head(d, Segments.idNAME1), Head(d, Segments.idNSGM), 0]
  }

  /** They are written first (et2bos.c:83-87). */
  method LayHead(w: array<int>, start: int, ev: array<int>, ind: int, ghost d: Segments.Segment)
    requires ev != w && 0 <= ind && Segments.SegOk(d) && ind + |d.hd| <= ev.Length
    requires forall j :: ind <= j < ind + Segments.idFRMT ==> ev[j] == d.hd[j - ind]
    requires 0 <= start && start + FIVE <= w.Length
    modifies w
    ensures w[..] == EtWriting.Overwritten(old(w[..]), start, FiveOf(d))
  {
    w[start + (NHW - 1) - ICOL] := ev[ind + Segments.idNCOL];
    w[start + (NHW - 1) - IROW] := ev[ind + Segments.idNROW];
    w[start + (NHW - 1) - INAM] := ev[ind + Segments.idNAME1];
    w[start + (NHW - 1) - INR] := ev[ind + Segments.idNSGM];
    w[start + (NHW - 1) - INXT] := 0;
  }

  /** The data, and their number in the header (et2bos.c:101-103). */
  method LayData(w: array<int>, start: int, ev: array<int>, ind: int, ghost d: Segments.Segment)
    requires ev != w && 0 <= ind && Segments.SegOk(d) && ind + |d.hd| + |d.data| <= ev.Length
    requires forall j :: ind <= j < ind + Segments.idFRMT ==> ev[j] == d.hd[j - ind]
    requires ev[ind + |d.hd|..ind + |d.hd| + |d.data|] == Clip(d).data
    requires 0 <= start && start + NHW + |d.data| <= w.Length && w[start..start + FIVE] == FiveOf(d)
    modifies w
    ensures w[start..start + NHW + |d.data|] == Raw(Clip(d))
    ensures forall j :: 0 <= j < w.Length && (j < start || start + NHW + |d.data| <= j) ==> w[j] == old(w[j])
  {
    hide Raw, Clip;
    var ndata := ev[ind + Segments.idDATA];
    assert forall j :: start <= j < start + FIVE ==> w[j] == w[start..start + FIVE][j - start];
    CopyWords(w, start + NHW, ev[ind + ev[ind]..ind + ev[ind] + ndata]);
    w[start + (NHW - 1)] := ndata;
    RawWords(w[..], start, Clip(d));
  }

  lemma Behind(w: seq<int>, w': seq<int>, p: int, q: int, r: int)
    requires 0 <= p <= q <= r <= |w| == |w'| && forall i :: 0 <= i < q ==> w'[i] == w[i]
    ensures w'[p..r] == w[p..q] + w'[q..r]
  {
    assert w'[p..q] == w[p..q];
  }

  lemma NothingYet(ds: seq<Segments.Segment>)
    requires Segments.SegsOk(ds)
    ensures Segments.Flat(ds[..0]) == [] && RawAll(ds[..0]) == []
    ensures ds != [] ==> |Segments.Flat(ds)| > 0
  {
    if ds != [] { assert Segments.SegOk(ds[|ds| - 1]); }
  }

  /**
   The call of bosNcreate by which the words in the gap become data of the record bank: it is
   found as the last bank and grows in place, its new words not being cleared.
   */
  method GrowRecord(b: BosArray, nama: int, nr: int, ncol: int, ghost rn: nat, ghost rk: nat, ghost ird: int)
    returns (ind: int)
    requires b.Valid() && rn < |b.names| && b.names[rn] == nama && rn < |b.ch| && rk < |b.ch[rn]| && b.ch[rn][rk] == ird
    requires Holds(b.w[..], ird) && b.w[ird - INR] == nr && ird + b.w[ird] + 1 == b.igp && b.w[ird] == 0
    requires 0 < ncol && b.igp + ncol <= b.iwk <= b.w.Length && b.jw1 == 1
    requires DataWords(BitCode(b.bits, nama), ncol, 1) == ncol
    modifies b, b.w
    ensures b.Valid() && ind == ird && b.ch == old(b.ch) && b.names == old(b.names) && b.bits == old(b.bits)
    ensures b.jw1 == 0
    ensures b.iwk == old(b.iwk) && b.ndw == old(b.ndw) && b.igp == old(b.igp) + ncol
    ensures Holds(b.w[..], ird) && b.w[ird] == ncol && b.w[ird - INR] == nr
    ensures ListPut(old(b.Value()), b.ch, b.Value(), b.ch, rn, BankAt(b.w[..], ird))
    ensures forall i :: 0 <= i < b.w.Length && i != ird && i != ird - ICOL && i != ird - IROW ==> b.w[i] == old(b.w[i])
  {
    hide Sound, ListPut, BankAt, IsChain, IsSlot, LengthWritten;
    ghost var v, ch := b.Value(), b.ch;
    var jw1 := b.jw1;
    b.jw1 := 0;
    WalkReady(v, ch, b.w[..], 0, rn);
    NameHere(v, ch, rn);
    var nami := NameIndex(b.names, nama);
    var nd := DataWords(BitCode(b.bits, nama), ncol, 1);
    var nlpl, indj;
    ghost var k;
    nlpl, ind, indj, k := Nindex(b.w, nr, b.base + nami, Banks(v.a), nama, ch[rn]);
    SlotExact(b.w[..], Banks(v.a), b.base + nami, nama, ch[rn], nr, k, rk);
    GrowLast(b, ind, nd, jw1, rn, rk);
    ListPutSound(v, ch, b.Value(), ch, rn);
    ghost var v1, d := b.Value(), BankAt(b.w[..], ird);
    SetShape(b, ind, ncol, 1, rn, rk);
    NumberOf(v, b.w[..], ird);
    ListPutTwice(v, ch, v1, ch, b.Value(), ch, rn, d, BankAt(b.w[..], ird));
    ListPutSound(v, ch, b.Value(), ch, rn);
  }

  lemma NumberOf(v: Snapshot, w: seq<int>, x: int)
    requires Holds(w, x)
    ensures BankAt(w, x).nr == w[x - INR]
  {
  }

  // ---- Names -----------------------------------------------------------------------------------------

  function Enter(names: seq<int>, nama: int): seq<int> {
    if nama in names then names else names + [nama]
  }

  /** The list of names after those of the banks have been entered, in order. */
  function EnterAll(names: seq<int>, ds: seq<Segments.Segment>): seq<int>
  {
    if ds == [] then names else Enter(EnterAll(names, ds[..|ds| - 1]), Head(ds[|ds| - 1], Segments.idNAME1))
  }

  /** Whether the bank brings a format: then its name is entered by bosNformat. */
  predicate Declares(d: Segments.Segment) {
    TextLength(FormatOf(d)) > 0 && Head(d, Segments.idNCOL) > 0
  }

  /** The list of names after those of the banks that bring a format have been entered. */
  function Declared(names: seq<int>, ds: seq<Segments.Segment>): seq<int> {
    if ds == [] then names
    else
      var was, d := Declared(names, ds[..|ds| - 1]), ds[|ds| - 1];
      if Declares(d) then Enter(was, Head(d, Segments.idNAME1)) else was
  }

  /**
   The list of names when all banks are in the gap: the record bank is made after the first bank
   of the record has been looked at.
   */
  function LaidNames(names: seq<int>, nama: int, ds: seq<Segments.Segment>): seq<int> {
    if ds == [] then names
    else Declared(Enter(Declared(names, ds[..1]), nama), ds[1..])
  }

  lemma DeclaredMore(names: seq<int>, ds: seq<Segments.Segment>, i: nat)
    requires 1 <= i < |ds|
    ensures Declared(names, ds[1..i + 1]) ==
            if Declares(ds[i]) then Enter(Declared(names, ds[1..i]), Head(ds[i], Segments.idNAME1))
                else Declared(names, ds[1..i])
  {
    assert ds[1..i + 1][..i - 1] == ds[1..i] && ds[1..i + 1][i - 1] == ds[i];
  }

  lemma {:induction false} DeclaredGrows(names: seq<int>, ds: seq<Segments.Segment>, i: nat)
    requires i <= |ds|
    ensures names <= Declared(names, ds[..i]) <= Declared(names, ds)
  {
    if i == |ds| {
      assert ds[..i] == ds;
      if ds != [] {
        DeclaredGrows(names, ds[..i - 1], i - 1);
        assert ds[..i - 1][..i - 1] == ds[..i - 1];
      }
    } else {
      DeclaredGrows(names, ds[..|ds| - 1], i);
      assert ds[..|ds| - 1][..i] == ds[..i];
    }
  }

  lemma EnterMore(names: seq<int>, ds: seq<Segments.Segment>, i: nat)
    requires i < |ds|
    ensures EnterAll(names, ds[..i + 1]) == Enter(EnterAll(names, ds[..i]), Head(ds[i], Segments.idNAME1))
  {
    assert ds[..i + 1][..i] == ds[..i];
  }

  lemma {:induction false} EnterGrows(names: seq<int>, ds: seq<Segments.Segment>, i: nat)
    requires i <= |ds|
    ensures EnterAll(names, ds[..i]) <= EnterAll(names, ds)
    ensures i > 0 ==> Head(ds[i - 1], Segments.idNAME1) in EnterAll(names, ds[..i])
  {
    if i < |ds| {
      EnterGrows(names, ds[..|ds| - 1], i);
      assert ds[..|ds| - 1][..i] == ds[..i];
    } else {
      assert ds[..i] == ds;
    }
  }

  lemma {:induction false} IndexPrefix(a: seq<int>, b: seq<int>, x: int)
    requires a <= b && x in a
    ensures NameIndex(b, x) == NameIndex(a, x) < |a|
  {
    if a[0] != x {
      assert a[1..] <= b[1..];
      IndexPrefix(a[1..], b[1..], x);
    }
  }

  ghost predicate NamesIn(names: seq<int>, ds: seq<Segments.Segment>) {
    forall i :: 0 <= i < |ds| ==> Head(ds[i], Segments.idNAME1) in names
  }

  /** A bank of the flat record as a fragment. */
  ghost function FragOf(names: seq<int>, d: Segments.Segment): Frag
  {
    Frag(NameIndex(names, Head(d, Segments.idNAME1)),
        Bank(Head(d, Segments.idNSGM), Head(d, Segments.idNCOL), Head(d, Segments.idNROW), d.data))
  }

  ghost function FragsOf(names: seq<int>, ds: seq<Segments.Segment>): (fs: seq<Frag>)
    requires NamesIn(names, ds)
    ensures |fs| == |ds| && Named(names, fs)
  {
    seq(|ds|, i requires 0 <= i < |ds| => FragOf(names, ds[i]))
  }

  lemma {:induction false} FlatSnoc(base: int, names: seq<int>, fs: seq<Frag>, f: Frag)
    requires Named(names, fs) && f.n < |names|
    ensures Named(names, fs + [f]) && Flat(base, names, fs + [f]) == Flat(base, names, fs) + Words(base, names, f)
  {
    hide Words;
    if fs == [] {
      assert [] + [f] == [f] && Flat(base, names, [f][1..]) == [];
    } else {
      assert (fs + [f])[1..] == fs[1..] + [f] && (fs + [f])[0] == fs[0];
      FlatSnoc(base, names, fs[1..], f);
      Assoc(Words(base, names, fs[0]), Flat(base, names, fs[1..]), Words(base, names, f));
    }
  }

  lemma FragsMore(names: seq<int>, ds: seq<Segments.Segment>, i: nat)
    requires NamesIn(names, ds) && i < |ds|
    ensures NamesIn(names, ds[..i]) && NamesIn(names, ds[..i + 1])
    ensures FragsOf(names, ds[..i + 1]) == FragsOf(names, ds[..i]) + [FragOf(names, ds[i])]
  {
  }

  // ---- Naming the banks ------------------------------------------------------------------------------

  /** The words from `p` on: the first `i` banks have the index of their name, the others not yet. */
  ghost predicate Half(w: seq<int>, p: int, base: int, names: seq<int>, ds: seq<Segments.Segment>, i: nat) {
    && i <= |ds| && NamesIn(names, ds[..i])
    && 0 <= p <= p + |RawAll(ds)| <= |w| && |RawAll(ds[..i])| <= |RawAll(ds)|
    && w[p..p + |RawAll(ds[..i])|] == Flat(base, names, FragsOf(names, ds[..i]))
    && w[p + |RawAll(ds[..i])|..p + |RawAll(ds)|] == RawAll(ds)[|RawAll(ds[..i])|..]
  }

  lemma {:induction false} RawAt(ds: seq<Segments.Segment>, i: nat)
    requires i < |ds|
    ensures |RawAll(ds[..i + 1])| == |RawAll(ds[..i])| + |Raw(ds[i])| <= |RawAll(ds)|
    ensures RawAll(ds)[|RawAll(ds[..i])|..|RawAll(ds[..i + 1])|] == Raw(ds[i])
  {
    hide Raw;
    RawMore(ds, i);
    var c := ds[..|ds| - 1];
    if i < |ds| - 1 {
      RawAt(c, i);
      assert c[..i + 1] == ds[..i + 1] && c[..i] == ds[..i];
    } else {
      assert ds[..i + 1] == ds;
    }
  }

  lemma HalfFirst(w: seq<int>, p: int, base: int, names: seq<int>, ds: seq<Segments.Segment>)
    requires 0 <= p && p + |RawAll(ds)| <= |w| && w[p..p + |RawAll(ds)|] == RawAll(ds)
    ensures Half(w, p, base, names, ds, 0)
  {
    assert ds[..0] == [];
    assert RawAll(ds)[0..] == RawAll(ds);
  }

  /** What is behind `a` in a copy of `r` at `p`. */
  lemma RestSlice(w: seq<int>, p: int, r: seq<int>, a: int, b: int)
    requires 0 <= p && 0 <= a <= b <= |r| && p + |r| <= |w| && w[p + a..p + |r|] == r[a..]
    ensures w[p + a..p + b] == r[a..b] && w[p + b..p + |r|] == r[b..]
  {
    SubSlice(w, p + a, p + |r|, p + a, p + b);
    SubSlice(w, p + a, p + |r|, p + b, p + |r|);
    assert r[a..][..b - a] == r[a..b] && r[a..][b - a..] == r[b..];
  }

  lemma HalfHeader(w: seq<int>, p: int, base: int, names: seq<int>, ds: seq<Segments.Segment>, i: nat)
    requires Half(w, p, base, names, ds, i) && i < |ds|
    ensures var q := p + |RawAll(ds[..i])|;
            && 0 <= q && q + NHW + |ds[i].data| <= p + |RawAll(ds)| <= |w|
            && w[q..q + NHW + |ds[i].data|] == Raw(ds[i])
            && |RawAll(ds[..i + 1])| == |RawAll(ds[..i])| + NHW + |ds[i].data|
  {
    hide RawAll, Raw, Flat, NamesIn, Named, FragsOf;
    RawAt(ds, i);
    RawMore(ds, i);
    RestSlice(w, p, RawAll(ds), |RawAll(ds[..i])|, |RawAll(ds[..i + 1])|);
  }

  lemma HalfStep(w: seq<int>, w': seq<int>, p: int, base: int, names: seq<int>, ds: seq<Segments.Segment>, i: nat)
    requires Half(w, p, base, names, ds, i) && i < |ds| && Head(ds[i], Segments.idNAME1) in names
    requires var q := p + |RawAll(ds[..i])|;
             0 <= q < q + 4 < |w| && w' == w[q + 4 := base + NameIndex(names, Head(ds[i], Segments.idNAME1))]
    ensures Half(w', p, base, names, ds, i + 1)
  {
    hide RawAll, Raw, Flat, Words;
    HalfHeader(w, p, base, names, ds, i);
    var a, b, n := |RawAll(ds[..i])|, |RawAll(ds[..i + 1])|, |RawAll(ds)|;
    var f := FragOf(names, ds[i]);
    NamesInMore(names, ds, i);
    FragsUpTo(names, ds, i);
    FlatSnoc(base, names, FragsOf(names, ds[..i]), f);
    NamedRaw(w, w', p + a, base, names, ds[i]);
    assert w'[p..p + a] == w[p..p + a];
    assert w'[p..p + b] == w'[p..p + a] + w'[p + a..p + b];
    assert w'[p + b..p + n] == w[p + b..p + n];
    RestSlice(w, p, RawAll(ds), a, b);
  }

  lemma NamesInMore(names: seq<int>, ds: seq<Segments.Segment>, i: nat)
    requires i < |ds| && NamesIn(names, ds[..i]) && Head(ds[i], Segments.idNAME1) in names
    ensures NamesIn(names, ds[..i + 1])
  {
    assert ds[..i + 1] == ds[..i] + [ds[i]];
  }

  lemma FragsUpTo(names: seq<int>, ds: seq<Segments.Segment>, i: nat)
    requires i < |ds| && NamesIn(names, ds[..i + 1])
    ensures NamesIn(names, ds[..i]) 
    ensures FragsOf(names, ds[..i + 1]) == FragsOf(names, ds[..i]) + [FragOf(names, ds[i])]
  {
    assert ds[..i + 1][..i] == ds[..i] && ds[..i + 1][..i + 1] == ds[..i + 1] && ds[..i + 1][i] == ds[i];
    FragsMore(names, ds[..i + 1], i);
  }

  lemma SetInSlice(w: seq<int>, q: int, e: int, x: int)
    requires 0 <= q && q + 4 < e <= |w|
    ensures w[q + 4 := x][q..e] == w[q..e][4 := x]
  {
  }

  lemma SameName(names: seq<int>, nama: int)
    requires nama in names
    ensures NameIndex(names, nama) < |names| && names[NameIndex(names, nama)] == nama
  {
  }

  lemma SetInFront(h: seq<int>, t: seq<int>, x: int)
    requires |h| == NHW
    ensures (h + t)[4 := x] == [h[0], h[1], h[2], h[3], x, h[5]] + t
  {
  }

  /** With its link word set the raw bank is the fragment. */
  lemma NamedRaw(w: seq<int>, w': seq<int>, q: int, base: int, names: seq<int>, d: Segments.Segment)
    requires Head(d, Segments.idNAME1) in names && 0 <= q && q + NHW + |d.data| <= |w|
    requires w[q..q + NHW + |d.data|] == Raw(d) && w' == w[q + 4 := base + NameIndex(names, Head(d, Segments.idNAME1))]
    ensures w'[q..q + NHW + |d.data|] == Words(base, names, FragOf(names, d))
  {
    hide NameIndex;
    var x := base + NameIndex(names, Head(d, Segments.idNAME1));
    SetInSlice(w, q, q + NHW + |d.data|, x);
    SetInFront([Head(d, Segments.idNCOL), Head(d, Segments.idNROW), Head(d, Segments.idNAME1),
        Head(d, Segments.idNSGM), 0, |d.data|], d.data, x);
    SameName(names, Head(d, Segments.idNAME1));
  }

  /** Words change among the data of the last bank only. */
  lemma DataSound(v: Snapshot, ch: seq<seq<int>>, w': seq<int>, n: nat, k: nat)
    requires Sound(v, ch) && n < |ch| && k < |ch[n]| && Holds(v.a.w, ch[n][k])
    requires ch[n][k] + 1 + v.a.w[ch[n][k]] == v.a.igp && |w'| == |v.a.w|
    requires forall i :: 0 <= i < |w'| && !(ch[n][k] < i < v.a.igp) ==> w'[i] == v.a.w[i]
    ensures Holds(w', ch[n][k]) && BankAt(w', ch[n][k]).nr == BankAt(v.a.w, ch[n][k]).nr
    ensures ListPut(v, ch, v.(a := v.a.(w := w')), ch, n, BankAt(w', ch[n][k]))
  {
    hide Sound, ListPut;
    var x := ch[n][k];
    InvBoundsOf(v, ch);
    SeeRecord(v, ch, n, k);
    var v0 := v.(a := v.a.(w := v.a.w[x := 0], igp := x + 1));
    ListPutSound(v, ch, v0, ch, n);
    var w1 := w'[x := 0];
    var v1 := v0.(a := v0.a.(w := w1));
    GapListPut(v, v0, ch, n, BankAt(v.a.w, x).(data := []), w1);
    assert LengthWritten(w1, w', x, v.a.w[x], false);
    LengthSound(v1, ch, w', n, k, v.a.w[x], false);
    assert v.(a := v.a.(w := w')) == v1.(a := v1.a.(w := w', igp := x + 1 + v.a.w[x]));
    ListPutTwice(v, ch, v1, ch, v.(a := v.a.(w := w')), ch, n, BankAt(v.a.w, x).(data := []), BankAt(w', x));
  }

  lemma GapListPut(v: Snapshot, v0: Snapshot, ch: seq<seq<int>>, n: nat, d: Bank, w1: seq<int>)
    requires ListPut(v, ch, v0, ch, n, d) && |w1| == |v0.a.w|
    requires forall i :: 0 <= i < |w1| && (i < v0.a.igp || v0.a.iwk <= i) ==> w1[i] == v0.a.w[i]
    ensures ListPut(v, ch, v0.(a := v0.a.(w := w1)), ch, n, d) && Sound(v0.(a := v0.a.(w := w1)), ch)
  {
    hide Sound, Listing, Put;
    GapSound(v0, ch, w1);
  }

  // ---- Lists while a record is loaded ----------------------------------------------------------------

  /** `m'` has empty lists added, and may have another bank `nr` in the rn-th list. */
  ghost predicate Alike(m: seq<seq<Bank>>, m': seq<seq<Bank>>, rn: nat, nr: int) {
    && rn < |m| <= |m'|
    && (forall i :: 0 <= i < |m| && i != rn ==> m'[i] == m[i])
    && (forall i :: |m| <= i < |m'| ==> m'[i] == [])
    && Delete(m'[rn], nr) == Delete(m[rn], nr)
  }

  lemma AlikeMore(m: seq<seq<Bank>>, m1: seq<seq<Bank>>, rn: nat, nr: int)
    requires Alike(m, m1, rn, nr)
    ensures Alike(m, m1 + [[]], rn, nr)
  {
  }

  lemma AlikePut(m: seq<seq<Bank>>, m1: seq<seq<Bank>>, rn: nat, d: Bank)
    requires Alike(m, m1, rn, d.nr) && Sorted(m1[rn])
    ensures Alike(m, m1[rn := Put(m1[rn], d)], rn, d.nr)
  {
    hide Put, Delete;
    DeletePut(m1[rn], d);
  }

  /** Lists with an empty list for every further name. */
  ghost function Padded(m: seq<seq<Bank>>, k: nat): (r: seq<seq<Bank>>)
    requires |m| <= k
    ensures |r| == k
  {
    m + seq(k - |m|, _ => [])
  }

  /** The banks of a flat record are loaded, and bank `nr` of the rn-th name is gone. */
  ghost function EventLoaded(m: seq<seq<Bank>>, names: seq<int>, rn: nat, nr: int,
                             ds: seq<Segments.Segment>): seq<seq<Bank>>
    requires NamesIn(names, ds) && rn < |names| && |m| <= |names|
  {
    var all := Padded(m, |names|);
    Load(all, Grouped(FragsOf(names, ds)))[rn := Delete(all[rn], nr)]
  }

  lemma AlikeLoaded(m: seq<seq<Bank>>, m': seq<seq<Bank>>, names: seq<int>, rn: nat, nr: int, ds: seq<Segments.Segment>)
    requires NamesIn(names, ds) && Alike(m, m', rn, nr) && |m'| == |names|
    requires Foreign(names, rn, FragsOf(names, ds))
    ensures Loaded(m', rn, nr, FragsOf(names, ds)) == EventLoaded(m, names, rn, nr, ds)
  {
    hide Delete, Load, Grouped;
    var fs, all := FragsOf(names, ds), Padded(m, |names|);
    GroupedNames(fs, rn);
    assert m' == all[rn := m'[rn]];
    LoadElsewhere(all, Grouped(fs), rn, m'[rn]);
  }

  /** Empty lists added before do not matter. */
  lemma PaddedLoaded(m: seq<seq<Bank>>, k: nat, names: seq<int>, rn: nat, nr: int, ds: seq<Segments.Segment>)
    requires NamesIn(names, ds) && rn < |names| && |m| <= k <= |names|
    ensures EventLoaded(Padded(m, k), names, rn, nr, ds) == EventLoaded(m, names, rn, nr, ds)
  {
    hide Load, Grouped, Delete;
    assert Padded(Padded(m, k), |names|) == Padded(m, |names|);
  }

  // ---- The operation ---------------------------------------------------------------------------------

  /** Bank `x` with number `nr` is the rk-th of the rn-th name and the last bank of the area. */
  ghost predicate LastBank(v: Snapshot, ch: seq<seq<int>>, rn: nat, rk: nat, x: int, nr: int) {
    && rn < |ch| && rk < |ch[rn]| && ch[rn][rk] == x
    && Holds(v.a.w, x) && v.a.w[x - INR] == nr && x + 1 + v.a.w[x] == v.a.igp
  }

  /** Every name of a bank passed is known, with the index that the last one got. */
  ghost predicate NameKnown(names: seq<int>, base: int, ds: seq<Segments.Segment>, i: nat, nama: int, nami: int) {
    && i <= |ds| && ds != []
    && if i == 0 then nama != Head(ds[0], Segments.idNAME1)
       else nama == Head(ds[i - 1], Segments.idNAME1) && nama in names && nami == base + NameIndex(names, nama)
  }

  lemma NameThere(v: Snapshot, ch: seq<seq<int>>, m: seq<seq<Bank>>, rn: nat, nr: int)
    requires Sound(v, ch) && Alike(m, Listing(v, ch), rn, nr)
    ensures rn < |ch| == |v.a.names| && Sorted(Listing(v, ch)[rn])
  {
    hide WInv, Links, Accounts, InSome, Delete;
    CountNames(v, ch);
    ListOf(v.a, ch, rn);
  }

  /** The name of the next bank is entered if it is new. */
  method FindName(b: BosArray, nama: int, ghost ird: int, ghost rn: nat, ghost rk: nat, ghost nr: int,
                  ghost m: seq<seq<Bank>>) returns (nami: int)
    requires b.Valid() && LastBank(b.Value(), b.ch, rn, rk, ird, nr) && Alike(m, b.Contents(), rn, nr)
    requires |Enter(b.names, nama)| <= b.cap
    modifies b
    ensures b.Valid() && LastBank(b.Value(), b.ch, rn, rk, ird, nr) && Alike(m, b.Contents(), rn, nr)
    ensures b.names == Enter(old(b.names), nama) && nama in b.names && nami == b.base + NameIndex(b.names, nama)
    ensures b.igp == old(b.igp) && b.iwk == old(b.iwk) && b.ndw == old(b.ndw) && b.bits == old(b.bits)
  {
    hide Sound, Listing, Alike, Holds;
    AlikeMore(m, b.Contents(), rn, nr);
    var n := NameIndex(b.names, nama);
    if n == |b.names| {
      n := Mamind(b, nama);
    }
    nami := b.base + n;
  }

  /** A bank among the data of the last bank gets the index of its name. */
  method WriteName(b: BosArray, y: int, nami: int, ird: int, ghost rn: nat, ghost rk: nat, ghost nr: int,
                   ghost m: seq<seq<Bank>>)
    requires b.Valid() && LastBank(b.Value(), b.ch, rn, rk, ird, nr) && Alike(m, b.Contents(), rn, nr)
    requires 0 <= ird < y - INXT < b.igp <= b.w.Length
    modifies b.w
    ensures b.Valid() && LastBank(b.Value(), b.ch, rn, rk, ird, nr) && Alike(m, b.Contents(), rn, nr)
    ensures b.w[..] == old(b.w[..])[y - INXT := nami]
  {
    hide Sound, Listing, Alike, ListPut, BankAt, Sorted, Put;
    ghost var v, ch := b.Value(), b.ch;
    NameThere(v, ch, m, rn, nr);
    b.w[y - INXT] := nami;
    ghost var d := BankAt(b.w[..], ird);
    DataSound(v, ch, b.w[..], rn, rk);
    NumberOf(b.Value(), b.w[..], ird);
    ListPutIs(v, ch, b.Value(), ch, rn, d);
    AlikePut(m, Listing(v, ch), rn, d);
  }

  lemma HeaderWords(w: seq<int>, q: int, d: Segments.Segment)
    requires 0 <= q && q + NHW + |d.data| <= |w| && w[q..q + NHW + |d.data|] == Raw(d)
    ensures w[q + 2] == Head(d, Segments.idNAME1) && w[q + 5] == |d.data|
  {
    assert w[q + 2] == w[q..q + NHW + |d.data|][2] && w[q + 5] == w[q..q + NHW + |d.data|][5];
  }

  lemma NameRound(names: seq<int>, names1: seq<int>, base: int, ds: seq<Segments.Segment>, i: nat, nama: int, nami: int)
    requires NameKnown(names, base, ds, i, nama, nami) && i < |ds|
    requires names1 == Enter(names, Head(ds[i], Segments.idNAME1))
    ensures nama == Head(ds[i], Segments.idNAME1) ==> names1 == names && NameKnown(names1, base, ds, i + 1, nama, nami)
    ensures var x := Head(ds[i], Segments.idNAME1);
            x in names1 ==> NameKnown(names1, base, ds, i + 1, x, base + NameIndex(names1, x))
  {
  }

  /** One round of the loop: the bank at `ind` gets the index of its name. */
  method NameBank(b: BosArray, ird: int, ind: int, nama: int, nami: int, ghost rn: nat, ghost rk: nat, ghost nr: int,
                  ghost ds: seq<Segments.Segment>, ghost i: nat, ghost names0: seq<int>, ghost m: seq<seq<Bank>>)
    returns (nama': int, nami': int)
    requires b.Valid() && LastBank(b.Value(), b.ch, rn, rk, ird, nr) && Alike(m, b.Contents(), rn, nr)
    requires i < |ds| && |EnterAll(names0, ds)| <= b.cap && b.names == EnterAll(names0, ds[..i])
    requires 0 <= ird && b.igp <= b.w.Length && b.igp == ird + 1 + |RawAll(ds)|
    requires Half(b.w[..], ird + 1, b.base, EnterAll(names0, ds), ds, i) && ind == ird + NHW + |RawAll(ds[..i])|
    requires NameKnown(b.names, b.base, ds, i, nama, nami)
    modifies b, b.w
    ensures b.Valid() && LastBank(b.Value(), b.ch, rn, rk, ird, nr) && Alike(m, b.Contents(), rn, nr)
    ensures b.igp == old(b.igp) && b.iwk == old(b.iwk) && b.ndw == old(b.ndw) && b.bits == old(b.bits)
    ensures Half(b.w[..], ird + 1, b.base, EnterAll(names0, ds), ds, i + 1) && b.names == EnterAll(names0, ds[..i + 1])
    ensures NameKnown(b.names, b.base, ds, i + 1, nama', nami')
  {
    hide Sound, Listing, Alike, RawAll, Raw, Flat, Half, LastBank, NameKnown, Enter, EnterAll;
    ghost var names1 := EnterAll(names0, ds);
    HalfHeader(b.w[..], ird + 1, b.base, names1, ds, i);
    HeaderWords(b.w[..], ind - (NHW - 1), ds[i]);
    EnterMore(names0, ds, i);
    NameBounds(names0, ds, i);
    NameRound(b.names, Enter(b.names, Head(ds[i], Segments.idNAME1)), b.base, ds, i, nama, nami);
    nama', nami' := nama, nami;
    if b.w[ind - INAM] != nama {
      nama' := b.w[ind - INAM];
      nami' := FindName(b, nama', ird, rn, rk, nr, m);
    }
    NameLater(names0, ds, i, b.base, nama', nami');
    HalfStep(b.w[..], b.w[..][ind - INXT := nami'], ird + 1, b.base, names1, ds, i);
    WriteName(b, ind, nami', ird, rn, rk, nr, m);
  }

  /** The loop of et2bos that sets the index of the name in every bank of the record. */
  method SetNames(b: BosArray, ird: int, ghost rn: nat, ghost rk: nat, ghost nr: int, ghost ds: seq<Segments.Segment>,
                  ghost m: seq<seq<Bank>>)
    requires b.Valid() && LastBank(b.Value(), b.ch, rn, rk, ird, nr) && Alike(m, b.Contents(), rn, nr)
    requires ds != [] && |EnterAll(b.names, ds)| <= b.cap
    requires 0 <= ird && b.igp == ird + 1 + |RawAll(ds)| <= b.w.Length && b.w[ird + 1..b.igp] == RawAll(ds)
    modifies b, b.w
    ensures b.Valid() && LastBank(b.Value(), b.ch, rn, rk, ird, nr) && Alike(m, b.Contents(), rn, nr)
    ensures b.names == EnterAll(old(b.names), ds) && NamesIn(b.names, ds)
    ensures ird + 1 <= b.igp <= b.w.Length && b.w[ird + 1..b.igp] == Flat(b.base, b.names, FragsOf(b.names, ds))
    ensures b.igp == old(b.igp) && b.iwk == old(b.iwk) && b.ndw == old(b.ndw) && b.bits == old(b.bits)
  {
    hide Sound, Listing, Alike, RawAll, Raw, Flat, Half, LastBank, NameKnown, Enter, EnterAll, NamesIn, Named, FragsOf,
         Holds, Head, BosArray.Valid;
    ghost var names0, names1, i: nat := b.names, EnterAll(b.names, ds), 0;
    HalfFirst(b.w[..], ird + 1, b.base, names1, ds);
    HalfHeader(b.w[..], ird + 1, b.base, names1, ds, 0);
    LastLength(b.Value(), b.ch, rn, rk, ird, nr);
    Nothing(names0, ds);
    var ntot := b.w[ird];
    var ind := ird + NHW;
    HeaderWords(b.w[..], ird + 1, ds[0]);
    var nama := b.w[ind - INAM] + 1;
    var nami := 0;
    NameFirst(b.names, b.base, ds, nama, nami);
    while ntot != 0
      invariant b.Valid() && LastBank(b.Value(), b.ch, rn, rk, ird, nr) && Alike(m, b.Contents(), rn, nr)
      invariant b.igp == old(b.igp) && b.iwk == old(b.iwk) && b.ndw == old(b.ndw) && b.bits == old(b.bits)
      invariant i <= |ds| && Half(b.w[..], ird + 1, b.base, names1, ds, i) && b.names == EnterAll(names0, ds[..i])
      invariant ind == ird + NHW + |RawAll(ds[..i])| && ntot == |RawAll(ds)| - |RawAll(ds[..i])|
      invariant (ntot == 0 <==> i == |ds|)
      invariant NameKnown(b.names, b.base, ds, i, nama, nami)
      decreases |ds| - i
    {
      HalfLength(b.w[..], ird + 1, b.base, names1, ds, i);
      var nw := b.w[ind] + NHW;
      assert NHW <= nw <= ntot;  // the test of the length succeeds
      nama, nami := NameBank(b, ird, ind, nama, nami, rn, rk, nr, ds, i, names0, m);
      ind, ntot, i := ind + nw, ntot - nw, i + 1;
      RawEnd(ds, i);
    }
    HalfDone(b.w[..], ird + 1, b.base, names1, ds);
    assert ds[..i] == ds;
  }

  lemma HalfLength(w: seq<int>, p: int, base: int, names: seq<int>, ds: seq<Segments.Segment>, i: nat)
    requires Half(w, p, base, names, ds, i) && i < |ds|
    ensures var q := p + |RawAll(ds[..i])|;
            && 0 <= q && q + 5 < |w| && w[q + 5] == |ds[i].data|
            && NHW + |ds[i].data| <= |RawAll(ds)| - |RawAll(ds[..i])|
            && |RawAll(ds[..i + 1])| == |RawAll(ds[..i])| + NHW + |ds[i].data|
  {
    hide RawAll, Raw, Flat;
    HalfHeader(w, p, base, names, ds, i);
    HeaderWords(w, p + |RawAll(ds[..i])|, ds[i]);
  }

  lemma LastLength(v: Snapshot, ch: seq<seq<int>>, rn: nat, rk: nat, x: int, nr: int)
    requires LastBank(v, ch, rn, rk, x, nr)
    ensures 0 <= x < |v.a.w| && x + 1 + v.a.w[x] == v.a.igp
  {
  }

  lemma Nothing(names: seq<int>, ds: seq<Segments.Segment>)
    ensures EnterAll(names, ds[..0]) == names && RawAll(ds[..0]) == []
  {
  }

  lemma NameFirst(names: seq<int>, base: int, ds: seq<Segments.Segment>, nama: int, nami: int)
    requires ds != [] && nama == Head(ds[0], Segments.idNAME1) + 1
    ensures NameKnown(names, base, ds, 0, nama, nami)
  {
  }

  lemma NameBounds(names: seq<int>, ds: seq<Segments.Segment>, i: nat)
    requires i < |ds|
    ensures |EnterAll(names, ds[..i + 1])| <= |EnterAll(names, ds)|
  {
    EnterGrows(names, ds, i + 1);
  }

  /** The index that a name gets stays its index. */
  lemma NameLater(names: seq<int>, ds: seq<Segments.Segment>, i: nat, base: int, nama: int, nami: int)
    requires i < |ds| && NameKnown(EnterAll(names, ds[..i + 1]), base, ds, i + 1, nama, nami)
    ensures nama == Head(ds[i], Segments.idNAME1) && nama in EnterAll(names, ds)
    ensures nami == base + NameIndex(EnterAll(names, ds), nama)
  {
    EnterGrows(names, ds, i + 1);
    IndexPrefix(EnterAll(names, ds[..i + 1]), EnterAll(names, ds), nama);
  }

  lemma RawEnd(ds: seq<Segments.Segment>, i: nat)
    requires i <= |ds|
    ensures |RawAll(ds[..i])| == |RawAll(ds)| <==> i == |ds|
  {
    if i < |ds| { RawAt(ds, i); } else { assert ds[..i] == ds; }
  }

  lemma HalfDone(w: seq<int>, p: int, base: int, names: seq<int>, ds: seq<Segments.Segment>)
    requires Half(w, p, base, names, ds, |ds|)
    ensures NamesIn(names, ds) && 0 <= p <= p + |RawAll(ds)| <= |w|
    ensures w[p..p + |RawAll(ds)|] == Flat(base, names, FragsOf(names, ds))
  {
    assert ds[..|ds|] == ds;
  }

  /** The lists with bank `nr` of a name deleted, if there is a list for it. */
  ghost function WithoutBank(names: seq<int>, m: seq<seq<Bank>>, nama: int, nr: int): seq<seq<Bank>> {
    var n := NameIndex(names, nama);
    if n < |names| && n < |m| then m[n := Delete(m[n], nr)] else m
  }

  /** The end of the named area once the record bank, if it is there, has been dropped. */
  ghost function GapAfter(v: Snapshot, ch: seq<seq<int>>, nama: int, unit: int): int {
    var n := NameIndex(v.a.names, nama);
    var x := if n < |ch| && n < |v.a.names| then IndexOf(v.a.w, ch[n], unit) else 0;
    if 0 < x < |v.a.w| && x + 1 + v.a.w[x] == v.a.igp then x - (NHW - 1) else v.a.igp
  }

  lemma GapIs(v: Snapshot, ch: seq<seq<int>>, v': Snapshot, ch': seq<seq<int>>, nama: int, unit: int, k: nat, jw1: int)
    requires Sound(v, ch) && nama in v.a.names && NameIndex(v.a.names, nama) < |ch| && jw1 != 1
    requires AfterDrop(v, ch, v', ch', NameIndex(v.a.names, nama), unit, k, jw1)
    ensures v'.a.igp == GapAfter(v, ch, nama, unit) <= v.a.igp
  {
    hide Sound, Listing, DropResult, IsChain;
    var n := NameIndex(v.a.names, nama);
    ChainWalkable(v, ch, n);
    IndexInChain(v.a.w, Banks(v.a), v.a.base + n, v.a.names[n], ch[n], unit, k);
    if Found(v.a.w, ch[n], unit, k) {
      DropGap(v, ch, n, k, Gives(v, ch[n][k], jw1));
    }
  }

  lemma DropGap(v: Snapshot, ch: seq<seq<int>>, n: nat, k: nat, give: bool)
    requires Sound(v, ch) && n < |ch| && k < |ch[n]|
    ensures NHW <= ch[n][k] < |v.a.w| && v.a.w[ch[n][k]] >= 0
    ensures DropState(v, ch, n, k, give).a.igp == if give then v.a.igp - (v.a.w[ch[n][k]] + NHW) else v.a.igp
  {
    hide WInv, Links, Accounts, InSome;
    DropMarked(v.a, ch, n, k);
  }

  /** bosNdrop of the record bank. */
  method DropRecord(b: BosArray, nama: int, unit: int)
    requires b.Valid()
    modifies b, b.w
    ensures b.Valid() && b.Contents() == WithoutBank(b.names, old(b.Contents()), nama, unit)
    ensures |b.Contents()| == |b.names|
    ensures |old(b.Contents())| == |b.names| && forall n :: 0 <= n < |b.names| ==> Sorted(old(b.Contents())[n])
    ensures b.names == old(b.names) && b.igp <= old(b.igp) && b.iwk == old(b.iwk) && b.ndw == old(b.ndw)
    ensures b.bits == old(b.bits)
    ensures b.jw1 == 0 && (old(b.jw1) != 1 ==> b.igp == GapAfter(old(b.Value()), old(b.ch), nama, unit))
  {
    hide Sound, Listing, AfterDrop, Delete, Sorted;
    ghost var v, ch, n := b.Value(), b.ch, NameIndex(b.names, nama);
    CountNames(v, ch);
    ghost var k := Ndrop(b, nama, unit, 0, 0);
    SortedLists(v, ch);
    if nama in b.names {
      AfterDropIs(v, ch, b.Value(), b.ch, n, unit, k, old(b.jw1));
      AfterDropGap(v, ch, b.Value(), b.ch, n, unit, k, old(b.jw1));
      if old(b.jw1) != 1 { GapIs(v, ch, b.Value(), b.ch, nama, unit, k, old(b.jw1)); }
    }
  }

  lemma OpenedAlike(names: seq<int>, m: seq<seq<Bank>>, nama: int, unit: int)
    requires |m| == |names| && forall n :: 0 <= n < |m| ==> Sorted(m[n])
    ensures var n, m1 := NameIndex(Enter(names, nama), nama), WithName(names, WithoutBank(names, m, nama, unit), nama);
            && n < |m1| && Lookup(m1[n], unit) == None
            && Sorted(m1[n]) && Alike(WithName(names, m, nama), m1, n, unit)
  {
    var n := NameIndex(names, nama);
    PlaceOfName(names, nama);
    if nama in names {
      LookupDelete(m[n], unit, unit);
      LookupNone(Delete(m[n], unit), unit);
    }
  }

  /** Deleting what is not there. */
  lemma {:induction false} LookupNone(l: seq<Bank>, nr: int)
    requires Lookup(l, nr) == None
    ensures Delete(l, nr) == l
  {
    if l != [] { LookupNone(l[1..], nr); }
  }

  /** A bank without data that its list does not have needs its header only. */
  lemma RoomToOpen(v: Snapshot, ch: seq<seq<int>>, nama: int, unit: int)
    requires Sound(v, ch) && |ch| == |v.a.names|
    requires var n := NameIndex(v.a.names, nama); n < |ch| ==> Lookup(Listing(v, ch)[n], unit) == None
    ensures HasRoom(v.a, NamedChain(v.a.names, ch, nama), unit, 0, 0) <==> v.a.igp + NHW <= v.a.iwk
  {
    hide Sound, Listing;
    if nama in v.a.names { IndexMeans(v, ch, NameIndex(v.a.names, nama), unit); }
  }

  /**
   bosNdrop and bosNcreate of the record bank: it is there, without data, at the end of the area, unless
   there is no room for its header.
   */
  method OpenRecord(b: BosArray, nama: int, unit: int) returns (ird: int, ghost rn: nat, ghost rk: nat)
    requires b.Valid() && b.ndw == 0 && |Enter(b.names, nama)| <= b.cap && b.jw1 != 1
    requires BitCode(b.bits, nama) != 2 && BitCode(b.bits, nama) != 3
    modifies b, b.w
    ensures b.Valid() && b.names == Enter(old(b.names), nama) && rn == NameIndex(b.names, nama) < |b.names|
    ensures b.iwk == old(b.iwk) && b.ndw == 0 && b.bits == old(b.bits)
    ensures var g := GapAfter(old(b.Value()), old(b.ch), nama, unit);
            if g + NHW <= b.iwk
            then
              && LastBank(b.Value(), b.ch, rn, rk, ird, unit) && 0 < ird < b.w.Length && b.w[ird] == 0
              && Alike(WithName(old(b.names), old(b.Contents()), nama), b.Contents(), rn, unit)
              && b.igp == g + NHW <= old(b.igp) + NHW
            else
              && ird <= 0 && |WithoutBank(old(b.names), old(b.Contents()), nama, unit)| == |old(b.names)|
              && b.Contents() == WithName(old(b.names), WithoutBank(old(b.names), old(b.Contents()), nama, unit), nama)
  {
    hide Sound, Listing, Alike, Sorted, Delete, WithoutBank, GapAfter, LastBank;
    ghost var m := b.Contents();
    DropRecord(b, nama, unit);
    OpenedAlike(b.names, m, nama, unit);
    ird, rn, rk := CreateRecord(b, nama, unit, WithName(b.names, m, nama));
  }

  /** The record bank is created behind all others, if there is room for its header. */
  method CreateRecord(b: BosArray, nama: int, unit: int, ghost m: seq<seq<Bank>>)
    returns (ird: int, ghost rn: nat, ghost rk: nat)
    requires b.Valid() && b.ndw == 0 && |Enter(b.names, nama)| <= b.cap && b.jw1 == 0 && |b.Contents()| == |b.names|
    requires BitCode(b.bits, nama) != 2 && BitCode(b.bits, nama) != 3
    requires var n, m1 := NameIndex(Enter(b.names, nama), nama), WithName(b.names, b.Contents(), nama);
             n < |m1| && Lookup(m1[n], unit) == None && Sorted(m1[n]) && Alike(m, m1, n, unit)
    modifies b, b.w
    ensures b.Valid() && b.names == Enter(old(b.names), nama) && rn == NameIndex(b.names, nama) < |b.names|
    ensures b.iwk == old(b.iwk) && b.ndw == 0 && b.bits == old(b.bits)
    ensures old(b.igp) + NHW > b.iwk ==> ird <= 0 && b.Contents() == WithName(old(b.names), old(b.Contents()), nama)
    ensures old(b.igp) + NHW <= b.iwk ==>
              && LastBank(b.Value(), b.ch, rn, rk, ird, unit) && 0 < ird < b.w.Length && b.w[ird] == 0
              && Alike(m, b.Contents(), rn, unit) && b.igp == old(b.igp) + NHW
  {
    hide Sound, Listing, Put, Created, Holds, BankAt, Alike, Sorted, HasRoom;
    rk := 0;
    ghost var m1 := WithName(b.names, b.Contents(), nama);
    CountNames(b.Value(), b.ch);
    PlaceOfName(b.names, nama);
    RoomToOpen(b.Value(), b.ch, nama, unit);
    ird, rn := Ncreate(b, nama, unit, 0, 1);
    if ird > 0 {
      CreatedEmpty(b.w[..], ird, unit);
      AlikePut(m, m1, rn, BankAt(b.w[..], ird));
      rk :| 0 <= rk < |b.ch[rn]| && b.ch[rn][rk] == ird;
    }
  }

  lemma SortedLists(v: Snapshot, ch: seq<seq<int>>)
    requires Sound(v, ch)
    ensures forall n :: 0 <= n < |ch| ==> Sorted(Listing(v, ch)[n])
  {
    hide Sound, Listing;
    forall n | 0 <= n < |ch| ensures Sorted(Listing(v, ch)[n]) { SortedList(v, ch, n); }
  }

  lemma SortedList(v: Snapshot, ch: seq<seq<int>>, n: nat)
    requires Sound(v, ch) && n < |ch|
    ensures Sorted(Listing(v, ch)[n])
  {
    hide WInv, Links, Accounts, InSome;
    ListOf(v.a, ch, n);
  }

  lemma PlaceOfName(names: seq<int>, nama: int)
    ensures NameIndex(Enter(names, nama), nama) == NameIndex(names, nama)
  {
    if nama !in names { LastName(names, nama); }
  }

  lemma CreatedEmpty(w: seq<int>, x: int, unit: int)
    requires Holds(w, x) && Created(None, BankAt(w, x), unit, 0, 1, 0, true)
    ensures BankAt(w, x).nr == unit == w[x - INR] && w[x] == 0 && 0 <= x < |w|
  {
  }

  /** A chain has one bank of a number. */
  lemma OneOfNumber(w: seq<int>, c: seq<int>, k: nat, k': nat)
    requires (forall i :: 0 <= i < |c| ==> NHW <= c[i] < |w|) && Ascending(w, c) && k < |c| && k' < |c|
    requires w[c[k] - INR] == w[c[k'] - INR]
    ensures k == k'
  {
  }

  lemma AnswerIsLast(v: Snapshot, ch: seq<seq<int>>, rn: nat, rk: nat, x: int, nr: int, ind: int)
    requires Sound(v, ch) && LastBank(v, ch, rn, rk, x, nr) && Answer(v.a.w, ch[rn], nr, ind)
    ensures ind == x
  {
    hide Inv, WInv, Links, Ascending;
    ChainWalkable(v, ch, rn);
    if ind != 0 {
      var k :| 0 <= k < |ch[rn]| && ch[rn][k] == ind && INR <= ch[rn][k] < |v.a.w| && v.a.w[ch[rn][k] - INR] == nr;
      OneOfNumber(v.a.w, ch[rn], k, rk);
    }
  }

  lemma LastBankKept(v: Snapshot, v': Snapshot, ch: seq<seq<int>>, rn: nat, rk: nat, x: int, nr: int)
    requires SameBanks(v, v', ch) && LastBank(v, ch, rn, rk, x, nr)
    ensures Sound(v', ch) && LastBank(v', ch, rn, rk, x, nr) && v'.a.igp == v.a.igp <= |v.a.w| == |v'.a.w|
    ensures v'.a.w[x + 1..v.a.igp] == v.a.w[x + 1..v.a.igp]
  {
    hide Inv, WInv, Links, Listing;
    ListSortedHere(v, ch, rn, rk);
    InvBoundsOf(v, ch);
  }

  /** bosNlink finds the record bank that has just been made. */
  method FindRecord(b: BosArray, nama: int, unit: int, ghost rn: nat, ghost rk: nat, ghost x: int) returns (ird: int)
    requires b.Valid() && LastBank(b.Value(), b.ch, rn, rk, x, unit) && |b.ch| == |b.names|
    requires rn == NameIndex(b.names, nama) < |b.names| && b.ndw == 0 && b.igp + NHW + b.nresr <= b.iwk
    modifies b`iwk, b`igw, b`ndw, b`jw1, b.w
    ensures b.Valid() && LastBank(b.Value(), b.ch, rn, rk, x, unit) && b.Contents() == old(b.Contents()) && ird == x
    ensures 0 <= x < b.igp <= b.w.Length && b.w[x + 1..b.igp] == old(b.w[x + 1..b.igp])
    ensures b.iwk >= old(b.iwk) - LinkWords(|b.ch[rn]|)
  {
    hide Sound, Listing, LastBank, SameBanks, Answer;
    ghost var v, ch := b.Value(), b.ch;
    LastBounds(v, ch, rn, rk, x, unit);
    ird := Nlink(b, nama, unit);
    LastBankKept(v, b.Value(), ch, rn, rk, x, unit);
    AnswerIsLast(b.Value(), ch, rn, rk, x, unit, ird);
    LastBounds(b.Value(), ch, rn, rk, x, unit);
  }

  lemma LastBounds(v: Snapshot, ch: seq<seq<int>>, rn: nat, rk: nat, x: int, nr: int)
    requires Sound(v, ch) && LastBank(v, ch, rn, rk, x, nr)
    ensures rn < |ch| == |v.a.names| && rk < |ch[rn]| && ch[rn][rk] == x && Holds(v.a.w, x) && v.a.w[x - INR] == nr
    ensures 0 <= x < v.a.igp <= v.a.iwk <= v.idl + 1 + rn < |v.a.w| && x + 1 + v.a.w[x] == v.a.igp
  {
    hide Inv, WInv, Links;
    SettleBounds(v, ch, rn);
  }

  /** The record bank becomes `IsRecord`. */
  lemma RecordNamed(v: Snapshot, ch: seq<seq<int>>, rn: nat, rk: nat, x: int, nr: int, ds: seq<Segments.Segment>)
    requires Sound(v, ch) && LastBank(v, ch, rn, rk, x, nr) && NamesIn(v.a.names, ds) && ds != []
    requires 0 <= x < v.a.igp <= |v.a.w| && v.a.w[x + 1..v.a.igp] == Flat(v.a.base, v.a.names, FragsOf(v.a.names, ds))
    requires forall i :: 0 <= i < |ds| ==> Head(ds[i], Segments.idNAME1) != v.a.names[rn]
    ensures RecordReady(v, ch, rn, nr, FragsOf(v.a.names, ds)) && Foreign(v.a.names, rn, FragsOf(v.a.names, ds))
  {
    hide Inv, WInv, Links, Ascending, Flat;
    ChainWalkable(v, ch, rn);
    var fs := FragsOf(v.a.names, ds);
    forall i | 0 <= i < |fs| ensures fs[i].n < |v.a.names| && fs[i].n != rn {
      assert fs[i] == FragOf(v.a.names, ds[i]);
    }
    assert fs != [];
    forall k | 0 <= k < |ch[rn]| && INR <= ch[rn][k] < |v.a.w| && v.a.w[ch[rn][k] - INR] == nr
      ensures k == rk
    {
      OneOfNumber(v.a.w, ch[rn], k, rk);
    }
    assert IsRecord(v, ch, rn, rk, fs);
  }

  lemma AlikeLength(v: Snapshot, ch: seq<seq<int>>, m: seq<seq<Bank>>, rn: nat, nr: int)
    requires Sound(v, ch) && Alike(m, Listing(v, ch), rn, nr)
    ensures rn < |m| && rn < |ch| && |ch[rn]| <= |m[rn]| + 1
  {
    hide Sound;
    ListLength(v, ch, rn);
    hide Listing;
    DeleteLength(Listing(v, ch)[rn], nr);
    DeleteLength(m[rn], nr);
  }

  lemma {:induction false} DeleteLength(l: seq<Bank>, nr: int)
    ensures |l| - 1 <= |Delete(l, nr)| <= |l|
  {
    if l != [] { DeleteLength(l[1..], nr); }
  }

  /** The record bank gets the words in the gap. */
  method FillRecord(b: BosArray, nama: int, unit: int, ncol: int, ird: int, ghost rn: nat, ghost rk: nat,
                    ghost m: seq<seq<Bank>>)
    requires b.Valid() && LastBank(b.Value(), b.ch, rn, rk, ird, unit) && 0 <= ird < b.w.Length && b.w[ird] == 0
    requires rn < |b.names| && b.names[rn] == nama && BitCode(b.bits, nama) != 2 && BitCode(b.bits, nama) != 3
    requires 0 < ncol && b.igp + ncol <= b.iwk && Alike(m, b.Contents(), rn, unit)
    modifies b, b.w
    ensures b.Valid() && LastBank(b.Value(), b.ch, rn, rk, ird, unit) && Alike(m, b.Contents(), rn, unit)
    ensures b.igp == old(b.igp) + ncol == ird + 1 + ncol <= b.w.Length
    ensures b.w[ird + 1..b.igp] == old(b.w[ird + 1..b.igp + ncol])
    ensures b.names == old(b.names) && b.bits == old(b.bits) && b.iwk == old(b.iwk) && b.ndw == old(b.ndw)
  {
    hide Sound, Listing, ListPut, BankAt, Alike, Put, Sorted;
    ghost var v, ch := b.Value(), b.ch;
    NameThere(v, ch, m, rn, unit);
    LastBounds(v, ch, rn, rk, ird, unit);
    b.jw1 := 1;
    var ind := GrowRecord(b, nama, unit, ncol, rn, rk, ird);
    NumberOf(b.Value(), b.w[..], ird);
    ListPutIs(v, ch, b.Value(), b.ch, rn, BankAt(b.w[..], ird));
    AlikePut(m, Listing(v, ch), rn, BankAt(b.w[..], ird));
  }

  lemma EventLength(ev: seq<int>, rec: Segments.Record)
    requires EtWriting.Holds(ev, rec)
    ensures |ev| >= Segments.RECHEADLEN && ev[Segments.irNWRD] == |Segments.Flat(rec.segs)|
    ensures Segments.SegsOk(rec.segs) && rec.segs != [] && |RawAll(rec.segs)| > 0
  {
    hide RawAll, Raw;
    var n := Segments.RECHEADLEN + |Segments.Flat(rec.segs)|;
    assert ev[Segments.irNWRD] == ev[..n][Segments.irNWRD];
    assert Segments.SegOk(rec.segs[0]);
    RawMore(rec.segs, 0);
    RawGrows(rec.segs, 1);
  }

  lemma SameLast(v: Snapshot, v': Snapshot, ch: seq<seq<int>>, rn: nat, rk: nat, x: int, nr: int)
    requires LastBank(v, ch, rn, rk, x, nr) && v' == v.(a := v.a.(w := v'.a.w)) && |v'.a.w| == |v.a.w|
    requires forall i :: 0 <= i < |v.a.w| && i < v.a.igp ==> v'.a.w[i] == v.a.w[i]
    ensures LastBank(v', ch, rn, rk, x, nr) && 0 <= x < |v.a.w| && v'.a.w[x] == v.a.w[x]
  {
  }

  /** Room for a record of `words` words and for link banks of a chain of `banks` banks. */
  predicate RoomFor(igp: int, iwk: int, nresr: nat, banks: nat, words: nat) {
    igp + NHW + words + 2 * LinkWords(banks) + nresr <= iwk
  }

  lemma {:induction false} EnteredLater(names: seq<int>, ds: seq<Segments.Segment>)
    ensures names <= EnterAll(names, ds)
  {
    if ds != [] { EnteredLater(names, ds[..|ds| - 1]); }
  }

  /** bosins takes the record bank apart. */
  method FinishRecord(b: BosArray, nama: int, unit: int, ird: int, ghost rn: nat, ghost rk: nat,
                      ghost ds: seq<Segments.Segment>, ghost m: seq<seq<Bank>>)
    requires b.Valid() && LastBank(b.Value(), b.ch, rn, rk, ird, unit) && Alike(m, b.Contents(), rn, unit)
    requires NamesIn(b.names, ds) && ds != [] && rn == NameIndex(b.names, nama) < |b.names|
    requires 0 <= ird < b.igp <= b.w.Length && b.w[ird + 1..b.igp] == Flat(b.base, b.names, FragsOf(b.names, ds))
    requires forall i :: 0 <= i < |ds| ==> Head(ds[i], Segments.idNAME1) != nama
    requires rn < |m| <= |b.names| && b.igp + LinkWords(|m[rn]| + 1) + b.nresr <= b.iwk
    requires BitCode(b.bits, nama) != 2 && BitCode(b.bits, nama) != 3
    modifies b, b.w
    ensures b.Valid() && b.names == old(b.names) && b.bits == old(b.bits)
    ensures b.Contents() == EventLoaded(m, b.names, rn, unit, ds)
  {
    hide Sound, Listing, LastBank, Alike, Flat, EventLoaded, Loaded, RecordReady;
    ghost var v, ch, fs := b.Value(), b.ch, FragsOf(b.names, ds);
    LastBounds(v, ch, rn, rk, ird, unit);
    RecordNamed(v, ch, rn, rk, ird, unit, ds);
    AlikeLength(v, ch, m, rn, unit);
    RecordListed(v, ch, rn, rk, ird, unit);
    ghost var now := b.Contents();
    AlikeWidth(m, now, rn, unit, v, ch);
    var status := Ins(b, nama, unit, fs);
    AlikeLoaded(m, now, b.names, rn, unit, ds);
  }

  lemma AlikeWidth(m: seq<seq<Bank>>, m': seq<seq<Bank>>, rn: nat, nr: int, v: Snapshot, ch: seq<seq<int>>)
    requires Sound(v, ch) && m' == Listing(v, ch) && Alike(m, m', rn, nr)
    ensures |m'| == |v.a.names| == |ch| && |m| <= |ch|
  {
    CountNames(v, ch);
  }

  /** The list of a name among lists that were only added to. */
  lemma RoomIs(names: seq<int>, names': seq<int>, m0: seq<seq<Bank>>, nama: int)
    requires |m0| == |names| && names <= names' && nama in names'
    ensures var n, rn, m := NameIndex(names, nama), NameIndex(names', nama), Padded(m0, |names'|);
            rn < |m| && |m[rn]| + 1 == if n < |m0| then |m0[n]| + 1 else 1
  {
    if nama in names {
      IndexPrefix(names, names', nama);
    } else {
      IndexBehind(names, names', nama);
    }
  }

  lemma IndexBehind(names: seq<int>, names': seq<int>, nama: int)
    requires names <= names' && nama !in names && nama in names'
    ensures |names| <= NameIndex(names', nama) < |names'|
  {
    assert names'[NameIndex(names', nama)] == nama;
    assert forall i :: 0 <= i < |names| ==> names'[i] == names[i] && names[i] != nama;
  }

  lemma RecordListed(v: Snapshot, ch: seq<seq<int>>, rn: nat, rk: nat, x: int, nr: int)
    requires Sound(v, ch) && LastBank(v, ch, rn, rk, x, nr)
    ensures rn < |Listing(v, ch)| && Lookup(Listing(v, ch)[rn], nr) != None
  {
    hide Sound, Listing, Sorted;
    ListSortedHere(v, ch, rn, rk);
    LookupAt(Listing(v, ch)[rn], rk, nr);
  }

  ghost predicate AllSorted(m: seq<seq<Bank>>) {
    forall n :: 0 <= n < |m| ==> Sorted(m[n])
  }

  /** The target's lists are the old ones overridden by the banks sent. */
  ghost predicate Arrived(names: seq<int>, m: seq<seq<Bank>>, nb: seq<int>, mb: seq<seq<Bank>>, nama: int, unit: int,
                          ds: seq<Segments.Segment>)
  {
    var rn := NameIndex(nb, nama);
    && ds != [] && nb == EnterAll(LaidNames(names, nama, ds), ds) && NamesIn(nb, ds)
    && rn < |nb| && nb[rn] == nama && |m| <= |nb| && AllSorted(m) && mb == EventLoaded(m, nb, rn, unit, ds)
  }

  /**
   Everything that is to be done once the record bank holds the banks of the record: it is
   looked up, the names are set, and bosins takes it apart.
   */
  method EnterRecord(b: BosArray, nama: int, unit: int, ird0: int, ghost rn: nat, ghost rk: nat,
                     ghost ds: seq<Segments.Segment>, ghost m: seq<seq<Bank>>)
    requires b.Valid() && b.ndw == 0 && ds != []
    requires nama in b.names && rn == NameIndex(b.names, nama) < |b.names| == |b.ch|
    requires LastBank(b.Value(), b.ch, rn, rk, ird0, unit) && 0 <= ird0 < b.igp <= b.w.Length
    requires b.igp == ird0 + 1 + |RawAll(ds)| && b.w[ird0 + 1..b.igp] == RawAll(ds)
    requires Alike(m, b.Contents(), rn, unit) && rn < |m|
    requires |EnterAll(b.names, ds)| <= b.cap
    requires forall i :: 0 <= i < |ds| ==> Head(ds[i], Segments.idNAME1) != nama
    requires BitCode(b.bits, nama) != 2 && BitCode(b.bits, nama) != 3
    requires b.igp + 2 * LinkWords(|m[rn]| + 1) + b.nresr <= b.iwk
    modifies b, b.w
    ensures b.Valid() && b.bits == old(b.bits) && b.names == EnterAll(old(b.names), ds) && NamesIn(b.names, ds)
    ensures rn == NameIndex(b.names, nama) < |b.names| && b.names[rn] == nama && |m| <= |b.names|
    ensures b.Contents() == EventLoaded(m, b.names, rn, unit, ds)
  {
    hide Sound, Listing, LastBank, Alike, RawAll, EnterAll, Segments.Flat, Flat, EventLoaded, Enter, FragsOf;
    ghost var names0 := b.names;
    EnteredLater(names0, ds);
    AlikeLength(b.Value(), b.ch, m, rn, unit);
    var ird := FindRecord(b, nama, unit, rn, rk, ird0);
    SetNames(b, ird, rn, rk, unit, ds, m);
    IndexPrefix(names0, b.names, nama);
    AlikeWidth(m, b.Contents(), rn, unit, b.Value(), b.ch);
    FinishRecord(b, nama, unit, ird, rn, rk, ds, m);
  }

  // ---- Laying banks down -------------------------------------------------------------------------------

  /**
   Bank `ird` is the record bank, still without data, and the first `i` banks of the record lie
   in the gap behind it, up to `start`.
   */
  ghost predicate Laying(b: BosArray, rn: nat, rk: nat, ird: int, unit: int, m: seq<seq<Bank>>, names: seq<int>,
                         ds: seq<Segments.Segment>, i: nat, start: int)
    reads b, b.w
  {
    LaidSoFar(b.Value(), b.ch, rn, rk, ird, unit, m, names, ds, i, start)
  }

  ghost predicate LaidSoFar(v: Snapshot, ch: seq<seq<int>>, rn: nat, rk: nat, ird: int, unit: int, m: seq<seq<Bank>>,
                            names: seq<int>, ds: seq<Segments.Segment>, i: nat, start: int)
  {
    && Sound(v, ch) && LastBank(v, ch, rn, rk, ird, unit) && 0 <= ird < |v.a.w| && v.a.w[ird] == 0
    && Alike(m, Listing(v, ch), rn, unit) && v.a.names == names && i <= |ds|
    && 0 <= v.a.igp && start == v.a.igp + |RawAll(ds[..i])| <= v.a.iwk <= |v.a.w|
    && v.a.w[v.a.igp..start] == RawAll(ds[..i])
  }

  /** A name has been entered, if it is new; all else is the same. */
  ghost predicate JustNamed(v: Snapshot, ch: seq<seq<int>>, v': Snapshot, ch': seq<seq<int>>, name: int) {
    && |ch| == |v.a.names|
    && if name in v.a.names then v' == v && ch' == ch
       else v' == v.(a := v.a.(names := v.a.names + [name])) && ch' == ch + [[]]
  }

  /** bosNformat as far as names go: the name of the bank is entered if it is new. */
  method Nformat(b: BosArray, name: int)
    requires b.Valid() && |Enter(b.names, name)| <= b.cap
    modifies b
    ensures b.Valid() && b.names == Enter(old(b.names), name) && |b.Contents()| == |b.names|
    ensures |old(b.Contents())| == |old(b.names)|
    ensures b.Contents() == Padded(old(b.Contents()), |b.names|)
    ensures b.jw1 == 0 && JustNamed(old(b.Value()), old(b.ch), b.Value(), b.ch, name)
    ensures b.igp == old(b.igp) && b.iwk == old(b.iwk) && b.ndw == old(b.ndw) && b.bits == old(b.bits)
  {
    hide Sound, Listing;
    CountNames(b.Value(), b.ch);
    ghost var m := b.Contents();
    assert Padded(m, |m|) == m && Padded(m, |m| + 1) == m + [[]];
    var n := Mamind(b, name);
    CountNames(b.Value(), b.ch);
  }

  /** Up to the record bank: the first bank of the record has been looked at. */
  method OpenFirst(b: BosArray, declares: bool, name: int, nama: int, unit: int, ghost ds: seq<Segments.Segment>)
    returns (ird: int, ghost rn: nat, ghost rk: nat)
    requires b.Valid() && b.ndw == 0 && b.jw1 != 1
    requires ds != [] && declares == Declares(ds[0]) && name == Head(ds[0], Segments.idNAME1)
    requires |Enter(Declared(b.names, ds[..1]), nama)| <= b.cap
    requires BitCode(b.bits, nama) != 2 && BitCode(b.bits, nama) != 3
    modifies b, b.w
    ensures |old(b.Contents())| == |old(b.names)| <= |b.names| && old(b.names) <= b.names && b.Valid()
    ensures nama in b.names && rn == NameIndex(b.names, nama) < |b.names| == |b.ch|
    ensures b.names == Enter(Declared(old(b.names), ds[..1]), nama)
    ensures b.iwk == old(b.iwk) && b.ndw == 0 && b.bits == old(b.bits)
    ensures var g, m := GapAfter(old(b.Value()), old(b.ch), nama, unit), Padded(old(b.Contents()), |b.names|);
            if g + NHW <= b.iwk
            then Laying(b, rn, rk, ird, unit, m, b.names, ds, 0, b.igp) && ird > 0
                && b.igp == g + NHW <= old(b.igp) + NHW
            else ird <= 0 && b.Contents() == WithoutBank(b.names, m, nama, unit)
  {
    hide Sound, Listing, LastBank, Alike, RawAll, Declares, GapAfter, WithoutBank, JustNamed, Declared, BitCode, Head,
         Padded;
    ghost var m0, names0 := b.Contents(), b.names;
    CountNames(b.Value(), b.ch);
    DeclareFirst(b, declares, name, nama, unit, ds);
    PaddedTwice(m0, |b.names|, nama in b.names);
    WithoutNamed(names0, b.names, m0, nama, unit);
    ird, rn, rk := OpenRecord(b, nama, unit);
    CountNames(b.Value(), b.ch);
    if ird > 0 { LastBounds(b.Value(), b.ch, rn, rk, ird, unit); }
    NothingLaid(ds);
  }

  /** The format of the first bank. */
  method DeclareFirst(b: BosArray, declares: bool, name: int, ghost nama: int, ghost unit: int,
                      ghost ds: seq<Segments.Segment>)
    requires b.Valid() && b.jw1 != 1
    requires ds != [] && declares == Declares(ds[0]) && name == Head(ds[0], Segments.idNAME1)
    requires |Declared(b.names, ds[..1])| <= b.cap
    modifies b
    ensures b.Valid() && b.names == Declared(old(b.names), ds[..1]) && old(b.names) <= b.names && b.jw1 != 1
    ensures |old(b.Contents())| == |old(b.names)| && b.Contents() == Padded(old(b.Contents()), |b.names|)
    ensures GapAfter(b.Value(), b.ch, nama, unit) == GapAfter(old(b.Value()), old(b.ch), nama, unit)
    ensures b.igp == old(b.igp) && b.iwk == old(b.iwk) && b.ndw == old(b.ndw) && b.bits == old(b.bits)
  {
    hide Sound, Listing, Declares, GapAfter, JustNamed, Declared, Head;
    ghost var v0, ch0 := b.Value(), b.ch;
    CountNames(v0, ch0);
    PaddedTwice(b.Contents(), |b.names|, true);
    OneDeclared(b.names, ds);
    if declares {
      Nformat(b, name);
      GapNamed(v0, ch0, b.Value(), b.ch, name, nama, unit);
    }
  }

  /** A name that is new does not change where the gap will begin. */
  lemma GapNamed(v: Snapshot, ch: seq<seq<int>>, v': Snapshot, ch': seq<seq<int>>, name: int, nama: int, unit: int)
    requires JustNamed(v, ch, v', ch', name)
    ensures GapAfter(v', ch', nama, unit) == GapAfter(v, ch, nama, unit)
  {
    if nama in v.a.names { IndexPrefix(v.a.names, v'.a.names, nama); }
  }

  /** Dropping the record bank and entering names commute. */
  lemma WithoutNamed(names: seq<int>, names1: seq<int>, m0: seq<seq<Bank>>, nama: int, unit: int)
    requires |m0| == |names| <= |names1| && names <= names1
    ensures var m1 := Padded(m0, |names1|);
            && |WithoutBank(names1, m1, nama, unit)| == |names1|
            && WithName(names1, WithoutBank(names1, m1, nama, unit), nama)
               == WithoutBank(Enter(names1, nama), Padded(m0, |Enter(names1, nama)|), nama, unit)
  {
    var m1 := Padded(m0, |names1|);
    PlaceOfName(names1, nama);
    assert Padded(m0, |names1| + 1) == m1 + [[]];
  }

  lemma OneDeclared(names: seq<int>, ds: seq<Segments.Segment>)
    requires ds != []
    ensures Declared(names, ds[..1]) == if Declares(ds[0]) then Enter(names, Head(ds[0], Segments.idNAME1)) else names
  {
    assert ds[..1][..0] == [] && ds[..1][0] == ds[0];
  }

  lemma PaddedTwice(m0: seq<seq<Bank>>, k: nat, known: bool)
    requires |m0| <= k
    ensures Padded(m0, |m0|) == m0 && Padded(m0, k + 1) == Padded(m0, k) + [[]]
  {
  }

  lemma NothingLaid(ds: seq<Segments.Segment>)
    ensures RawAll(ds[..0]) == []
  {
  }

  /** The format of a later bank of the record. */
  method DeclareNext(b: BosArray, declares: bool, name: int, ghost rn: nat, ghost rk: nat, ghost ird: int,
                     ghost unit: int, ghost m: seq<seq<Bank>>, ghost names: seq<int>, ghost ds: seq<Segments.Segment>,
                     ghost i: nat, ghost start: int)
    requires Laying(b, rn, rk, ird, unit, m, names, ds, i, start) && (declares ==> |Enter(names, name)| <= b.cap)
    modifies b
    ensures Laying(b, rn, rk, ird, unit, m, if declares then Enter(names, name) else names, ds, i, start)
    ensures b.igp == old(b.igp) && b.iwk == old(b.iwk) && b.ndw == old(b.ndw) && b.bits == old(b.bits)
  {
    hide Sound, Listing, LastBank, Alike, RawAll;
    if declares {
      var nami := FindName(b, name, ird, rn, rk, unit, m);
    }
  }

  /** One more bank has come to lie at `start`. */
  lemma LaidMore(b: BosArray, v: Snapshot, rn: nat, rk: nat, ird: int, unit: int, m: seq<seq<Bank>>,
                 ds: seq<Segments.Segment>, i: nat, start: int)
    requires Sound(v, b.ch) && LastBank(v, b.ch, rn, rk, ird, unit) && 0 <= ird < |v.a.w| && v.a.w[ird] == 0
    requires Alike(m, Listing(v, b.ch), rn, unit) && i < |ds| && 0 <= v.a.igp && v.a.iwk <= |v.a.w|
    requires start == v.a.igp + |RawAll(ds[..i])| && start + |Raw(ds[i])| <= v.a.iwk
    requires v.a.w[v.a.igp..start] == RawAll(ds[..i])
    requires b.Value() == v.(a := v.a.(w := b.w[..])) && b.w.Length == |v.a.w|
    requires forall j :: 0 <= j < b.w.Length && (j < start || start + |Raw(ds[i])| <= j) ==> b.w[j] == v.a.w[j]
    requires b.w[start..start + |Raw(ds[i])|] == Raw(ds[i])
    ensures Laying(b, rn, rk, ird, unit, m, v.a.names, ds, i + 1, start + |Raw(ds[i])|)
  {
    hide Sound, Listing, LastBank, Alike, Raw;
    GapWritten(v, b.w[..], b.ch);
    SameLast(v, b.Value(), b.ch, rn, rk, ird, unit);
    LastBounds(v, b.ch, rn, rk, ird, unit);
    RawMore(ds, i);
    hide RawAll;
    Behind(v.a.w, b.w[..], v.a.igp, start, start + |Raw(ds[i])|);
  }

  /** From the gap to the lists: the record bank gets its words, its banks their names, and bosins takes it apart. */
  method LoadLaid(b: BosArray, start: int, nama: int, unit: int, ird: int, ghost rn: nat, ghost rk: nat,
                  ghost ds: seq<Segments.Segment>, ghost names0: seq<int>, ghost m0: seq<seq<Bank>>, ghost k: nat)
    requires ds != [] && |m0| == |names0| <= k && names0 <= b.names && AllSorted(m0) && k <= |b.names|
    requires Laying(b, rn, rk, ird, unit, Padded(m0, k), LaidNames(names0, nama, ds), ds, |ds|, start) && b.ndw == 0
    requires nama in b.names && rn == NameIndex(b.names, nama) < k && |b.names| == |b.ch|
    requires |EnterAll(LaidNames(names0, nama, ds), ds)| <= b.cap
    requires forall i :: 0 <= i < |ds| ==> Head(ds[i], Segments.idNAME1) != nama
    requires BitCode(b.bits, nama) != 2 && BitCode(b.bits, nama) != 3
    requires var n := NameIndex(names0, nama);
             start + 2 * LinkWords(if n < |m0| then |m0[n]| + 1 else 1) + b.nresr <= b.iwk
    modifies b, b.w
    ensures b.Valid() && b.bits == old(b.bits) && Arrived(names0, m0, b.names, b.Contents(), nama, unit, ds)
  {
    hide Sound, Listing, LastBank, Alike, RawAll, EnterAll, Enter, EventLoaded, LaidNames, AllSorted, Padded;
    ghost var names1 := b.names;
    assert ds[..|ds|] == ds;
    RawSome(ds);
    FillRecord(b, nama, unit, start - b.igp, ird, rn, rk, Padded(m0, k));
    CountNames(b.Value(), b.ch);
    PaddedRoom(names0, names1, m0, nama, k);
    EnterRecord(b, nama, unit, ird, rn, rk, ds, Padded(m0, k));
    PaddedLoaded(m0, k, b.names, rn, unit, ds);
  }

  lemma RawSome(ds: seq<Segments.Segment>)
    requires ds != []
    ensures |RawAll(ds)| > 0
  {
    hide RawAll, Raw;
    RawMore(ds, 0);
    RawGrows(ds, 1);
  }

  lemma PaddedRoom(names: seq<int>, names': seq<int>, m0: seq<seq<Bank>>, nama: int, k: nat)
    requires |m0| == |names| <= k <= |names'| && names <= names' && nama in names' && NameIndex(names', nama) < k
    ensures var n, rn := NameIndex(names, nama), NameIndex(names', nama);
            |Padded(m0, k)| == k && |Padded(m0, k)[rn]| + 1 == if n < |m0| then |m0[n]| + 1 else 1
  {
    RoomIs(names, names', m0, nama);
  }

  // ---- The operation -------------------------------------------------------------------------------------

  /** What the event buffer has of bank `i` when its format text has been ended. */
  lemma BankScanned(e0: seq<int>, rec: Segments.Record, i: nat)
    requires EtWriting.Holds(e0, rec) && Careful(rec.segs) && i < |rec.segs|
    ensures var d, p, g := rec.segs[i], Segments.HeadIndex(rec.segs, i), Walked(e0, i + 1).ev;
            && Walked(e0, i).ind == p && Ahead(Walked(e0, i).ev, e0, rec, i) && g == Scanned(Walked(e0, i).ev, p)
            && Segments.SegOk(d)
            && p + |d.hd| + |d.data| == Segments.HeadIndex(rec.segs, i + 1) == Walked(e0, i + 1).ind <= |g| == |e0|
            && (forall j :: p <= j < p + Segments.idFRMT ==> g[j] == d.hd[j - p])
            && g[p + |d.hd|..p + |d.hd| + |d.data|] == Clip(d).data
            && (i + 1 < |rec.segs| <==>
                  Segments.HeadIndex(rec.segs, i + 1) < Segments.RECHEADLEN + |Segments.Flat(rec.segs)|)
  {
    hide Segments.Flat, EtWriting.Holds, Scanned, Overruns, Clip, Walked, Ahead;
    var d, p := rec.segs[i], Segments.HeadIndex(rec.segs, i);
    WalkKeeps(e0, rec, i);
    WalkKeeps(e0, rec, i + 1);
    OneRound(e0, i);
    BankAhead(Walked(e0, i).ev, e0, rec, i);
    ScanBank(Walked(e0, i).ev, p, d);
    EtWriting.MoreBanks(e0, rec, i + 1);
  }

  const EBIO_NOBOSSPACE := -976
  const NO_RECORD_BANK := -55

  /** The header of bank `i` has been written at `start`, and there is no room for its data. */
  ghost predicate Spilt(b: BosArray, v: Snapshot, rn: nat, rk: nat, ird: int, unit: int, m: seq<seq<Bank>>,
                        names: seq<int>, ds: seq<Segments.Segment>, i: nat, start: int)
    reads b, b.w
  {
    && LaidSoFar(v, b.ch, rn, rk, ird, unit, m, names, ds, i, start) && i < |ds|
    && 0 <= start && start + FIVE <= |v.a.w| && start + |Raw(ds[i])| > v.a.iwk
    && b.Value() == v.(a := v.a.(w := EtWriting.Overwritten(v.a.w, start, FiveOf(ds[i]))))
  }

  lemma LaidBounds(v: Snapshot, ch: seq<seq<int>>, rn: nat, rk: nat, ird: int, unit: int, m: seq<seq<Bank>>,
                   names: seq<int>, ds: seq<Segments.Segment>, i: nat, start: int)
    requires LaidSoFar(v, ch, rn, rk, ird, unit, m, names, ds, i, start)
    ensures 0 < v.a.igp <= start <= v.a.iwk <= v.fix < |v.a.w| && Sound(v, ch)
  {
    hide Inv, Links, Listing, LastBank, Alike, RawAll;
    AreaEnds(v, ch);
  }

  lemma HeadLaid(w: seq<int>, w1: seq<int>, start: int, h: seq<int>)
    requires 0 <= start && start + |h| <= |w| && w1 == EtWriting.Overwritten(w, start, h)
    ensures |w1| == |w| && w1[start..start + |h|] == h
    ensures forall j :: 0 <= j < |w| && !(start <= j < start + |h|) ==> w1[j] == w[j]
  {
  }

  /**
   Bank `i` of the flat record, its text having been ended, goes into the gap: its header first, and its
   data if there is room for them.
   */
  method LayRound(b: BosArray, ev: array<int>, ind: int, start: int, ghost e0: seq<int>, ghost rec: Segments.Record,
                  ghost i: nat, ghost rn: nat, ghost rk: nat, ghost ird: int, ghost unit: int, ghost m: seq<seq<Bank>>,
                  ghost names: seq<int>) returns (fits: bool, start': int, ind': int, ghost v: Snapshot)
    requires ev != b.w && EtWriting.Holds(e0, rec) && Careful(rec.segs) && i < |rec.segs|
    requires ev[..] == Walked(e0, i + 1).ev
    requires ind == Segments.HeadIndex(rec.segs, i) && b.fix + NHW <= b.w.Length
    requires Laying(b, rn, rk, ird, unit, m, names, ClipAll(rec.segs), i, start)
    modifies b.w
    ensures v == old(b.Value()) && (fits <==> start + |Raw(ClipAll(rec.segs)[i])| <= b.iwk)
    ensures fits ==> Laying(b, rn, rk, ird, unit, m, names, ClipAll(rec.segs), i + 1, start')
    ensures fits ==> ind' == Segments.HeadIndex(rec.segs, i + 1)
    ensures !fits ==> start' == start && Spilt(b, v, rn, rk, ird, unit, m, names, ClipAll(rec.segs), i, start)
  {
    hide Sound, Listing, LastBank, Alike, RawAll, Raw, Clip, Walked, Scanned, Careful, EtWriting.Holds, Segments.Flat,
         Ahead, EtWriting.Overwritten;
    v := b.Value();
    ghost var cs, d := ClipAll(rec.segs), rec.segs[i];
    BankScanned(e0, rec, i);
    LaidBounds(v, b.ch, rn, rk, ird, unit, m, names, cs, i, start);
    LayHead(b.w, start, ev, ind, d);
    HeadLaid(v.a.w, b.w[..], start, FiveOf(d));
    if b.iwk - start - NHW < ev[ind + Segments.idDATA] {
      return false, start, ind, v;
    }
    LayData(b.w, start, ev, ind, d);
    LaidMore(b, v, rn, rk, ird, unit, m, cs, i, start);
    fits := true;
    start' := start + ev[ind + Segments.idDATA] + NHW;
    ind' := ind + ev[ind] + ev[ind + Segments.idDATA];
  }

  /** The way out: the record bank is dropped, if the array is still in order. */
  method GiveUp(b: BosArray, nama: int, unit: int, start: int, ghost v: Snapshot, ghost rn: nat, ghost rk: nat,
                ghost ird: int, ghost m: seq<seq<Bank>>, ghost names: seq<int>, ghost ds: seq<Segments.Segment>,
                ghost i: nat) returns (broken: bool)
    requires Spilt(b, v, rn, rk, ird, unit, m, names, ds, i, start) && b.ndw == 0 && b.fix + NHW <= b.idl + 1
    requires rn == NameIndex(names, nama) < |names| && |m| <= |names|
    modifies b, b.w
    ensures b.names == names && b.bits == old(b.bits)
    ensures broken <==> start + 2 > old(b.iwk) && old(b.iwk) < b.fix
    ensures broken <==> !b.Valid()
    ensures !broken ==> b.Contents() == WithoutBank(names, Padded(m, |names|), nama, unit)
  {
    hide Sound, Listing, LastBank, Alike, RawAll, Raw, EtWriting.Overwritten, WithoutBank;
    LaidBounds(v, b.ch, rn, rk, ird, unit, m, names, ds, i, start);
    HeaderOrder(v, b.ch, start, FiveOf(ds[i]));
    broken := start + 2 > b.iwk && b.iwk < b.fix;
    if !broken {
      CountNames(v, b.ch);
      AlikeWithout(m, Listing(v, b.ch), rn, unit, names, nama);
      DropRecord(b, nama, unit);
    }
  }

  lemma AlikeWithout(m: seq<seq<Bank>>, c: seq<seq<Bank>>, rn: nat, unit: int, names: seq<int>, nama: int)
    requires Alike(m, c, rn, unit) && |c| == |names| && rn == NameIndex(names, nama) < |names|
    ensures |m| <= |names| && WithoutBank(names, c, nama, unit) == WithoutBank(names, Padded(m, |names|), nama, unit)
  {
    hide Delete;
    var a, d := WithoutBank(names, c, nama, unit), WithoutBank(names, Padded(m, |names|), nama, unit);
    assert forall i :: 0 <= i < |c| ==> a[i] == d[i];
  }

  lemma ClipSame(ds: seq<Segments.Segment>)
    ensures var cs := ClipAll(ds);
            && (forall i :: 0 <= i < |ds| ==> Declares(cs[i]) == Declares(ds[i]) && |cs[i].data| == |ds[i].data|
                                               && Head(cs[i], Segments.idNAME1) == Head(ds[i], Segments.idNAME1))
  {
  }

  /** There is a word behind the record for the NUL of its last bank, if that one needs it. */
  ghost predicate RoomBehind(n: int, ds: seq<Segments.Segment>) {
    ds != [] && (Overruns(ds[|ds| - 1]) ==> Segments.RECHEADLEN + |Segments.Flat(ds)| < n)
  }

  lemma NulFits(n: int, ds: seq<Segments.Segment>, i: nat)
    requires RoomBehind(n, ds) && Careful(ds) && i < |ds|
    ensures RoomForNul(n, ds, i)
  {
    assert ds[..|ds|] == ds;
  }

  /** The test for a format, and the name of the bank. */
  lemma FormatSeen(e0: seq<int>, rec: Segments.Record, i: nat, nf: nat)
    requires EtWriting.Holds(e0, rec) && Careful(rec.segs) && i < |rec.segs| && nf == TextLength(FormatOf(rec.segs[i]))
    ensures var g, p := Walked(e0, i + 1).ev, Segments.HeadIndex(rec.segs, i);
            && p + Segments.idFRMT <= |g|
            && (Declares(rec.segs[i]) <==> nf > 0 && g[p + Segments.idNCOL] > 0)
            && g[p + Segments.idNAME1] == Head(rec.segs[i], Segments.idNAME1)
  {
    hide Segments.Flat, EtWriting.Holds, Walked, Careful, Scanned, Clip, TextLength, FormatOf, Ahead;
    BankScanned(e0, rec, i);
  }

  /** The rounds after the first, until there is no room. */
  method LayRest(b: BosArray, ev: array<int>, lrlen: int, ind0: int, start0: int, ghost e0: seq<int>,
                 ghost rec: Segments.Record, ghost rn: nat, ghost rk: nat, ghost ird: int, ghost unit: int,
                 ghost m: seq<seq<Bank>>, ghost names: seq<int>)
    returns (fits: bool, start: int, ghost v: Snapshot, ghost i: nat)
    requires ev != b.w && EtWriting.Holds(e0, rec) && Careful(rec.segs) && RoomBehind(ev.Length, rec.segs)
    requires lrlen == Segments.RECHEADLEN + |Segments.Flat(rec.segs)| && ind0 == Segments.HeadIndex(rec.segs, 1)
    requires ev[..] == Walked(e0, 1).ev
    requires Laying(b, rn, rk, ird, unit, m, names, ClipAll(rec.segs), 1, start0) && b.fix + NHW <= b.w.Length
    requires |Declared(names, ClipAll(rec.segs)[1..])| <= b.cap && rec.segs != []
    modifies b, b.w, ev
    ensures fits ==>
              && i == |rec.segs|
              && Laying(b, rn, rk, ird, unit, m, Declared(names, ClipAll(rec.segs)[1..]), ClipAll(rec.segs), i, start)
    ensures !fits ==> 1 <= i < |rec.segs| && b.names == Declared(names, ClipAll(rec.segs)[1..i + 1])
                      && Spilt(b, v, rn, rk, ird, unit, m, b.names, ClipAll(rec.segs), i, start)
    ensures ev[..] == Walked(e0, if fits then i else i + 1).ev
    ensures b.igp == old(b.igp) && b.iwk == old(b.iwk) && b.ndw == old(b.ndw) && b.bits == old(b.bits)
  {
    hide Laying, Spilt, RawAll, Clip, Walked, Scanned, Careful, EtWriting.Holds, Segments.Flat, Segments.HeadIndex,
         Declares, Declared, RoomBehind, Ahead;
    hide ClipAll, Sound, BosArray.Valid, LaidNames;
    ghost var cs := ClipAll(rec.segs);
    i := 1;
    ClipSame(rec.segs);
    BankScanned(e0, rec, 0);
    NoneDeclared(names, cs);
    fits, start, v := true, start0, b.Value();
    var ind := ind0;
    while ind < lrlen
      invariant 1 <= i <= |rec.segs| && ind == Segments.HeadIndex(rec.segs, i) && (ind < lrlen <==> i < |rec.segs|)
      invariant ev[..] == Walked(e0, i).ev && fits
      invariant Laying(b, rn, rk, ird, unit, m, Declared(names, cs[1..i]), cs, i, start)
      invariant b.igp == old(b.igp) && b.iwk == old(b.iwk) && b.ndw == old(b.ndw) && b.bits == old(b.bits)
      decreases |rec.segs| - i
    {
      BankScanned(e0, rec, i);
      NulFits(ev.Length, rec.segs, i);
      var nf := EndText(ev, ind, e0, rec, i);
      FormatSeen(e0, rec, i, nf);
      DeclaredMore(names, cs, i);
      DeclaredUpTo(names, cs, i + 1);
      DeclareNext(b, nf > 0 && ev[ind + Segments.idNCOL] > 0, ev[ind + Segments.idNAME1], rn, rk, ird, unit, m,
                  Declared(names, cs[1..i]), cs, i, start);
      LaidNamesAre(b, rn, rk, ird, unit, m, Declared(names, cs[1..i + 1]), cs, i, start);
      fits, start, ind, v := LayRound(b, ev, ind, start, e0, rec, i, rn, rk, ird, unit, m,
          Declared(names, cs[1..i + 1]));
      if !fits {
        return;
      }
      i := i + 1;
    }
    assert cs[1..i] == cs[1..];
  }

  lemma LaidNamesAre(b: BosArray, rn: nat, rk: nat, ird: int, unit: int, m: seq<seq<Bank>>, names: seq<int>,
                     ds: seq<Segments.Segment>, i: nat, start: int)
    requires Laying(b, rn, rk, ird, unit, m, names, ds, i, start)
    ensures b.names == names
  {
  }

  lemma NoneDeclared(names: seq<int>, ds: seq<Segments.Segment>)
    requires |ds| >= 1
    ensures Declared(names, ds[1..1]) == names
  {
  }

  lemma DeclaredUpTo(names: seq<int>, ds: seq<Segments.Segment>, i: nat)
    requires 1 <= i <= |ds|
    ensures |Declared(names, ds[1..i])| <= |Declared(names, ds[1..])|
  {
    DeclaredGrows(names, ds[1..], i - 1);
    assert ds[1..][..i - 1] == ds[1..i];
  }

  lemma OpenedBounds(names: seq<int>, nama: int, ds: seq<Segments.Segment>)
    requires ds != []
    ensures names <= Declared(names, ds[..1]) && Enter(Declared(names, ds[..1]), nama) <= LaidNames(names, nama, ds)
    ensures |LaidNames(names, nama, ds)| <= |EnterAll(LaidNames(names, nama, ds), ds)|
  {
    DeclaredGrows(names, ds[..1], 0);
    DeclaredGrows(Enter(Declared(names, ds[..1]), nama), ds[1..], 0);
    EnteredLater(LaidNames(names, nama, ds), ds);
    assert ds[..1][..0] == [] && ds[1..][..0] == [];
  }

  /** Bank `i` is the first that does not fit between `top` and `iwk`. */
  ghost predicate FirstUnfit(ds: seq<Segments.Segment>, top: int, iwk: int, i: nat) {
    i < |ds| && top + |RawAll(ds[..i])| <= iwk < top + |RawAll(ds[..i + 1])|
  }

  /**
   Whether et2bos finds room: for the header of the record bank, for all banks, and then, if so, also for
   the link banks that it might need.
   */
  ghost predicate RoomOrNot(v: Snapshot, ch: seq<seq<int>>, nama: int, unit: int, nresr: nat,
                            ds: seq<Segments.Segment>) {
    var g, n := GapAfter(v, ch, nama, unit), NameIndex(v.a.names, nama);
    || RoomFor(g, v.a.iwk, nresr, if n < |ch| then |ch[n]| + 1 else 1, |RawAll(ds)|)
    || g + NHW + |RawAll(ds)| > v.a.iwk
  }

  /**
   Loads the flat record in `ev` into the array (et2bos); `nama` is the name +REC.  Every list
   is the old one overridden by the banks of the record as they are copied, new names have been
   entered.  In the event buffer the format texts have been ended.  If there is no room for bank `i`, or for
   the record bank itself, all that changes is that the record bank is gone and names have been entered;
   but of bank `i` five words have been written by then, and if fewer than two words were left in front
   of a work bank the array is not in order (`broken`).
   */
  method Et2bos(b: BosArray, ev: array<int>, nama: int, unit: int, ghost rec: Segments.Record)
    returns (status: int, broken: bool, ghost i: nat)
    requires b.Valid() && b.ndw == 0 && ev != b.w && EtWriting.Holds(ev[..], rec)
    requires b.fix + NHW <= b.idl + 1 <= b.w.Length
    requires Careful(rec.segs) && RoomBehind(ev.Length, rec.segs)
    requires |EnterAll(LaidNames(b.names, nama, ClipAll(rec.segs)), ClipAll(rec.segs))| <= b.cap
    requires forall i :: 0 <= i < |rec.segs| ==> Head(rec.segs[i], Segments.idNAME1) != nama
    requires BitCode(b.bits, nama) != 2 && BitCode(b.bits, nama) != 3
    requires RoomOrNot(b.Value(), b.ch, nama, unit, b.nresr, ClipAll(rec.segs))
    modifies b, b.w, ev
    ensures b.bits == old(b.bits) && i <= |rec.segs|
    ensures var cs, top := ClipAll(rec.segs), GapAfter(old(b.Value()), old(b.ch), nama, unit) + NHW;
            && (status == 0 <==> top + |RawAll(cs)| <= old(b.iwk))
            && (status == 0 ==> i == |rec.segs|)
            && (status != 0 ==> if top > old(b.iwk) then status == NO_RECORD_BANK && i == 0
                                else status == EBIO_NOBOSSPACE && FirstUnfit(cs, top, old(b.iwk), i))
            && (broken <==> status == EBIO_NOBOSSPACE && top + |RawAll(cs[..i])| + 2 > old(b.iwk) && old(b.iwk) < b.fix)
            && (broken <==> !b.Valid())
    ensures status == 0 ==> Arrived(old(b.names), old(b.Contents()), b.names, b.Contents(), nama, unit,
        ClipAll(rec.segs))
    ensures status != 0 && !broken ==>
              && i < |rec.segs| && b.names == LaidNames(old(b.names), nama, ClipAll(rec.segs)[..i + 1])
              && |old(b.Contents())| <= |b.names|
              && b.Contents() == WithoutBank(b.names, Padded(old(b.Contents()), |b.names|), nama, unit)
    ensures ev[..] == Walked(old(ev[..]), if status == 0 then i else i + 1).ev
  {
    hide Sound, Listing, LastBank, Alike, RawAll, EnterAll, Segments.Flat, Enter, EtWriting.Holds, AllSorted, Arrived,
         Laying, LaidNames;
    hide Clip, ClipAll, BitCode, LinkWords, Walked, Scanned, Careful, Segments.HeadIndex, Declared, Declares,
         RoomBehind, Ahead, Padded;
    hide Spilt, GapAfter, WithoutBank, Raw, RoomOrNot, FirstUnfit, Head;
    ghost var names0, m0, e0, cs := b.names, b.Contents(), ev[..], ClipAll(rec.segs);
    CountNames(b.Value(), b.ch);
    SortedAll(b.Value(), b.ch);
    EventLength(ev[..], rec);
    ClipSame(rec.segs);
    RoomThen(b.Value(), b.ch, nama, unit, b.nresr, cs);
    OpenedBounds(names0, nama, cs);
    OpenedIs(names0, nama, cs);
    var lrlen := ev[Segments.irNWRD] + Segments.RECHEADLEN;
    var fits, ird, start, ind;
    ghost var rn, rk, k, v, names1 := 0, 0, 0, b.Value(), Enter(Declared(names0, cs[..1]), nama);
    fits, ird, start, ind, rn, rk, k, v := FirstRound(b, ev, nama, unit, rec);
    i := 0;
    broken := false;
    if ird <= 0 {
      NamesUpTo(names0, nama, cs, 0);
      return NO_RECORD_BANK, false, 0;
    }
    if fits {
      fits, start, v, i := LayRest(b, ev, lrlen, ind, start, e0, rec, rn, rk, ird, unit, Padded(m0, k), names1);
    }
    if !fits {
      status := EBIO_NOBOSSPACE;
      if i == 0 { NoneDeclared(names1, cs); }
      broken := DropUnfit(b, nama, unit, start, v, rn, rk, ird, names0, names1, m0, k, cs, i);
      return;
    }
    LayingBounds(b, rn, rk, ird, unit, Padded(m0, k), LaidNames(names0, nama, cs), cs, |cs|, start);
    OpenedThen(b, names0, nama, cs, rn, k);
    LoadLaid(b, start, nama, unit, ird, rn, rk, cs, names0, m0, k);
    status := 0;
  }

  /**
   Behind the header of the record bank one word is left, or none, and a work bank follows: whatever
   the record, the array is not in order afterwards.
   */
  method LoadIntoNothing(b: BosArray, ev: array<int>, nama: int, unit: int, ghost rec: Segments.Record)
    returns (status: int)
    requires b.Valid() && b.ndw == 0 && ev != b.w && EtWriting.Holds(ev[..], rec)
    requires b.fix + NHW <= b.idl + 1 <= b.w.Length
    requires Careful(rec.segs) && RoomBehind(ev.Length, rec.segs)
    requires |EnterAll(LaidNames(b.names, nama, ClipAll(rec.segs)), ClipAll(rec.segs))| <= b.cap
    requires forall i :: 0 <= i < |rec.segs| ==> Head(rec.segs[i], Segments.idNAME1) != nama
    requires BitCode(b.bits, nama) != 2 && BitCode(b.bits, nama) != 3
    requires var top := GapAfter(b.Value(), b.ch, nama, unit) + NHW; top <= b.iwk < top + 2 && b.iwk < b.fix
    modifies b, b.w, ev
    ensures status == EBIO_NOBOSSPACE && !b.Valid()
  {
    hide Sound, Listing, Arrived, EnterAll, LaidNames, GapAfter, ClipAll, Careful, EtWriting.Holds, WithoutBank,
         Walked, RawAll, Head;
    ghost var cs := ClipAll(rec.segs);
    ClipSame(rec.segs);
    AtLeastHeader(cs, 0);
    var broken;
    ghost var i;
    status, broken, i := Et2bos(b, ev, nama, unit, rec);
    AtLeastHeader(cs, i);
  }

  lemma AtLeastHeader(ds: seq<Segments.Segment>, i: nat)
    requires i <= |ds|
    ensures (ds != [] ==> |RawAll(ds)| >= NHW) && (i > 0 ==> |RawAll(ds[..i])| >= NHW)
  {
    hide RawAll, Raw;
    if ds != [] {
      RawMore(ds, 0);
      RawGrows(ds, 1);
      if i > 0 {
        RawGrows(ds[..i], 1);
        assert ds[..i][..1] == ds[..1];
      }
    }
  }

  /** If all banks fit there is room for the link banks too. */
  lemma RoomThen(v: Snapshot, ch: seq<seq<int>>, nama: int, unit: int, nresr: nat, ds: seq<Segments.Segment>)
    requires Sound(v, ch) && RoomOrNot(v, ch, nama, unit, nresr, ds)
    ensures var m, n, end := Listing(v, ch), NameIndex(v.a.names, nama),
        GapAfter(v, ch, nama, unit) + NHW + |RawAll(ds)|;
            end <= v.a.iwk ==> end + 2 * LinkWords(if n < |m| then |m[n]| + 1 else 1) + nresr <= v.a.iwk
  {
    hide Sound, Listing, GapAfter, RawAll;
    CountNames(v, ch);
    var n := NameIndex(v.a.names, nama);
    if n < |ch| { ListLength(v, ch, n); }
  }

  /** Room behind all named banks is room enough. */
  lemma RoomEnough(v: Snapshot, ch: seq<seq<int>>, nama: int, unit: int, nresr: nat, ds: seq<Segments.Segment>)
    requires Sound(v, ch)
    requires var m, n := Listing(v, ch), NameIndex(v.a.names, nama);
             RoomFor(v.a.igp, v.a.iwk, nresr, if n < |m| then |m[n]| + 1 else 1, |RawAll(ds)|)
    ensures RoomOrNot(v, ch, nama, unit, nresr, ds) && GapAfter(v, ch, nama, unit) + NHW + |RawAll(ds)| <= v.a.iwk
  {
    hide Sound, Listing, RawAll;
    CountNames(v, ch);
    var n := NameIndex(v.a.names, nama);
    if n < |ch| { ListLength(v, ch, n); }
    GapLess(v, ch, nama, unit);
  }

  lemma GapLess(v: Snapshot, ch: seq<seq<int>>, nama: int, unit: int)
    requires Sound(v, ch)
    ensures GapAfter(v, ch, nama, unit) <= v.a.igp
  {
    hide Sound, Listing;
    var n := NameIndex(v.a.names, nama);
    if n < |ch| { IndexMeans(v, ch, n, unit); }
  }

  lemma NamesUpTo(names: seq<int>, nama: int, ds: seq<Segments.Segment>, i: nat)
    requires i < |ds|
    ensures LaidNames(names, nama, ds[..i + 1]) == Declared(Enter(Declared(names, ds[..1]), nama), ds[1..i + 1])
    ensures i == 0 ==> LaidNames(names, nama, ds[..1]) == Enter(Declared(names, ds[..1]), nama)
  {
    var c := ds[..i + 1];
    assert c[..1] == ds[..1] && c[1..] == ds[1..i + 1];
    if i == 0 { NoneDeclared(Enter(Declared(names, ds[..1]), nama), ds); }
  }

  /** Where bank `i` would have come to lie, and what the lists are as far as they go. */
  lemma GivenUp(b: BosArray, v: Snapshot, names0: seq<int>, names1: seq<int>, nama: int, unit: int,
                ds: seq<Segments.Segment>, i: nat, start: int, rn: nat, rk: nat, ird: int, m0: seq<seq<Bank>>, k: nat)
    requires |m0| <= k == |names1| && nama in names1 && rn == NameIndex(names1, nama) && i < |ds|
    requires b.names == Declared(names1, ds[1..i + 1])
    requires Spilt(b, v, rn, rk, ird, unit, Padded(m0, k), b.names, ds, i, start)
    ensures FirstUnfit(ds, b.igp, b.iwk, i) && start == b.igp + |RawAll(ds[..i])| && b.igp + |RawAll(ds)| > b.iwk
    ensures rn == NameIndex(b.names, nama) < |b.names| && k <= |b.names|
    ensures Padded(Padded(m0, k), |b.names|) == Padded(m0, |b.names|)
  {
    hide Sound, Listing, LastBank, Alike, RawAll, Raw, Declared;
    RawMore(ds, i);
    RawGrows(ds, i + 1);
    DeclaredGrows(names1, ds[1..i + 1], 0);
    assert ds[1..i + 1][..0] == [];
    NothingMore(names1);
    IndexPrefix(names1, b.names, nama);
  }

  /** The bank that does not fit ends the walk: what has been laid is given up. */
  method DropUnfit(b: BosArray, nama: int, unit: int, start: int, ghost v: Snapshot, ghost rn: nat, ghost rk: nat,
                   ghost ird: int, ghost names0: seq<int>, ghost names1: seq<int>, ghost m0: seq<seq<Bank>>,
                   ghost k: nat, ghost ds: seq<Segments.Segment>, ghost i: nat) returns (broken: bool)
    requires i < |ds| && names1 == Enter(Declared(names0, ds[..1]), nama) && |m0| <= k == |names1|
    requires nama in names1 && rn == NameIndex(names1, nama) && b.names == Declared(names1, ds[1..i + 1])
    requires Spilt(b, v, rn, rk, ird, unit, Padded(m0, k), b.names, ds, i, start) && b.ndw == 0
    requires b.fix + NHW <= b.idl + 1
    modifies b, b.w
    ensures b.bits == old(b.bits) && b.names == LaidNames(names0, nama, ds[..i + 1]) && |m0| <= |b.names|
    ensures FirstUnfit(ds, old(b.igp), old(b.iwk), i) && old(b.igp) + |RawAll(ds)| > old(b.iwk)
    ensures broken <==> old(b.igp) + |RawAll(ds[..i])| + 2 > old(b.iwk) && old(b.iwk) < b.fix
    ensures broken <==> !b.Valid()
    ensures !broken ==> b.Contents() == WithoutBank(b.names, Padded(m0, |b.names|), nama, unit)
  {
    hide Sound, Listing, RawAll, Enter, LaidNames, Spilt, WithoutBank, Raw, FirstUnfit, Declared, Padded;
    NamesUpTo(names0, nama, ds, i);
    GivenUp(b, v, names0, names1, nama, unit, ds, i, start, rn, rk, ird, m0, k);
    broken := GiveUp(b, nama, unit, start, v, rn, rk, ird, Padded(m0, k), b.names, ds, i);
  }

  lemma NothingMore(names: seq<int>)
    ensures Declared(names, []) == names
  {
  }

  /** The first round of the walk, in which the record bank is opened. */
  method FirstRound(b: BosArray, ev: array<int>, nama: int, unit: int, ghost rec: Segments.Record)
    returns (fits: bool, ird: int, start: int, ind: int, ghost rn: nat, ghost rk: nat, ghost k: nat, ghost v: Snapshot)
    requires b.Valid() && b.ndw == 0 && ev != b.w && EtWriting.Holds(ev[..], rec) && rec.segs != []
    requires Careful(rec.segs) && RoomBehind(ev.Length, rec.segs) && b.fix + NHW <= b.w.Length
    requires |Enter(Declared(b.names, ClipAll(rec.segs)[..1]), nama)| <= b.cap
    requires BitCode(b.bits, nama) != 2 && BitCode(b.bits, nama) != 3
    modifies b, b.w, ev
    ensures b.names == Enter(Declared(old(b.names), ClipAll(rec.segs)[..1]), nama)
    ensures k == |b.names| && rn == NameIndex(b.names, nama) < k && |old(b.Contents())| == |old(b.names)| <= k
    ensures ev[..] == Walked(old(ev[..]), 1).ev && b.iwk == old(b.iwk) && b.ndw == 0 && b.bits == old(b.bits)
    ensures var cs, g, m := ClipAll(rec.segs), GapAfter(old(b.Value()), old(b.ch), nama, unit),
        Padded(old(b.Contents()), k);
            if g + NHW > b.iwk then ird <= 0 && b.Valid() && b.Contents() == WithoutBank(b.names, m, nama, unit)
            else
              && ird > 0 && b.igp == g + NHW
              && (fits ==>
                    && Laying(b, rn, rk, ird, unit, m, b.names, cs, 1, start)
                    && ind == Segments.HeadIndex(rec.segs, 1))
              && (!fits ==> Spilt(b, v, rn, rk, ird, unit, m, b.names, cs, 0, start))
  {
    hide Sound, Listing, LastBank, Alike, RawAll, Segments.Flat, Enter, EtWriting.Holds, Laying, Spilt, GapAfter,
         WithoutBank;
    hide Clip, Walked, Scanned, Careful, Segments.HeadIndex, Declared, Declares, RoomBehind, Ahead, Padded;
    ghost var m0, e0, cs := b.Contents(), ev[..], ClipAll(rec.segs);
    ClipSame(rec.segs);
    BankScanned(e0, rec, 0);
    NulFits(ev.Length, rec.segs, 0);
    WalkStart(e0, rec);
    Wgarbage(b);
    ind := Segments.RECHEADLEN;
    fits, start, v := false, 0, b.Value();
    var nf := EndText(ev, ind, e0, rec, 0);
    FormatSeen(e0, rec, 0, nf);
    ird, rn, rk := OpenFirst(b, nf > 0 && ev[ind + Segments.idNCOL] > 0, ev[ind + Segments.idNAME1], nama, unit, cs);
    k := |b.names|;
    if ird <= 0 {
      return;
    }
    LayingBounds(b, rn, rk, ird, unit, Padded(m0, k), b.names, cs, 0, b.igp);
    start := b.igp;
    fits, start, ind, v := LayRound(b, ev, ind, start, e0, rec, 0, rn, rk, ird, unit, Padded(m0, k), b.names);
  }

  lemma SortedAll(v: Snapshot, ch: seq<seq<int>>)
    requires Sound(v, ch)
    ensures AllSorted(Listing(v, ch))
  {
    hide Sound, Listing;
    SortedLists(v, ch);
  }

  lemma WalkStart(e0: seq<int>, rec: Segments.Record)
    requires EtWriting.Holds(e0, rec)
    ensures Walked(e0, 0).ev == e0 && Segments.HeadIndex(rec.segs, 0) == Segments.RECHEADLEN && Ahead(e0, e0, rec, 0)
  {
    hide Segments.Flat, EtWriting.Holds;
    WalkKeeps(e0, rec, 0);
  }

  lemma OpenedIs(names: seq<int>, nama: int, ds: seq<Segments.Segment>)
    requires ds != []
    ensures LaidNames(names, nama, ds) == Declared(Enter(Declared(names, ds[..1]), nama), ds[1..])
    ensures nama in Enter(Declared(names, ds[..1]), nama)
  {
  }

  lemma LayingBounds(b: BosArray, rn: nat, rk: nat, ird: int, unit: int, m: seq<seq<Bank>>, names: seq<int>,
                     ds: seq<Segments.Segment>, i: nat, start: int)
    requires Laying(b, rn, rk, ird, unit, m, names, ds, i, start)
    ensures b.Valid() && b.names == names && |b.ch| == |b.names| && i <= |ds|
    ensures start == b.igp + |RawAll(ds[..i])| <= b.iwk && 0 <= b.igp
    ensures i == |ds| ==> start == b.igp + |RawAll(ds)|
  {
    hide Sound, Listing, LastBank, Alike, RawAll;
    CountNames(b.Value(), b.ch);
    if i == |ds| { assert ds[..i] == ds; }
  }

  lemma OpenedThen(b: BosArray, names0: seq<int>, nama: int, ds: seq<Segments.Segment>, rn: nat, k: nat)
    requires ds != [] && b.names == LaidNames(names0, nama, ds) && k == |Enter(Declared(names0, ds[..1]), nama)|
    requires rn == NameIndex(Enter(Declared(names0, ds[..1]), nama), nama)
    ensures nama in b.names && rn == NameIndex(b.names, nama) < k <= |b.names| && |names0| <= k && names0 <= b.names
  {
    hide Declared, LaidNames;
    OpenedBounds(names0, nama, ds);
    IndexPrefix(Enter(Declared(names0, ds[..1]), nama), b.names, nama);
  }
}
