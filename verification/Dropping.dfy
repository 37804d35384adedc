/**
 Dropping one bank (bosndrop.c).
 */
module Dropping {
  import opened BankLayout
  import opened Chains
  import opened Directory
  import opened NamedArea
  import opened WorkArea
  import opened LinkTables
  import opened BosArrays

  /** The named area after dropping the `k`-th bank of chain `c`; a last bank may go to the gap. */
  ghost function Dropped(s: Area, c: seq<int>, h: int, k: nat, give: bool): Area
    requires k < |c| && NHW <= c[k] < |s.w| && 0 <= LinkOf(h, c, k) < |s.w|
  {
    var x := c[k];
    var w := s.w[LinkOf(h, c, k) := s.w[x - INXT]];
    if give then s.(w := w, igp := s.igp - (s.w[x] + NHW))
    else s.(w := w[x := -(s.w[x] + NHW)], ndn := s.ndn + s.w[x] + NHW, ign := if s.ign < x then s.ign else x)
  }

  /** A dropped bank at the very end of the area. */
  lemma LastDropped(s: Area, x: int)
    requires Layout(s) && x in Banks(s) && s.w[x] < 0 && x - (NHW - 1) - s.w[x] == s.igp
    ensures s.inm <= x - (NHW - 1)
    ensures Tiles(s.w, s.inm, x - (NHW - 1)) && Tiles(s.w, x - (NHW - 1), s.igp)
    ensures DropSum(s.w, x - (NHW - 1), s.igp) == s.igp - (x - (NHW - 1))
  {
    TilesSplit(s.w, s.inm, x, s.igp);
    TilesAround(s.w, s.inm, x, s.igp);
    TilesOne(s.w, x - (NHW - 1));
  }

  lemma DropMarked(s: Area, ch: seq<seq<int>>, n: nat, k: nat)
    requires Inv(s, ch) && n < |ch| && k < |ch[n]|
    ensures NHW <= ch[n][k] < |s.w| && 0 <= LinkOf(s.base + n, ch[n], k) < s.igp <= |s.w|
    ensures Removed(s, Dropped(s, ch[n], s.base + n, k, false), ch[n], s.base + n, k)
  {
    hide Tiles, Inds, InSome, Accounts;
    ChainBank(s, ch, n, k);
    LinkOfPlace(s, ch, n, k);
    LinkOfPlace(s, ch, n, k + 1);
    LinkNotLength(s, ch, n, k);
  }

  lemma LinkNotLength(s: Area, ch: seq<seq<int>>, n: nat, k: nat)
    requires Inv(s, ch) && n < |ch| && k < |ch[n]|
    ensures LinkOf(s.base + n, ch[n], k) != ch[n][k]
    ensures LinkOf(s.base + n, ch[n], k) != ch[n][k] - INR
  {
    ChainBank(s, ch, n, k);
    LinkOfPlace(s, ch, n, k);
    TilesApart(s.w, s.inm, s.igp);
  }

  /** Dropping keeps the invariant and deletes one bank from the meaning. */
  lemma DropInv(s: Area, ch: seq<seq<int>>, n: nat, k: nat, give: bool)
    requires Inv(s, ch) && n < |ch| && k < |ch[n]| && NHW <= ch[n][k] < |s.w|
    requires 0 <= LinkOf(s.base + n, ch[n], k) < |s.w|
    requires give ==> ch[n][k] + 1 + s.w[ch[n][k]] == s.igp
    ensures Inv(Dropped(s, ch[n], s.base + n, k, give), ch[n := Remove(ch[n], k)])
  {
    hide Tiles, Inds, InSome, Chained, SameBelow, IsChain, Removed, Lowest;
    var x, ch' := ch[n][k], ch[n := Remove(ch[n], k)];
    var s1 := Dropped(s, ch[n], s.base + n, k, false);
    ChainBank(s, ch, n, k);
    DropMarked(s, ch, n, k);
    RemoveBank(s, s1, ch, n, k);
    if give {
      MarkedBank(s, s1, ch, n, k);
      LastDropped(s1, x);
      LastLowest(s, x);
      var q := x - (NHW - 1);
      var s2 := s1.(igp := q, ndn := s1.ndn - (s1.igp - q), ign := if s1.ign < q then s1.ign else s1.njw);
      Truncate(s1, s2, ch', q);
      InvFrame(s2, Dropped(s, ch[n], s.base + n, k, true), ch');
    }
  }

  lemma MarkedBank(s: Area, s1: Area, ch: seq<seq<int>>, n: nat, k: nat)
    requires Inv(s, ch) && n < |ch| && k < |ch[n]| && NHW <= ch[n][k] < |s.w|
    requires Removed(s, s1, ch[n], s.base + n, k) && Layout(s1)
    ensures ch[n][k] in Banks(s1)
  {
    hide InSome, SameBelow, IsChain, Lowest;
    ChainBank(s, ch, n, k);
    LinkOfPlace(s, ch, n, k);
    MarkAccounts(s, s1, LinkOf(s.base + n, ch[n], k), ch[n][k]);
  }

  lemma LastLowest(s: Area, x: int)
    requires Layout(s) && Accounts(s) && x in Banks(s) && s.w[x] >= 0 && x + 1 + s.w[x] == s.igp
    ensures if s.ign < x then s.ign < x - (NHW - 1) else s.ign == s.njw
  {
    TilesApart(s.w, s.inm, s.igp);
  }

  lemma DropMeaning(s: Area, ch: seq<seq<int>>, n: nat, k: nat, give: bool)
    requires Inv(s, ch) && n < |ch| && k < |ch[n]| && NHW <= ch[n][k] < |s.w|
    requires 0 <= LinkOf(s.base + n, ch[n], k) < |s.w|
    ensures var w', ch' := Dropped(s, ch[n], s.base + n, k, give).w, ch[n := Remove(ch[n], k)];
            && Meaningful(s.w, ch) && Meaningful(w', ch')
            && Meaning(w', ch') == Meaning(s.w, ch)[n := Delete(Meaning(s.w, ch)[n], s.w[ch[n][k] - INR])]
  {
    hide Tiles, Inds, InSome, Accounts, Kept, Delete, Remove, Sorted, IsChain, Chained;
    ListOf(s, ch, n);
    LinkOfPlace(s, ch, n, k);
    ChainBank(s, ch, n, k);
    BankOnlyAt(s, ch, n, k);
    var w' := Dropped(s, ch[n], s.base + n, k, give).w;
    WriteKeptBut(s, ch, w', LinkOf(s.base + n, ch[n], k), ch[n][k]);
    MeaningDelete(s.w, w', ch, n, k, s.w[ch[n][k] - INR]);
  }

  /** The whole array after bosNdrop: one bank dropped, the link bank of its name emptied. */
  ghost function DropState(v: Snapshot, ch: seq<seq<int>>, n: nat, k: nat, give: bool): Snapshot
    requires Sound(v, ch) && n < |ch| && k < |ch[n]|
  {
    DropMarked(v.a, ch, n, k);
    AfterChange(v, Dropped(v.a, ch[n], v.a.base + n, k, give), n)
  }

  lemma DropWords(v: Snapshot, ch: seq<seq<int>>, n: nat, k: nat, give: bool)
    requires Sound(v, ch) && n < |ch| && k < |ch[n]|
    requires NHW <= ch[n][k] < |v.a.w| && 0 <= LinkOf(v.a.base + n, ch[n], k) < |v.a.w|
    ensures var a := Dropped(v.a, ch[n], v.a.base + n, k, give);
            SameWork(WorkOf(v), a.w) && OtherChainsSame(v.a.w, a.w, ch, ch[n := Remove(ch[n], k)], n)
  {
    hide WInv, Links, Tiles, Inds, InSome, Accounts, IsChain;
    ChainBank(v.a, ch, n, k);
    LinkOfPlace(v.a, ch, n, k);
    var l, x := LinkOf(v.a.base + n, ch[n], k), ch[n][k];
    var w' := Dropped(v.a, ch[n], v.a.base + n, k, give).w;
    forall m, z | 0 <= m < |ch| && m != n && z in ch[m]
      ensures INR <= z < |v.a.w| && w'[z - INR] == v.a.w[z - INR]
    {
      var i :| 0 <= i < |ch[m]| && ch[m][i] == z;
      ChainBank(v.a, ch, m, i);
      if z == x { OnOneChain(v.a, ch, n, m, x); }
      OthersKept(v.a, w', l, x, z);
    }
  }

  lemma DropChange(v: Snapshot, ch: seq<seq<int>>, n: nat, k: nat, give: bool)
    requires Sound(v, ch) && n < |ch| && k < |ch[n]| && NHW <= ch[n][k] < |v.a.w|
    requires 0 <= LinkOf(v.a.base + n, ch[n], k) < |v.a.w|
    requires give ==> ch[n][k] + 1 + v.a.w[ch[n][k]] == v.a.igp
    ensures var a, ch' := Dropped(v.a, ch[n], v.a.base + n, k, give), ch[n := Remove(ch[n], k)];
            && Changed(v, a) && Inv(a, ch') && OtherChainsSame(v.a.w, a.w, ch, ch', n)
            && Meaningful(v.a.w, ch) && Meaningful(a.w, ch')
            && Meaning(a.w, ch') == Meaning(v.a.w, ch)[n := Delete(Meaning(v.a.w, ch)[n], v.a.w[ch[n][k] - INR])]
  {
    hide Tiles, Inds, InSome, Accounts, IsChain, WInv, Links, Chained, Meaning, Delete, Remove, SameWork,
         OtherChainsSame;
    DropInv(v.a, ch, n, k, give);
    DropMeaning(v.a, ch, n, k, give);
    DropWords(v, ch, n, k, give);
  }

  /** bosNdrop keeps all invariants and deletes exactly one bank. */
  lemma DropSound(v: Snapshot, ch: seq<seq<int>>, n: nat, k: nat, give: bool)
    requires Sound(v, ch) && n < |ch| && k < |ch[n]| && NHW <= ch[n][k] < |v.a.w|
    requires give ==> ch[n][k] + 1 + v.a.w[ch[n][k]] == v.a.igp
    ensures var ch' := ch[n := Remove(ch[n], k)];
            && Sound(DropState(v, ch, n, k, give), ch')
            && Listing(DropState(v, ch, n, k, give), ch')
               == Listing(v, ch)[n := Delete(Listing(v, ch)[n], v.a.w[ch[n][k] - INR])]
  {
    hide Inv, WInv, Links, Meaning, Delete, Remove, Dropped, OtherChainsSame, Meaningful, AfterChange, Changed,
         Removed, LinkOf, Kept;
    DropMarked(v.a, ch, n, k);
    var a := Dropped(v.a, ch[n], v.a.base + n, k, give);
    DropChange(v, ch, n, k, give);
    ChangeChain(v, a, ch, ch[n := Remove(ch[n], k)], n);
  }

  // ---- The operation ---------------------------------------------------------------------------

  /** A link bank that there is for handle `l` is emptied. */
  method ResetLink(w: array<int>, l: int)
    requires 0 <= l < w.Length && 0 <= w[l] < w.Length
    modifies w
    ensures w[..] == Emptied(old(w[..]), l)
  {
    if w[l] != 0 {
      w[w[l]] := 0;
    }
  }

  /** Bank `rec`, seen as empty, is a bank of its own on a chain other than the n-th. */
  ghost predicate Apartly(b: BosArray, rec: int, top: int, n: nat)
    reads b, b.w
    requires n < |b.ch|
  {
    rec != 0 ==>
      && 0 < rec < b.w.Length && b.w[rec] >= 0 && b.jw1 == 1
      && Layout(b.Seen(rec, top).a) && rec in Banks(b.Seen(rec, top).a) && rec !in b.ch[n]
  }

  lemma HeaderSeen(s: Area, w: seq<int>, rec: int, z: int)
    requires Layout(s) && 0 < rec < |w| && s.w == w[rec := 0] && w[rec] >= 0 && rec in Banks(s) && z in Banks(s)
    ensures SameHeader(s.w, w, z)
  {
    TilesApart(s.w, s.inm, s.igp);
  }

  lemma HeadSeen(s: Area, w: seq<int>, rec: int, n: nat)
    requires Layout(s) && 0 < rec < |w| && s.w == w[rec := 0] && rec in Banks(s) && n < |s.names|
    ensures 0 <= s.base + n < |w| && w[s.base + n] == s.w[s.base + n]
  {
  }

  lemma SeenChain(v: Snapshot, ch: seq<seq<int>>, w: seq<int>, rec: int, n: nat)
    requires Sound(v, ch) && n < |ch|
    requires 0 < rec < |w| && v.a.w == w[rec := 0] && w[rec] >= 0 && rec in Banks(v.a)
    ensures IsChain(w, Banks(v.a), v.a.base + n, v.a.names[n], ch[n])
  {
    hide WInv, Links, Tiles, Inds, InSome, Accounts, SameHeader, IsChain;
    ChainCount(v.a, ch);
    forall z | z in ch[n]
      ensures SameHeader(v.a.w, w, z) && z in Banks(v.a)
    {
      var i :| 0 <= i < |ch[n]| && ch[n][i] == z;
      ChainBank(v.a, ch, n, i);
      HeaderSeen(v.a, w, rec, z);
    }
    HeadSeen(v.a, w, rec, n);
    ChainFrame(v.a.w, w, Banks(v.a), Banks(v.a), v.a.base + n, v.a.names[n], ch[n]);
  }

  ghost function Hide0(w: seq<int>, rec: int): seq<int> {
    if 0 < rec < |w| then w[rec := 0] else w
  }

  /** The indices bosNdrop writes to: length word, link to the bank, handle of the link bank. */
  ghost predicate DropIndices(w: seq<int>, iwk: int, x: int, l: int, j: int) {
    && NHW <= x < iwk && 0 <= l < iwk && l != x && l != x - INR && iwk <= j < |w|
    && (w[j] == 0 || iwk <= w[j] < |w|)
  }

  /** The writes of bosNdrop, in the order in which they happen. */
  ghost function DropWritten(w: seq<int>, iwk: int, x: int, l: int, j: int, give: bool): seq<int>
    requires DropIndices(w, iwk, x, l, j)
  {
    var w1 := w[l := w[x - INXT]];
    var w2 := if give then w1 else w1[x := -(w[x] + NHW)];
    assert w2[j] == w[j];
    Emptied(w2, j)
  }

  lemma DropWrittenIs(w: seq<int>, iwk: int, x: int, l: int, j: int, give: bool)
    requires DropIndices(w, iwk, x, l, j)
    ensures var w1 := w[l := w[x - INXT]];
            var w2 := if give then w1 else w1[x := -(w[x] + NHW)];
            0 <= w2[j] < |w2| && DropWritten(w, iwk, x, l, j, give) == Emptied(w2, j)
  {
  }

  lemma DropHidden(w: seq<int>, iwk: int, x: int, l: int, j: int, give: bool, rec: int)
    requires DropIndices(w, iwk, x, l, j)
    requires 0 < rec < iwk ==> l != rec && x != rec && x - INXT != rec
    requires rec < iwk
    ensures DropIndices(Hide0(w, rec), iwk, x, l, j)
    ensures Hide0(DropWritten(w, iwk, x, l, j, give), rec) == DropWritten(Hide0(w, rec), iwk, x, l, j, give)
    ensures |DropWritten(w, iwk, x, l, j, give)| == |w|
    ensures 0 < rec < iwk ==> DropWritten(w, iwk, x, l, j, give)[rec] == w[rec]
  {
  }

  lemma DropTouches(v: Snapshot, ch: seq<seq<int>>, n: nat, k: nat)
    requires Sound(v, ch) && n < |ch| && k < |ch[n]|
    ensures DropIndices(v.a.w, v.a.iwk, ch[n][k], LinkOf(v.a.base + n, ch[n], k), v.idl + 1 + n)
    ensures v.a.w[ch[n][k]] >= 0 && ch[n][k] + 1 + v.a.w[ch[n][k]] <= v.a.igp <= v.a.iwk < |v.a.w|
  {
    hide WInv, Links, InSome, Accounts, Inds, Emptied, Chained;
    DropMarked(v.a, ch, n, k);
    ChainBank(v.a, ch, n, k);
    TilesApart(v.a.w, v.a.inm, v.a.igp);
    LinkNotLength(v.a, ch, n, k);
    ChainCount(v.a, ch);
    HandleInRange(v, ch, n);
  }

  lemma DropStateWords(v: Snapshot, ch: seq<seq<int>>, n: nat, k: nat, give: bool)
    requires Sound(v, ch) && n < |ch| && k < |ch[n]|
    requires DropIndices(v.a.w, v.a.iwk, ch[n][k], LinkOf(v.a.base + n, ch[n], k), v.idl + 1 + n)
    ensures var x, s := ch[n][k], v.a;
            var w := DropWritten(s.w, s.iwk, x, LinkOf(s.base + n, ch[n], k), v.idl + 1 + n, give);
            DropState(v, ch, n, k, give) == v.(a :=
              if give then s.(w := w, igp := s.igp - (s.w[x] + NHW))
              else s.(w := w, ndn := s.ndn + s.w[x] + NHW, ign := if s.ign < x then s.ign else x))
  {
    hide Sound, Emptied;
  }

  lemma RecApart(s: Area, rec: int, l: int, x: int)
    requires Layout(s) && rec in Banks(s) && x in Banks(s) && LinkPlace(s, l) && rec != x
    ensures s.inm <= rec < s.igp && l != rec && x != rec && x - INXT != rec && x - INR != rec
  {
    TilesApart(s.w, s.inm, s.igp);
  }

  /** Bank number `nr` is the `k`-th of chain `c`. */
  ghost predicate Found(w: seq<int>, c: seq<int>, nr: int, k: nat) {
    k < |c| && INR <= c[k] < |w| && w[c[k] - INR] == nr
  }

  lemma AbsentListing(v: Snapshot, ch: seq<seq<int>>, n: nat, k: nat, nr: int)
    requires Sound(v, ch) && n < |ch| && IsSlot(v.a.w, ch[n], nr, k) && !Found(v.a.w, ch[n], nr, k)
    ensures Listing(v, ch) == Listing(v, ch)[n := Delete(Listing(v, ch)[n], nr)]
  {
    hide WInv, Links, Tiles, Inds, InSome, Accounts;
    ListOf(v.a, ch, n);
    assert IsChain(v.a.w, Banks(v.a), v.a.base + n, v.a.names[n], ch[n]);
    forall i | 0 <= i < |ch[n]| ensures Meaning(v.a.w, ch)[n][i].nr != nr {
      if k < i { assert v.a.w[ch[n][k] - INR] < v.a.w[ch[n][i] - INR]; }
    }
    DeleteAbsent(Listing(v, ch)[n], nr);
  }

  /** The list of banks after a drop, whether or not there was a bank to drop. */
  ghost predicate DropResult(v: Snapshot, ch: seq<seq<int>>, v': Snapshot, ch': seq<seq<int>>, n: nat, nr: int)
    requires Sound(v, ch) && n < |ch|
  {
    Sound(v', ch') && Listing(v', ch') == Listing(v, ch)[n := Delete(Listing(v, ch)[n], nr)]
  }

  /** The bank is marked or given back, by the last-bank test of the source. */
  ghost function Gives(v: Snapshot, x: int, jw1: int): bool
    requires NHW <= x < |v.a.w|
  {
    jw1 != 1 && v.a.igp == x + v.a.w[x] + NHW - (NHW - 1)
  }

  lemma DropDone(v: Snapshot, ch: seq<seq<int>>, n: nat, k: nat, give: bool, nr: int, v': Snapshot)
    requires Sound(v, ch) && n < |ch| && Found(v.a.w, ch[n], nr, k) && NHW <= ch[n][k] < |v.a.w|
    requires give ==> ch[n][k] + 1 + v.a.w[ch[n][k]] == v.a.igp
    requires v' == DropState(v, ch, n, k, give)
    ensures DropResult(v, ch, v', ch[n := Remove(ch[n], k)], n, nr)
  {
    hide Sound, Listing, DropState;
    DropSound(v, ch, n, k, give);
  }

  /** The chain can be walked in the array as it is, though bank `rec` counts as empty. */
  lemma WalkReady(v: Snapshot, ch: seq<seq<int>>, w: seq<int>, rec: int, n: nat)
    requires Sound(v, ch) && n < |ch| && v.a.w == Hide0(w, rec)
    requires rec != 0 ==> 0 < rec < |w| && w[rec] >= 0 && rec in Banks(v.a)
    ensures |ch| == |v.a.names| && Layout(v.a)
    ensures IsChain(w, Banks(v.a), v.a.base + n, v.a.names[n], ch[n])
    ensures forall i :: 0 <= i < |ch[n]| ==> NHW <= ch[n][i] < |w| && v.a.w[ch[n][i] - INR] == w[ch[n][i] - INR]
  {
    hide WInv, Links, Tiles, InSome, Accounts;
    ChainCount(v.a, ch);
    assert IsChain(v.a.w, Banks(v.a), v.a.base + n, v.a.names[n], ch[n]);
    if rec != 0 {
      SeenChain(v, ch, w, rec, n);
      TilesApart(v.a.w, v.a.inm, v.a.igp);
    }
  }

  /** The link, the length word and the accounts after bosNdrop has found its bank. */
  method Unlink(b: BosArray, n: nat, indi: int, indj: int, jw1: int, ghost k: nat, ghost rec: int, ghost top: int)
    requires Sound(b.Seen(rec, top), b.ch) && n < |b.ch| && k < |b.ch[n]|
    requires indi == b.ch[n][k] && indj - INXT == LinkOf(b.base + n, b.ch[n], k)
    requires rec != 0 ==>
               && 0 < rec < b.w.Length && b.w[rec] >= 0 && jw1 == 1
               && Layout(b.Seen(rec, top).a) && rec in Banks(b.Seen(rec, top).a) && rec !in b.ch[n]
    modifies b, b.w
    ensures b.names == old(b.names) && b.iwk == old(b.iwk) && b.bits == old(b.bits) && b.jw1 == old(b.jw1)
    ensures b.ndw == old(b.ndw) && b.igw == old(b.igw) && b.ch == old(b.ch)
    ensures NHW <= indi < |old(b.Seen(rec, top)).a.w|
    ensures b.Seen(rec, top) == DropState(old(b.Seen(rec, top)), b.ch, n, k, Gives(old(b.Seen(rec, top)), indi, jw1))
    ensures rec != 0 ==> b.igp == old(b.igp) && b.w[rec] == old(b.w[rec])
  {
    hide Sound, Layout, DropState, Emptied, DropWritten, LinkOf;
    ghost var v, w0 := b.Seen(rec, top), b.w[..];
    ghost var l := LinkOf(b.base + n, b.ch[n], k);
    DropTouches(v, b.ch, n, k);
    RecTouches(v, b.ch, n, k, rec);
    ghost var give := Gives(v, indi, jw1);
    DropStateWords(v, b.ch, n, k, give);
    DropHidden(w0, b.iwk, indi, l, b.idl + 1 + n, give, rec);
    var ndif := b.w[indi] + NHW;
    var last := jw1 != 1 && b.igp == indi + ndif - (NHW - 1);
    WriteDrop(b.w, indi, indj, b.idl + 1 + n, last, b.iwk);
    if last {
      b.igp := b.igp - ndif;
    } else {
      b.ndn := b.ndn + ndif;
      b.ign := if b.ign < indi then b.ign else indi;
    }
  }

  /** The words that change: the link to the bank, its length unless it is given back, and the link bank. */
  method WriteDrop(w: array<int>, indi: int, indj: int, jnd: int, last: bool, ghost iwk: int)
    requires DropIndices(w[..], iwk, indi, indj - INXT, jnd)
    modifies w
    ensures w[..] == DropWritten(old(w[..]), iwk, indi, indj - INXT, jnd, last)
  {
    ghost var w0 := w[..];
    w[indj - INXT] := w[indi - INXT];
    if !last {
      w[indi] := -(w[indi] + NHW);
    }
    DropWrittenIs(w0, iwk, indi, indj - INXT, jnd, last);
    ResetLink(w, jnd);
  }

  lemma RecTouches(v: Snapshot, ch: seq<seq<int>>, n: nat, k: nat, rec: int)
    requires Sound(v, ch) && n < |ch| && k < |ch[n]|
    requires rec != 0 ==> Layout(v.a) && rec in Banks(v.a) && rec !in ch[n]
    ensures rec != 0 ==>
              var l, x := LinkOf(v.a.base + n, ch[n], k), ch[n][k];
              rec < v.a.iwk && l != rec && x != rec && x - INXT != rec && x - INR != rec
  {
    hide WInv, Links, InSome, Accounts, Tiles;
    if rec != 0 {
      ChainBank(v.a, ch, n, k);
      LinkOfPlace(v.a, ch, n, k);
      RecApart(v.a, rec, LinkOf(v.a.base + n, ch[n], k), ch[n][k]);
    }
  }

  lemma GivesLast(v: Snapshot, ch: seq<seq<int>>, n: nat, k: nat, jw1: int)
    requires Sound(v, ch) && n < |ch| && k < |ch[n]| && NHW <= ch[n][k] < |v.a.w|
    ensures Gives(v, ch[n][k], jw1) ==> ch[n][k] + 1 + v.a.w[ch[n][k]] == v.a.igp
  {
  }

  /**
   What bosNdrop does to the array: bank `nr` of the n-th name, if there is one, is unlinked
   and marked or given back, its link bank is emptied; the lists lose that bank and no other.
   */
  ghost predicate AfterDrop(v: Snapshot, ch: seq<seq<int>>, v': Snapshot, ch': seq<seq<int>>,
                            n: nat, nr: int, k: nat, jw1: int)
    requires Sound(v, ch) && n < |ch|
  {
    && IsSlot(v.a.w, ch[n], nr, k)
    && (if Found(v.a.w, ch[n], nr, k)
        then ch' == ch[n := Remove(ch[n], k)] && NHW <= ch[n][k] < |v.a.w|
             && v' == DropState(v, ch, n, k, Gives(v, ch[n][k], jw1))
        else ch' == ch && v' == v)
    && DropResult(v, ch, v', ch', n, nr)
  }

  lemma AfterDropIs(v: Snapshot, ch: seq<seq<int>>, v': Snapshot, ch': seq<seq<int>>, n: nat, nr: int, k: nat, jw1: int)
    requires Sound(v, ch) && n < |ch| && AfterDrop(v, ch, v', ch', n, nr, k, jw1)
    ensures Sound(v', ch') && Listing(v', ch') == Listing(v, ch)[n := Delete(Listing(v, ch)[n], nr)]
  {
    hide Sound, Listing;
  }

  /** The named area does not grow. */
  lemma AfterDropGap(v: Snapshot, ch: seq<seq<int>>, v': Snapshot, ch': seq<seq<int>>, n: nat, nr: int, k: nat,
                     jw1: int)
    requires Sound(v, ch) && n < |ch| && AfterDrop(v, ch, v', ch', n, nr, k, jw1)
    ensures v'.a.igp <= v.a.igp
  {
    hide Sound, Listing;
    if Found(v.a.w, ch[n], nr, k) { GivenLess(v, ch, n, k, Gives(v, ch[n][k], jw1)); }
  }

  lemma GivenLess(v: Snapshot, ch: seq<seq<int>>, n: nat, k: nat, give: bool)
    requires Sound(v, ch) && n < |ch| && k < |ch[n]|
    ensures DropState(v, ch, n, k, give).a.igp <= v.a.igp
  {
    hide WInv, Links, Accounts, InSome;
    ChainBank(v.a, ch, n, k);
    DropMarked(v.a, ch, n, k);
  }

  lemma AfterDropFound(v: Snapshot, ch: seq<seq<int>>, v': Snapshot, n: nat, nr: int, k: nat, jw1: int)
    requires Sound(v, ch) && n < |ch| && IsSlot(v.a.w, ch[n], nr, k) && Found(v.a.w, ch[n], nr, k)
    requires NHW <= ch[n][k] < |v.a.w|
    requires v' == DropState(v, ch, n, k, Gives(v, ch[n][k], jw1))
    ensures AfterDrop(v, ch, v', ch[n := Remove(ch[n], k)], n, nr, k, jw1)
  {
    hide Sound, DropState, Gives, DropResult;
    GivesLast(v, ch, n, k, jw1);
    DropDone(v, ch, n, k, Gives(v, ch[n][k], jw1), nr, v');
  }

  lemma AfterDropAbsent(v: Snapshot, ch: seq<seq<int>>, n: nat, nr: int, k: nat, jw1: int)
    requires Sound(v, ch) && n < |ch| && IsSlot(v.a.w, ch[n], nr, k) && !Found(v.a.w, ch[n], nr, k)
    ensures AfterDrop(v, ch, v, ch, n, nr, k, jw1)
  {
    hide Sound, Listing;
    AbsentListing(v, ch, n, k, nr);
  }

  /**
   Drops bank `nr` of name `nama`, if there is one (bosNdrop).  Inside bosins bank `rec`
   is still being taken apart; then `jw1 == 1` and the bank is always marked, never given back.
   */
  method Ndrop(b: BosArray, nama: int, nr: int, ghost rec: int, ghost top: int) returns (ghost k: nat)
    requires Sound(b.Seen(rec, top), b.ch) && |b.names| == |b.ch|
    requires nama in b.names ==> Apartly(b, rec, top, NameIndex(b.names, nama))
    modifies b, b.w
    ensures b.names == old(b.names) && b.iwk == old(b.iwk) && b.bits == old(b.bits) && b.jw1 == 0
    ensures b.ndw == old(b.ndw) && b.igw == old(b.igw)
    ensures nama !in b.names ==> b.Seen(rec, top) == old(b.Seen(rec, top)) && b.ch == old(b.ch)
    ensures nama in b.names ==>
              AfterDrop(old(b.Seen(rec, top)), old(b.ch), b.Seen(rec, top), b.ch,
                        NameIndex(b.names, nama), nr, k, old(b.jw1))
    ensures rec != 0 && nama in b.names ==> b.igp == old(b.igp) && b.w[rec] == old(b.w[rec])
  {
    hide Sound, Layout, DropState, AfterDrop, Gives, IsChain, LinkOf;
    var jw1 := b.jw1;
    b.jw1 := 0;
    var n := NameIndex(b.names, nama);
    if n == |b.names| {
      k := 0;
      return;
    }
    ghost var v, ch := b.Seen(rec, top), b.ch;
    WalkReady(v, ch, b.w[..], rec, n);
    var nlpl, indi, indj;
    nlpl, indi, indj, k := Nindex(b.w, nr, b.base + n, Banks(v.a), nama, ch[n]);
    if indi != 0 {
      Unlink(b, n, indi, indj, jw1, k, rec, top);
      AfterDropFound(v, ch, b.Seen(rec, top), n, nr, k, jw1);
      b.ch := ch[n := Remove(ch[n], k)];
    } else {
      AfterDropAbsent(v, ch, n, nr, k, jw1);
    }
  }
}
