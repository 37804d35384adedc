/**
 What the header of a bank does that is written where there may be no room for it (et2bos.c:83-91):
 five words from `start` on, the gap ending at `iwk`.
 */
module GapEnds {
  import opened BankLayout
  import opened NamedArea
  import opened WorkArea
  import opened LinkTables
  import opened BosArrays
  import opened EtWriting

  const FIVE := NHW - 1

  /** The words from `iwk` on stay as they are, whatever is written, if and only if five words are left. */
  lemma FiveWords(w: seq<int>, start: int, iwk: int)
    requires 0 <= start <= iwk < |w| && start + FIVE <= |w|
    ensures (forall h: seq<int> :: |h| == FIVE ==> Overwritten(w, start, h)[iwk..] == w[iwk..]) <==> start + FIVE <= iwk
  {
    if start + FIVE > iwk {
      var h := seq(FIVE, _ => w[iwk] + 1);
      assert Overwritten(w, start, h)[iwk..][0] != w[iwk..][0];
    } else {
      forall h: seq<int> | |h| == FIVE ensures Overwritten(w, start, h)[iwk..] == w[iwk..] {
      }
    }
  }

  /** Only words of the lowest work bank that say its columns, rows and name differ, or of a system bank's header. */
  ghost predicate LowWords(v: Snapshot, w': seq<int>) {
    && |w'| == |v.a.w|
    && forall i :: 0 <= i < |w'| && !(v.a.igp <= i < v.a.iwk + if v.a.iwk < v.fix then INAM else FIVE) ==>
        w'[i] == v.a.w[i]
  }

  lemma {:induction false} LowWork(v: Snapshot, w': seq<int>)
    requires WInv(WorkOf(v)) && LowWords(v, w') && 0 < v.a.base <= v.a.igp <= v.a.iwk
    ensures WInv(WorkOf(v.(a := v.a.(w := w')))) && WBanks(WorkOf(v.(a := v.a.(w := w')))) == WBanks(WorkOf(v))
  {
    var k, k' := WorkOf(v), WorkOf(v.(a := v.a.(w := w')));
    WTilesApart(k.w, k.iwk, k.fix);
    WTilesFrame(k.w, k'.w, k.iwk, k.fix);
    forall x | x in WBanks(k') ensures WBank(k', x) {
      assert WBank(k, x);
    }
  }

  /** No number of a named bank is among such words. */
  lemma LowNumbers(v: Snapshot, ch: seq<seq<int>>, w': seq<int>)
    requires Inv(v.a, ch) && LowWords(v, w') && |w'| == |v.a.w|
    ensures forall m, i :: 0 <= m < |ch| && 0 <= i < |ch[m]| ==>
        INR <= ch[m][i] < |v.a.w| && w'[ch[m][i] - INR] == v.a.w[ch[m][i] - INR]
  {
    hide LowWords, Accounts, Chained, Tiles;
    forall m, i | 0 <= m < |ch| && 0 <= i < |ch[m]|
      ensures INR <= ch[m][i] < |v.a.w| && w'[ch[m][i] - INR] == v.a.w[ch[m][i] - INR]
    {
      ChainBank(v.a, ch, m, i);
      BankBelow(v.a, ch[m][i]);
      LowBelow(v, w', ch[m][i] - INR);
    }
  }

  lemma BankBelow(s: Area, x: int)
    requires Layout(s) && x in Banks(s)
    ensures NHW <= x < s.igp && s.igp < |s.w|
  {
    TilesApart(s.w, s.inm, s.igp);
  }

  lemma LowBelow(v: Snapshot, w': seq<int>, i: int)
    requires LowWords(v, w') && 0 <= i < v.a.igp && i < |v.a.w|
    ensures |w'| == |v.a.w| && w'[i] == v.a.w[i]
  {
  }

  lemma LowLinks(v: Snapshot, ch: seq<seq<int>>, w': seq<int>)
    requires Sound(v, ch) && LowWords(v, w') && v.fix + NHW <= v.idl + 1
    ensures var k' := WorkOf(v.(a := v.a.(w := w'))); WInv(k') && Links(k', v.idl, v.a.cap, ch)
  {
    hide Inv, WTiles, WInds, WDropSum, WTop, WBank, LinkBank;
    var k, k' := WorkOf(v), WorkOf(v.(a := v.a.(w := w')));
    InvBounds(v.a, ch);
    LowWork(v, w');
    LowNumbers(v, ch, w');
    forall n: nat | n < v.a.cap ensures LinkState(k', v.idl, ch, n) {
      assert LinkState(k, v.idl, ch, n);
      LowLink(k, k', v.idl + 1 + n, if n < |ch| then ch[n] else []);
    }
  }

  /** Such words are not looked at: the array stays in order. */
  lemma LowSound(v: Snapshot, ch: seq<seq<int>>, w': seq<int>)
    requires Sound(v, ch) && LowWords(v, w') && v.fix + NHW <= v.idl + 1
    ensures Sound(v.(a := v.a.(w := w')), ch) && Listing(v.(a := v.a.(w := w')), ch) == Listing(v, ch)
  {
    hide WInv, Links, Accounts, Chained, Tiles;
    var a, s0 := v.a.(w := w'), v.a.(iwk := v.a.igp);
    InvBounds(v.a, ch);
    LowLinks(v, ch, w');
    InvFrame(v.a, a, ch);
    InvFrame(v.a, s0, ch);
    assert w'[..v.a.igp] == v.a.w[..v.a.igp];
    SameListing(s0, w', ch);
  }

  lemma LowLink(k: Work, k': Work, l: int, c: seq<int>)
    requires WInv(k) && WLayout(k') && WBanks(k') == WBanks(k) && LinkBank(k, l, c) && |k'.w| == |k.w|
    requires k'.w[l] == k.w[l]
    requires k.iwk < k.fix ==> forall i :: k.iwk + INAM <= i < |k.w| ==> k'.w[i] == k.w[i]
    requires forall i :: 0 <= i < |c| ==> INR <= c[i] < |k.w| && k'.w[c[i] - INR] == k.w[c[i] - INR]
    ensures LinkBank(k', l, c)
  {
    hide WTiles, WInds, WDropSum, WTop, WBank, Table;
    var x := k.w[l];
    if x != 0 {
      LowestOf(k, x);
      if k.w[x] != 0 { TableSame(k.w, k'.w, x, c); }
    }
  }

  lemma LowestOf(k: Work, x: int)
    requires WInv(k) && x in WBanks(k)
    ensures k.iwk < k.fix && k.iwk + NHW - 1 <= x < k.fix
  {
    WTilesApart(k.w, k.iwk, k.fix);
  }

  lemma TableSame(w: seq<int>, w': seq<int>, x: int, c: seq<int>)
    requires Table(w, x, c) && |w'| == |w| && forall i :: x <= i < |w| ==> w'[i] == w[i]
    requires forall i :: 0 <= i < |c| ==> INR <= c[i] < |w| && w'[c[i] - INR] == w[c[i] - INR]
    ensures Table(w', x, c)
  {
  }

  lemma {:induction false} NoDropped(w: seq<int>, p: int, e: int)
    requires WTiles(w, p, e)
    ensures WDropSum(w, p, e) >= 0
    ensures p < e && WDropSum(w, p, e) == 0 ==> w[p + NHW - 1] >= 0
    decreases e - p
  {
    if p < e { NoDropped(w, p + w[p + NHW - 1 - INR], e); }
  }

  /**
   With fewer than two words left the header reaches the size of the lowest work bank: the tiling, or the
   way from the handle to the bank, is lost.
   */
  lemma HeaderBreaks(v: Snapshot, ch: seq<seq<int>>, ch': seq<seq<int>>, start: int, h: seq<int>)
    requires Sound(v, ch) && v.ndw == 0 && v.a.iwk < v.fix && 0 <= start <= v.a.iwk < start + 2
    requires |h| == FIVE && h[FIVE - 1] == 0 && start + FIVE <= |v.a.w|
    ensures !Sound(v.(a := v.a.(w := Overwritten(v.a.w, start, h))), ch')
  {
    hide Inv, Links;
    var w' := Overwritten(v.a.w, start, h);
    var k, k', x := WorkOf(v), WorkOf(v.(a := v.a.(w := w'))), v.a.iwk + NHW - 1;
    NoDropped(k.w, k.iwk, k.fix);
    assert w'[start + FIVE - 1] == 0 && w'[x] == v.a.w[x] >= 0;
    if WInv(k') { LowestBank(k', x); }
  }

  lemma LowestBank(k: Work, x: int)
    requires WInv(k) && k.iwk < k.fix && x == k.iwk + NHW - 1
    ensures k.w[x - INR] >= NHW && (k.w[x] >= 0 ==> k.w[x - INXT] != 0)
  {
    assert x in WBanks(k);
    assert WBank(k, x);
  }

  /** After the header the array is in order if and only if two words were left, or there is no work bank. */
  lemma HeaderOrder(v: Snapshot, ch: seq<seq<int>>, start: int, h: seq<int>)
    requires Sound(v, ch) && v.ndw == 0 && v.fix + NHW <= v.idl + 1 && v.a.igp <= start <= v.a.iwk
    requires |h| == FIVE && h[FIVE - 1] == 0 && start + FIVE <= |v.a.w|
    ensures var v' := v.(a := v.a.(w := Overwritten(v.a.w, start, h)));
            && (Sound(v', ch) <==> start + 2 <= v.a.iwk || v.a.iwk == v.fix)
            && (Sound(v', ch) ==> Listing(v', ch) == Listing(v, ch))
            && (start + FIVE <= v.a.iwk ==> v'.a.w[v.a.iwk..] == v.a.w[v.a.iwk..])
  {
    hide Sound, Listing;
    AreaEnds(v, ch);
    var w' := Overwritten(v.a.w, start, h);
    if start + 2 <= v.a.iwk || v.a.iwk == v.fix {
      LowSound(v, ch, w');
    } else {
      HeaderBreaks(v, ch, ch, start, h);
    }
  }

  lemma AreaEnds(v: Snapshot, ch: seq<seq<int>>)
    requires Sound(v, ch)
    ensures 0 < v.a.igp <= v.a.iwk <= v.fix < |v.a.w|
  {
  }
}
