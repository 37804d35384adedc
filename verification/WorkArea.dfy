/**
 The work-bank area as a value (boswcrea.c, boswdrop.c).

 Work banks tile `[iwk, fix)`; `[fix, njw]` holds the system banks made at initialisation,
 which never move.  The number word `w[x - INR]` of a work bank is its total size, its
 next-index word `w[x - INXT]` is the index of the word that holds its handle.
 */
module WorkArea {
  import opened BankLayout

  datatype Work = Work(w: seq<int>, base: int, inm: int, iwk: int, fix: int, njw: int, ndw: int, igw: int)

  ghost predicate WTiles(w: seq<int>, p: int, e: int)
    decreases e - p
  {
    && 0 <= p <= e <= |w|
    && (p < e ==>
          && p + NHW <= e
          && w[p + NHW - 1 - INR] >= NHW
          && WTiles(w, p + w[p + NHW - 1 - INR], e))
  }

  ghost function WInds(w: seq<int>, p: int, e: int): (b: set<int>)
    requires WTiles(w, p, e)
    ensures forall x :: x in b ==> p + NHW - 1 <= x < e
    decreases e - p
  {
    if p == e then {} else {p + NHW - 1} + WInds(w, p + w[p + NHW - 1 - INR], e)
  }

  /** Words of the dropped work banks of `[p, e)`. */
  ghost function WDropSum(w: seq<int>, p: int, e: int): int
    requires WTiles(w, p, e)
    decreases e - p
  {
    if p == e then 0
    else
      var x := p + NHW - 1;
      (if w[x] < 0 then w[x - INR] else 0) + WDropSum(w, p + w[x - INR], e)
  }

  /** End of the highest dropped work bank of `[p, e)`, or zero. */
  ghost function WTop(w: seq<int>, p: int, e: int): int
    requires WTiles(w, p, e)
    decreases e - p
  {
    if p == e then 0
    else
      var x := p + NHW - 1;
      var t := WTop(w, p + w[x - INR], e);
      if t == 0 && w[x] < 0 then p + w[x - INR] else t
  }

  /** Words in which handles of work banks are kept: system words and words of system banks. */
  ghost predicate Zone(k: Work, l: int) {
    0 < l < k.base || k.fix <= l <= k.njw
  }

  /** A dropped bank holds minus its size; a live one fits and is known to its handle. */
  ghost predicate WBank(k: Work, x: int)
    requires NHW <= x < |k.w|
  {
    if k.w[x] < 0 then k.w[x] == -k.w[x - INR]
    else
      && k.w[x] <= k.w[x - INR] - NHW
      && Zone(k, k.w[x - INXT]) && 0 <= k.w[x - INXT] < |k.w| && k.w[k.w[x - INXT]] == x
  }

  ghost predicate WLayout(k: Work) {
    && 0 < k.base <= k.inm <= k.iwk <= k.fix <= k.njw && |k.w| == k.njw + 1
    && WTiles(k.w, k.iwk, k.fix)
  }

  ghost function WBanks(k: Work): set<int>
    requires WLayout(k)
  {
    WInds(k.w, k.iwk, k.fix)
  }

  ghost predicate WInv(k: Work) {
    && WLayout(k)
    && (forall x :: x in WBanks(k) ==> WBank(k, x))
    && k.ndw == WDropSum(k.w, k.iwk, k.fix)
    && k.igw == WTop(k.w, k.iwk, k.fix)
  }

  ghost predicate WApart(w: seq<int>, b: set<int>, p: int, e: int) {
    && 0 <= p && e <= |w|
    && (forall x :: x in b ==>
          p + NHW - 1 <= x < e && w[x - INR] >= NHW && x - (NHW - 1) + w[x - INR] <= e)
    && (forall x, y :: x in b && y in b && x < y ==> x + w[x - INR] <= y)
  }

  lemma {:induction false} WTilesApart(w: seq<int>, p: int, e: int)
    requires WTiles(w, p, e)
    ensures WApart(w, WInds(w, p, e), p, e)
    decreases e - p
  {
    if p < e {
      WTilesApart(w, p + w[p + NHW - 1 - INR], e);
    }
  }

  /** The tiling reads sizes, the accounts also read which banks are dropped. */
  lemma {:induction false} WTilesFrame(w: seq<int>, w': seq<int>, p: int, e: int)
    requires WTiles(w, p, e) && e <= |w'|
    requires forall x :: x in WInds(w, p, e) ==>
               x < |w'| && w'[x - INR] == w[x - INR] && (w'[x] < 0 <==> w[x] < 0)
    ensures WTiles(w', p, e)
    ensures WInds(w', p, e) == WInds(w, p, e)
    ensures WDropSum(w', p, e) == WDropSum(w, p, e) && WTop(w', p, e) == WTop(w, p, e)
    decreases e - p
  {
    if p < e {
      assert p + NHW - 1 in WInds(w, p, e);
      WTilesFrame(w, w', p + w[p + NHW - 1 - INR], e);
    }
  }

  /** Words outside the named area, and which work banks are in use, decide the work area. */
  lemma WFrame(k: Work, k': Work)
    requires WInv(k) && k' == k.(w := k'.w) && |k'.w| == |k.w|
    requires forall i :: 0 <= i < k.base || k.iwk <= i < |k.w| ==> k'.w[i] == k.w[i]
    ensures WInv(k') && WBanks(k') == WBanks(k)
  {
    WTilesFrame(k.w, k'.w, k.iwk, k.fix);
    forall x | x in WBanks(k') ensures WBank(k', x) {
      assert WBank(k, x);
    }
  }

  /** Emptying a live work bank keeps the invariant. */
  lemma WEmpty(k: Work, x: int)
    requires WInv(k) && x in WBanks(k) && k.w[x] >= 0
    ensures WInv(k.(w := k.w[x := 0])) && WBanks(k.(w := k.w[x := 0])) == WBanks(k)
  {
    hide WTiles, WInds, WDropSum, WTop;
    var k' := k.(w := k.w[x := 0]);
    WEmptyTiles(k, x);
    forall y | y in WBanks(k') ensures WBank(k', y) {
      assert WBank(k, y) && WBank(k, x);
    }
  }

  lemma WEmptyTiles(k: Work, x: int)
    requires WLayout(k) && x in WBanks(k) && k.w[x] >= 0
    ensures var k' := k.(w := k.w[x := 0]);
            && WLayout(k') && WBanks(k') == WBanks(k)
            && WDropSum(k'.w, k.iwk, k.fix) == WDropSum(k.w, k.iwk, k.fix)
            && WTop(k'.w, k.iwk, k.fix) == WTop(k.w, k.iwk, k.fix)
    ensures forall y :: y in WBanks(k) ==>
              NHW <= y < |k.w| && y - INXT != x && y - INR != x && k.w[y - INR] >= NHW && k.iwk <= x < k.fix
  {
    WTilesApart(k.w, k.iwk, k.fix);
    WTilesFrame(k.w, k.w[x := 0], k.iwk, k.fix);
  }
}
