/**
 Growing, creating and dropping work banks: what happens to the work area as a value
 (boswcrea.c, boswdrop.c).
 */
module WorkBanks {
  import opened BankLayout
  import opened WorkArea
  import opened Slices

  // ---- Tilings ---------------------------------------------------------------------------------

  lemma {:induction false} WTilesConcat(w: seq<int>, p: int, m: int, e: int)
    requires WTiles(w, p, m) && WTiles(w, m, e)
    ensures WTiles(w, p, e)
    ensures WInds(w, p, e) == WInds(w, p, m) + WInds(w, m, e)
    ensures WDropSum(w, p, e) == WDropSum(w, p, m) + WDropSum(w, m, e)
    ensures WTop(w, p, e) == if WTop(w, m, e) != 0 then WTop(w, m, e) else WTop(w, p, m)
    decreases m - p
  {
    if p < m {
      WTilesConcat(w, p + w[p + NHW - 1 - INR], m, e);
    }
  }

  lemma {:induction false} WTilesSplit(w: seq<int>, p: int, x: int, e: int)
    requires WTiles(w, p, e) && x in WInds(w, p, e)
    ensures WTiles(w, p, x - (NHW - 1)) && WTiles(w, x - (NHW - 1), e)
    decreases e - p
  {
    if x != p + NHW - 1 {
      WTilesSplit(w, p + w[p + NHW - 1 - INR], x, e);
    }
  }

  lemma WTilesOne(w: seq<int>, p: int)
    requires 0 <= p && p + NHW <= |w| && w[p + NHW - 1 - INR] >= NHW && p + w[p + NHW - 1 - INR] <= |w|
    ensures var x, e := p + NHW - 1, p + w[p + NHW - 1 - INR];
            && WTiles(w, p, e) && WInds(w, p, e) == {x}
            && WDropSum(w, p, e) == (if w[x] < 0 then w[x - INR] else 0)
            && WTop(w, p, e) == if w[x] < 0 then e else 0
  {
    var e := p + w[p + NHW - 1 - INR];
    assert WTiles(w, e, e);
  }

  lemma WFirst(w: seq<int>, p: int, e: int)
    requires WTiles(w, p, e) && p < e
    ensures 0 <= p && p + NHW <= e <= |w| && w[p + NHW - 1 - INR] >= NHW
    ensures var m := p + w[p + NHW - 1 - INR];
            p < m <= e && WTiles(w, p, m) && WTiles(w, m, e) && p + NHW - 1 in WInds(w, p, e)
            && WInds(w, p, m) == {p + NHW - 1}
  {
    WTilesOne(w, p);
  }

  /** The banks before `x`, `x` itself, and those behind it. */
  lemma WTilesAround(w: seq<int>, p: int, x: int, e: int)
    requires WTiles(w, p, e) && x in WInds(w, p, e)
    ensures p + NHW - 1 <= x < |w| && w[x - INR] >= NHW
    ensures var q, r := x - (NHW - 1), x - (NHW - 1) + w[x - INR];
            && r <= e && WTiles(w, p, q) && WTiles(w, r, e)
            && WInds(w, p, e) == WInds(w, p, q) + {x} + WInds(w, r, e)
            && WDropSum(w, p, e) == WDropSum(w, p, q) + (if w[x] < 0 then w[x - INR] else 0) + WDropSum(w, r, e)
            && WTop(w, p, e) == (if WTop(w, r, e) != 0 then WTop(w, r, e) else if w[x] < 0 then r else WTop(w, p, q))
  {
    var q := x - (NHW - 1);
    WTilesSplit(w, p, x, e);
    WFirst(w, q, e);
    WTilesOne(w, q);
    WTilesConcat(w, q, q + w[x - INR], e);
    WTilesConcat(w, p, q, e);
  }

  lemma {:induction false} WTopBounds(w: seq<int>, p: int, e: int)
    requires WTiles(w, p, e)
    ensures WTop(w, p, e) == 0 || p < WTop(w, p, e) <= e
    ensures WTop(w, p, e) == 0 ==> WDropSum(w, p, e) == 0
    ensures 0 <= WDropSum(w, p, e)
    decreases e - p
  {
    if p < e { WTopBounds(w, p + w[p + NHW - 1 - INR], e); }
  }

  /** Banks moved down by `g` words tile as before. */
  lemma {:induction false} WTilesShift(w: seq<int>, w': seq<int>, p: int, e: int, g: int)
    requires WTiles(w, p, e) && 0 <= g <= p && e - g <= |w'|
    requires forall i :: p <= i < e ==> w'[i - g] == w[i]
    ensures WTiles(w', p - g, e - g)
    ensures WInds(w', p - g, e - g) == set x | x in WInds(w, p, e) :: x - g
    ensures WDropSum(w', p - g, e - g) == WDropSum(w, p, e)
    ensures WTop(w', p - g, e - g) == if WTop(w, p, e) == 0 then 0 else WTop(w, p, e) - g
    decreases e - p
  {
    if p < e {
      var q := p + w[p + NHW - 1 - INR];
      WTopBounds(w, q, e);
      WTopBounds(w, p, e);
      assert w'[p + NHW - 1 - INR - g] == w[p + NHW - 1 - INR];
      WTilesShift(w, w', q, e, g);
      assert forall x :: x in WInds(w, p, e) <==> x == p + NHW - 1 || x in WInds(w, q, e);
    }
  }

  // ---- Handles ------------------------------------------------------------------------------------

  /** Bank `y`, if live, is known to its handle, which has it `off` words above where it is. */
  ghost predicate HandleFinds(w: seq<int>, y: int, base: int, fix: int, off: int) {
    && 0 <= base <= y - INR && y < fix && y < |w|
    && (w[y] >= 0 ==>
          && 0 <= w[y - INXT] < |w| && (w[y - INXT] < base || fix <= w[y - INXT])
          && w[w[y - INXT]] == y + off)
  }

  ghost predicate HandlesFind(w: seq<int>, b: set<int>, base: int, fix: int, off: int) {
    forall y :: y in b ==> HandleFinds(w, y, base, fix, off)
  }

  /** Word `i` is the same, or it is the handle of a live bank of `b` and leads there. */
  ghost predicate SetAt(w: seq<int>, w': seq<int>, b: set<int>, i: int)
    requires 0 <= i < |w| == |w'|
  {
    w'[i] == w[i] || (w'[i] in b && INXT <= w'[i] < |w| && w[w'[i]] >= 0 && w[w'[i] - INXT] == i)
  }

  ghost predicate Known(w: seq<int>, w': seq<int>, y: int)
    requires |w'| == |w|
  {
    INXT <= y < |w| && w[y] >= 0 && 0 <= w[y - INXT] < |w| ==> w'[w[y - INXT]] == y
  }

  /** `w'` is `w` with the handles of the live banks of `b` set to where they are. */
  ghost predicate HandlesSet(w: seq<int>, w': seq<int>, b: set<int>, base: int, fix: int) {
    && |w'| == |w|
    && (forall i :: base <= i < fix && 0 <= i < |w| ==> w'[i] == w[i])
    && (forall y :: y in b ==> Known(w, w', y))
    && (forall i :: 0 <= i < |w| ==> SetAt(w, w', b, i))
  }

  lemma NoHandle(w: seq<int>, w': seq<int>, b: set<int>, all: set<int>, jd: int, base: int, fix: int, g: int)
    requires HandlesFind(w, all, base, fix, g) && HandlesSet(w, w', b, base, fix)
    requires jd in all && b <= all && 0 <= jd < |w| && w[jd] < 0
    ensures HandlesSet(w, w', b + {jd}, base, fix)
  {
    forall i | 0 <= i < |w| ensures SetAt(w, w', b + {jd}, i) {
      assert SetAt(w, w', b, i);
    }
  }

  lemma OneHandle(w: seq<int>, w': seq<int>, b: set<int>, all: set<int>, jd: int, base: int, fix: int, g: int)
    requires HandlesFind(w, all, base, fix, g) && HandlesSet(w, w', b, base, fix)
    requires jd in all && b <= all && 0 <= jd < |w| && w[jd] >= 0
    ensures INXT <= jd && 0 <= w[jd - INXT] < |w'|
    ensures HandlesSet(w, w'[w[jd - INXT] := jd], b + {jd}, base, fix)
  {
    assert HandleFinds(w, jd, base, fix, g);
    var w2 := w'[w[jd - INXT] := jd];
    forall y | y in b + {jd} ensures Known(w, w2, y) {
      assert HandleFinds(w, y, base, fix, g);
      if y != jd { assert Known(w, w', y); }
    }
    forall i | 0 <= i < |w| ensures SetAt(w, w2, b + {jd}, i) {
      assert SetAt(w, w', b, i);
    }
  }

  /** The next bank of a tiling that has been walked up to `m`. */
  lemma NextTile(w: seq<int>, p: int, m: int, e: int)
    requires WTiles(w, p, m) && WTiles(w, m, e) && m < e && WTiles(w, p, e)
    ensures 0 <= p && m + NHW <= e <= |w| && w[m + NHW - 1 - INR] >= NHW
    ensures var m' := m + w[m + NHW - 1 - INR];
            && m < m' <= e && WTiles(w, p, m') && WTiles(w, m', e)
            && WInds(w, p, m') == WInds(w, p, m) + {m + NHW - 1}
            && WInds(w, p, m') <= WInds(w, p, e)
  {
    WFirst(w, m, e);
    var m' := m + w[m + NHW - 1 - INR];
    WTilesConcat(w, p, m, m');
    WTilesConcat(w, p, m', e);
  }

  /** Every live work bank in front of `id` writes its index into its handle. */
  method SetHandles(w: array<int>, p: int, id: int, ghost base: int, ghost fix: int, ghost g: int)
    requires 0 <= base <= p <= id - (NHW - 1) <= fix && WTiles(w[..], p, id - (NHW - 1))
    requires HandlesFind(w[..], WInds(w[..], p, id - (NHW - 1)), base, fix, g)
    modifies w
    ensures WTiles(old(w[..]), p, id - (NHW - 1))
    ensures HandlesSet(old(w[..]), w[..], WInds(old(w[..]), p, id - (NHW - 1)), base, fix)
  {
    hide WTiles, WInds, HandlesSet, HandlesFind;
    ghost var w0, e := w[..], id - (NHW - 1);
    ghost var all := WInds(w0, p, e);
    ghost var m := p;
    WTilesRange(w0, p, e);
    NoneSet(w0, p, base, fix);
    var jd := p + (NHW - 1);
    while jd < id
      invariant jd == m + NHW - 1 && m <= e && WTiles(w0, p, m) && WTiles(w0, m, e)
      invariant HandlesSet(w0, w[..], WInds(w0, p, m), base, fix) && WInds(w0, p, m) <= all
      decreases e - m
    {
      NextTile(w0, p, m, e);
      HandleAt(w0, w[..], WInds(w0, p, m), all, jd, base, fix, g);
      if w[jd] >= 0 {
        OneHandle(w0, w[..], WInds(w0, p, m), all, jd, base, fix, g);
        w[w[jd - INXT]] := jd;
      } else {
        NoHandle(w0, w[..], WInds(w0, p, m), all, jd, base, fix, g);
      }
      ghost var step := w0[jd - INR];
      HandleAt2(w0, w[..], WInds(w0, p, m) + {jd}, all, jd, base, fix, g);
      jd := jd + w[jd - INR];
      m := m + step;
    }
  }

  lemma WTilesRange(w: seq<int>, p: int, e: int)
    requires WTiles(w, p, e)
    ensures 0 <= p <= e <= |w|
  {
  }

  lemma NoneSet(w: seq<int>, p: int, base: int, fix: int)
    requires 0 <= p <= |w|
    ensures WTiles(w, p, p) && WInds(w, p, p) == {} && HandlesSet(w, w, {}, base, fix)
  {
  }

  lemma HandleAt2(w: seq<int>, w': seq<int>, b: set<int>, all: set<int>, jd: int, base: int, fix: int, g: int)
    requires HandlesFind(w, all, base, fix, g) && HandlesSet(w, w', b, base, fix) && jd in all
    ensures INR <= jd < |w| == |w'| && w'[jd - INR] == w[jd - INR]
  {
    assert HandleFinds(w, jd, base, fix, g);
  }

  lemma HandleAt(w: seq<int>, w': seq<int>, b: set<int>, all: set<int>, jd: int, base: int, fix: int, g: int)
    requires HandlesFind(w, all, base, fix, g) && HandlesSet(w, w', b, base, fix) && 0 <= base && jd in all
    ensures INR <= jd < |w| == |w'| && w'[jd] == w[jd] && w'[jd - INXT] == w[jd - INXT]
    ensures w[jd] >= 0 ==> 0 <= w[jd - INXT] < |w|
  {
    assert HandleFinds(w, jd, base, fix, g);
  }

  // ---- Growing a bank -------------------------------------------------------------------------------

  /**
   Bank `x` of the banks that start at `p` has been given `nd` data words by moving it and all
   banks before it down; handles are not yet set.
   */
  ghost predicate GrowShift(w: seq<int>, w0: seq<int>, p: int, x: int, nd: int) {
    && NHW <= x < |w| == |w0|
    && var g := nd + NHW - w[x - INR];
    && 0 < g <= p && p + (NHW - 1) <= x && x - (NHW - 1) + w[x - INR] <= |w| && 0 <= w[x] <= w[x - INR] - NHW
    && w0[p - g..x - (NHW - 1) - g] == w[p..x - (NHW - 1)]
    && w0[x - g - INR] == nd + NHW && w0[x - g] == nd && w0[x - g - INXT] == w[x - INXT]
    && w0[x - g - INAM] == w[x - INAM]
    && w0[x - g + 1..x - g + 1 + w[x]] == w[x + 1..x + 1 + w[x]]
    && w0[..p - g] == w[..p - g]
    && w0[x - (NHW - 1) + w[x - INR]..] == w[x - (NHW - 1) + w[x - INR]..]
  }

  /** Where bank `z` is when bank `x` has grown by `g` words. */
  function Lowered(x: int, g: int, z: int): int {
    if z <= x then z - g else z
  }

  lemma GrowBounds(k: Work, x: int)
    requires WInv(k) && x in WBanks(k)
    ensures k.iwk + (NHW - 1) <= x && NHW <= x && x - (NHW - 1) + k.w[x - INR] <= k.fix <= k.njw < |k.w|
    ensures NHW <= k.w[x - INR] && 0 < k.base <= k.inm <= k.iwk
    ensures k.w[x] >= 0 ==> k.w[x] + NHW <= k.w[x - INR]
    ensures WBank(k, x)
  {
    WTilesApart(k.w, k.iwk, k.fix);
  }

  /** The three parts of the tiling after bank `x` has grown. */
  ghost predicate GrowParts(w: seq<int>, w0: seq<int>, p: int, x: int, e: int, g: int) {
    && NHW <= x < |w| && WTiles(w, p, e)
    && var q, r := x - (NHW - 1), x - (NHW - 1) + w[x - INR];
    && WTiles(w, p, q) && WTiles(w, r, e) && WTiles(w0, p - g, q - g) && WTiles(w0, q - g, r) && WTiles(w0, r, e)
    && WInds(w, p, e) == WInds(w, p, q) + {x} + WInds(w, r, e)
    && WInds(w0, p - g, q - g) == (set z | z in WInds(w, p, q) :: z - g)
    && WInds(w0, q - g, r) == {x - g} && WInds(w0, r, e) == WInds(w, r, e)
    && WDropSum(w0, p - g, q - g) + WDropSum(w0, q - g, r) + WDropSum(w0, r, e) == WDropSum(w, p, e)
    && WTop(w0, r, e) == WTop(w, r, e) && WTop(w0, q - g, r) == 0
    && WTop(w0, p - g, q - g) == (if WTop(w, p, q) == 0 then 0 else WTop(w, p, q) - g)
    && WTop(w, p, e) == (if WTop(w, r, e) != 0 then WTop(w, r, e) else WTop(w, p, q))
    && (WTop(w, p, q) == 0 || p < WTop(w, p, q) <= q) && (WTop(w, r, e) == 0 || WTop(w, r, e) > r)
  }

  lemma GrowMiddle(w0: seq<int>, p: int, r: int)
    requires 0 <= p && p + NHW <= r <= |w0| && w0[p + NHW - 1 - INR] == r - p && w0[p + NHW - 1] >= 0
    ensures WTiles(w0, p, r) && WInds(w0, p, r) == {p + NHW - 1} && WDropSum(w0, p, r) == 0 && WTop(w0, p, r) == 0
  {
    WTilesOne(w0, p);
  }

  lemma GrowHigh(w: seq<int>, w0: seq<int>, r: int, e: int)
    requires WTiles(w, r, e) && 0 <= r <= |w0| == |w| && w0[r..] == w[r..]
    ensures WTiles(w0, r, e) && WInds(w0, r, e) == WInds(w, r, e)
    ensures WDropSum(w0, r, e) == WDropSum(w, r, e) && WTop(w0, r, e) == WTop(w, r, e)
  {
    assert forall i :: r <= i < |w| ==> w0[i] == w0[r..][i - r] && w[i] == w[r..][i - r];
    WTilesFrame(w, w0, r, e);
  }

  lemma GrowLow(w: seq<int>, w0: seq<int>, p: int, q: int, g: int)
    requires WTiles(w, p, q) && 0 <= g <= p <= q <= |w| == |w0| && w0[p - g..q - g] == w[p..q]
    ensures WTiles(w0, p - g, q - g)
    ensures WInds(w0, p - g, q - g) == set x | x in WInds(w, p, q) :: x - g
    ensures WDropSum(w0, p - g, q - g) == WDropSum(w, p, q)
    ensures WTop(w0, p - g, q - g) == if WTop(w, p, q) == 0 then 0 else WTop(w, p, q) - g
  {
    forall i | p <= i < q ensures w0[i - g] == w[i] {
      assert w0[p - g..q - g][i - p] == w[p..q][i - p];
    }
    WTilesShift(w, w0, p, q, g);
  }

  lemma GrowInParts(w: seq<int>, w0: seq<int>, p: int, x: int, e: int, nd: int)
    requires WTiles(w, p, e) && x in WInds(w, p, e) && GrowShift(w, w0, p, x, nd)
    ensures GrowParts(w, w0, p, x, e, nd + NHW - w[x - INR])
  {
    hide WTiles, WInds, WDropSum, WTop;
    var g := nd + NHW - w[x - INR];
    var q, r := x - (NHW - 1), x - (NHW - 1) + w[x - INR];
    WTilesAround(w, p, x, e);
    WTilesRange(w, r, e);
    GrowLow(w, w0, p, q, g);
    GrowMiddle(w0, q - g, r);
    GrowHigh(w, w0, r, e);
    WTopBounds(w, p, q);
    WTopBounds(w, r, e);
  }

  /** The work area, apart from handles, after bank `x` has grown by `g` words. */
  ghost predicate GrowTiled(w: seq<int>, w0: seq<int>, p: int, x: int, e: int, g: int) {
    && WTiles(w, p, e) && WTiles(w0, p - g, e)
    && WInds(w0, p - g, e) == (set z | z in WInds(w, p, e) :: Lowered(x, g, z))
    && WDropSum(w0, p - g, e) == WDropSum(w, p, e)
    && WTop(w0, p - g, e) == (if WTop(w, p, e) != 0 && WTop(w, p, e) < x then WTop(w, p, e) - g else WTop(w, p, e))
    && WTiles(w0, p - g, x - g - (NHW - 1))
    && WInds(w0, p - g, x - g - (NHW - 1)) == (set z | z in WInds(w, p, e) && z < x :: z - g)
  }

  lemma GrowTiles(w: seq<int>, w0: seq<int>, p: int, x: int, e: int, nd: int)
    requires WTiles(w, p, e) && x in WInds(w, p, e) && GrowShift(w, w0, p, x, nd)
    ensures GrowTiled(w, w0, p, x, e, nd + NHW - w[x - INR])
  {
    hide WTiles, WInds, WDropSum, WTop;
    var g := nd + NHW - w[x - INR];
    var q, r := x - (NHW - 1), x - (NHW - 1) + w[x - INR];
    GrowInParts(w, w0, p, x, e, nd);
    WTilesConcat(w0, p - g, q - g, r);
    WTilesConcat(w0, p - g, r, e);
    assert forall z :: z in WInds(w, p, q) ==> z < x;
    assert forall z :: z in WInds(w, r, e) ==> z > x;
    GrowInds(WInds(w, p, q), x, WInds(w, r, e), g);
  }

  lemma GrowInds(a: set<int>, x: int, b: set<int>, g: int)
    requires (forall z :: z in a ==> z < x) && forall z :: z in b ==> z > x
    ensures (set z | z in a :: z - g) + {x - g} + b == (set z | z in a + {x} + b :: Lowered(x, g, z))
    ensures (set z | z in a :: z - g) == (set z | z in a + {x} + b && z < x :: z - g)
  {
    forall z | z in b ensures z in (set y | y in a + {x} + b :: Lowered(x, g, y)) {
      assert Lowered(x, g, z) == z;
    }
    forall z | z in a + {x} ensures z - g in (set y | y in a + {x} + b :: Lowered(x, g, y)) {
      assert Lowered(x, g, z) == z - g;
    }
  }

  /** Columns, rows and name of a bank. */
  ghost predicate SameHead(w: seq<int>, w': seq<int>, z: int, z': int) {
    && NHW <= z < |w| && NHW <= z' < |w'|
    && w'[z' - ICOL] == w[z - ICOL] && w'[z' - IROW] == w[z - IROW] && w'[z' - INAM] == w[z - INAM]
  }

  /** Header and data of a work bank. */
  ghost predicate SameBankWords(w: seq<int>, w': seq<int>, z: int, z': int) {
    && SameHead(w, w', z, z') && w'[z'] == w[z] && w'[z' - INXT] == w[z - INXT] && w'[z' - INR] == w[z - INR]
    && (w[z] >= 0 ==>
          z + 1 + w[z] <= |w| && z' + 1 + w[z] <= |w'| && w'[z' + 1..z' + 1 + w[z]] == w[z + 1..z + 1 + w[z]])
  }

  lemma SlidBank(w: seq<int>, w': seq<int>, p: int, q: int, g: int, z: int)
    requires 0 <= g <= p <= q <= |w| == |w'| && w'[p - g..q - g] == w[p..q]
    requires p + (NHW - 1) <= z < q && NHW <= z - g && (w[z] >= 0 ==> z + 1 + w[z] <= q)
    ensures SameBankWords(w, w', z, z - g)
  {
    var s, s' := w[p..q], w'[p - g..q - g];
    assert s[z - p] == s'[z - p] && s[z - INXT - p] == s'[z - INXT - p] && s[z - INR - p] == s'[z - INR - p];
    assert s[z - ICOL - p] == s'[z - ICOL - p] && s[z - IROW - p] == s'[z - IROW - p]
        && s[z - INAM - p] == s'[z - INAM - p];
    if w[z] >= 0 {
      SubSlice(w, p, q, z + 1, z + 1 + w[z]);
      SubSlice(w', p - g, q - g, z - g + 1, z - g + 1 + w[z]);
    }
  }

  /** Of two work banks one ends before the other begins. */
  lemma WOrdered(k: Work, z: int, x: int)
    requires WInv(k) && z in WBanks(k) && x in WBanks(k) && z < x
    ensures NHW <= z && x < |k.w| && z + k.w[z - INR] <= x
  {
    WTilesApart(k.w, k.iwk, k.fix);
  }

  lemma GrowSlices(w: seq<int>, w0: seq<int>, p: int, x: int, nd: int, g: int, q: int, r: int)
    requires GrowShift(w, w0, p, x, nd) && g == nd + NHW - w[x - INR] && q == x - (NHW - 1) && r == q + w[x - INR]
    ensures 0 <= p - g < p <= q <= r <= |w| == |w0|
    ensures w0[p - g..q - g] == w[p..q] && w0[r..|w|] == w[r..|w|]
  {
    assert w0[r..|w|] == w0[r..] && w[r..|w|] == w[r..];
  }

  lemma OtherBankWords(k: Work, w0: seq<int>, x: int, nd: int, z: int)
    requires WInv(k) && x in WBanks(k) && z in WBanks(k) && z != x && GrowShift(k.w, w0, k.iwk, x, nd)
    requires nd + NHW - k.w[x - INR] <= k.iwk - k.inm
    ensures SameBankWords(k.w, w0, z, Lowered(x, nd + NHW - k.w[x - INR], z))
  {
    hide WInv, WBank, SameBankWords, GrowShift;
    GrowBounds(k, x);
    GrowBounds(k, z);
    GrowSized(k.w, w0, k.iwk, x, nd);
    var q, g := x - (NHW - 1), nd + NHW - k.w[x - INR];
    var r := q + k.w[x - INR];
    GrowSlices(k.w, w0, k.iwk, x, nd, g, q, r);
    if z < x {
      WOrdered(k, z, x);
      SlidBank(k.w, w0, k.iwk, q, g, z);
    } else {
      WOrdered(k, x, z);
      SlidBank(k.w, w0, r, |k.w|, 0, z);
    }
  }

  lemma GrowSized(w: seq<int>, w0: seq<int>, p: int, x: int, nd: int)
    requires GrowShift(w, w0, p, x, nd)
    ensures NHW <= x < |w| == |w0| && 0 < nd + NHW - w[x - INR] <= p
    ensures 0 <= w[x] < nd && x - (NHW - 1) + w[x - INR] <= |w|
    ensures p + (NHW - 1) <= x
  {
  }

  /** The banks that have moved, where they are now. */
  ghost function MovedBanks(k: Work, x: int, g: int): set<int>
    requires WLayout(k)
  {
    set z | z in WBanks(k) && z <= x :: z - g
  }

  /** Every handle leads to its bank again. */
  lemma HandleFollows(k: Work, w0: seq<int>, w2: seq<int>, x: int, nd: int, g: int, z: int)
    requires WInv(k) && x in WBanks(k) && z in WBanks(k) && GrowShift(k.w, w0, k.iwk, x, nd)
    requires g == nd + NHW - k.w[x - INR] && g <= k.iwk - k.inm
    requires HandlesSet(w0, w2, MovedBanks(k, x, g), k.base, k.fix)
    requires NHW <= z < |k.w| && k.w[z] >= 0
    ensures Zone(k, k.w[z - INXT]) && 0 <= k.w[z - INXT] < |w2| && w2[k.w[z - INXT]] == Lowered(x, g, z)
  {
    hide WTiles, WInds, WDropSum, WTop, SameBankWords, GrowShift;
    GrowBounds(k, z);
    GrowSized(k.w, w0, k.iwk, x, nd);
    if z <= x {
      MovedHeader(k, w0, x, nd, z);
      assert Known(w0, w2, z - g);
    } else {
      FixedHandle(k, w0, w2, x, nd, g, z, k.w[z - INXT]);
    }
  }

  /** The handle of a bank above the one that has grown is not the handle of a moved bank. */
  lemma FixedHandle(k: Work, w0: seq<int>, w2: seq<int>, x: int, nd: int, g: int, z: int, h: int)
    requires WInv(k) && x in WBanks(k) && z in WBanks(k) && GrowShift(k.w, w0, k.iwk, x, nd)
    requires g == nd + NHW - k.w[x - INR] && g <= k.iwk - k.inm
    requires HandlesSet(w0, w2, MovedBanks(k, x, g), k.base, k.fix)
    requires x < z && 0 <= h < |k.w| && Zone(k, h) && k.w[h] == z
    ensures h < |w2| && w2[h] == z
  {
    hide WTiles, WInds, WDropSum, WTop, SameBankWords, GrowShift, WBank;
    ZoneWord(k, w0, x, nd, h);
    assert SetAt(w0, w2, MovedBanks(k, x, g), h);
    if w2[h] != w0[h] {
      var y := w2[h] + g;
      MovedHeader(k, w0, x, nd, y);
      HandleLeads(k, y);
    }
  }

  lemma HandleLeads(k: Work, y: int)
    requires WInv(k) && y in WBanks(k)
    ensures NHW <= y < |k.w| && (k.w[y] >= 0 ==> 0 <= k.w[y - INXT] < |k.w| && k.w[k.w[y - INXT]] == y)
  {
    GrowBounds(k, y);
  }

  lemma MovedHeader(k: Work, w0: seq<int>, x: int, nd: int, z: int)
    requires WInv(k) && x in WBanks(k) && z in WBanks(k) && z <= x && GrowShift(k.w, w0, k.iwk, x, nd)
    requires nd + NHW - k.w[x - INR] <= k.iwk - k.inm
    ensures var g := nd + NHW - k.w[x - INR];
            NHW <= z < |k.w| && NHW <= z - g < |w0| && w0[z - g - INXT] == k.w[z - INXT]
                && (w0[z - g] >= 0 <==> k.w[z] >= 0)
  {
    hide WInv, WBank, GrowShift, SameHead;
    GrowBounds(k, x);
    GrowBounds(k, z);
    GrowSized(k.w, w0, k.iwk, x, nd);
    if z < x { OtherBankWords(k, w0, x, nd, z); } else { ShiftedSelf(k.w, w0, k.iwk, x, nd); }
  }

  lemma ShiftedSelf(w: seq<int>, w0: seq<int>, p: int, x: int, nd: int)
    requires GrowShift(w, w0, p, x, nd) && NHW <= x - (nd + NHW - w[x - INR])
    ensures NHW <= x < |w| == |w0|
    ensures var y := x - (nd + NHW - w[x - INR]);
            NHW <= y < |w0| && w0[y] == nd && w0[y - INXT] == w[x - INXT] && w0[y - INAM] == w[x - INAM]
  {
  }

  lemma ZoneWord(k: Work, w0: seq<int>, x: int, nd: int, h: int)
    requires WInv(k) && x in WBanks(k) && GrowShift(k.w, w0, k.iwk, x, nd) && Zone(k, h)
    requires nd + NHW - k.w[x - INR] <= k.iwk - k.inm
    ensures 0 <= h < |w0| && w0[h] == k.w[h]
  {
    GrowBounds(k, x);
    var g, r := nd + NHW - k.w[x - INR], x - (NHW - 1) + k.w[x - INR];
    if h < k.base {
      assert w0[..k.iwk - g][h] == k.w[..k.iwk - g][h];
    } else {
      assert w0[r..][h - r] == k.w[r..][h - r];
    }
  }

  /** What setting handles leaves of a bank. */
  lemma BankAfterHandles(w: seq<int>, w0: seq<int>, w2: seq<int>, z: int, z': int, base: int, fix: int)
    requires SameBankWords(w, w0, z, z') && |w2| == |w0| && 0 <= base <= z' - ICOL && z' < fix
    requires (w[z] >= 0 ==> z' + w[z] < fix)
    requires forall i :: base <= i < fix && 0 <= i < |w0| ==> w2[i] == w0[i]
    ensures SameBankWords(w, w2, z, z')
  {
    if w[z] >= 0 {
      assert w2[z' + 1..z' + 1 + w[z]] == w0[z' + 1..z' + 1 + w[z]];
    }
  }

  /** The state after bank `x` has grown by `g` words. */
  ghost predicate Grown(k: Work, k': Work, w0: seq<int>, x: int, nd: int, g: int)
    requires WLayout(k)
  {
    && GrowShift(k.w, w0, k.iwk, x, nd) && 0 < g <= k.iwk - k.inm && g == nd + NHW - k.w[x - INR]
    && HandlesSet(w0, k'.w, MovedBanks(k, x, g), k.base, k.fix)
    && k' == k.(w := k'.w, iwk := k.iwk - g, igw := if k.igw != 0 && k.igw < x then k.igw - g else k.igw)
  }

  lemma GrownLayout(k: Work, k': Work, w0: seq<int>, x: int, nd: int, g: int)
    requires WInv(k) && x in WBanks(k) && Grown(k, k', w0, x, nd, g)
    ensures WLayout(k') && WBanks(k') == set z | z in WBanks(k) :: Lowered(x, g, z)
    ensures k'.ndw == WDropSum(k'.w, k'.iwk, k'.fix) && k'.igw == WTop(k'.w, k'.iwk, k'.fix)
  {
    hide WTiles, WInds, WDropSum, WTop, GrowShift, WBank;
    GrowBounds(k, x);
    GrowSized(k.w, w0, k.iwk, x, nd);
    GrowTiles(k.w, w0, k.iwk, x, k.fix, nd);
    WTilesFrame(w0, k'.w, k.iwk - g, k.fix);
  }

  lemma GrownOther(k: Work, k': Work, w0: seq<int>, x: int, nd: int, g: int, z: int)
    requires WInv(k) && x in WBanks(k) && Grown(k, k', w0, x, nd, g) && z in WBanks(k) && z != x
    ensures SameBankWords(k.w, k'.w, z, Lowered(x, g, z))
  {
    hide WInv, WBank, SameBankWords, GrowShift;
    GrowBounds(k, x);
    GrowBounds(k, z);
    OtherBankWords(k, w0, x, nd, z);
    BankAfterHandles(k.w, w0, k'.w, z, Lowered(x, g, z), k.base, k.fix);
  }

  /** The bank itself: its new length, and the data it had. */
  lemma GrownSelf(k: Work, k': Work, w0: seq<int>, x: int, nd: int, g: int)
    requires WInv(k) && x in WBanks(k) && Grown(k, k', w0, x, nd, g)
    ensures var y := x - g;
            && NHW <= x && NHW <= y < |k'.w| && k'.w[y] == nd && k'.w[y - INR] == nd + NHW
            && k'.w[y - INXT] == k.w[x - INXT]
            && 0 <= k.w[x] < nd && y + 1 + nd <= |k'.w| && x + 1 + k.w[x] <= |k.w|
            && k'.w[y + 1..y + 1 + k.w[x]] == k.w[x + 1..x + 1 + k.w[x]]
  {
    hide WInv, WBank, SameBankWords;
    GrowBounds(k, x);
    assert k'.w[x - g + 1..x - g + 1 + k.w[x]] == w0[x - g + 1..x - g + 1 + k.w[x]];
  }

  /** Growing a work bank keeps the work area in order. */
  lemma GrownInv(k: Work, k': Work, w0: seq<int>, x: int, nd: int, g: int)
    requires WInv(k) && x in WBanks(k) && Grown(k, k', w0, x, nd, g)
    ensures WInv(k') && WBanks(k') == set z | z in WBanks(k) :: Lowered(x, g, z)
  {
    hide WTiles, WInds, WDropSum, WTop, Grown, WBank;
    GrownLayout(k, k', w0, x, nd, g);
    forall z' | z' in WBanks(k') ensures WBank(k', z') {
      var z :| z in WBanks(k) && z' == Lowered(x, g, z);
      GrownBank(k, k', w0, x, nd, g, z);
    }
  }

  lemma GrownBank(k: Work, k': Work, w0: seq<int>, x: int, nd: int, g: int, z: int)
    requires WInv(k) && x in WBanks(k) && Grown(k, k', w0, x, nd, g) && z in WBanks(k) && WLayout(k')
    ensures NHW <= Lowered(x, g, z) < |k'.w| && WBank(k', Lowered(x, g, z))
  {
    hide WTiles, WInds, WDropSum, WTop, GrowShift, HandlesSet, WInv;
    GrowBounds(k, z);
    GrownSelf(k, k', w0, x, nd, g);
    if z != x { GrownOther(k, k', w0, x, nd, g, z); }
    if k.w[z] >= 0 { HandleFollows(k, w0, k'.w, x, nd, g, z); }
  }

  // ---- What work banks hold -----------------------------------------------------------------------------

  ghost predicate WHolds(w: seq<int>, x: int) {
    NHW <= x < |w| && w[x] >= 0 && x + 1 + w[x] <= |w|
  }

  ghost function DataAt(w: seq<int>, x: int): seq<int>
    requires WHolds(w, x)
  {
    w[x + 1..x + 1 + w[x]]
  }

  /** Handle `h` leads to a live bank that holds `d`. */
  ghost predicate HeldAt(k: Work, h: int, d: seq<int>)
    requires WLayout(k)
  {
    && 0 <= h < |k.w| && k.w[h] in WBanks(k) && WHolds(k.w, k.w[h]) && k.w[k.w[h] - INXT] == h
    && DataAt(k.w, k.w[h]) == d
  }

  /** `m` gives the used data of every live work bank, by handle. */
  ghost predicate Holding(k: Work, m: map<int, seq<int>>)
    requires WLayout(k)
  {
    && (forall h :: h in m ==> HeldAt(k, h, m[h]))
    && (forall x :: x in WBanks(k) && NHW <= x < |k.w| && k.w[x] >= 0 ==> k.w[x - INXT] in m)
  }

  function Min(a: int, b: int): int {
    if a < b then a else b
  }

  /** Bank `h` has `nd` words now, and what it may keep of its data; all other banks hold what they held. */
  ghost predicate Reshaped(m: map<int, seq<int>>, m': map<int, seq<int>>, h: int, nd: nat) {
    && h in m && m'.Keys == m.Keys && |m'[h]| == nd
    && m'[h][..Min(nd, |m[h]|)] == m[h][..Min(nd, |m[h]|)]
    && (forall g :: g in m && g != h ==> m'[g] == m[g])
  }

  lemma HeldBy(k: Work, m: map<int, seq<int>>, z: int)
    requires WInv(k) && Holding(k, m) && z in WBanks(k)
    ensures NHW <= z < |k.w|
    ensures k.w[z] >= 0 ==> k.w[z - INXT] in m && 0 <= k.w[z - INXT] < |k.w| && k.w[k.w[z - INXT]] == z
    ensures k.w[z] >= 0 ==> WHolds(k.w, z) && m[k.w[z - INXT]] == DataAt(k.w, z)
  {
    hide WTiles, WInds, WDropSum, WTop, DataAt;
    GrowBounds(k, z);
    if k.w[z] >= 0 { assert HeldAt(k, k.w[z - INXT], m[k.w[z - INXT]]); }
  }

  lemma SameData(w: seq<int>, w': seq<int>, z: int, z': int)
    requires SameBankWords(w, w', z, z') && w[z] >= 0
    ensures WHolds(w, z) && WHolds(w', z') && DataAt(w', z') == DataAt(w, z)
  {
  }

  /** Columns, rows and names of all live work banks but one. */
  ghost predicate HeadsKept(k: Work, k': Work, m: map<int, seq<int>>, hx: int) {
    forall h :: h in m && h != hx ==> 0 <= h < |k.w| && h < |k'.w| && SameHead(k.w, k'.w, k.w[h], k'.w[h])
  }

  lemma SameHeaderWords(w: seq<int>, w': seq<int>, z: int, z': int)
    requires SameBankWords(w, w', z, z')
    ensures NHW <= z < |w| && NHW <= z' < |w'| && w'[z'] == w[z] && w'[z' - INXT] == w[z - INXT]
    ensures SameHead(w, w', z, z')
  {
  }

  lemma GrownHandle(k: Work, k': Work, w0: seq<int>, x: int, nd: int, g: int, z: int)
    requires WInv(k) && x in WBanks(k) && z in WBanks(k) && Grown(k, k', w0, x, nd, g)
    requires NHW <= z < |k.w| && k.w[z] >= 0
    ensures Zone(k, k.w[z - INXT]) && 0 <= k.w[z - INXT] < |k'.w| && k'.w[k.w[z - INXT]] == Lowered(x, g, z)
  {
    hide WTiles, WInds, WDropSum, WTop, GrowShift, HandlesSet, WBank;
    HandleFollows(k, w0, k'.w, x, nd, g, z);
  }

  /** A bank that has not grown is where its handle says, and holds what it held. */
  lemma GrownHeld(k: Work, k': Work, w0: seq<int>, x: int, nd: int, g: int, z: int, d: seq<int>)
    requires WInv(k) && x in WBanks(k) && Grown(k, k', w0, x, nd, g) && z in WBanks(k) && z != x
    requires WInv(k') && WBanks(k') == (set z | z in WBanks(k) :: Lowered(x, g, z))
    requires NHW <= z < |k.w| && HeldAt(k, k.w[z - INXT], d) && k.w[k.w[z - INXT]] == z
    ensures HeldAt(k', k.w[z - INXT], d)
  {
    hide WTiles, WInds, WDropSum, WTop, Grown, SameBankWords, WBank, DataAt;
    GrownHandle(k, k', w0, x, nd, g, z);
    GrownOther(k, k', w0, x, nd, g, z);
    SameData(k.w, k'.w, z, Lowered(x, g, z));
    SameHeaderWords(k.w, k'.w, z, Lowered(x, g, z));
  }

  lemma GrownHeldSelf(k: Work, k': Work, w0: seq<int>, x: int, nd: nat, g: int, d: seq<int>)
    requires WInv(k) && x in WBanks(k) && Grown(k, k', w0, x, nd, g)
    requires WInv(k') && WBanks(k') == (set z | z in WBanks(k) :: Lowered(x, g, z))
    requires NHW <= x < |k.w| && HeldAt(k, k.w[x - INXT], d) && k.w[k.w[x - INXT]] == x
    ensures 0 <= x - g + 1 && x - g + 1 + nd <= |k'.w|
    ensures var d' := k'.w[x - g + 1..x - g + 1 + nd];
            HeldAt(k', k.w[x - INXT], d') && |d| <= nd && d'[..|d|] == d
  {
    hide WTiles, WInds, WDropSum, WTop, Grown, WBank;
    GrownHandle(k, k', w0, x, nd, g, x);
    GrownSelf(k, k', w0, x, nd, g);
    var d' := k'.w[x - g + 1..x - g + 1 + nd];
    SubSlice(k'.w, x - g + 1, x - g + 1 + nd, x - g + 1, x - g + 1 + k.w[x]);
    assert d'[0..k.w[x]] == d'[..k.w[x]];
  }

  lemma GrownHeads(k: Work, k': Work, w0: seq<int>, x: int, nd: nat, g: int, m: map<int, seq<int>>)
    requires WInv(k) && x in WBanks(k) && NHW <= x < |k.w| && Grown(k, k', w0, x, nd, g) && Holding(k, m)
    ensures HeadsKept(k, k', m, k.w[x - INXT])
  {
    hide WBank, WTiles, WInds, WDropSum, WTop, Grown, SameBankWords, SameHead, WHolds, DataAt, HeldAt;
    forall h | h in m && h != k.w[x - INXT]
      ensures 0 <= h < |k.w| && h < |k'.w| && SameHead(k.w, k'.w, k.w[h], k'.w[h])
    {
      HeldAtBank(k, h, m[h]);
      GrownHandle(k, k', w0, x, nd, g, k.w[h]);
      GrownOther(k, k', w0, x, nd, g, k.w[h]);
      SameHeaderWords(k.w, k'.w, k.w[h], k'.w[h]);
    }
  }

  /** What the banks hold after one of them has grown. */
  lemma GrownHolding(k: Work, k': Work, w0: seq<int>, x: int, nd: nat, g: int, m: map<int, seq<int>>)
    returns (m': map<int, seq<int>>)
    requires WInv(k) && x in WBanks(k) && NHW <= x < |k.w| && Grown(k, k', w0, x, nd, g) && Holding(k, m) && k.w[x] >= 0
    ensures WInv(k') && Holding(k', m') && Reshaped(m, m', k.w[x - INXT], nd)
  {
    hide WBank, WTiles, WInds, WDropSum, WTop, Grown, SameBankWords, SameHead, WHolds, DataAt, HeldAt, HeadsKept;
    GrownInv(k, k', w0, x, nd, g);
    HeldBy(k, m, x);
    var hx := k.w[x - INXT];
    GrownHeldSelf(k, k', w0, x, nd, g, m[hx]);
    m' := m[hx := k'.w[x - g + 1..x - g + 1 + nd]];
    assert m[hx][..|m[hx]|] == m[hx];
    forall h | h in m' ensures HeldAt(k', h, m'[h]) {
      if h != hx {
        HeldAtBank(k, h, m[h]);
        GrownHeld(k, k', w0, x, nd, g, k.w[h], m[h]);
      }
    }
    forall z' | z' in WBanks(k') && NHW <= z' < |k'.w| && k'.w[z'] >= 0 ensures k'.w[z' - INXT] in m' {
      var z :| z in WBanks(k) && z' == Lowered(x, g, z);
      HeldBy(k, m, z);
      if z != x { GrownOther(k, k', w0, x, nd, g, z); SameHeaderWords(k.w, k'.w, z, z'); }
          else { GrownSelf(k, k', w0, x, nd, g); }
    }
  }

  lemma HeldAtBank(k: Work, h: int, d: seq<int>)
    requires WLayout(k) && HeldAt(k, h, d)
    ensures 0 <= h < |k.w| && k.w[h] in WBanks(k) && NHW <= k.w[h] < |k.w| && k.w[k.w[h]] >= 0
    ensures k.w[k.w[h] - INXT] == h
  {
  }

  // ---- A new bank, a bank changed in place, a dropped bank ---------------------------------------------

  /** A new bank of `nd` words with handle `ld` below the others. */
  ghost predicate Begun(k: Work, k': Work, ld: int, nd: nat) {
    var x := k.iwk - nd - 1;
    && k' == k.(w := k'.w, iwk := k.iwk - (nd + NHW)) && |k'.w| == |k.w| && k.inm <= k'.iwk
    && Zone(k, ld) && 0 <= ld < |k.w| && k.w[ld] == 0 && 0 < k.base <= k.inm && k.iwk <= |k.w|
    && k'.w[x] == nd && k'.w[x - INR] == nd + NHW && k'.w[x - INXT] == ld && k'.w[ld] == x
    && (forall i :: 0 <= i < |k.w| && i != ld && (i < k'.iwk || k.iwk <= i) ==> k'.w[i] == k.w[i])
  }

  lemma BegunTiles(k: Work, k': Work, ld: int, nd: nat)
    requires WInv(k) && Begun(k, k', ld, nd)
    ensures WLayout(k') && WBanks(k') == WBanks(k) + {k.iwk - nd - 1}
    ensures k'.ndw == WDropSum(k'.w, k'.iwk, k'.fix) && k'.igw == WTop(k'.w, k'.iwk, k'.fix)
  {
    hide WBank, WTiles, WInds, WDropSum, WTop;
    WTilesFrame(k.w, k'.w, k.iwk, k.fix);
    WTilesOne(k'.w, k'.iwk);
    WTilesConcat(k'.w, k'.iwk, k.iwk, k.fix);
  }

  lemma BegunOther(k: Work, k': Work, ld: int, nd: nat, z: int)
    requires WInv(k) && Begun(k, k', ld, nd) && z in WBanks(k)
    ensures SameBankWords(k.w, k'.w, z, z)
    ensures k.w[z] >= 0 ==> k.w[z - INXT] != ld && 0 <= k.w[z - INXT] < |k.w| && k'.w[k.w[z - INXT]] == z
  {
    hide WTiles, WInds, WDropSum, WTop;
    GrowBounds(k, z);
    if k.w[z] >= 0 {
      assert k'.w[z + 1..z + 1 + k.w[z]] == k.w[z + 1..z + 1 + k.w[z]];
    }
  }

  lemma BegunInv(k: Work, k': Work, ld: int, nd: nat)
    requires WInv(k) && Begun(k, k', ld, nd)
    ensures WInv(k') && WBanks(k') == WBanks(k) + {k.iwk - nd - 1}
  {
    hide WTiles, WInds, WDropSum, WTop;
    BegunTiles(k, k', ld, nd);
    forall z | z in WBanks(k') ensures WBank(k', z) {
      if z in WBanks(k) {
        GrowBounds(k, z);
        BegunOther(k, k', ld, nd, z);
      }
    }
  }

  /** Live bank `x` has been given `nd` words where it is. */
  ghost predicate Refilled(k: Work, k': Work, x: int, nd: nat) {
    && k' == k.(w := k'.w) && |k'.w| == |k.w| && NHW <= x < |k.w| && k.w[x] >= 0 && nd <= k.w[x - INR] - NHW
    && k'.w[x] == nd
    && (forall i :: 0 <= i < |k.w| && i != x && !(x + Min(nd, k.w[x]) < i <= x + nd) ==> k'.w[i] == k.w[i])
  }

  lemma RefilledOther(k: Work, k': Work, x: int, nd: nat, z: int)
    requires WInv(k) && Refilled(k, k', x, nd) && x in WBanks(k) && z in WBanks(k) && z != x
    ensures SameBankWords(k.w, k'.w, z, z)
    ensures k.w[z] >= 0 ==> 0 <= k.w[z - INXT] < |k.w| && k'.w[k.w[z - INXT]] == z
  {
    hide WTiles, WInds, WDropSum, WTop;
    GrowBounds(k, z);
    GrowBounds(k, x);
    if z < x { WOrdered(k, z, x); } else { WOrdered(k, x, z); }
    if k.w[z] >= 0 {
      assert k'.w[z + 1..z + 1 + k.w[z]] == k.w[z + 1..z + 1 + k.w[z]];
    }
  }

  lemma RefilledTiles(k: Work, k': Work, x: int, nd: nat)
    requires WInv(k) && Refilled(k, k', x, nd) && x in WBanks(k)
    ensures WLayout(k') && WBanks(k') == WBanks(k)
    ensures k'.ndw == WDropSum(k'.w, k'.iwk, k'.fix) && k'.igw == WTop(k'.w, k'.iwk, k'.fix)
  {
    hide WBank;
    WTilesApart(k.w, k.iwk, k.fix);
    WTilesFrame(k.w, k'.w, k.iwk, k.fix);
  }

  lemma RefilledInv(k: Work, k': Work, x: int, nd: nat)
    requires WInv(k) && Refilled(k, k', x, nd) && x in WBanks(k)
    ensures WInv(k') && WBanks(k') == WBanks(k)
  {
    hide WTiles, WInds, WDropSum, WTop;
    RefilledTiles(k, k', x, nd);
    GrowBounds(k, x);
    forall z | z in WBanks(k') ensures WBank(k', z) {
      GrowBounds(k, z);
      if z != x { RefilledOther(k, k', x, nd, z); }
    }
  }

  /** Live bank `x` is marked as dropped and its handle cleared. */
  ghost predicate Marked(k: Work, k': Work, x: int) {
    && NHW <= x < |k.w| && k.w[x] >= 0 && 0 <= k.w[x - INXT] < |k.w|
    && k' == k.(w := k.w[x := -k.w[x - INR]][k.w[x - INXT] := 0], ndw := k.ndw + k.w[x - INR],
                igw := if k.igw > x + k.w[x - INR] - (NHW - 1) then k.igw else x + k.w[x - INR] - (NHW - 1))
  }

  lemma {:induction false} WTilesMark(w: seq<int>, w': seq<int>, p: int, e: int, x: int)
    requires WTiles(w, p, e) && x in WInds(w, p, e) && e <= |w'|
    requires w[x] >= 0 && x < |w'| && w'[x] < 0
    requires forall z :: z in WInds(w, p, e) ==>
        z < |w'| && w'[z - INR] == w[z - INR] && (z != x ==> (w'[z] < 0 <==> w[z] < 0))
    ensures WTiles(w', p, e) && WInds(w', p, e) == WInds(w, p, e)
    ensures WDropSum(w', p, e) == WDropSum(w, p, e) + w[x - INR]
    ensures WTop(w', p, e) == if WTop(w, p, e) > x + w[x - INR] - (NHW - 1) then WTop(w, p, e)
        else x + w[x - INR] - (NHW - 1)
    decreases e - p
  {
    assert p + NHW - 1 in WInds(w, p, e);
    var q := p + w[p + NHW - 1 - INR];
    WTopBounds(w, q, e);
    if x == p + NHW - 1 {
      WTilesFrame(w, w', q, e);
    } else {
      WTilesApart(w, q, e);
      assert x in WInds(w, q, e) && x >= q + NHW - 1 && w[x - INR] >= NHW;
      WTilesMark(w, w', q, e, x);
    }
  }

  lemma MarkedOther(k: Work, k': Work, x: int, z: int)
    requires WInv(k) && Marked(k, k', x) && x in WBanks(k) && z in WBanks(k) && z != x
    ensures SameBankWords(k.w, k'.w, z, z)
    ensures k.w[z] >= 0 ==> 0 <= k.w[z - INXT] < |k.w| && k'.w[k.w[z - INXT]] == z && k.w[z - INXT] != k.w[x - INXT]
  {
    hide WTiles, WInds, WDropSum, WTop;
    GrowBounds(k, z);
    GrowBounds(k, x);
    if z < x { WOrdered(k, z, x); } else { WOrdered(k, x, z); }
    if k.w[z] >= 0 {
      assert k'.w[z + 1..z + 1 + k.w[z]] == k.w[z + 1..z + 1 + k.w[z]];
    }
  }

  lemma MarkedTiles(k: Work, k': Work, x: int)
    requires WInv(k) && Marked(k, k', x) && x in WBanks(k)
    ensures WLayout(k') && WBanks(k') == WBanks(k)
    ensures k'.ndw == WDropSum(k'.w, k'.iwk, k'.fix) && k'.igw == WTop(k'.w, k'.iwk, k'.fix)
  {
    assert WBank(k, x);
    WTilesApart(k.w, k.iwk, k.fix);
    WTilesMark(k.w, k'.w, k.iwk, k.fix, x);
  }

  /** Dropping a work bank keeps the accounts: dropped words and end of the highest dropped bank. */
  lemma MarkedInv(k: Work, k': Work, x: int)
    requires WInv(k) && Marked(k, k', x) && x in WBanks(k)
    ensures WInv(k') && WBanks(k') == WBanks(k)
  {
    hide WTiles, WInds, WDropSum, WTop;
    MarkedTiles(k, k', x);
    GrowBounds(k, x);
    forall z | z in WBanks(k') ensures WBank(k', z) {
      GrowBounds(k, z);
      if z != x { MarkedOther(k, k', x, z); }
    }
  }

  // ---- What they hold afterwards ---------------------------------------------------------------------------

  lemma StillHeld(k: Work, k': Work, z: int, h: int, d: seq<int>)
    requires WLayout(k) && WLayout(k') && HeldAt(k, h, d) && k.w[h] == z && z in WBanks(k')
    requires SameBankWords(k.w, k'.w, z, z) && h < |k'.w| && k'.w[h] == z
    ensures HeldAt(k', h, d)
  {
    hide WTiles, WInds;
    SameData(k.w, k'.w, z, z);
  }

  lemma BegunHolding(k: Work, k': Work, ld: int, nd: nat, m: map<int, seq<int>>) returns (m': map<int, seq<int>>)
    requires WInv(k) && Begun(k, k', ld, nd) && Holding(k, m)
    ensures WInv(k') && Holding(k', m') && ld !in m && ld in m' && |m'[ld]| == nd && m' == m[ld := m'[ld]]
    ensures HeadsKept(k, k', m', ld)
  {
    hide WBank, WTiles, WInds, WDropSum, WTop, SameBankWords, SameHead, WHolds, DataAt, HeldAt;
    BegunInv(k, k', ld, nd);
    BegunSelf(k, k', ld, nd);
    var x := k.iwk - nd - 1;
    m' := m[ld := DataAt(k'.w, x)];
    forall h | h in m
      ensures h != ld && HeldAt(k', h, m[h]) && 0 <= h < |k.w| && h < |k'.w| && SameHead(k.w, k'.w, k.w[h], k'.w[h])
    {
      HeldAtBank(k, h, m[h]);
      BegunOther(k, k', ld, nd, k.w[h]);
      StillHeld(k, k', k.w[h], h, m[h]);
      SameHeaderWords(k.w, k'.w, k.w[h], k'.w[h]);
    }
    forall z | z in WBanks(k') && NHW <= z < |k'.w| && k'.w[z] >= 0 ensures k'.w[z - INXT] in m' {
      if z in WBanks(k) {
        BegunOther(k, k', ld, nd, z);
        SameHeaderWords(k.w, k'.w, z, z);
      }
    }
  }

  lemma BegunSelf(k: Work, k': Work, ld: int, nd: nat)
    requires WInv(k) && Begun(k, k', ld, nd) && WLayout(k') && WBanks(k') == WBanks(k) + {k.iwk - nd - 1}
    ensures var x := k.iwk - nd - 1;
            WHolds(k'.w, x) && |DataAt(k'.w, x)| == nd && HeldAt(k', ld, DataAt(k'.w, x)) && k'.w[x - INXT] == ld
  {
  }

  lemma RefilledHolding(k: Work, k': Work, x: int, nd: nat, m: map<int, seq<int>>) returns (m': map<int, seq<int>>)
    requires WInv(k) && Refilled(k, k', x, nd) && x in WBanks(k) && Holding(k, m)
    ensures WInv(k') && Holding(k', m') && Reshaped(m, m', k.w[x - INXT], nd) && HeadsKept(k, k', m', k.w[x - INXT])
  {
    hide WBank, WTiles, WInds, WDropSum, WTop, SameBankWords, SameHead, WHolds, DataAt, HeldAt;
    RefilledInv(k, k', x, nd);
    HeldBy(k, m, x);
    RefilledSelf(k, k', x, nd, m[k.w[x - INXT]]);
    m' := m[k.w[x - INXT] := DataAt(k'.w, x)];
    forall h | h in m && h != k.w[x - INXT]
      ensures HeldAt(k', h, m[h]) && 0 <= h < |k.w| && h < |k'.w| && SameHead(k.w, k'.w, k.w[h], k'.w[h])
    {
      HeldAtBank(k, h, m[h]);
      RefilledOther(k, k', x, nd, k.w[h]);
      StillHeld(k, k', k.w[h], h, m[h]);
      SameHeaderWords(k.w, k'.w, k.w[h], k'.w[h]);
    }
    forall z | z in WBanks(k') && NHW <= z < |k'.w| && k'.w[z] >= 0 ensures k'.w[z - INXT] in m' {
      HeldBy(k, m, z);
      if z != x {
        RefilledOther(k, k', x, nd, z);
        SameHeaderWords(k.w, k'.w, z, z);
      }
    }
  }

  lemma RefilledSelf(k: Work, k': Work, x: int, nd: nat, d: seq<int>)
    requires WInv(k) && Refilled(k, k', x, nd) && x in WBanks(k) && WLayout(k') && WBanks(k') == WBanks(k)
    requires HeldAt(k, k.w[x - INXT], d) && k.w[k.w[x - INXT]] == x
    ensures WHolds(k'.w, x) && HeldAt(k', k.w[x - INXT], DataAt(k'.w, x)) && k'.w[x - INXT] == k.w[x - INXT]
    ensures |d| == k.w[x] && |DataAt(k'.w, x)| == nd && DataAt(k'.w, x)[..Min(nd, |d|)] == d[..Min(nd, |d|)]
  {
    hide WTiles, WInds, WDropSum, WTop;
    GrowBounds(k, x);
    assert forall i :: 0 <= i < Min(nd, |d|) ==> DataAt(k'.w, x)[i] == d[i];
  }

  lemma MarkedHolding(k: Work, k': Work, x: int, m: map<int, seq<int>>)
    requires WInv(k) && Marked(k, k', x) && x in WBanks(k) && Holding(k, m)
    ensures WInv(k') && k.w[x - INXT] in m && Holding(k', m - {k.w[x - INXT]})
    ensures HeadsKept(k, k', m, k.w[x - INXT])
  {
    hide WBank, WTiles, WInds, WDropSum, WTop, SameBankWords, SameHead, WHolds, DataAt, HeldAt;
    MarkedInv(k, k', x);
    HeldBy(k, m, x);
    forall h | h in m && h != k.w[x - INXT]
      ensures HeldAt(k', h, m[h]) && 0 <= h < |k.w| && h < |k'.w| && SameHead(k.w, k'.w, k.w[h], k'.w[h])
    {
      HeldAtBank(k, h, m[h]);
      MarkedOther(k, k', x, k.w[h]);
      StillHeld(k, k', k.w[h], h, m[h]);
      SameHeaderWords(k.w, k'.w, k.w[h], k'.w[h]);
    }
    forall z | z in WBanks(k') && NHW <= z < |k'.w| && k'.w[z] >= 0 ensures k'.w[z - INXT] in m - {k.w[x - INXT]} {
      MarkedLength(k, k', x);
      if z != x {
        MarkedOther(k, k', x, z);
        SameHeaderWords(k.w, k'.w, z, z);
      }
    }
  }

  lemma MarkedLength(k: Work, k': Work, x: int)
    requires WInv(k) && Marked(k, k', x) && x in WBanks(k)
    ensures x < |k'.w| && k'.w[x] < 0
  {
    hide WTiles, WInds, WDropSum, WTop;
    GrowBounds(k, x);
  }
}
