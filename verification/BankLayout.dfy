/**
 The flat integer array of a BOS system, word by word (bos.h, bcs structure).

 A bank is addressed by the index `x` of its length word.  Five header words lie
 below it, its data above it.  A live bank has `w[x] >= 0` data words; a dropped
 bank stores minus its total size in `w[x]`.  Named banks tile `[inm, igp)`.
 */
module BankLayout {
  const NHW := 6   // header words of a bank, the length word included
  const ICOL := 5  // number of columns, at x - ICOL
  const IROW := 4  // number of rows
  const INAM := 3  // name
  const INR := 2   // bank number
  const INXT := 1  // index of the next bank of the same name

  /** Words occupied by the bank with length word `x`. */
  function Size(w: seq<int>, x: int): int
    requires 0 <= x < |w|
  {
    if w[x] < 0 then -w[x] else w[x] + NHW
  }

  /** Banks, live or dropped, follow each other without a gap from `p` to `e`. */
  ghost predicate Tiles(w: seq<int>, p: int, e: int)
    decreases e - p
  {
    && 0 <= p <= e <= |w|
    && (p < e ==>
          && p + NHW <= e
          && Size(w, p + NHW - 1) >= NHW
          && Tiles(w, p + Size(w, p + NHW - 1), e))
  }

  /** The length words of the banks that tile `[p, e)`. */
  ghost function Inds(w: seq<int>, p: int, e: int): (b: set<int>)
    requires Tiles(w, p, e)
    ensures forall x :: x in b ==> p + NHW - 1 <= x < e
    decreases e - p
  {
    if p == e then {} else {p + NHW - 1} + Inds(w, p + Size(w, p + NHW - 1), e)
  }

  /** Words of the dropped banks in `[p, e)`. */
  ghost function DropSum(w: seq<int>, p: int, e: int): int
    requires Tiles(w, p, e)
    decreases e - p
  {
    if p == e then 0
    else
      var s := Size(w, p + NHW - 1);
      (if w[p + NHW - 1] < 0 then s else 0) + DropSum(w, p + s, e)
  }

  /** Distinct banks do not overlap, and all lie between `p` and `e`. */
  ghost predicate Apart(w: seq<int>, b: set<int>, p: int, e: int)
  {
    && 0 <= p && e <= |w|
    && (forall x :: x in b ==>
          p + NHW - 1 <= x < e && Size(w, x) >= NHW && x - (NHW - 1) + Size(w, x) <= e)
    && (forall x, y :: x in b && y in b && x < y ==> x + Size(w, x) <= y)
  }

  lemma {:induction false} TilesApart(w: seq<int>, p: int, e: int)
    requires Tiles(w, p, e)
    ensures Apart(w, Inds(w, p, e), p, e)
    decreases e - p
  {
    if p < e {
      TilesApart(w, p + Size(w, p + NHW - 1), e);
    }
  }

  /** Tiling and dropped words depend on the length words alone. */
  lemma {:induction false} TilesFrame(w: seq<int>, w': seq<int>, p: int, e: int)
    requires Tiles(w, p, e) && e <= |w'|
    requires forall x :: x in Inds(w, p, e) ==> x < |w'| && w'[x] == w[x]
    ensures Tiles(w', p, e)
    ensures Inds(w', p, e) == Inds(w, p, e)
    ensures DropSum(w', p, e) == DropSum(w, p, e)
    decreases e - p
  {
    if p < e {
      assert p + NHW - 1 in Inds(w, p, e);
      TilesFrame(w, w', p + Size(w, p + NHW - 1), e);
    }
  }

  /** Two adjacent tilings make one. */
  lemma {:induction false} TilesConcat(w: seq<int>, p: int, m: int, e: int)
    requires Tiles(w, p, m) && Tiles(w, m, e)
    ensures Tiles(w, p, e)
    ensures Inds(w, p, e) == Inds(w, p, m) + Inds(w, m, e)
    ensures DropSum(w, p, e) == DropSum(w, p, m) + DropSum(w, m, e)
    decreases m - p
  {
    if p < m {
      TilesConcat(w, p + Size(w, p + NHW - 1), m, e);
    }
  }

  /** A tiling splits in front of each of its banks. */
  lemma {:induction false} TilesSplit(w: seq<int>, p: int, x: int, e: int)
    requires Tiles(w, p, e) && x in Inds(w, p, e)
    ensures Tiles(w, p, x - (NHW - 1)) && Tiles(w, x - (NHW - 1), e)
    ensures Inds(w, p, e) == Inds(w, p, x - (NHW - 1)) + Inds(w, x - (NHW - 1), e)
    ensures DropSum(w, p, e) == DropSum(w, p, x - (NHW - 1)) + DropSum(w, x - (NHW - 1), e)
    decreases e - p
  {
    if x != p + NHW - 1 {
      TilesSplit(w, p + Size(w, p + NHW - 1), x, e);
    }
  }

  /** A single bank tiles its own words. */
  lemma TilesOne(w: seq<int>, p: int)
    requires 0 <= p && p + NHW <= |w| && Size(w, p + NHW - 1) >= NHW
    requires p + Size(w, p + NHW - 1) <= |w|
    ensures Tiles(w, p, p + Size(w, p + NHW - 1))
    ensures Inds(w, p, p + Size(w, p + NHW - 1)) == {p + NHW - 1}
    ensures DropSum(w, p, p + Size(w, p + NHW - 1))
            == if w[p + NHW - 1] < 0 then Size(w, p + NHW - 1) else 0
  {
    var e := p + Size(w, p + NHW - 1);
    assert Tiles(w, e, e);
  }

  /** The words of a tiling that are not headers or data of one bank lie before or after it. */
  lemma TilesAround(w: seq<int>, p: int, x: int, e: int)
    requires Tiles(w, p, e) && x in Inds(w, p, e)
    ensures x - (NHW - 1) + Size(w, x) <= e
    ensures Tiles(w, p, x - (NHW - 1))
    ensures Tiles(w, x - (NHW - 1) + Size(w, x), e)
    ensures Inds(w, p, e)
            == Inds(w, p, x - (NHW - 1)) + {x} + Inds(w, x - (NHW - 1) + Size(w, x), e)
    ensures DropSum(w, p, e)
            == DropSum(w, p, x - (NHW - 1)) + (if w[x] < 0 then Size(w, x) else 0)
               + DropSum(w, x - (NHW - 1) + Size(w, x), e)
  {
    TilesSplit(w, p, x, e);
  }

  /** Dropped words fill a stretch exactly when every bank in it is dropped. */
  lemma {:induction false} DropSumBounds(w: seq<int>, p: int, e: int)
    requires Tiles(w, p, e)
    ensures 0 <= DropSum(w, p, e) <= e - p
    ensures DropSum(w, p, e) == e - p <==> forall x :: x in Inds(w, p, e) ==> w[x] < 0
    ensures DropSum(w, p, e) == 0 <==> forall x :: x in Inds(w, p, e) ==> w[x] >= 0
    decreases e - p
  {
    if p < e {
      assert p + NHW - 1 in Inds(w, p, e);
      DropSumBounds(w, p + Size(w, p + NHW - 1), e);
    }
  }

  /** A bank put after a tiling extends it. */
  lemma TilesAppend(w: seq<int>, w': seq<int>, p: int, e: int, e': int)
    requires Tiles(w, p, e) && e + NHW <= e' <= |w'|
    requires w'[e + NHW - 1] >= 0 && e' == e + NHW + w'[e + NHW - 1]
    requires forall x :: x in Inds(w, p, e) ==> w'[x] == w[x]
    ensures Tiles(w', p, e') && Inds(w', p, e') == Inds(w, p, e) + {e + NHW - 1}
    ensures DropSum(w', p, e') == DropSum(w, p, e)
  {
    TilesFrame(w, w', p, e);
    TilesOne(w', e);
    TilesConcat(w', p, e, e');
  }

  /** Marking a bank as dropped keeps the tiling and counts its words. */
  lemma {:induction false} TilesMark(w: seq<int>, w': seq<int>, p: int, e: int, x: int)
    requires Tiles(w, p, e) && e <= |w'| && x in Inds(w, p, e)
    requires w[x] >= 0 && w'[x] == -(w[x] + NHW)
    requires forall z :: z in Inds(w, p, e) && z != x ==> w'[z] == w[z]
    ensures Tiles(w', p, e) && Inds(w', p, e) == Inds(w, p, e)
    ensures DropSum(w', p, e) == DropSum(w, p, e) + w[x] + NHW
    decreases e - p
  {
    assert p + NHW - 1 in Inds(w, p, e);
    var q := p + Size(w, p + NHW - 1);
    if x == p + NHW - 1 {
      TilesFrame(w, w', q, e);
    } else {
      TilesMark(w, w', q, e, x);
    }
  }

  /** The last bank of a tiling may get any other length. */
  lemma TilesLast(w: seq<int>, w': seq<int>, p: int, e: int, x: int, e': int)
    requires Tiles(w, p, e) && x in Inds(w, p, e) && w[x] >= 0 && e == x + 1 + w[x]
    requires x < |w'| && w'[x] >= 0 && e' == x + 1 + w'[x] <= |w'|
    requires forall z :: z in Inds(w, p, e) && z != x ==> z < |w'| && w'[z] == w[z]
    ensures Tiles(w', p, e') && Inds(w', p, e') == Inds(w, p, e)
    ensures DropSum(w', p, e') == DropSum(w, p, e)
  {
    var q := x - (NHW - 1);
    TilesAround(w, p, x, e);
    TilesFrame(w, w', p, q);
    TilesAppend(w, w', p, q, e');
  }

  lemma HoleTiles(w: seq<int>, q: int, x: int, y: int, r: int)
    requires 0 <= q && x == q + NHW - 1 && r <= |w|
    requires x < |w| && 0 <= w[x] && y == x + w[x] + NHW && y < |w| && w[y] <= -NHW && r == x + 1 + w[x] - w[y]
    ensures Tiles(w, q, r) && Inds(w, q, r) == {x, y} && DropSum(w, q, r) == -w[y]
  {
    TilesOne(w, q);
    TilesOne(w, x + 1 + w[x]);
    TilesConcat(w, q, x + 1 + w[x], r);
  }

  /** The unused end of a bank becomes a dropped bank of its own. */
  lemma {:induction false} TilesHole(w: seq<int>, w': seq<int>, p: int, e: int, x: int, y: int)
    requires Tiles(w, p, e) && e <= |w'| && x in Inds(w, p, e) && w[x] >= 0
    requires x < |w'| && 0 <= w'[x] && w'[x] + NHW <= w[x] && y == x + w'[x] + NHW
    requires y < |w'| && w'[y] == w'[x] - w[x]
    requires forall z :: z in Inds(w, p, e) && z != x ==> w'[z] == w[z]
    ensures Tiles(w', p, e) && Inds(w', p, e) == Inds(w, p, e) + {y}
    ensures DropSum(w', p, e) == DropSum(w, p, e) + w[x] - w'[x]
    decreases e - p
  {
    assert p + NHW - 1 in Inds(w, p, e);
    var q := p + Size(w, p + NHW - 1);
    if x == p + NHW - 1 {
      TilesFrame(w, w', q, e);
      HoleTiles(w', p, x, y, q);
      TilesConcat(w', p, q, e);
    } else {
      TilesHole(w, w', q, e, x, y);
    }
  }
}
