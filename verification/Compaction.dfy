/**
 Sliding compaction of named banks (bosngarb.c) as a value: where every bank goes, what the
 array looks like while copies are still pending, and what it looks like at the end.
 */
module Compaction {
  import opened BankLayout
  import opened Chains
  import opened NamedArea

  /** Words of the dropped banks of `[p, e)` below bank `x`. */
  ghost function Gap(w: seq<int>, p: int, e: int, x: int): int
    requires Tiles(w, p, e) && x in Inds(w, p, e)
    decreases e - p
  {
    var y := p + NHW - 1;
    if x == y then 0
    else (if w[y] < 0 then Size(w, y) else 0) + Gap(w, p + Size(w, y), e, x)
  }

  lemma {:induction false} GapBounds(w: seq<int>, p: int, e: int, x: int)
    requires Tiles(w, p, e) && x in Inds(w, p, e)
    ensures 0 <= Gap(w, p, e, x) <= x - (NHW - 1) - p
    decreases e - p
  {
    if x != p + NHW - 1 {
      GapBounds(w, p + Size(w, p + NHW - 1), e, x);
    }
  }

  /** Moving every bank down by its gap keeps the order and makes live banks meet at most. */
  lemma {:induction false} GapOrder(w: seq<int>, p: int, e: int, x: int, y: int)
    requires Tiles(w, p, e) && x in Inds(w, p, e) && y in Inds(w, p, e) && x < y
    ensures Gap(w, p, e, x) <= Gap(w, p, e, y)
    ensures w[x] >= 0 ==> x - Gap(w, p, e, x) + Size(w, x) <= y - Gap(w, p, e, y)
    decreases e - p
  {
    var q := p + Size(w, p + NHW - 1);
    if x == p + NHW - 1 {
      GapBounds(w, q, e, y);
    } else {
      GapOrder(w, q, e, x, y);
    }
  }

  /** The gap of a bank counts what is dropped before any bank boundary below it. */
  lemma {:induction false} GapFrom(w: seq<int>, p: int, m: int, e: int, x: int)
    requires Tiles(w, p, m) && Tiles(w, m, e) && Tiles(w, p, e)
    requires x in Inds(w, m, e) && x in Inds(w, p, e)
    ensures Gap(w, p, e, x) == DropSum(w, p, m) + Gap(w, m, e, x)
    decreases m - p
  {
    if p < m {
      var q := p + Size(w, p + NHW - 1);
      TilesConcat(w, q, m, e);
      GapFrom(w, q, m, e, x);
    }
  }

  /** Where no bank is dropped up to `m`, the gap of the banks below `m` is zero. */
  lemma {:induction false} GapNone(w: seq<int>, p: int, m: int, e: int, x: int)
    requires Tiles(w, p, m) && Tiles(w, m, e) && Tiles(w, p, e)
    requires DropSum(w, p, m) == 0 && x in Inds(w, p, m) && x in Inds(w, p, e)
    ensures Gap(w, p, e, x) == 0
    decreases m - p
  {
    if x != p + NHW - 1 {
      var q := p + Size(w, p + NHW - 1);
      DropSumBounds(w, q, m);
      TilesConcat(w, q, m, e);
      GapNone(w, q, m, e, x);
    }
  }

  /** A bank below a boundary ends, once moved, below where the boundary moves. */
  lemma {:induction false} GapBelow(w: seq<int>, p: int, m: int, e: int, x: int)
    requires Tiles(w, p, m) && Tiles(w, m, e) && Tiles(w, p, e)
    requires x in Inds(w, p, m) && x in Inds(w, p, e) && w[x] >= 0
    ensures x - Gap(w, p, e, x) + w[x] + 1 <= m - DropSum(w, p, m)
    decreases m - p
  {
    var q := p + Size(w, p + NHW - 1);
    DropSumBounds(w, q, m);
    TilesConcat(w, q, m, e);
    if x != p + NHW - 1 {
      GapBelow(w, q, m, e, x);
    }
  }

  /** Where the live banks of `[p, e)` go when `g` words are dropped below `p`. */
  ghost function Moved(w: seq<int>, p: int, e: int, g: int): set<int>
    requires Tiles(w, p, e)
    decreases e - p
  {
    if p == e then {}
    else
      var y := p + NHW - 1;
      if w[y] < 0 then Moved(w, p + Size(w, y), e, g + Size(w, y))
      else {y - g} + Moved(w, p + Size(w, y), e, g)
  }

  lemma {:induction false} MovedIn(w: seq<int>, p: int, e: int, g: int, x: int)
    requires Tiles(w, p, e) && x in Inds(w, p, e) && w[x] >= 0
    ensures x - g - Gap(w, p, e, x) in Moved(w, p, e, g)
    decreases e - p
  {
    var y := p + NHW - 1;
    if x != y {
      MovedIn(w, p + Size(w, y), e, g + if w[y] < 0 then Size(w, y) else 0, x);
    }
  }

  lemma {:induction false} MovedFrom(w: seq<int>, p: int, e: int, g: int, z: int) returns (x: int)
    requires Tiles(w, p, e) && z in Moved(w, p, e, g)
    ensures x in Inds(w, p, e) && w[x] >= 0 && z == x - g - Gap(w, p, e, x)
    decreases e - p
  {
    var y := p + NHW - 1;
    if w[y] >= 0 && z == y - g {
      x := y;
    } else {
      x := MovedFrom(w, p + Size(w, y), e, g + if w[y] < 0 then Size(w, y) else 0, z);
    }
  }

  /** Live banks moved down by their gaps, plus the gap `g` below `p`, tile without holes. */
  lemma {:induction false} CompactTiles(w: seq<int>, w': seq<int>, p: int, e: int, g: int)
    requires Tiles(w, p, e) && 0 <= g <= p && e <= |w'|
    requires forall x :: x in Inds(w, p, e) && w[x] >= 0 ==>
               0 <= x - g - Gap(w, p, e, x) < |w'| && w'[x - g - Gap(w, p, e, x)] == w[x]
    ensures 0 <= DropSum(w, p, e) <= e - p
    ensures Tiles(w', p - g, e - g - DropSum(w, p, e)) && DropSum(w', p - g, e - g - DropSum(w, p, e)) == 0
    ensures Inds(w', p - g, e - g - DropSum(w, p, e)) == Moved(w, p, e, g)
    decreases e - p
  {
    hide Gap;
    DropSumBounds(w, p, e);
    if p < e {
      var y := p + NHW - 1;
      var q := p + Size(w, y);
      var g' := g + if w[y] < 0 then Size(w, y) else 0;
      FirstGap(w, w', p, e, g);
      CompactTiles(w, w', q, e, g');
      CompactFirst(w, w', p, e, g, q, g');
    }
  }

  lemma CompactFirst(w: seq<int>, w': seq<int>, p: int, e: int, g: int, q: int, g': int)
    requires Tiles(w, p, e) && p < e && q == p + Size(w, p + NHW - 1) && 0 <= g <= p && e <= |w'|
    requires 0 <= DropSum(w, q, e) <= e - q && 0 <= DropSum(w, p, e) <= e - p
    requires g' == g + if w[p + NHW - 1] < 0 then Size(w, p + NHW - 1) else 0
    requires w[p + NHW - 1] >= 0 ==> 0 <= p + NHW - 1 - g < |w'| && w'[p + NHW - 1 - g] == w[p + NHW - 1]
    requires Tiles(w', q - g', e - g' - DropSum(w, q, e)) && DropSum(w', q - g', e - g' - DropSum(w, q, e)) == 0
    requires Inds(w', q - g', e - g' - DropSum(w, q, e)) == Moved(w, q, e, g')
    ensures Tiles(w', p - g, e - g - DropSum(w, p, e)) && DropSum(w', p - g, e - g - DropSum(w, p, e)) == 0
    ensures Inds(w', p - g, e - g - DropSum(w, p, e)) == Moved(w, p, e, g)
  {
  }

  lemma FirstGap(w: seq<int>, w': seq<int>, p: int, e: int, g: int)
    requires Tiles(w, p, e) && p < e
    requires forall x :: x in Inds(w, p, e) && w[x] >= 0 ==>
               0 <= x - g - Gap(w, p, e, x) < |w'| && w'[x - g - Gap(w, p, e, x)] == w[x]
    ensures var y, q := p + NHW - 1, p + Size(w, p + NHW - 1);
            var g' := g + if w[y] < 0 then Size(w, y) else 0;
            && (w[y] >= 0 ==> 0 <= y - g < |w'| && w'[y - g] == w[y])
            && (forall x :: x in Inds(w, q, e) && w[x] >= 0 ==>
                  0 <= x - g' - Gap(w, q, e, x) < |w'| && w'[x - g' - Gap(w, q, e, x)] == w[x])
  {
    var y, q := p + NHW - 1, p + Size(w, p + NHW - 1);
    var g' := g + if w[y] < 0 then Size(w, y) else 0;
    assert y in Inds(w, p, e) && Gap(w, p, e, y) == 0;
    forall x | x in Inds(w, q, e) && w[x] >= 0
      ensures 0 <= x - g' - Gap(w, q, e, x) < |w'| && w'[x - g' - Gap(w, q, e, x)] == w[x]
    {
      assert x in Inds(w, p, e) && x != y;
      assert Gap(w, p, e, x) == g' - g + Gap(w, q, e, x);
    }
  }

  // ---- The array during compaction ------------------------------------------------------

  /** Where bank `x` is when the banks below `t` have moved; other values stay. */
  ghost function Loc(s: Area, t: int, x: int): int
    requires Layout(s)
  {
    if x in Banks(s) && x < t then x - Gap(s.w, s.inm, s.igp, x) else x
  }

  /** The words of bank `x` of `o`, its link word excepted, are found at `y` in `w`. */
  ghost predicate Copied(o: seq<int>, w: seq<int>, x: int, y: int) {
    && Holds(o, x) && NHW <= y && y + 1 + o[x] <= |w|
    && w[y - ICOL..y - INXT] == o[x - ICOL..x - INXT]
    && w[y..y + 1 + o[x]] == o[x..x + 1 + o[x]]
  }

  /** Bank `x` sits where it should with banks below `t` moved and links below `p` updated. */
  ghost predicate InPlace(s: Area, w: seq<int>, t: int, p: int, x: int)
    requires Layout(s)
  {
    && Copied(s.w, w, x, Loc(s, t, x))
    && w[Loc(s, t, x) - INXT] == Loc(s, p, s.w[x - INXT])
  }

  /** The words below the named banks: chain heads follow the banks, the rest stays. */
  ghost predicate HeadsAt(s: Area, w: seq<int>, p: int)
    requires Layout(s)
  {
    && s.inm <= |w|
    && (forall h :: 0 <= h < s.inm ==>
          w[h] == if s.base <= h < s.base + s.cap then Loc(s, p, s.w[h]) else s.w[h])
  }

  /**
   The array `w` in the middle of compacting `s`: banks below `t` have been copied down,
   links to banks below `p` are already those of the compacted array.
   */
  ghost predicate Compacting(s: Area, w: seq<int>, t: int, p: int)
    requires Layout(s)
  {
    && |w| == |s.w| && HeadsAt(s, w, p)
    && (forall x {:trigger InPlace(s, w, t, p, x)} ::
          x in Banks(s) && s.w[x] >= 0 ==> InPlace(s, w, t, p, x))
  }

  /** `t` and `p` are bank boundaries with live banks only between them. */
  ghost predicate Pending(s: Area, t: int, p: int)
    requires Layout(s)
  {
    && Tiles(s.w, s.inm, t) && Tiles(s.w, t, p) && Tiles(s.w, p, s.igp)
    && DropSum(s.w, t, p) == 0
  }

  lemma PendingBounds(s: Area, t: int, p: int)
    requires Layout(s) && Pending(s, t, p)
    ensures 0 < s.inm <= t <= p <= s.igp <= |s.w| && s.base + s.cap <= s.inm
    ensures 0 <= DropSum(s.w, s.inm, t) <= t - s.inm
  {
    DropSumBounds(s.w, s.inm, t);
  }

  /** A live bank is below `t`, pending, or not reached yet; what that means for its place. */
  lemma LocCases(s: Area, t: int, p: int, x: int)
    requires Layout(s) && Pending(s, t, p) && x in Banks(s) && s.w[x] >= 0
    ensures 0 <= DropSum(s.w, s.inm, t) <= t - s.inm
    ensures x < t ==> s.inm + NHW - 1 <= Loc(s, t, x) && Loc(s, t, x) + s.w[x] + 1 <= t - DropSum(s.w, s.inm, t)
    ensures t <= x < p ==> x - (NHW - 1) >= t && x + s.w[x] + 1 <= p
                           && Loc(s, p, x) == x - DropSum(s.w, s.inm, t)
    ensures x >= p ==> x - (NHW - 1) >= p
    ensures x < t ==> Loc(s, p, x) == Loc(s, t, x)
  {
    DropSumBounds(s.w, s.inm, t);
    TilesConcat(s.w, s.inm, t, p);
    TilesConcat(s.w, s.inm, p, s.igp);
    TilesConcat(s.w, t, p, s.igp);
    TilesApart(s.w, t, p);
    GapBounds(s.w, s.inm, s.igp, x);
    if x in Inds(s.w, s.inm, t) {
      GapBelow(s.w, s.inm, t, s.igp, x);
    } else if x in Inds(s.w, t, p) {
      assert x in Inds(s.w, t, s.igp);
      GapFrom(s.w, s.inm, t, s.igp, x);
      GapNone(s.w, t, p, s.igp, x);
    }
  }

  /** The pending copy: `p - t` words from `t` move down by `g`, as one block. */
  function Shifted(w: seq<int>, t: int, p: int, g: int): seq<int>
    requires 0 <= g <= t <= p <= |w|
  {
    w[..t - g] + w[t..p] + w[p - g..]
  }

  lemma ShiftedAt(w: seq<int>, t: int, p: int, g: int)
    requires 0 <= g <= t <= p <= |w|
    ensures |Shifted(w, t, p, g)| == |w|
    ensures forall j :: 0 <= j < |w| ==> Shifted(w, t, p, g)[j] == w[if t - g <= j < p - g then j + g else j]
  {
  }

  lemma CopiedBack(o: seq<int>, w: seq<int>, w': seq<int>, x: int, y: int, y': int)
    requires Copied(o, w, x, y) && NHW <= y' && y' + 1 + o[x] <= |w'|
    requires w'[y' - ICOL..y' + 1 + o[x]] == w[y - ICOL..y + 1 + o[x]]
    ensures Copied(o, w', x, y') && w'[y' - INXT] == w[y - INXT]
  {
    var a, b := w[y - ICOL..y + 1 + o[x]], w'[y' - ICOL..y' + 1 + o[x]];
    assert a[..4] == w[y - ICOL..y - INXT] && b[..4] == w'[y' - ICOL..y' - INXT];
    assert a[5..] == w[y..y + 1 + o[x]] && b[5..] == w'[y'..y' + 1 + o[x]];
    assert a[4] == w[y - INXT] && b[4] == w'[y' - INXT];
  }

  lemma ShiftedSlice(w: seq<int>, t: int, p: int, g: int, a: int, b: int)
    requires 0 <= g <= t <= p <= |w| && 0 <= a <= b <= |w|
    ensures |Shifted(w, t, p, g)| == |w|
    ensures b <= t - g || a >= p ==> Shifted(w, t, p, g)[a..b] == w[a..b]
    ensures t <= a && b <= p ==> Shifted(w, t, p, g)[a - g..b - g] == w[a..b]
  {
    hide Shifted;
    ShiftedAt(w, t, p, g);
  }

  lemma FlushBank(s: Area, w: seq<int>, t: int, p: int, x: int)
    requires Layout(s) && Pending(s, t, p) && |w| == |s.w|
    requires x in Banks(s) && s.w[x] >= 0 && Copied(s.w, w, x, Loc(s, t, x))
    requires 0 <= DropSum(s.w, s.inm, t) <= t <= p <= |w|
    ensures Copied(s.w, Shifted(w, t, p, DropSum(s.w, s.inm, t)), x, Loc(s, p, x))
    ensures Shifted(w, t, p, DropSum(s.w, s.inm, t))[Loc(s, p, x) - INXT] == w[Loc(s, t, x) - INXT]
  {
    hide Tiles, Inds, Banks, Copied, Gap, Shifted;
    PendingBounds(s, t, p);
    LocCases(s, t, p, x);
    var y, y' := Loc(s, t, x), Loc(s, p, x);
    CopiedBounds(s.w, w, x, y);
    ShiftedSlice(w, t, p, DropSum(s.w, s.inm, t), y - ICOL, y + 1 + s.w[x]);
    CopiedBack(s.w, w, Shifted(w, t, p, DropSum(s.w, s.inm, t)), x, y, y');
  }

  lemma CopiedBounds(o: seq<int>, w: seq<int>, x: int, y: int)
    requires Copied(o, w, x, y)
    ensures NHW <= x < |o| && 0 <= o[x] && NHW <= y && y + 1 + o[x] <= |w|
  {
  }

  /** Carrying out the pending copy. */
  lemma FlushStep(s: Area, w: seq<int>, t: int, p: int)
    requires Layout(s) && Pending(s, t, p) && Compacting(s, w, t, p)
    ensures 0 <= DropSum(s.w, s.inm, t) <= t - s.inm && t <= p <= |w|
    ensures Compacting(s, Shifted(w, t, p, DropSum(s.w, s.inm, t)), p, p)
  {
    hide Tiles, Copied, Loc, Inds;
    PendingBounds(s, t, p);
    var g := DropSum(s.w, s.inm, t);
    forall x | x in Banks(s) && s.w[x] >= 0
      ensures InPlace(s, Shifted(w, t, p, g), p, p, x)
    {
      assert InPlace(s, w, t, p, x);
      FlushBank(s, w, t, p, x);
      CopiedBounds(s.w, w, x, Loc(s, t, x));
      CopiedBounds(s.w, Shifted(w, t, p, g), x, Loc(s, p, x));
    }
  }

  /** Links of live banks and heads of chains lead to live banks or end. */
  lemma LinksLive(s: Area, ch: seq<seq<int>>, z: int)
    requires Inv(s, ch) && z in Banks(s) && s.w[z] >= 0
    ensures s.w[z - INXT] == 0 || (s.w[z - INXT] in Banks(s) && s.w[s.w[z - INXT]] >= 0)
  {
    hide Tiles, Inds, Accounts, IsChain, LinkPlace;
    assert InSome(ch, z);
    var n :| 0 <= n < |ch| && z in ch[n];
    var k :| 0 <= k < |ch[n]| && z == ch[n][k];
    ChainBank(s, ch, n, k);
    LinkOfPlace(s, ch, n, k + 1);
    if k + 1 < |ch[n]| { ChainBank(s, ch, n, k + 1); }
  }

  lemma LinkSame(s: Area, ch: seq<seq<int>>, m: nat, j: nat, n: nat, k: nat)
    requires Inv(s, ch) && n < |ch| && k < |ch[n]| && m < |ch| && j <= |ch[m]| && At(ch[m], j) == ch[n][k]
    ensures m == n && j == k
  {
    hide Accounts, Tiles, Inds, Ascending, IsChain, Chained;
    ChainBank(s, ch, n, k);
    BankNotZero(s, ch[n][k]);
    BankOnlyAt(s, ch, n, k);
  }

  lemma BankNotZero(s: Area, x: int)
    requires Layout(s) && x in Banks(s)
    ensures x > 0
  {
  }

  /** Only the predecessor of a bank in its chain links to it. */
  lemma OnePredecessor(s: Area, ch: seq<seq<int>>, n: nat, k: nat, z: int)
    requires Inv(s, ch) && n < |ch| && k < |ch[n]|
    requires z in Banks(s) && s.w[z] >= 0 && s.w[z - INXT] == ch[n][k]
    ensures k > 0 && z == ch[n][k - 1]
  {
    hide Accounts, Tiles, Inds, Ascending, LinkPlace, IsChain, OnlyAt;
    assert InSome(ch, z);
    var m :| 0 <= m < |ch| && z in ch[m];
    var i :| 0 <= i < |ch[m]| && z == ch[m][i];
    ChainBank(s, ch, n, k);
    LinkOfPlace(s, ch, m, i + 1);
    LinkSame(s, ch, m, i + 1, n, k);
  }

  /** Banks do not overlap while compaction is under way. */
  lemma LocApart(s: Area, t: int, y: int, z: int)
    requires Layout(s) && y in Banks(s) && z in Banks(s) && y < z && s.w[y] >= 0
    ensures s.inm <= Loc(s, t, y) - (NHW - 1) && Loc(s, t, y) + s.w[y] + 1 <= Loc(s, t, z) - (NHW - 1)
  {
    TilesApart(s.w, s.inm, s.igp);
    GapBounds(s.w, s.inm, s.igp, y);
    GapBounds(s.w, s.inm, s.igp, z);
    GapOrder(s.w, s.inm, s.igp, y, z);
  }

  /** Moving the boundary past one bank changes where that bank is, and nothing else. */
  lemma LocStep(s: Area, p: int, y: int)
    requires Layout(s) && Tiles(s.w, s.inm, p) && Tiles(s.w, p, s.igp) && p < s.igp
    ensures y != p + NHW - 1 ==> Loc(s, p + Size(s.w, p + NHW - 1), y) == Loc(s, p, y)
    ensures Loc(s, p, p + NHW - 1) == p + NHW - 1
    ensures Loc(s, p + Size(s.w, p + NHW - 1), p + NHW - 1) == p + NHW - 1 - DropSum(s.w, s.inm, p)
  {
    var x := p + NHW - 1;
    TilesConcat(s.w, s.inm, p, s.igp);
    TilesApart(s.w, s.inm, s.igp);
    assert x in Inds(s.w, p, s.igp);
    GapFrom(s.w, s.inm, p, s.igp, x);
  }

  lemma PendingStep(s: Area, t: int, p: int)
    requires Layout(s) && Pending(s, t, p) && p < s.igp
    ensures Tiles(s.w, s.inm, p) && DropSum(s.w, s.inm, p) == DropSum(s.w, s.inm, t)
    ensures p + NHW - 1 in Banks(s)
    ensures s.w[p + NHW - 1] >= 0 ==> Pending(s, t, p + Size(s.w, p + NHW - 1))
    ensures t == p && s.w[p + NHW - 1] < 0 ==>
              && Pending(s, p + Size(s.w, p + NHW - 1), p + Size(s.w, p + NHW - 1))
              && DropSum(s.w, s.inm, p + Size(s.w, p + NHW - 1)) == DropSum(s.w, s.inm, p) - s.w[p + NHW - 1]
  {
    hide Inds, DropSum;
    var q := p + Size(s.w, p + NHW - 1);
    TilesConcat(s.w, s.inm, t, p);
    TilesConcat(s.w, s.inm, p, s.igp);
    NextBank(s.w, p, s.igp);
    TilesConcat(s.w, t, p, q);
    TilesConcat(s.w, s.inm, p, q);
    NothingTiles(s.w, q);
  }

  lemma NextBank(w: seq<int>, p: int, e: int)
    requires Tiles(w, p, e) && p < e
    ensures p + NHW - 1 in Inds(w, p, e)
    ensures 0 <= p && p + NHW <= |w| && Size(w, p + NHW - 1) >= NHW
    ensures var q := p + Size(w, p + NHW - 1);
            && p <= q <= e && Tiles(w, p, q) && Tiles(w, q, e) && Inds(w, p, q) == {p + NHW - 1}
            && DropSum(w, p, q) == if w[p + NHW - 1] < 0 then q - p else 0
  {
    TilesOne(w, p);
  }

  lemma NothingTiles(w: seq<int>, p: int)
    requires 0 <= p <= |w|
    ensures Tiles(w, p, p) && Inds(w, p, p) == {} && DropSum(w, p, p) == 0
  {
  }

  /** The word that links to the `k`-th bank of a chain while banks below `t` have moved. */
  ghost function LinkWord(s: Area, t: int, h: int, c: seq<int>, k: nat): int
    requires Layout(s) && k <= |c|
  {
    if k == 0 then h else Loc(s, t, c[k - 1]) - INXT
  }

  lemma LinkWordValue(s: Area, ch: seq<seq<int>>, w: seq<int>, t: int, p: int, n: nat, k: nat)
    requires Inv(s, ch) && Compacting(s, w, t, p) && n < |ch| && k <= |ch[n]|
    ensures 0 <= LinkWord(s, t, s.base + n, ch[n], k) < |w|
    ensures w[LinkWord(s, t, s.base + n, ch[n], k)] == Loc(s, p, At(ch[n], k))
    ensures k == 0 ==> LinkWord(s, t, s.base + n, ch[n], k) < s.inm
    ensures k > 0 ==> LinkWord(s, t, s.base + n, ch[n], k) >= s.inm
  {
    hide Tiles, Inds, Accounts, Loc;
    LinkOfPlace(s, ch, n, k);
    if k > 0 {
      ChainBank(s, ch, n, k - 1);
      assert InPlace(s, w, t, p, ch[n][k - 1]);
      LocApart1(s, t, ch[n][k - 1]);
    }
  }

  lemma CopiedApart(o: seq<int>, w: seq<int>, x: int, y: int, l: int, v: int)
    requires Copied(o, w, x, y) && 0 <= l < |w|
    requires l < y - ICOL || l == y - INXT || l > y + o[x]
    ensures Copied(o, w[l := v], x, y)
  {
  }

  /** Writing the link word of a chain's `k`-th bank hits no word of another bank. */
  lemma LinkWordApart(s: Area, ch: seq<seq<int>>, t: int, n: nat, k: nat, z: int)
    requires Inv(s, ch) && n < |ch| && k <= |ch[n]| && z in Banks(s) && s.w[z] >= 0
    ensures var l := LinkWord(s, t, s.base + n, ch[n], k);
            l < Loc(s, t, z) - ICOL || (k > 0 && z == ch[n][k - 1]) || l > Loc(s, t, z) + s.w[z]
  {
    hide Tiles, Inds, Accounts, Loc;
    LocApart1(s, t, z);
    if k > 0 {
      var y := ch[n][k - 1];
      ChainBank(s, ch, n, k - 1);
      if y < z { LocApart(s, t, y, z); } else if z < y { LocApart(s, t, z, y); }
    }
  }

  lemma RelinkBank(s: Area, ch: seq<seq<int>>, w: seq<int>, t: int, p: int, q: int, n: nat, k: nat, v: int, z: int)
    requires Inv(s, ch) && Pending(s, t, p) && p < s.igp && q == p + Size(s.w, p + NHW - 1)
    requires n < |ch| && k < |ch[n]| && ch[n][k] == p + NHW - 1
    requires v == Loc(s, q, p + NHW - 1)
    requires z in Banks(s) && s.w[z] >= 0 && InPlace(s, w, t, p, z)
    requires 0 <= LinkWord(s, t, s.base + n, ch[n], k) < |w|
    ensures InPlace(s, w[LinkWord(s, t, s.base + n, ch[n], k) := v], t, q, z)
  {
    hide Tiles, Inds, Accounts, Chained, Loc, Copied;
    InvLayout(s, ch);
    var l := LinkWord(s, t, s.base + n, ch[n], k);
    CopiedBounds(s.w, w, z, Loc(s, t, z));
    LinkWordApart(s, ch, t, n, k, z);
    CopiedApart(s.w, w, z, Loc(s, t, z), l, v);
    PendingStep(s, t, p);
    LocStep(s, p, s.w[z - INXT]);
    if s.w[z - INXT] == ch[n][k] {
      OnePredecessor(s, ch, n, k, z);
    } else if k > 0 && z == ch[n][k - 1] {
      LinkOfPlace(s, ch, n, k);
    }
  }

  lemma InvLayout(s: Area, ch: seq<seq<int>>)
    requires Inv(s, ch)
    ensures Layout(s) && |ch| == |s.names|
  {
  }

  lemma LocApart1(s: Area, t: int, z: int)
    requires Layout(s) && z in Banks(s)
    ensures s.inm <= Loc(s, t, z) - (NHW - 1)
  {
    GapBounds(s.w, s.inm, s.igp, z);
  }

  lemma RelinkHead(s: Area, ch: seq<seq<int>>, p: int, n: nat, k: nat, m: nat)
    requires Inv(s, ch) && Tiles(s.w, s.inm, p) && Tiles(s.w, p, s.igp) && p < s.igp
    requires n < |ch| && k < |ch[n]| && ch[n][k] == p + NHW - 1 && m < s.cap
    requires k > 0 || m != n
    ensures Loc(s, p + Size(s.w, p + NHW - 1), s.w[s.base + m]) == Loc(s, p, s.w[s.base + m])
  {
    ChainBank(s, ch, n, k);
    LocStep(s, p, s.w[s.base + m]);
    if m < |ch| {
      LinkOfPlace(s, ch, m, 0);
      if s.w[s.base + m] == ch[n][k] {
        assert ch[m][0] in ch[m];
        OnOneChain(s, ch, n, m, ch[n][k]);
        DistinctElements(s.w, ch[n], 0, k);
      }
    }
  }

  lemma RelinkHeads(s: Area, ch: seq<seq<int>>, w: seq<int>, t: int, p: int, q: int, n: nat, k: nat, v: int)
    requires Inv(s, ch) && Pending(s, t, p) && p < s.igp && q == p + Size(s.w, p + NHW - 1)
    requires n < |ch| && k < |ch[n]| && ch[n][k] == p + NHW - 1
    requires v == Loc(s, q, p + NHW - 1) && HeadsAt(s, w, p)
    requires 0 <= LinkWord(s, t, s.base + n, ch[n], k) < |w|
    requires k > 0 ==> LinkWord(s, t, s.base + n, ch[n], k) >= s.inm
    ensures HeadsAt(s, w[LinkWord(s, t, s.base + n, ch[n], k) := v], q)
  {
    hide Tiles, Inds, Accounts, IsChain, InSome, Loc;
    PendingStep(s, t, p);
    if k == 0 { LinkOfPlace(s, ch, n, 0); }
    forall h | s.base <= h < s.base + s.cap && (k > 0 || h != s.base + n)
      ensures Loc(s, q, s.w[h]) == Loc(s, p, s.w[h])
    {
      RelinkHead(s, ch, p, n, k, h - s.base);
    }
  }

  /** Reaching a live bank: its predecessor's link is lowered, wherever that link is now. */
  lemma RelinkStep(s: Area, ch: seq<seq<int>>, w: seq<int>, t: int, p: int, q: int, n: nat, k: nat)
    requires Inv(s, ch) && Pending(s, t, p) && p < s.igp && Compacting(s, w, t, p)
    requires q == p + Size(s.w, p + NHW - 1)
    requires n < |ch| && k < |ch[n]| && ch[n][k] == p + NHW - 1
    ensures Pending(s, t, q)
    ensures var l := LinkWord(s, t, s.base + n, ch[n], k);
            && 0 <= l < |w| && w[l] == p + NHW - 1
            && Compacting(s, w[l := w[l] - DropSum(s.w, s.inm, t)], t, q)
  {
    hide Tiles, Inds, Accounts, IsChain, InSome, Loc, Copied, HeadsAt, InPlace, Chained;
    InvLayout(s, ch);
    ChainBank(s, ch, n, k);
    LinkWordValue(s, ch, w, t, p, n, k);
    PendingStep(s, t, p);
    LocStep(s, p, p + NHW - 1);
    var l := LinkWord(s, t, s.base + n, ch[n], k);
    var v := Loc(s, q, p + NHW - 1);
    RelinkHeads(s, ch, w, t, p, q, n, k, v);
    forall z | z in Banks(s) && s.w[z] >= 0
      ensures InPlace(s, w[l := v], t, q, z)
    {
      assert InPlace(s, w, t, p, z);
      RelinkBank(s, ch, w, t, p, q, n, k, v, z);
    }
  }

  /** A dropped bank is passed without a change to the array. */
  lemma SkipStep(s: Area, ch: seq<seq<int>>, w: seq<int>, p: int, q: int)
    requires Inv(s, ch) && Pending(s, p, p) && p < s.igp && Compacting(s, w, p, p)
    requires s.w[p + NHW - 1] < 0 && q == p - s.w[p + NHW - 1]
    ensures Pending(s, q, q) && DropSum(s.w, s.inm, q) == DropSum(s.w, s.inm, p) + q - p
    ensures Compacting(s, w, q, q)
  {
    hide Tiles, Inds, Accounts, IsChain, InSome, Loc, Copied, Chained;
    InvLayout(s, ch);
    PendingStep(s, p, p);
    forall z | z in Banks(s) && s.w[z] >= 0
      ensures InPlace(s, w, q, q, z)
    {
      assert InPlace(s, w, p, p, z);
      LinksLive(s, ch, z);
      LocStep(s, p, z);
      LocStep(s, p, s.w[z - INXT]);
    }
    forall h | s.base <= h < s.base + s.cap
      ensures Loc(s, q, s.w[h]) == Loc(s, p, s.w[h])
    {
      HeadsLive(s, ch, h - s.base);
      LocStep(s, p, s.w[h]);
    }
  }

  lemma HeadsLive(s: Area, ch: seq<seq<int>>, m: nat)
    requires Inv(s, ch) && m < s.cap
    ensures s.w[s.base + m] == 0 || (s.w[s.base + m] in Banks(s) && s.w[s.w[s.base + m]] >= 0)
  {
    if m < |ch| {
      LinkOfPlace(s, ch, m, 0);
      if 0 < |ch[m]| { ChainBank(s, ch, m, 0); }
    }
  }

  // ---- Chains during and after compaction --------------------------------------------------

  ghost function MapLoc(s: Area, t: int, c: seq<int>): (d: seq<int>)
    requires Layout(s)
    ensures |d| == |c| && forall i :: 0 <= i < |c| ==> d[i] == Loc(s, t, c[i])
  {
    seq(|c|, i requires 0 <= i < |c| => Loc(s, t, c[i]))
  }

  lemma MidBank(s: Area, ch: seq<seq<int>>, w: seq<int>, p: int, n: nat, i: nat)
    requires Inv(s, ch) && Compacting(s, w, p, p) && n < |ch| && i < |ch[n]|
    ensures var x, y := ch[n][i], Loc(s, p, ch[n][i]);
            && NHW <= x < |s.w| && NHW <= y < |w| && w[y] >= 0 && w[y - INAM] == s.names[n]
            && w[y - INR] == s.w[x - INR] && w[y - INXT] == Loc(s, p, At(ch[n], i + 1))
  {
    hide Tiles, Inds, Accounts, Loc, Copied, IsChain, InSome, LinkPlace, HeadsAt;
    ChainBank(s, ch, n, i);
    LinkOfPlace(s, ch, n, i + 1);
    assert InPlace(s, w, p, p, ch[n][i]);
    CopiedHeader(s.w, w, ch[n][i], Loc(s, p, ch[n][i]));
  }

  /** Between copies every chain can be walked, part old and part new addresses. */
  lemma MidChain(s: Area, ch: seq<seq<int>>, w: seq<int>, p: int, n: nat, b: set<int>)
    requires Inv(s, ch) && Compacting(s, w, p, p) && n < |ch|
    requires forall z :: z in ch[n] ==> Loc(s, p, z) in b
    ensures IsChain(w, b, s.base + n, s.names[n], MapLoc(s, p, ch[n]))
  {
    hide Tiles, Inds, Accounts, InSome, Loc, Chained, Compacting, Inv, Layout;
    InvLayout(s, ch);
    var c, d, h := ch[n], MapLoc(s, p, ch[n]), s.base + n;
    MidAscending(s, ch, w, p, n);
    forall i | 0 <= i < |c|
      ensures && NHW <= d[i] < |w| && w[d[i]] >= 0 && d[i] in b
              && w[d[i] - INAM] == s.names[n] && w[d[i] - INXT] == Loc(s, p, At(c, i + 1))
    {
      assert c[i] in c;
      MidBank(s, ch, w, p, n, i);
    }
    LinkWordValue(s, ch, w, p, p, n, 0);
    LocZero(s, p);
  }

  lemma MidAscending(s: Area, ch: seq<seq<int>>, w: seq<int>, p: int, n: nat)
    requires Inv(s, ch) && Compacting(s, w, p, p) && n < |ch|
    ensures forall i :: 0 <= i < |ch[n]| ==> NHW <= Loc(s, p, ch[n][i]) < |w|
    ensures Ascending(w, MapLoc(s, p, ch[n]))
  {
    hide Tiles, Inds, Accounts, InSome, Loc, Compacting;
    assert IsChain(s.w, Banks(s), s.base + n, s.names[n], ch[n]);
    forall i | 0 <= i < |ch[n]|
      ensures NHW <= Loc(s, p, ch[n][i]) < |w| && w[Loc(s, p, ch[n][i]) - INR] == s.w[ch[n][i] - INR]
    {
      MidBank(s, ch, w, p, n, i);
    }
  }

  lemma LocZero(s: Area, p: int)
    requires Layout(s)
    ensures Loc(s, p, 0) == 0
  {
  }

  lemma CopiedHeader(o: seq<int>, w: seq<int>, x: int, y: int)
    requires Copied(o, w, x, y)
    ensures Holds(o, x) && Holds(w, y) && w[y] == o[x] && w[y - INR] == o[x - INR] && w[y - INAM] == o[x - INAM]
    ensures BankAt(w, y) == BankAt(o, x)
  {
    var a, b := w[y - ICOL..y - INXT], o[x - ICOL..x - INXT];
    assert a[0] == b[0] && a[1] == b[1] && a[2] == b[2] && a[3] == b[3];
    var e, f := w[y..y + 1 + o[x]], o[x..x + 1 + o[x]];
    assert e[0] == f[0] && e[1..] == f[1..];
    assert w[y + 1..y + 1 + o[x]] == e[1..] && o[x + 1..x + 1 + o[x]] == f[1..];
  }

  // ---- The end of compaction ---------------------------------------------------------------

  ghost function Relocated(s: Area, ch: seq<seq<int>>): (d: seq<seq<int>>)
    requires Layout(s)
    ensures |d| == |ch| && forall n :: 0 <= n < |ch| ==> d[n] == MapLoc(s, s.igp, ch[n])
  {
    seq(|ch|, n requires 0 <= n < |ch| => MapLoc(s, s.igp, ch[n]))
  }

  /** What bosngarb.c leaves in its counters once all copies are done. */
  ghost function Compacted(s: Area, w: seq<int>): Area {
    s.(w := w, igp := s.igp - s.ndn, ndn := 0, ign := s.njw)
  }

  lemma CompactedTiles(s: Area, ch: seq<seq<int>>, w: seq<int>)
    requires Inv(s, ch) && Compacting(s, w, s.igp, s.igp)
    ensures Layout(Compacted(s, w)) && Accounts(Compacted(s, w))
    ensures Banks(Compacted(s, w)) == Moved(s.w, s.inm, s.igp, 0)
  {
    hide Chained, HeadsAt;
    var s' := Compacted(s, w);
    forall x | x in Banks(s) && s.w[x] >= 0
      ensures Loc(s, s.igp, x) == x - Gap(s.w, s.inm, s.igp, x) && 0 <= Loc(s, s.igp, x) < |w|
      ensures w[Loc(s, s.igp, x)] == s.w[x]
    {
      assert InPlace(s, w, s.igp, s.igp, x);
      CopiedHeader(s.w, w, x, Loc(s, s.igp, x));
    }
    hide Copied, Loc;
    CompactTiles(s.w, w, s.inm, s.igp, 0);
    DropSumBounds(w, s'.inm, s'.igp);
  }

  lemma CompactedCover(s: Area, ch: seq<seq<int>>, w: seq<int>, z: int)
    requires Inv(s, ch) && z in Moved(s.w, s.inm, s.igp, 0)
    ensures InSome(Relocated(s, ch), z)
  {
    hide Tiles, Inds, Accounts, IsChain;
    var x := MovedFrom(s.w, s.inm, s.igp, 0, z);
    assert InSome(ch, x);
    var n :| 0 <= n < |ch| && x in ch[n];
    var i :| 0 <= i < |ch[n]| && x == ch[n][i];
    assert Relocated(s, ch)[n][i] == z;
  }

  /** Compaction ends in a state that keeps the invariant, with every chain moved along. */
  lemma CompactedInv(s: Area, ch: seq<seq<int>>, w: seq<int>)
    requires Inv(s, ch) && Compacting(s, w, s.igp, s.igp)
    ensures Inv(Compacted(s, w), Relocated(s, ch))
  {
    hide Tiles, Inds, IsChain, Accounts, InSome, Loc, Moved;
    var s', ch' := Compacted(s, w), Relocated(s, ch);
    CompactedTiles(s, ch, w);
    forall n | 0 <= n < |ch'|
      ensures IsChain(s'.w, Banks(s'), s'.base + n, s'.names[n], ch'[n])
    {
      forall z | z in ch[n]
        ensures Loc(s, s.igp, z) in Banks(s')
      {
        var i :| 0 <= i < |ch[n]| && z == ch[n][i];
        ChainBank(s, ch, n, i);
        LocMoved(s, z);
      }
      MidChain(s, ch, w, s.igp, n, Banks(s'));
    }
    forall z | z in Banks(s')
      ensures InSome(ch', z)
    {
      CompactedCover(s, ch, w, z);
    }
    LocZero(s, s.igp);
  }

  lemma LocMoved(s: Area, x: int)
    requires Layout(s) && x in Banks(s) && s.w[x] >= 0
    ensures Loc(s, s.igp, x) in Moved(s.w, s.inm, s.igp, 0)
  {
    MovedIn(s.w, s.inm, s.igp, 0, x);
  }

  /** Compaction changes no bank's number, columns, rows or data, and no chain's order. */
  lemma CompactedMeaning(s: Area, ch: seq<seq<int>>, w: seq<int>)
    requires Inv(s, ch) && Compacting(s, w, s.igp, s.igp)
    ensures Meaningful(s.w, ch) && Meaningful(w, Relocated(s, ch))
    ensures Meaning(w, Relocated(s, ch)) == Meaning(s.w, ch)
  {
    hide Tiles, Inds, Accounts, InSome, Loc, Moved, IsChain, BankAt, Holds, Copied;
    InvMeaningful(s, ch);
    var ch' := Relocated(s, ch);
    forall n, i | 0 <= n < |ch'| && 0 <= i < |ch'[n]|
      ensures Holds(s.w, ch[n][i]) && Holds(w, ch'[n][i]) && BankAt(w, ch'[n][i]) == BankAt(s.w, ch[n][i])
    {
      ChainBank(s, ch, n, i);
      assert InPlace(s, w, s.igp, s.igp, ch[n][i]);
      CopiedHeader(s.w, w, ch[n][i], ch'[n][i]);
    }
    SameMeaning(s.w, ch, w, ch');
  }
}
