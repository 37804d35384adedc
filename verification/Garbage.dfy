/**
 Garbage collection of named banks (bosngarb.c).
 */
module Garbage {
  import opened BankLayout
  import opened Chains
  import opened NamedArea
  import opened WorkArea
  import opened LinkTables
  import opened BosArrays
  import opened Compaction
  import opened Dropping

  /** Length words of banks not reached yet are untouched. */
  ghost predicate Unreached(s: Area, w: seq<int>, p: int)
    requires Layout(s)
  {
    |w| == |s.w| && forall x :: x in Banks(s) && x >= p ==> w[x] == s.w[x]
  }

  /** The old named area with the present work area. */
  ghost function Mixed(v: Snapshot, w: seq<int>): Work
    requires 0 <= v.a.iwk <= |v.a.w| == |w|
  {
    WorkOf(v).(w := v.a.w[..v.a.iwk] + w[v.a.iwk..])
  }

  ghost predicate Unmoved(s: Area, p: int, c: seq<int>)
    requires Layout(s)
  {
    forall x :: x in c ==> Loc(s, p, x) == x
  }

  /** Work banks are in order, and a chain with a moved bank has no table any more. */
  ghost predicate Quiet(v: Snapshot, ch: seq<seq<int>>, w: seq<int>, p: int)
    requires Layout(v.a)
  {
    && |w| == |v.a.w| && WInv(Mixed(v, w)) && Links(Mixed(v, w), v.idl, v.a.cap, ch)
    && (forall n: nat :: n < |ch| ==> NoTable(w, v.idl + 1 + n) || Unmoved(v.a, p, ch[n]))
  }

  /** Everything that holds between two steps of the loop of bosNgarbage. */
  ghost predicate Sliding(v: Snapshot, ch: seq<seq<int>>, w: seq<int>, t: int, p: int) {
    && Sound(v, ch) && Pending(v.a, t, p) && Compacting(v.a, w, t, p)
    && Unreached(v.a, w, p) && Quiet(v, ch, w, p)
  }

  lemma LocId(s: Area, p: int, x: int)
    requires Layout(s) && Tiles(s.w, s.inm, p) && Tiles(s.w, p, s.igp) && DropSum(s.w, s.inm, p) == 0
    ensures Loc(s, p, x) == x
  {
    TilesConcat(s.w, s.inm, p, s.igp);
    if x in Banks(s) && x < p {
      assert x in Inds(s.w, s.inm, p);
      GapNone(s.w, s.inm, p, s.igp, x);
    }
  }

  lemma StartBoundary(s: Area)
    requires Layout(s) && Accounts(s) && s.ndn != 0
    ensures s.ign in Banks(s) && s.inm <= s.ign - (NHW - 1) < s.ign < s.igp && s.w[s.ign] < 0
    ensures Pending(s, s.ign - (NHW - 1), s.ign - (NHW - 1))
    ensures DropSum(s.w, s.inm, s.ign - (NHW - 1)) == 0
  {
    var p := s.ign - (NHW - 1);
    DropSumBounds(s.w, s.inm, s.igp);
    assert s.ign in Banks(s);
    TilesSplit(s.w, s.inm, s.ign, s.igp);
    DropSumBounds(s.w, s.inm, p);
    assert forall x :: x in Inds(s.w, s.inm, p) ==> x in Banks(s);
    assert Tiles(s.w, p, p);
  }

  lemma StartPlace(s: Area, p: int, x: int)
    requires Layout(s) && x in Banks(s) && s.w[x] >= 0 && (forall y: int :: Loc(s, p, y) == y)
    ensures InPlace(s, s.w, p, p, x)
  {
    TilesApart(s.w, s.inm, s.igp);
  }

  /** Before the first dropped bank nothing has to move. */
  lemma SlidingStart(v: Snapshot, ch: seq<seq<int>>)
    requires Sound(v, ch) && v.a.ndn != 0
    ensures var p := v.a.ign - (NHW - 1);
            && v.a.inm <= p && v.a.ign < v.a.igp && v.a.w[v.a.ign] < 0
            && Sliding(v, ch, v.a.w, p, p) && DropSum(v.a.w, v.a.inm, p) == 0
  {
    hide WInv, Links, Chained, Tiles, Inds, Accounts, Loc, InPlace;
    var s, p := v.a, v.a.ign - (NHW - 1);
    StartBoundary(s);
    forall x: int ensures Loc(s, p, x) == x {
      LocId(s, p, x);
    }
    forall x | x in Banks(s) && s.w[x] >= 0 ensures InPlace(s, s.w, p, p, x) {
      StartPlace(s, p, x);
    }
    assert Mixed(v, s.w).w == s.w;
  }

  // ---- Passing a bank ----------------------------------------------------------------------------

  lemma UnmovedStep(s: Area, p: int, q: int, c: seq<int>)
    requires Layout(s) && Tiles(s.w, s.inm, p) && Tiles(s.w, p, s.igp) && p < s.igp
    requires q == p + Size(s.w, p + NHW - 1) && Unmoved(s, p, c) && p + NHW - 1 !in c
    ensures Unmoved(s, q, c)
  {
    hide Tiles, Loc;
    forall x | x in c ensures Loc(s, q, x) == x {
      LocStep(s, p, x);
    }
  }

  /** Work area and tables when the bank at `p` is passed: its own chain, if any, has no table. */
  lemma QuietStep(v: Snapshot, ch: seq<seq<int>>, w: seq<int>, t: int, p: int, q: int, n: nat)
    requires Sound(v, ch) && Pending(v.a, t, p) && p < v.a.igp && Quiet(v, ch, w, p)
    requires q == p + Size(v.a.w, p + NHW - 1)
    requires forall m: nat :: m < |ch| && m != n ==> p + NHW - 1 !in ch[m]
    requires n < |ch| ==> NoTable(w, v.idl + 1 + n)
    ensures Quiet(v, ch, w, q)
  {
    hide WInv, Links, Chained, Accounts, Inds, Tiles, Loc, NoTable;
    PendingStep(v.a, t, p);
    forall m: nat | m < |ch| && m != n
      ensures NoTable(w, v.idl + 1 + m) || Unmoved(v.a, q, ch[m])
    {
      if !NoTable(w, v.idl + 1 + m) {
        UnmovedStep(v.a, p, q, ch[m]);
      }
    }
  }

  lemma DroppedOnNoChain(s: Area, ch: seq<seq<int>>, x: int)
    requires Inv(s, ch) && x in Banks(s) && s.w[x] < 0
    ensures forall m: nat :: m < |ch| ==> x !in ch[m]
  {
    forall m: nat | m < |ch| ensures x !in ch[m] {
    }
  }

  /** Passing a dropped bank, with no copy pending. */
  lemma SlidingSkip(v: Snapshot, ch: seq<seq<int>>, w: seq<int>, p: int, q: int)
    requires Sliding(v, ch, w, p, p) && p < v.a.igp && v.a.w[p + NHW - 1] < 0
    requires q == p - v.a.w[p + NHW - 1]
    ensures Sliding(v, ch, w, q, q) && DropSum(v.a.w, v.a.inm, q) == DropSum(v.a.w, v.a.inm, p) + q - p
  {
    hide WInv, Links, Chained, Accounts, Inds, Compacting, Quiet;
    PendingStep(v.a, p, p);
    SkipStep(v.a, ch, w, p, q);
    DroppedOnNoChain(v.a, ch, p + NHW - 1);
    QuietStep(v, ch, w, p, p, q, |ch|);
  }

  // ---- Carrying out the pending copy ---------------------------------------------------------------

  lemma QuietWords(v: Snapshot, ch: seq<seq<int>>, w: seq<int>, w': seq<int>, p: int)
    requires Sound(v, ch) && Quiet(v, ch, w, p)
    requires |w'| == |w| && w'[v.a.iwk..] == w[v.a.iwk..]
    ensures Quiet(v, ch, w', p)
  {
    hide WInv, Links, Chained, Accounts, Inds, Tiles, Loc;
    assert forall i :: v.a.iwk <= i < |w| ==> w'[i] == w'[v.a.iwk..][i - v.a.iwk] && w[i] == w[v.a.iwk..][i - v.a.iwk];
    assert Mixed(v, w').w == Mixed(v, w).w;
    forall n: nat | n < |ch| ensures NoTable(w', v.idl + 1 + n) || Unmoved(v.a, p, ch[n]) {
      QuietHandle(v, ch, w, p, n);
    }
  }

  /** A link bank's handle is zero or leads into the work area. */
  lemma QuietHandle(v: Snapshot, ch: seq<seq<int>>, w: seq<int>, p: int, n: nat)
    requires Sound(v, ch) && Quiet(v, ch, w, p) && n < |ch|
    ensures v.a.iwk <= v.idl + 1 + n < |w|
    ensures w[v.idl + 1 + n] == 0 || v.a.iwk <= w[v.idl + 1 + n] < v.fix <= v.idl + 1
  {
    hide WTiles, WBank, WDropSum, WTop, Table, Unmoved, Inv, Links;
    ChainCount(v.a, ch);
    LinksAt(Mixed(v, w), v.idl, v.a.cap, ch, n);
    MixedWords(v, w);
  }

  lemma LinksAt(k: Work, idl: int, cap: nat, ch: seq<seq<int>>, n: nat)
    requires WInv(k) && Links(k, idl, cap, ch) && n < cap
    ensures k.iwk <= k.fix <= idl + 1 + n <= k.njw < |k.w|
    ensures k.w[idl + 1 + n] == 0 || k.iwk <= k.w[idl + 1 + n] < k.fix <= idl + 1
  {
    hide WTiles, WBank, WDropSum, WTop, Table;
    assert LinkState(k, idl, ch, n);
  }

  lemma SlidingFlush(v: Snapshot, ch: seq<seq<int>>, w: seq<int>, t: int, p: int)
    requires Sliding(v, ch, w, t, p)
    ensures 0 <= DropSum(v.a.w, v.a.inm, t) <= t <= p <= |w|
    ensures Tiles(v.a.w, v.a.inm, p) && DropSum(v.a.w, v.a.inm, p) == DropSum(v.a.w, v.a.inm, t)
    ensures Sliding(v, ch, Shifted(w, t, p, DropSum(v.a.w, v.a.inm, t)), p, p)
  {
    hide WInv, Links, Chained, Accounts, Inds, Compacting, Quiet;
    PendingBounds(v.a, t, p);
    FlushStep(v.a, w, t, p);
    var w' := Shifted(w, t, p, DropSum(v.a.w, v.a.inm, t));
    TilesConcat(v.a.w, v.a.inm, t, p);
    assert Tiles(v.a.w, p, p);
    QuietWords(v, ch, w, w', p);
  }

  // ---- Emptying a link bank --------------------------------------------------------------------------

  lemma PlacedBelowGap(s: Area, t: int, x: int)
    requires Layout(s) && x in Banks(s) && s.w[x] >= 0
    ensures s.inm <= Loc(s, t, x) - (NHW - 1) && Loc(s, t, x) + s.w[x] + 1 <= s.igp
  {
    TilesApart(s.w, s.inm, s.igp);
    GapBounds(s.w, s.inm, s.igp, x);
  }

  /** Compaction is about the words below the gap. */
  lemma CompactingFrame(s: Area, w: seq<int>, w': seq<int>, t: int, p: int)
    requires Layout(s) && Compacting(s, w, t, p) && |w'| == |w| && w'[..s.igp] == w[..s.igp]
    ensures Compacting(s, w', t, p)
    ensures Unreached(s, w, p) ==> Unreached(s, w', p)
  {
    hide Loc, Tiles, Inds;
    assert forall i :: 0 <= i < s.igp ==> w'[i] == w'[..s.igp][i] && w[i] == w[..s.igp][i];
    forall x | x in Banks(s) && s.w[x] >= 0 ensures InPlace(s, w', t, p, x) {
      assert InPlace(s, w, t, p, x);
      PlacedBelowGap(s, t, x);
    }
  }

  lemma MixedEmptied(v: Snapshot, w: seq<int>, l: int)
    requires 0 <= v.a.iwk <= l < |w| == |v.a.w| && (w[l] == 0 || v.a.iwk <= w[l] < |w|)
    ensures Mixed(v, w).w[l] == w[l]
    ensures Mixed(v, Emptied(w, l)) == Mixed(v, w).(w := Emptied(Mixed(v, w).w, l))
  {
    MixedWords(v, w);
    MixedWords(v, Emptied(w, l));
  }

  /** After a link bank is emptied, tables of chains that have not moved are as good as before. */
  lemma EmptiedTables(v: Snapshot, ch: seq<seq<int>>, w: seq<int>, p: int, n: nat, l: int)
    requires Sound(v, ch) && Quiet(v, ch, w, p) && n < |ch| && l == v.idl + 1 + n
    requires v.a.iwk <= l < |w| && 0 <= w[l] < |w|
    ensures forall m: nat :: m < |ch| ==> NoTable(Emptied(w, l), v.idl + 1 + m) || Unmoved(v.a, p, ch[m])
    ensures NoTable(Emptied(w, l), l)
  {
    hide WInv, Links, Chained, Accounts, Inds, Tiles, Loc, LinkState, Mixed, Unmoved;
    forall m: nat | m < |ch| ensures NoTable(Emptied(w, l), v.idl + 1 + m) || Unmoved(v.a, p, ch[m]) {
      QuietHandle(v, ch, w, p, m);
      EmptiedHandle(v, ch, w, p, n, m);
    }
    QuietHandle(v, ch, w, p, n);
    EmptiedHandle(v, ch, w, p, n, n);
  }

  lemma QuietEmpty(v: Snapshot, ch: seq<seq<int>>, w: seq<int>, p: int, n: nat)
    requires Sound(v, ch) && Quiet(v, ch, w, p) && n < |ch|
    ensures var l := v.idl + 1 + n;
            && v.a.iwk <= l < |w| && 0 <= w[l] < |w| && (w[l] == 0 || v.a.iwk <= w[l])
            && Quiet(v, ch, Emptied(w, l), p) && NoTable(Emptied(w, l), l)
  {
    hide Chained, Accounts, Inds, Tiles, Loc, LinkState, NoTable, Unmoved, WTiles, WInds, WBank, WDropSum, WTop,
         Emptied;
    var l := v.idl + 1 + n;
    ChainCount(v.a, ch);
    ChainsBelowGap(v.a, ch);
    QuietHandle(v, ch, w, p, n);
    MixedEmptied(v, w, l);
    EmptyLink(Mixed(v, w), v.idl, v.a.cap, ch, n);
    EmptiedTables(v, ch, w, p, n, l);
    EmptiedWidth(w, l);
  }

  lemma EmptiedWidth(w: seq<int>, l: int)
    requires 0 <= l < |w| && 0 <= w[l] < |w|
    ensures |Emptied(w, l)| == |w|
  {
  }

  lemma MixedWords(v: Snapshot, w: seq<int>)
    requires 0 <= v.a.iwk <= |v.a.w| == |w|
    ensures |Mixed(v, w).w| == |w|
    ensures forall i :: 0 <= i < |w| ==> Mixed(v, w).w[i] == if i < v.a.iwk then v.a.w[i] else w[i]
  {
  }

  /** The length word of a link bank is no handle, so handles stay. */
  lemma EmptiedHandle(v: Snapshot, ch: seq<seq<int>>, w: seq<int>, p: int, n: nat, m: nat)
    requires Sound(v, ch) && Quiet(v, ch, w, p) && n < |ch| && m < |ch|
    requires 0 <= v.idl + 1 + n < |w| && 0 <= w[v.idl + 1 + n] < |w| && 0 <= v.idl + 1 + m < |w|
    ensures Emptied(w, v.idl + 1 + n)[v.idl + 1 + m] == w[v.idl + 1 + m]
    ensures 0 <= w[v.idl + 1 + m] < |w|
  {
    hide Quiet;
    QuietHandle(v, ch, w, p, n);
    QuietHandle(v, ch, w, p, m);
  }

  /** The link bank of a chain is emptied between two steps. */
  lemma SlidingReset(v: Snapshot, ch: seq<seq<int>>, w: seq<int>, t: int, p: int, n: nat)
    requires Sliding(v, ch, w, t, p) && n < |ch|
    ensures var l := v.idl + 1 + n;
            && v.a.iwk <= l < |w| && 0 <= w[l] < |w|
            && Sliding(v, ch, Emptied(w, l), t, p) && NoTable(Emptied(w, l), l)
            && Emptied(w, l)[..v.a.igp] == w[..v.a.igp]
  {
    hide WInv, Links, Chained, Accounts, Inds, Compacting, Quiet, NoTable, Pending;
    var l := v.idl + 1 + n;
    QuietEmpty(v, ch, w, p, n);
    CompactingFrame(v.a, w, Emptied(w, l), t, p);
  }

  // ---- Passing a live bank ---------------------------------------------------------------------------

  lemma LinkWordNotLength(s: Area, ch: seq<seq<int>>, t: int, n: nat, k: nat, z: int)
    requires Inv(s, ch) && n < |ch| && k <= |ch[n]| && z in Banks(s) && t <= z
    ensures LinkWord(s, t, s.base + n, ch[n], k) != z
    ensures LinkWord(s, t, s.base + n, ch[n], k) < s.igp
  {
    hide Accounts, InSome;
    TilesApart(s.w, s.inm, s.igp);
    if k > 0 {
      var y := ch[n][k - 1];
      ChainBank(s, ch, n, k - 1);
      GapBounds(s.w, s.inm, s.igp, y);
    }
  }

  lemma UnreachedStep(s: Area, ch: seq<seq<int>>, w: seq<int>, t: int, p: int, q: int, n: nat, k: nat, u: int)
    requires Inv(s, ch) && n < |ch| && k <= |ch[n]| && t <= p <= q && Unreached(s, w, p)
    requires 0 <= LinkWord(s, t, s.base + n, ch[n], k) < |w|
    ensures Unreached(s, w[LinkWord(s, t, s.base + n, ch[n], k) := u], q)
  {
    hide Accounts, InSome, Tiles, Inds, LinkWord, Chained;
    forall z | z in Banks(s) && z >= q ensures LinkWord(s, t, s.base + n, ch[n], k) != z {
      LinkWordNotLength(s, ch, t, n, k, z);
    }
  }

  lemma OnlyChain(s: Area, ch: seq<seq<int>>, n: nat, k: nat)
    requires Inv(s, ch) && n < |ch| && k < |ch[n]|
    ensures forall m: nat :: m < |ch| && m != n ==> ch[n][k] !in ch[m]
  {
    forall m: nat | m < |ch| && m != n ensures ch[n][k] !in ch[m] {
      if ch[n][k] in ch[m] { OnOneChain(s, ch, n, m, ch[n][k]); }
    }
  }

  /** The link to the bank at `p` is lowered by the gap so far. */
  lemma SlidingRelink(v: Snapshot, ch: seq<seq<int>>, w: seq<int>, t: int, p: int, q: int, n: nat, k: nat)
    requires Sliding(v, ch, w, t, p) && p < v.a.igp && q == p + Size(v.a.w, p + NHW - 1)
    requires n < |ch| && k < |ch[n]| && ch[n][k] == p + NHW - 1 && NoTable(w, v.idl + 1 + n)
    ensures var l := LinkWord(v.a, t, v.a.base + n, ch[n], k);
            && 0 <= l < v.a.igp <= v.a.iwk <= |w| && w[l] == p + NHW - 1
            && Sliding(v, ch, w[l := w[l] - DropSum(v.a.w, v.a.inm, t)], t, q)
  {
    hide WInv, Links, Chained, Accounts, Inds, Compacting, Quiet, NoTable, LinkWord, Size, Unreached, Tiles;
    var l := LinkWord(v.a, t, v.a.base + n, ch[n], k);
    PendingBounds(v.a, t, p);
    RelinkStep(v.a, ch, w, t, p, q, n, k);
    ChainBank(v.a, ch, n, k);
    LinkWordNotLength(v.a, ch, t, n, k, ch[n][k]);
    OnlyChain(v.a, ch, n, k);
    QuietStep(v, ch, w, t, p, q, n);
    UnreachedLength(v, ch, w, t, p, q);
    var w' := w[l := w[l] - DropSum(v.a.w, v.a.inm, t)];
    UnreachedStep(v.a, ch, w, t, p, q, n, k, w[l] - DropSum(v.a.w, v.a.inm, t));
    assert w'[v.a.iwk..] == w[v.a.iwk..];
    QuietWords(v, ch, w, w', q);
  }

  lemma UnreachedLength(v: Snapshot, ch: seq<seq<int>>, w: seq<int>, t: int, p: int, q: int)
    requires Sliding(v, ch, w, t, p) && p < v.a.igp && q == p + Size(v.a.w, p + NHW - 1)
    ensures |w| == |v.a.w| && w[p + NHW - 1] == v.a.w[p + NHW - 1] && p + NHW <= q && p + NHW - 1 in Banks(v.a)
    ensures v.a.igp <= v.a.iwk <= |w| && q <= v.a.igp
  {
    hide WInv, Links, Chained, Accounts, Inds, Compacting, Quiet;
    PendingStep(v.a, t, p);
    TilesApart(v.a.w, v.a.inm, v.a.igp);
  }

  // ---- The end -----------------------------------------------------------------------------------------

  lemma MixedSame(v: Snapshot, ch: seq<seq<int>>, w: seq<int>)
    requires Sound(v, ch) && Quiet(v, ch, w, v.a.igp) && HeadsAt(v.a, w, v.a.igp)
    ensures SameWork(Mixed(v, w), w)
    ensures WorkOf(v.(a := Compacted(v.a, w))) == Mixed(v, w).(w := w)
  {
    hide WInv, Links, Chained, Accounts, Inds, Tiles, Loc;
    MixedWords(v, w);
  }

  lemma UnmovedNumbers(v: Snapshot, ch: seq<seq<int>>, w: seq<int>, m: nat)
    requires Sliding(v, ch, w, v.a.igp, v.a.igp) && m < |ch| && Unmoved(v.a, v.a.igp, ch[m])
    ensures Relocated(v.a, ch)[m] == ch[m] && |w| == |v.a.w|
    ensures forall x :: x in ch[m] ==> INR <= x < |w| && x - INR < v.a.iwk && w[x - INR] == v.a.w[x - INR]
  {
    hide WInv, Links, Chained, Accounts, Inds, Tiles, Quiet, Compacting;
    forall x | x in ch[m] ensures INR <= x < |w| && x - INR < v.a.iwk && w[x - INR] == v.a.w[x - INR] {
      var i :| 0 <= i < |ch[m]| && ch[m][i] == x;
      MidBank(v.a, ch, w, v.a.igp, m, i);
      ChainBank(v.a, ch, m, i);
    }
    assert forall i :: 0 <= i < |ch[m]| ==> ch[m][i] in ch[m];
    assert MapLoc(v.a, v.a.igp, ch[m]) == ch[m];
  }

  lemma NoTableKept(k: Work, k': Work, l: int, c: seq<int>, c': seq<int>)
    requires WInv(k) && k' == k.(w := k'.w) && SameWork(k, k'.w) && WInv(k') && WBanks(k') == WBanks(k)
    requires k.fix <= l && LinkBank(k, l, c) && NoTable(k'.w, l)
    ensures LinkBank(k', l, c')
  {
    if k.w[l] != 0 { assert WBank(k, k.w[l]); }
  }

  lemma SlidingLinks(v: Snapshot, ch: seq<seq<int>>, w: seq<int>)
    requires Sliding(v, ch, w, v.a.igp, v.a.igp)
    ensures WInv(WorkOf(v.(a := Compacted(v.a, w))))
    ensures Links(WorkOf(v.(a := Compacted(v.a, w))), v.idl, v.a.cap, Relocated(v.a, ch))
  {
    hide WBank, Chained, Accounts, Inds, Tiles, Loc, InPlace, NoTable, LinkBank, Unreached, Unmoved, WTiles, WInds;
    var k, ch' := Mixed(v, w), Relocated(v.a, ch);
    var k' := k.(w := w);
    MixedSame(v, ch, w);
    WFrame(k, k');
    ChainCount(v.a, ch);
    forall m: nat | m < v.a.cap ensures LinkState(k', v.idl, ch', m) {
      assert LinkState(k, v.idl, ch, m);
      SlidingLink(v, ch, w, m);
    }
  }

  lemma SlidingLink(v: Snapshot, ch: seq<seq<int>>, w: seq<int>, m: nat)
    requires Sliding(v, ch, w, v.a.igp, v.a.igp) && m < v.a.cap
    requires SameWork(Mixed(v, w), w) && WInv(Mixed(v, w).(w := w))
    requires WBanks(Mixed(v, w).(w := w)) == WBanks(Mixed(v, w))
    requires LinkState(Mixed(v, w), v.idl, ch, m)
    ensures LinkState(Mixed(v, w).(w := w), v.idl, Relocated(v.a, ch), m)
  {
    hide WInv, Chained, Accounts, Inds, Tiles, Loc, InPlace, NoTable, LinkBank, Unreached, Unmoved, Compacting,
         Relocated;
    var k, l, ch' := Mixed(v, w), v.idl + 1 + m, Relocated(v.a, ch);
    if m < |ch| && NoTable(w, l) {
      NoTableKept(k, k.(w := w), l, ch[m], ch'[m]);
    } else if m < |ch| {
      UnmovedNumbers(v, ch, w, m);
      MixedWords(v, w);
      LinkBankKept(k, k.(w := w), l, ch[m]);
    } else {
      LinkBankKept(k, k.(w := w), l, []);
    }
  }

  /** All banks passed and copied: the array is in order and means what it meant before. */
  lemma SlidingEnd(v: Snapshot, ch: seq<seq<int>>, w: seq<int>)
    requires Sliding(v, ch, w, v.a.igp, v.a.igp)
    ensures Sound(v.(a := Compacted(v.a, w)), Relocated(v.a, ch))
    ensures Listing(v.(a := Compacted(v.a, w)), Relocated(v.a, ch)) == Listing(v, ch)
    ensures DropSum(v.a.w, v.a.inm, v.a.igp) == v.a.ndn
  {
    hide Compacting, Quiet, WInv, Links, Chained, Tiles, Relocated, Meaning;
    CompactedInv(v.a, ch, w);
    CompactedMeaning(v.a, ch, w);
    SlidingLinks(v, ch, w);
  }

  // ---- The operation -------------------------------------------------------------------------------------

  /** The words move down by `g`, overlapping or not. */
  method CopyDown(w: array<int>, from: int, n: int, g: int)
    requires 0 <= g <= from && 0 <= n && from + n <= w.Length
    modifies w
    ensures w[..] == Shifted(old(w[..]), from, from + n, g)
  {
    hide Shifted;
    ghost var w0 := w[..];
    ghost var w1 := Shifted(w0, from, from + n, g);
    ShiftedAt(w0, from, from + n, g);
    var i := 0;
    while i < n
      invariant 0 <= i <= n
      invariant forall j :: from - g <= j < from - g + i ==> w[j] == w1[j]
      invariant forall j :: 0 <= j < w.Length && !(from - g <= j < from - g + i) ==> w[j] == w0[j]
    {
      w[from - g + i] := w[from + i];
      i := i + 1;
    }
    assert w[..] == w1;
  }

  /** Between two rounds of the loop; `t` starts the pending words, `p` the next bank. */
  ghost predicate Running(b: BosArray, v: Snapshot, ch: seq<seq<int>>, t: int, p: int, ngap: int)
    reads b, b.w
  {
    && b.Value() == v.(a := v.a.(w := b.w[..])) && b.ch == ch
    && Sliding(v, ch, b.w[..], t, p) && ngap == DropSum(v.a.w, v.a.inm, t)
  }

  /** Bank `indj`, the last one passed, is pending; its chain's table is gone. */
  ghost predicate LastPassed(v: Snapshot, ch: seq<seq<int>>, w: seq<int>, t: int, p: int, indj: int, n: nat, k: nat) {
    n < |ch| && k < |ch[n]| && ch[n][k] == indj && t <= indj < p && NoTable(w, v.idl + 1 + n)
  }

  /** If the last bank passed links to the bank at `p`, that bank is next in its chain. */
  lemma FastPath(v: Snapshot, ch: seq<seq<int>>, w: seq<int>, t: int, p: int, indj: int, n: nat, k: nat)
    requires Sliding(v, ch, w, t, p) && LastPassed(v, ch, w, t, p, indj, n, k) && p < v.a.igp
    ensures NHW <= indj <= |w|
    ensures w[indj - INXT] == p + NHW - 1 ==>
              && k + 1 < |ch[n]| && ch[n][k + 1] == p + NHW - 1
              && LinkWord(v.a, t, v.a.base + n, ch[n], k + 1) == indj - INXT
  {
    hide WInv, Links, Chained, Accounts, Quiet, Tiles, InSome, Unreached;
    ChainBank(v.a, ch, n, k);
    LinkWordValue(v.a, ch, w, t, p, n, k + 1);
    if k + 1 < |ch[n]| {
      ChainBank(v.a, ch, n, k + 1);
      LocCases(v.a, t, p, ch[n][k + 1]);
    }
  }

  lemma NameOf(names: seq<int>, n: nat)
    requires n < |names| && forall i, j :: 0 <= i < j < |names| ==> names[i] != names[j]
    ensures NameIndex(names, names[n]) == n
  {
  }

  lemma ChainOf(s: Area, ch: seq<seq<int>>, x: int) returns (n: nat, k: nat)
    requires Inv(s, ch) && x in Banks(s) && s.w[x] >= 0
    ensures n < |ch| == |s.names| && k < |ch[n]| && ch[n][k] == x
    ensures NameIndex(s.names, s.names[n]) == n
  {
    hide Accounts, Tiles, Inds, IsChain;
    assert InSome(ch, x);
    n :| 0 <= n < |ch| && x in ch[n];
    k :| 0 <= k < |ch[n]| && ch[n][k] == x;
    NameOf(s.names, n);
  }

  /** The live bank at `p` is on some chain, and its header still says which. */
  lemma BankHere(v: Snapshot, ch: seq<seq<int>>, w: seq<int>, p: int) returns (n: nat, k: nat)
    requires Sliding(v, ch, w, p, p) && p < v.a.igp && v.a.w[p + NHW - 1] >= 0
    ensures n < |ch| == |v.a.names| && k < |ch[n]| && ch[n][k] == p + NHW - 1
    ensures NHW <= p + NHW - 1 < |w| && w[p + NHW - 1 - INAM] == v.a.names[n]
    ensures NameIndex(v.a.names, v.a.names[n]) == n
    ensures MapLoc(v.a, p, ch[n])[k] == p + NHW - 1
  {
    hide WInv, Links, Accounts, Quiet, Compacting, Inds, Chained, IsChain, InSome;
    PendingStep(v.a, p, p);
    n, k := ChainOf(v.a, ch, p + NHW - 1);
    MidBank(v.a, ch, w, p, n, k);
    LocStep(v.a, p, p + NHW - 1);
  }

  /** In the middle of compaction the chain of the bank at `p` can be walked. */
  lemma WalkHere(v: Snapshot, ch: seq<seq<int>>, w: seq<int>, p: int, n: nat)
    requires Sliding(v, ch, w, p, p) && n < |ch|
    ensures |v.a.names| == |ch|
    ensures IsChain(w, set z | z in ch[n] :: Loc(v.a, p, z), v.a.base + n, v.a.names[n], MapLoc(v.a, p, ch[n]))
  {
    hide WInv, Links, Accounts, Quiet, Compacting, Inds, Chained, InSome;
    ChainCount(v.a, ch);
    MidChain(v.a, ch, w, p, n, set z | z in ch[n] :: Loc(v.a, p, z));
  }

  lemma SlotOf(w: seq<int>, c: seq<int>, k: nat, j: nat)
    requires (forall i :: 0 <= i < |c| ==> NHW <= c[i] < |w|) && Ascending(w, c) && k < |c|
    requires IsSlot(w, c, w[c[k] - INR], j)
    ensures j == k
  {
    assert j < |c| ==> NHW <= c[j];
  }

  /** What `nindex` finds there is the bank itself, and the word that links to it. */
  lemma FoundHere(v: Snapshot, ch: seq<seq<int>>, w: seq<int>, p: int, n: nat, k: nat, j: nat)
    requires Sliding(v, ch, w, p, p) && n < |ch| && k < |ch[n]|
    requires MapLoc(v.a, p, ch[n])[k] == p + NHW - 1 && NHW <= p + NHW - 1 < |w|
    requires IsSlot(w, MapLoc(v.a, p, ch[n]), w[p + NHW - 1 - INR], j)
    ensures j == k && LinkOf(v.a.base + n, MapLoc(v.a, p, ch[n]), k) == LinkWord(v.a, p, v.a.base + n, ch[n], k)
  {
    hide WInv, Links, Accounts, Quiet, Compacting, Inds, Chained, InSome;
    WalkHere(v, ch, w, p, n);
    SlotOf(w, MapLoc(v.a, p, ch[n]), k, j);
  }

  /** Carries out the pending copy, if there is one. */
  method FlushPending(b: BosArray, icop: int, ncop: int, ngap: int,
                      ghost v: Snapshot, ghost ch: seq<seq<int>>, ghost t: int, ghost p: int)
    requires Running(b, v, ch, t, p, ngap) && ncop == p - t && (ncop != 0 ==> icop == t)
    modifies b.w
    ensures Running(b, v, ch, p, p, ngap)
  {
    hide Sliding, Sound, Inv, Compacting;
    SlidingBounds(v, ch, b.w[..], t, p);
    SlidingFlush(v, ch, b.w[..], t, p);
    if ncop != 0 {
      CopyDown(b.w, icop, ncop, ngap);
    } else {
      assert b.w[..] == Shifted(b.w[..], p, p, ngap);
    }
  }

  /**
   The bank at `ind` does not follow the last one in its chain: carry out the pending copy,
   empty the link bank of its name and look up what links to it.
   */
  method FindPredecessor(b: BosArray, ind: int, ngap: int, ghost v: Snapshot, ghost ch: seq<seq<int>>, ghost p: int)
    returns (indi: int, indj: int, ghost n: nat, ghost k: nat)
    requires Running(b, v, ch, p, p, ngap) && ind == p + NHW - 1 && p < v.a.igp && v.a.w[ind] >= 0
    modifies b.w
    ensures Running(b, v, ch, p, p, ngap) && indi == ind
    ensures n < |ch| && k < |ch[n]| && ch[n][k] == ind && NoTable(b.w[..], v.idl + 1 + n)
    ensures indj - INXT == LinkWord(v.a, p, v.a.base + n, ch[n], k)
  {
    hide Sliding, Sound, Inv, Compacting, IsChain, IsSlot, NoTable, Emptied, LinkOf, LinkWord, DropSum;
    SlidingBounds(v, ch, b.w[..], p, p);
    n, k := BankHere(v, ch, b.w[..], p);
    var nama := b.w[ind - INAM];
    var nami := NameIndex(b.names, nama);
    SlidingReset(v, ch, b.w[..], p, p, n);
    ResetLink(b.w, b.idl + 1 + nami);
    WalkHere(v, ch, b.w[..], p, n);
    var nr := b.w[ind - INR];
    var nlpl;
    ghost var j;
    nlpl, indi, indj, j := Nindex(b.w, nr, b.base + nami, set z | z in ch[n] :: Loc(v.a, p, z), v.a.names[n],
                                  MapLoc(v.a, p, ch[n]));
    FoundHere(v, ch, b.w[..], p, n, k, j);
  }

  lemma SlidingBounds(v: Snapshot, ch: seq<seq<int>>, w: seq<int>, t: int, p: int)
    requires Sliding(v, ch, w, t, p)
    ensures Layout(v.a) && 0 < v.a.inm <= t <= p <= v.a.igp <= v.a.iwk <= |w| == |v.a.w|
    ensures Tiles(v.a.w, v.a.inm, t) && 0 <= DropSum(v.a.w, v.a.inm, t) <= t - v.a.inm
    ensures Inv(v.a, ch) && Compacting(v.a, w, t, p) && Sound(v, ch)
  {
    PendingBounds(v.a, t, p);
  }

  /** The bank at `p` is passed: its predecessor's link is lowered where it is now. */
  method LowerLink(b: BosArray, indj: int, ngap: int, ghost v: Snapshot, ghost ch: seq<seq<int>>,
                   ghost t: int, ghost p: int, ghost q: int, ghost n: nat, ghost k: nat)
    requires Running(b, v, ch, t, p, ngap) && p < v.a.igp && q == p + Size(v.a.w, p + NHW - 1)
    requires n < |ch| && k < |ch[n]| && ch[n][k] == p + NHW - 1 && NoTable(b.w[..], v.idl + 1 + n)
    requires indj - INXT == LinkWord(v.a, t, v.a.base + n, ch[n], k)
    modifies b.w
    ensures Running(b, v, ch, t, q, ngap) && LastPassed(v, ch, b.w[..], t, q, p + NHW - 1, n, k)
  {
    hide Sliding, Sound, Inv, Compacting, LinkWord, Size, NoTable;
    SlidingBounds(v, ch, b.w[..], t, p);
    SlidingRelink(v, ch, b.w[..], t, p, q, n, k);
    UnreachedLength(v, ch, b.w[..], t, p, q);
    NoTableFrame(v, ch, b.w[..], t, p, indj - INXT, b.w[indj - INXT] - ngap, n);
    b.w[indj - INXT] := b.w[indj - INXT] - ngap;
  }

  lemma NoTableFrame(v: Snapshot, ch: seq<seq<int>>, w: seq<int>, t: int, p: int, l: int, u: int, n: nat)
    requires Sliding(v, ch, w, t, p) && n < |ch| && 0 <= l < v.a.iwk && |w| == |v.a.w|
    requires NoTable(w, v.idl + 1 + n)
    ensures l < |w| && NoTable(w[l := u], v.idl + 1 + n)
  {
    hide WInv, Links, Accounts, Chained, Quiet;
    QuietHandle(v, ch, w, p, n);
  }

  /** A dropped bank widens the gap; the copy pending before it is carried out first. */
  method PassDropped(b: BosArray, icop: int, ncop: int, ngap: int, ind: int, indj: int,
                     ghost v: Snapshot, ghost ch: seq<seq<int>>, ghost t: int, ghost p: int)
    returns (ncop': int, indj': int, ngap': int, nwrd: int)
    requires Running(b, v, ch, t, p, ngap) && ind == p + NHW - 1 < v.a.igp && 0 <= ngap
    requires ncop == p - t >= 0 && (ncop != 0 ==> icop == t)
    requires NHW <= ind < |v.a.w| && b.w.Length == |v.a.w| && v.a.w[ind] < 0
    requires ncop == 0 ==> indj == 0
    modifies b.w
    ensures ncop' == 0 && indj' == 0 && nwrd == -v.a.w[ind] && ngap' == ngap + nwrd
    ensures Running(b, v, ch, p + nwrd, p + nwrd, ngap') && nwrd >= NHW
  {
    hide Sliding, Sound, Inv, Compacting, Layout;
    ncop', indj' := ncop, indj;
    if ncop > 0 {
      FlushPending(b, icop, ncop, ngap, v, ch, t, p);
      ncop' := 0;
      indj' := 0;
    }
    RunningBank(v, ch, b.w[..], p, p);
    nwrd := -b.w[ind];
    ngap' := ngap + nwrd;
    SlidingSkip(v, ch, b.w[..], p, p + nwrd);
  }

  /** A live bank behind a gap joins the pending copy, its predecessor's link being lowered. */
  method PassLive(b: BosArray, icop: int, ncop: int, ngap: int, ind: int, indj: int, nwrd: int,
                  ghost v: Snapshot, ghost ch: seq<seq<int>>, ghost t: int, ghost p: int, ghost n: nat, ghost k: nat)
    returns (icop': int, ncop': int, indj': int, ghost t': int, ghost n': nat, ghost k': nat)
    requires Running(b, v, ch, t, p, ngap) && ind == p + NHW - 1 < v.a.igp
    requires ncop == p - t >= 0 && (ncop != 0 ==> icop == t)
    requires NHW <= ind < |v.a.w| && b.w.Length == |v.a.w| && v.a.w[ind] >= 0 && nwrd == Size(v.a.w, ind)
    requires indj != 0 ==> LastPassed(v, ch, b.w[..], t, p, indj, n, k)
    modifies b.w
    ensures Running(b, v, ch, t', p + nwrd, ngap) && indj' == ind
    ensures ncop' == p + nwrd - t' > 0 && icop' == t'
    ensures LastPassed(v, ch, b.w[..], t', p + nwrd, indj', n', k')
  {
    hide Sliding, Sound, Inv, Compacting, LinkWord, NoTable, Layout;
    icop', ncop', indj', t', n', k' := icop, ncop, indj, t, n, k;
    if indj != 0 {
      FastPath(v, ch, b.w[..], t, p, indj, n, k);
    }
    if indj == 0 || ind != b.w[indj - INXT] {
      if ncop != 0 {
        FlushPending(b, icop, ncop, ngap, v, ch, t, p);
        ncop' := 0;
      }
      t' := p;
      var indi;
      indi, indj', n', k' := FindPredecessor(b, ind, ngap, v, ch, p);
    } else {
      k' := k + 1;
    }
    LowerLink(b, indj', ngap, v, ch, t', p, p + nwrd, n', k');
    indj' := ind;
    if ncop' == 0 {
      icop' := ind - (NHW - 1);
    }
    ncop' := ncop' + nwrd;
  }

  /**
   Compaction of the named banks (bosNgarbage).  Links are lowered while copies are still
   pending; at the end no dropped bank is left and every bank is what and where in its chain
   it was.
   */
  method Ngarbage(b: BosArray) returns (status: int)
    requires b.Valid()
    modifies b, b.w
    ensures b.Valid() && status == 0 && b.jw1 == 0
    ensures b.Contents() == old(b.Contents())
    ensures b.ndn == 0 && b.ign == b.njw && b.igp == old(b.igp) - old(b.ndn)
    ensures b.names == old(b.names) && b.iwk == old(b.iwk) && b.ndw == old(b.ndw) && b.bits == old(b.bits)
  {
    hide Sliding, Sound, Inv, Compacting, LinkWord, NoTable, Layout, Listing, LastPassed;
    ghost var v, ch := b.Value(), b.ch;
    b.jw1 := 0;
    if b.ndn == 0 {
      NothingDropped(v, ch);
      return 0;
    }
    var ngap, ncop, indj, icop := 0, 0, 0, 0;
    var ind := b.ign;
    ghost var p, t, n, k := ind - (NHW - 1), ind - (NHW - 1), 0, 0;
    SlidingStart(v, ch);
    RunningBank(v, ch, b.w[..], p, p);
    while ind < b.igp
      invariant ind == p + NHW - 1 && Running(b, v, ch, t, p, ngap)
      invariant ncop == p - t >= 0 && (ncop != 0 ==> icop == t)
      invariant indj != 0 ==> ncop != 0 && LastPassed(v, ch, b.w[..], t, p, indj, n, k)
      invariant b.bits == old(b.bits) && b.jw1 == 0
      invariant ngap >= 0 && (ngap == 0 ==> NHW <= ind < |v.a.w| && v.a.w[ind] < 0)
      decreases b.igp - ind
    {
      RunningBank(v, ch, b.w[..], t, p);
      var nwrd;
      if b.w[ind] < 0 {
        ncop, indj, ngap, nwrd := PassDropped(b, icop, ncop, ngap, ind, indj, v, ch, t, p);
        t := p + nwrd;
      } else {
        nwrd := b.w[ind] + NHW;
        if ngap != 0 {
          icop, ncop, indj, t, n, k := PassLive(b, icop, ncop, ngap, ind, indj, nwrd, v, ch, t, p, n, k);
        }
      }
      ind := ind + nwrd;
      p := p + nwrd;
    }
    RunningEnd(v, ch, b.w[..], t, p);
    if ncop != 0 {
      FlushPending(b, icop, ncop, ngap, v, ch, t, p);
    }
    SlidingEnd(v, ch, b.w[..]);
    b.ndn := b.ndn - ngap;
    b.igp := b.igp - ngap;
    b.ign := b.njw;
    b.ch := Relocated(v.a, ch);
    status := 0;
  }

  lemma RunningEnd(v: Snapshot, ch: seq<seq<int>>, w: seq<int>, t: int, p: int)
    requires Sliding(v, ch, w, t, p) && p + NHW - 1 >= v.a.igp
    ensures p == v.a.igp && Layout(v.a)
    ensures t == p ==> DropSum(v.a.w, v.a.inm, t) == v.a.ndn
  {
  }

  lemma RunningBank(v: Snapshot, ch: seq<seq<int>>, w: seq<int>, t: int, p: int)
    requires Sliding(v, ch, w, t, p) && p + NHW - 1 < v.a.igp
    ensures p < v.a.igp && NHW <= p + NHW - 1 < |v.a.w| == |w|
    ensures w[p + NHW - 1] == v.a.w[p + NHW - 1]
    ensures p + Size(w, p + NHW - 1) <= v.a.igp && Size(w, p + NHW - 1) >= NHW
  {
    SlidingBounds(v, ch, w, t, p);
    UnreachedLength(v, ch, w, t, p, p + Size(v.a.w, p + NHW - 1));
  }

  lemma NothingDropped(v: Snapshot, ch: seq<seq<int>>)
    requires Sound(v, ch) && v.a.ndn == 0
    ensures v.a.ign == v.a.njw
  {
    DropSumBounds(v.a.w, v.a.inm, v.a.igp);
  }
}
