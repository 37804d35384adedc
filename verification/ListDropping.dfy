/**
 Dropping all banks of a list of names and giving the trailing dropped banks back (bosldrop.c).
 */
module ListDropping {
  import opened BankLayout
  import opened Chains
  import opened Directory
  import opened NamedArea
  import opened WorkArea
  import opened LinkTables
  import opened BosArrays
  import opened Dropping
  import opened Creating

  // ---- Dropping a whole chain ---------------------------------------------------------------------

  /** The array with chain head `h` leading to `u`. */
  ghost function Headed(v: Snapshot, h: int, u: int): Snapshot {
    if 0 <= h < |v.a.w| then v.(a := v.a.(w := v.a.w[h := u])) else v
  }

  /** With no table to empty, dropping the first bank of a chain is marking it and moving the head on. */
  lemma DropFirst(v: Snapshot, ch: seq<seq<int>>, n: nat)
    requires Sound(v, ch) && n < |ch| && ch[n] != []
    requires NoTable(v.a.w, v.idl + 1 + n)
    ensures var x, h, s := ch[n][0], v.a.base + n, v.a;
            && NHW <= x < |s.w| && 0 <= h < s.inm < x && s.w[x] >= 0 && s.w[h] == x && s.w[x - INXT] == At(ch[n], 1)
            && x < s.iwk
            && DropState(v, ch, n, 0, false) == v.(a := s.(w := s.w[h := s.w[x - INXT]][x := -(s.w[x] + NHW)],
                 ndn := s.ndn + s.w[x] + NHW, ign := if s.ign < x then s.ign else x))
  {
    hide WInv, Links, Accounts, Chained, Tiles, LinkPlace;
    DropTouches(v, ch, n, 0);
    DropStateWords(v, ch, n, 0, false);
    LinkOfPlace(v.a, ch, n, 0);
    LinkOfPlace(v.a, ch, n, 1);
    ChainBank(v.a, ch, n, 0);
    CountNames(v, ch);
  }

  /** The first `i` banks of chain `n` are marked; the head, were it moved on, would lead to `ind`. */
  ghost predicate HalfDropped(v0: Snapshot, ch: seq<seq<int>>, v: Snapshot, n: nat, i: nat, ind: int) {
    && Sound(v0, ch) && n < |ch| && i <= |ch[n]| && ind == At(ch[n], i)
    && 0 <= v.a.base + n < |v.a.w| && NoTable(v.a.w, v.idl + 1 + n)
    && var v' := Headed(v, v.a.base + n, ind);
    && Sound(v', ch[n := ch[n][i..]])
    && Listing(v', ch[n := ch[n][i..]]) == Listing(v0, ch)[n := Listing(v0, ch)[n][i..]]
  }

  lemma ListSorted(v: Snapshot, ch: seq<seq<int>>, n: nat)
    requires Sound(v, ch) && n < |ch|
    ensures Sorted(Listing(v, ch)[n]) && |Listing(v, ch)[n]| == |ch[n]|
    ensures forall i :: 0 <= i < |ch[n]| ==>
        INR <= ch[n][i] < |v.a.w| && Listing(v, ch)[n][i].nr == v.a.w[ch[n][i] - INR]
  {
    ListOf(v.a, ch, n);
  }

  lemma HeadAway(v: Snapshot, n: nat, h: int, u: int)
    requires NoTable(v.a.w, v.idl + 1 + n) && 0 <= h < v.a.iwk
    requires v.a.iwk <= v.idl + 1 + n < |v.a.w|
    requires var t := Headed(v, h, u).a.w[v.idl + 1 + n]; t == 0 || v.a.iwk <= t
    ensures NoTable(Headed(v, h, u).a.w, v.idl + 1 + n)
  {
  }

  lemma TailList(v0: Snapshot, ch: seq<seq<int>>, v: Snapshot, n: nat, i: nat, ind: int)
    requires HalfDropped(v0, ch, v, n, i, ind) && ind != 0
    ensures i < |ch[n]| && ch[n := ch[n][i..]][n] == ch[n][i..] && ch[n][i..] != [] && ch[n][i..][0] == ind
    ensures |Listing(v0, ch)[n]| == |ch[n]|
  {
    ListSorted(v0, ch, n);
  }

  lemma HalfHandle(v0: Snapshot, ch: seq<seq<int>>, v: Snapshot, n: nat, i: nat, ind: int)
    requires HalfDropped(v0, ch, v, n, i, ind)
    ensures NoTable(Headed(v, v.a.base + n, ind).a.w, v.idl + 1 + n)
  {
    hide Inv, WInv, Links, Listing;
    SettleBounds(Headed(v, v.a.base + n, ind), ch[n := ch[n][i..]], n);
    HeadBelow(Headed(v, v.a.base + n, ind), ch[n := ch[n][i..]], n);
    HeadAway(v, n, v.a.base + n, ind);
  }

  lemma HeadBelow(v: Snapshot, ch: seq<seq<int>>, n: nat)
    requires Sound(v, ch) && n < |ch|
    ensures v.a.base + n < v.a.inm <= v.a.iwk
  {
    ChainCount(v.a, ch);
  }

  /** What one round of the inner loop of bosLdrop does. */
  lemma HalfStep(v0: Snapshot, ch: seq<seq<int>>, v: Snapshot, n: nat, i: nat, ind: int)
    requires HalfDropped(v0, ch, v, n, i, ind) && ind != 0
    ensures i < |ch[n]| && NHW <= ind < |v.a.w| && v.a.w[ind] >= 0
    ensures v.a.base + n < ind - INXT
    ensures HalfDropped(v0, ch, v.(a := v.a.(w := v.a.w[ind := -(v.a.w[ind] + NHW)], ndn := v.a.ndn + v.a.w[ind] + NHW,
                        ign := if v.a.ign < ind then v.a.ign else ind)), n, i + 1, v.a.w[ind - INXT])
  {
    hide Sound, Listing, DropState, Delete;
    var h := v.a.base + n;
    var v1, ch1 := Headed(v, h, ind), ch[n := ch[n][i..]];
    TailList(v0, ch, v, n, i, ind);
    HalfHandle(v0, ch, v, n, i, ind);
    DropFirst(v1, ch1, n);
    var v2, ch2 := DropState(v1, ch1, n, 0, false), ch1[n := Remove(ch1[n], 0)];
    DropSound(v1, ch1, n, 0, false);
    ListSorted(v1, ch1, n);
    DeleteRemove(Listing(v1, ch1)[n], 0, v1.a.w[ind - INR]);
    assert Remove(ch1[n], 0) == ch[n][i + 1..];
    assert ch2 == ch[n := ch[n][i + 1..]];
    var L := Listing(v0, ch)[n];
    assert Remove(L[i..], 0) == L[i + 1..];
    var v3 := v.(a := v.a.(w := v.a.w[ind := -(v.a.w[ind] + NHW)], ndn := v.a.ndn + v.a.w[ind] + NHW,
                        ign := if v.a.ign < ind then v.a.ign else ind));
    assert Headed(v3, h, v.a.w[ind - INXT]) == v2;
    HandleAway(v1, ch1, n, ind);
    NextHead(v, ch, n, i);
    StepHandle(v, n, ind, -(v.a.w[ind] + NHW));
  }

  lemma NextHead(v: Snapshot, ch: seq<seq<int>>, n: nat, i: nat)
    requires n < |ch| && i < |ch[n]|
    ensures At(ch[n][i..], 1) == At(ch[n], i + 1)
  {
  }

  lemma StepHandle(v: Snapshot, n: nat, x: int, u: int)
    requires NoTable(v.a.w, v.idl + 1 + n) && 0 <= x < |v.a.w|
    requires x < v.idl + 1 + n && (v.a.w[v.idl + 1 + n] == 0 || x < v.a.w[v.idl + 1 + n])
    ensures NoTable(v.a.w[x := u], v.idl + 1 + n)
  {
  }

  lemma HandleAway(v: Snapshot, ch: seq<seq<int>>, n: nat, x: int)
    requires Sound(v, ch) && n < |ch| && x < v.a.iwk
    ensures x < v.idl + 1 + n && (v.a.w[v.idl + 1 + n] == 0 || x < v.a.w[v.idl + 1 + n])
  {
    SettleBounds(v, ch, n);
  }

  lemma HalfStart(v: Snapshot, ch: seq<seq<int>>, n: nat)
    requires Sound(v, ch) && n < |ch| && NoTable(v.a.w, v.idl + 1 + n)
    ensures HalfDropped(v, ch, v, n, 0, v.a.w[v.a.base + n])
    ensures v.a.base + n < |v.a.w|
  {
    hide WInv, Links, Accounts, Tiles, Listing;
    LinkOfPlace(v.a, ch, n, 0);
    HeadBelow(v, ch, n);
    assert v.a.w[v.a.base + n := v.a.w[v.a.base + n]] == v.a.w;
    assert ch[n][0..] == ch[n];
    assert ch[n := ch[n]] == ch;
    ListSorted(v, ch, n);
    assert Listing(v, ch)[n][0..] == Listing(v, ch)[n];
    assert Listing(v, ch)[n := Listing(v, ch)[n]] == Listing(v, ch);
  }

  lemma HalfEnd(v0: Snapshot, ch: seq<seq<int>>, v: Snapshot, n: nat, i: nat)
    requires HalfDropped(v0, ch, v, n, i, 0)
    ensures 0 <= v.a.base + n < |v.a.w|
    ensures var v' := v.(a := v.a.(w := v.a.w[v.a.base + n := 0]));
            Sound(v', ch[n := []]) && Listing(v', ch[n := []]) == Listing(v0, ch)[n := []]
  {
    hide Inv, WInv, Links, Listing;
    ListSorted(v0, ch, n);
    assert i == |ch[n]|;
    assert ch[n][i..] == [];
    assert Listing(v0, ch)[n][i..] == [];
  }

  lemma ResetEmpty(w: seq<int>, l: int)
    requires 0 <= l < |w| && 0 <= w[l] < |w| && w[l] != l
    ensures NoTable(Emptied(w, l), l)
  {
  }

  lemma HandleNotSelf(v: Snapshot, ch: seq<seq<int>>, n: nat)
    requires Sound(v, ch) && n < |ch|
    ensures 0 <= v.idl + 1 + n < |v.a.w| && v.a.w[v.idl + 1 + n] != v.idl + 1 + n
  {
    SettleBounds(v, ch, n);
    HandleInRange(v, ch, n);
    assert v.fix <= v.idl + 1;
  }

  /** All banks of the n-th name are marked and its chain head is cleared. */
  method DropChain(b: BosArray, n: nat)
    requires b.Valid() && n < |b.ch|
    modifies b, b.w
    ensures b.Valid() && b.ch == old(b.ch)[n := []] && b.Contents() == old(b.Contents())[n := []]
    ensures b.names == old(b.names) && b.iwk == old(b.iwk) && b.bits == old(b.bits) && b.jw1 == old(b.jw1)
    ensures b.ndw == old(b.ndw) && b.igp == old(b.igp)
  {
    hide Sound, Listing, HalfDropped, NoTable, Emptied;
    ghost var ch := b.ch;
    ResetSound(b.Value(), ch, n);
    HandleNotSelf(b.Value(), ch, n);
    ResetEmpty(b.w[..], b.idl + 1 + n);
    ResetLink(b.w, b.idl + 1 + n);
    ghost var v := b.Value();
    HalfStart(v, ch, n);
    HeadBelow(v, ch, n);
    SettleBounds(v, ch, n);
    var ind := b.w[b.base + n];
    ghost var i := 0;
    while ind != 0
      invariant HalfDropped(v, ch, b.Value(), n, i, ind) && i <= |ch[n]|
      invariant b.names == old(b.names) && b.iwk == old(b.iwk) && b.bits == old(b.bits) && b.jw1 == old(b.jw1)
      invariant b.ndw == old(b.ndw) && b.igp == old(b.igp) && b.ch == ch
      decreases |ch[n]| - i
    {
      HalfStep(v, ch, b.Value(), n, i, ind);
      var ndif := b.w[ind] + NHW;
      var next := b.w[ind - INXT];
      b.ndn := b.ndn + ndif;
      b.ign := if b.ign < ind then b.ign else ind;
      b.w[ind] := -ndif;
      i := i + 1;
      ind := next;
    }
    HalfEnd(v, ch, b.Value(), n, i);
    b.w[b.base + n] := 0;
    b.ch := ch[n := []];
  }

  // ---- Giving the trailing dropped banks back --------------------------------------------------------

  /** No bank that ends at `e` is dropped. */
  ghost predicate LiveEnd(w: seq<int>, p: int, e: int)
    requires Tiles(w, p, e)
  {
    forall x :: x in Inds(w, p, e) && w[x] < 0 ==> x - (NHW - 1) - w[x] < e
  }

  /** The scan has reached `ind`; the dropped run that ends there starts at `indrop`, if it is not empty. */
  ghost predicate Scanned(s: Area, ind: int, indrop: int) {
    var q, p := (if indrop == 0 then ind else indrop) - (NHW - 1), ind - (NHW - 1);
    && s.inm <= q <= p <= s.igp
    && Tiles(s.w, s.inm, q) && Tiles(s.w, q, p) && Tiles(s.w, p, s.igp)
    && DropSum(s.w, q, p) == p - q && LiveEnd(s.w, s.inm, q)
    && (indrop != 0 ==> s.ign <= indrop && q < p)
  }

  lemma ScanStart(s: Area, ch: seq<seq<int>>)
    requires Inv(s, ch)
    ensures s.ndn != 0 ==> Scanned(s, s.ign, 0)
    ensures s.ndn == 0 ==> s.ign == s.njw && Tiles(s.w, s.inm, s.igp) && LiveEnd(s.w, s.inm, s.igp)
    ensures 0 < s.inm <= s.igp <= s.njw
    ensures s.ndn != 0 ==> s.ign in Banks(s) && DropSum(s.w, s.inm, s.igp) == s.ndn
                           && DropSum(s.w, s.inm, s.ign - (NHW - 1)) == 0
  {
    hide Chained;
    DropSumBounds(s.w, s.inm, s.igp);
    if s.ndn != 0 {
      assert s.ign in Banks(s);
      TilesSplit(s.w, s.inm, s.ign, s.igp);
      DropSumBounds(s.w, s.inm, s.ign - (NHW - 1));
    }
  }

  lemma FirstTile(w: seq<int>, p: int, e: int)
    requires Tiles(w, p, e) && p < e
    ensures NHW <= p + NHW <= e <= |w| && Size(w, p + NHW - 1) >= NHW
    ensures var m := p + Size(w, p + NHW - 1);
            && p < m <= e && Tiles(w, p, m) && Tiles(w, m, e) && Inds(w, p, m) == {p + NHW - 1}
            && DropSum(w, p, m) == if w[p + NHW - 1] < 0 then m - p else 0
  {
    TilesOne(w, p);
  }

  /** A dropped bank joins the run before it. */
  lemma RunStep(s: Area, ind: int, indrop: int)
    requires Scanned(s, ind, indrop) && ind < s.igp && s.inm > 0 && s.ign <= ind
    requires 0 <= ind < |s.w| && s.w[ind] < 0
    ensures Scanned(s, ind - s.w[ind], if indrop == 0 then ind else indrop)
  {
    var q, p := (if indrop == 0 then ind else indrop) - (NHW - 1), ind - (NHW - 1);
    hide Tiles, Inds, DropSum, LiveEnd;
    FirstTile(s.w, p, s.igp);
    TilesConcat(s.w, q, p, p - s.w[ind]);
  }

  /** A live bank ends the run before it. */
  lemma RunEnds(s: Area, ind: int, indrop: int)
    requires Scanned(s, ind, indrop) && ind < s.igp && s.inm > 0
    requires 0 <= ind < |s.w| && s.w[ind] >= 0
    ensures Scanned(s, ind + s.w[ind] + NHW, 0)
  {
    var q, p := (if indrop == 0 then ind else indrop) - (NHW - 1), ind - (NHW - 1);
    hide Tiles, Inds, DropSum;
    FirstTile(s.w, p, s.igp);
    var p' := p + s.w[ind] + NHW;
    TilesConcat(s.w, s.inm, q, p);
    TilesConcat(s.w, s.inm, p, p');
    TilesApart(s.w, s.inm, p);
    FirstTile0(s.w, p');
  }

  lemma FirstTile0(w: seq<int>, p: int)
    requires 0 <= p <= |w|
    ensures Tiles(w, p, p) && DropSum(w, p, p) == 0
  {
  }

  lemma ScanStep(s: Area, ind: int, indrop: int)
    requires Scanned(s, ind, indrop) && ind < s.igp && s.inm > 0 && s.ign <= ind
    ensures NHW <= ind < |s.w| && Size(s.w, ind) >= NHW
    ensures if s.w[ind] < 0 then Scanned(s, ind - s.w[ind], if indrop == 0 then ind else indrop)
            else Scanned(s, ind + s.w[ind] + NHW, 0)
  {
    hide Tiles, Inds, DropSum, LiveEnd;
    FirstTile(s.w, ind - (NHW - 1), s.igp);
    if s.w[ind] < 0 { RunStep(s, ind, indrop); } else { RunEnds(s, ind, indrop); }
  }

  /** Everything from `q` on is dropped and has gone to the gap. */
  ghost function Regained(s: Area, q: int): Area {
    s.(igp := q, ndn := s.ndn - (s.igp - q), ign := if s.ign < q then s.ign else s.njw)
  }

  lemma ScanEnd(s: Area, ch: seq<seq<int>>, ind: int, indrop: int)
    requires Inv(s, ch) && s.ndn != 0 && Scanned(s, ind, indrop) && ind >= s.igp
    requires s.ign + s.ndn - (NHW - 1) != s.igp
    ensures indrop == 0 ==> Tiles(s.w, s.inm, s.igp) && LiveEnd(s.w, s.inm, s.igp)
    ensures var q := indrop - (NHW - 1);
            indrop != 0 ==>
              && s.ign < q <= s.igp && Inv(Regained(s, q), ch)
              && Tiles(s.w, s.inm, q) && LiveEnd(s.w, s.inm, q)
  {
    hide Chained, Accounts, Tiles, Inds, DropSum, LiveEnd;
    EndReached(s.w, ind - (NHW - 1), s.igp);
    ScanStart(s, ch);
    if indrop != 0 {
      var q := indrop - (NHW - 1);
      TilesConcat(s.w, s.inm, q, s.igp);
      LowestBelow(s, ch, q);
      Truncate(s, Regained(s, q), ch, q);
    }
  }

  lemma EndReached(w: seq<int>, p: int, e: int)
    requires Tiles(w, p, e) && p + (NHW - 1) >= e
    ensures p == e
  {
  }

  /** A trailing run of dropped banks that is not all there is does not start at the lowest. */
  lemma LowestBelow(s: Area, ch: seq<seq<int>>, q: int)
    requires Inv(s, ch) && s.ndn != 0 && s.inm <= q <= s.igp && s.ign <= q + NHW - 1
    requires Tiles(s.w, s.inm, q) && Tiles(s.w, q, s.igp) && DropSum(s.w, q, s.igp) == s.igp - q
    requires s.ign + s.ndn - (NHW - 1) != s.igp
    ensures s.ign < q
  {
    hide Chained;
    ScanStart(s, ch);
    TilesConcat(s.w, s.inm, q, s.igp);
    if s.ign != q + NHW - 1 {
      assert s.ign in Inds(s.w, s.inm, q);
    }
  }

  lemma ContiguousEnd(s: Area, ch: seq<seq<int>>)
    requires Inv(s, ch) && s.ign + s.ndn - (NHW - 1) == s.igp
    ensures var q := s.ign - (NHW - 1);
            && Inv(s.(igp := q, ndn := 0, ign := s.njw), ch)
            && Tiles(s.w, s.inm, q) && LiveEnd(s.w, s.inm, q)
  {
    hide Chained;
    ScanStart(s, ch);
    var q := s.ign - (NHW - 1);
    if s.ndn != 0 {
      TilesSplit(s.w, s.inm, s.ign, s.igp);
      Truncate(s, Regained(s, q), ch, q);
    } else {
      assert s.(igp := q, ndn := 0, ign := s.njw) == s;
    }
  }

  /** Only the end and the accounts of the named area differ. */
  lemma RegainSound(v: Snapshot, a: Area, ch: seq<seq<int>>)
    requires Sound(v, ch) && Inv(a, ch) && a == v.a.(igp := a.igp, ndn := a.ndn, ign := a.ign)
    ensures Sound(v.(a := a), ch) && Listing(v.(a := a), ch) == Listing(v, ch)
  {
    hide Inv, WInv, LinkState;
    InvMeaningful(a, ch);
  }

  /** The last bank, if there is one, is live. */
  ghost predicate NoTrailing(s: Area)
    requires Layout(s)
  {
    LiveEnd(s.w, s.inm, s.igp)
  }

  method Regain(b: BosArray)
    requires b.Valid()
    modifies b
    ensures b.Valid() && b.Contents() == old(b.Contents()) && b.ch == old(b.ch)
    ensures Layout(b.Value().a) && NoTrailing(b.Value().a)
    ensures b.igp <= old(b.igp) && b.ndn == old(b.ndn) - (old(b.igp) - b.igp)
    ensures b.names == old(b.names) && b.iwk == old(b.iwk) && b.bits == old(b.bits) && b.jw1 == old(b.jw1)
    ensures b.ndw == old(b.ndw)
  {
    hide Inv, WInv, Links, Listing, Scanned, Tiles, LiveEnd;
    ghost var v, ch := b.Value(), b.ch;
    InvBounds(v.a, ch);
    ScanStart(v.a, ch);
    if b.ign + b.ndn - (NHW - 1) == b.igp {
      ContiguousEnd(v.a, ch);
      b.igp := b.ign - (NHW - 1);
      b.ndn := 0;
      b.ign := b.njw;
    } else {
      var indrop := 0;
      var ind := b.ign;
      while ind < b.igp
        invariant b.ndn != 0 ==> Scanned(v.a, ind, indrop) && b.ign <= ind
        invariant b.ndn == 0 ==> ind == b.njw && indrop == 0
        invariant b.Value() == v && b.ch == ch && b.bits == old(b.bits) && b.jw1 == old(b.jw1)
        decreases b.igp - ind
      {
        ScanStep(v.a, ind, indrop);
        if b.w[ind] < 0 {
          if indrop == 0 {
            indrop := ind;
          }
          ind := ind - b.w[ind];
        } else {
          ind := ind + b.w[ind] + NHW;
          indrop := 0;
        }
      }
      if b.ndn != 0 {
        ScanEnd(v.a, ch, ind, indrop);
      }
      if indrop != 0 {
        b.ndn := b.ndn + indrop - (NHW - 1) - b.igp;
        b.igp := indrop - (NHW - 1);
      }
    }
    RegainSound(v, b.Value().a, ch);
    RegainedEnd(b.Value().a, ch);
  }

  lemma RegainedEnd(a: Area, ch: seq<seq<int>>)
    requires Inv(a, ch)
    requires Tiles(a.w, a.inm, a.igp) && LiveEnd(a.w, a.inm, a.igp)
    ensures Layout(a) && NoTrailing(a)
  {
  }

  // ---- The operation -----------------------------------------------------------------------------------

  /** The lists with those of the given names emptied. */
  function Without(m: seq<seq<Bank>>, list: seq<nat>): (m': seq<seq<Bank>>)
    ensures |m'| == |m|
    ensures forall n :: 0 <= n < |m| ==> m'[n] == if n in list then [] else m[n]
    decreases |list|
  {
    if list == [] then m
    else
      var m1 := Without(m, list[..|list| - 1]);
      var n := list[|list| - 1];
      assert forall k :: k in list <==> k in list[..|list| - 1] || k == n;
      if n < |m1| then m1[n := []] else m1
  }

  /**
   Drops all banks of the names whose indices `list` gives (bosLdrop) and gives the trailing
   dropped banks back to the gap.
   */
  method Ldrop(b: BosArray, list: seq<nat>) returns (status: int)
    requires b.Valid() && forall i :: 0 <= i < |list| ==> list[i] < |b.names|
    modifies b, b.w
    ensures b.Valid() && status == 0 && b.jw1 == 0
    ensures b.Contents() == Without(old(b.Contents()), list)
    ensures Layout(b.Value().a) && NoTrailing(b.Value().a) && b.igp <= old(b.igp)
    ensures b.names == old(b.names) && b.iwk == old(b.iwk) && b.bits == old(b.bits) && b.ndw == old(b.ndw)
  {
    hide Sound, Listing, Layout, NoTrailing;
    var ils := 0;
    CountNames(b.Value(), b.ch);
    assert list[..0] == [];
    while ils < |list|
      invariant 0 <= ils <= |list| && b.Valid() && |b.ch| == |b.names|
      invariant b.Contents() == Without(old(b.Contents()), list[..ils])
      invariant b.names == old(b.names) && b.iwk == old(b.iwk) && b.bits == old(b.bits) && b.ndw == old(b.ndw)
      invariant b.igp == old(b.igp)
    {
      assert list[..ils + 1][..ils] == list[..ils];
      DropChain(b, list[ils]);
      ils := ils + 1;
    }
    assert list[..ils] == list;
    Regain(b);
    b.jw1 := 0;
    status := 0;
  }
}
