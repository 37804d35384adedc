/**
 Finding a bank by name and number (bosnlink.c): a chain walk for short chains, a binary
 search in the cached table for long ones.
 */
module Linking {
  import opened BankLayout
  import opened Chains
  import opened NamedArea
  import opened WorkArea
  import opened WorkBanks
  import opened LinkTables
  import opened BosArrays
  import opened Creating
  import opened WorkBankOps

  // ---- The search ----------------------------------------------------------------------------

  /** `ind` is the bank of the chain with number `nr`, or zero if there is none. */
  ghost predicate Answer(w: seq<int>, c: seq<int>, nr: int, ind: int) {
    if ind == 0 then forall i :: 0 <= i < |c| ==> INR <= c[i] < |w| && w[c[i] - INR] != nr
    else exists k :: 0 <= k < |c| && c[k] == ind && INR <= c[k] < |w| && w[c[k] - INR] == nr
  }

  lemma AnswerAt(w: seq<int>, c: seq<int>, nr: int, k: nat)
    requires k < |c| && NHW <= c[k] < |w| && w[c[k] - INR] == nr
    ensures Answer(w, c, nr, c[k])
  {
  }

  /** No number of an ascending chain lies between those of two neighbours. */
  lemma NoneBetween(w: seq<int>, c: seq<int>, nr: int, a: nat)
    requires (forall i :: 0 <= i < |c| ==> NHW <= c[i] < |w|) && Ascending(w, c) && a + 1 < |c|
    requires w[c[a] - INR] < nr < w[c[a + 1] - INR]
    ensures Answer(w, c, nr, 0)
  {
    forall i | 0 <= i < |c| ensures w[c[i] - INR] != nr {
      if i < a { assert w[c[i] - INR] < w[c[a] - INR]; }
      if i > a + 1 { assert w[c[a + 1] - INR] < w[c[i] - INR]; }
    }
  }

  lemma NoneOutside(w: seq<int>, c: seq<int>, nr: int)
    requires (forall i :: 0 <= i < |c| ==> NHW <= c[i] < |w|) && Ascending(w, c) && c != []
    requires nr < w[c[0] - INR] || w[c[|c| - 1] - INR] < nr
    ensures Answer(w, c, nr, 0)
  {
    forall i | 0 <= i < |c| ensures w[c[i] - INR] != nr {
      if i > 0 { assert w[c[0] - INR] < w[c[i] - INR]; }
      if i < |c| - 1 { assert w[c[i] - INR] < w[c[|c| - 1] - INR]; }
    }
  }

  lemma TablePair(w: seq<int>, x: int, c: seq<int>, a: nat)
    requires Table(w, x, c) && a < |c|
    ensures 0 <= x && x + 2 + 2 * a < |w| && INR <= c[a] < |w|
    ensures w[x + 1 + 2 * a] == w[c[a] - INR] && w[x + 2 + 2 * a] == c[a]
  {
  }

  /** Binary search with stride two in the table of chain `c`. */
  method SearchTable(w: array<int>, jnd: int, nr: int, ghost c: seq<int>) returns (indi: int)
    requires Table(w[..], jnd, c) && c != []
    requires (forall i :: 0 <= i < |c| ==> NHW <= c[i] < w.Length) && Ascending(w[..], c)
    ensures Answer(w[..], c, nr, indi)
  {
    hide Table, Ascending, Answer;
    TableLength(w[..], jnd, c);
    indi := 0;
    var il, ih := jnd + 1, jnd + w[jnd] - 1;
    TablePair(w[..], jnd, c, 0);
    TablePair(w[..], jnd, c, |c| - 1);
    if w[il] <= nr && w[ih] >= nr {
      if w[il] == nr {
        AnswerAt(w[..], c, nr, 0);
        indi := w[il + 1];
        return;
      }
      var i;
      ghost var z;
      i, ih, z := Halve(w, jnd, nr, il, ih, c);
      if w[i] == nr {
        assert false;  // the lower end is always smaller
      }
      if w[ih] == nr {
        AnswerAt(w[..], c, nr, z);
        indi := w[ih + 1];
      } else {
        NoneBetween(w[..], c, nr, z - 1);
      }
    } else {
      NoneOutside(w[..], c, nr);
    }
  }

  /** The bounds are halved until they are neighbours. */
  method Halve(w: array<int>, jnd: int, nr: int, il0: int, ih0: int, ghost c: seq<int>)
    returns (i: int, ih: int, ghost z: nat)
    requires Table(w[..], jnd, c) && |c| > 1 && il0 == jnd + 1 && ih0 == jnd + 2 * |c| - 1 && ih0 < w.Length
    requires forall i :: 0 <= i < |c| ==> NHW <= c[i] < w.Length
    requires w[c[0] - INR] < nr <= w[c[|c| - 1] - INR]
    ensures 0 < z < |c| && 0 <= i && i + 2 == ih < w.Length - 1 && w[i] < nr
    ensures w[c[z - 1] - INR] < nr <= w[c[z] - INR] == w[ih] && w[ih + 1] == c[z]
  {
    hide Table;
    var il := il0;
    ih, i, z := ih0, ih0, |c| - 1;
    ghost var a, k := 0, z;
    TablePair(w[..], jnd, c, z);
    while true
      invariant 0 <= a < z < |c| && il == jnd + 1 + 2 * a && ih == jnd + 1 + 2 * z
      invariant w[c[a] - INR] < nr <= w[c[z] - INR]
      invariant a < k <= z && i == jnd + 1 + 2 * k
      decreases z - a, k
    {
      TablePair(w[..], jnd, c, k);
      if w[i] < nr {
        il := i;
        a := k;
      } else {
        ih := i;
        z := k;
      }
      k := a + (z - a) / 2;
      Middle(z - a);
      i := il + ((ih - il) / 4) * 2;
      if i == il {
        break;
      }
    }
    TablePair(w[..], jnd, c, a);
    TablePair(w[..], jnd, c, z);
  }

  lemma Middle(d: int)
    requires d >= 0
    ensures (2 * d) / 4 == d / 2
  {
  }

  lemma TableLength(w: seq<int>, x: int, c: seq<int>)
    requires Table(w, x, c)
    ensures 0 <= x && x + 2 * |c| < |w| && w[x] == 2 * |c|
  {
  }

  // ---- Tables -----------------------------------------------------------------------------------------

  /** What the bank with handle `h` holds, or nothing. */
  ghost function HeldOrNone(w: seq<int>, h: int): seq<int> {
    if 0 <= h < |w| && WHolds(w, w[h]) then DataAt(w, w[h]) else []
  }

  lemma LiveHeld(k: Work, x: int)
    requires WInv(k) && x in WBanks(k) && NHW <= x < |k.w| && k.w[x] >= 0
    ensures HeldAt(k, k.w[x - INXT], HeldOrNone(k.w, k.w[x - INXT]))
  {
    hide WTiles, WInds, WDropSum, WTop;
    GrowBounds(k, x);
  }

  /** There is always a map of what work banks hold. */
  lemma HeldMap(k: Work) returns (m: map<int, seq<int>>)
    requires WInv(k)
    ensures Holding(k, m)
  {
    hide WTiles, WInds, WDropSum, WTop, HeldAt, WBank, HeldOrNone;
    var xs := set x | x in WBanks(k) && NHW <= x < |k.w| && k.w[x] >= 0;
    var hs := set x | x in xs :: k.w[x - INXT];
    m := map h | h in hs :: HeldOrNone(k.w, h);
    forall h | h in m ensures HeldAt(k, h, m[h]) {
      var x :| x in xs && k.w[x - INXT] == h;
      LiveHeld(k, x);
    }
    forall x | x in WBanks(k) && NHW <= x < |k.w| && k.w[x] >= 0 ensures k.w[x - INXT] in m {
      assert x in xs;
    }
  }

  lemma EmptyHeld(k: Work, m: map<int, seq<int>>, l: int)
    requires WInv(k) && Holding(k, m) && l in m && |m[l]| == 0
    ensures 0 <= l < |k.w| && 0 <= k.w[l] < |k.w| && k.w[k.w[l]] == 0
  {
    assert HeldAt(k, l, m[l]);
  }

  /** An array whose exempted link bank is absent or empty is in order. */
  lemma EmptyIsSound(v: Snapshot, ch: seq<seq<int>>, n: nat)
    requires SoundBut(v, ch, v.idl + 1 + n) && n < v.a.cap && LinkHandle(WorkOf(v), v.idl + 1 + n)
    requires v.a.w[v.idl + 1 + n] != 0 ==> v.a.w[v.a.w[v.idl + 1 + n]] == 0
    ensures Sound(v, ch)
  {
    hide Inv, WTiles, WInds, WDropSum, WTop, WBank, Table;
    SoundButIsSound(v, ch, n);
  }

  /** Only words of bank `x` differ: its length is `2 * |c|` and it holds the table of chain `c`. */
  ghost predicate TableWritten(v: Snapshot, v': Snapshot, x: int, c: seq<int>) {
    && v' == v.(a := v.a.(w := v'.a.w)) && |v'.a.w| == |v.a.w| && 0 <= x && Table(v'.a.w, x, c)
    && (forall i :: 0 <= i < |v.a.w| && !(x <= i <= x + 2 * |c|) ==> v'.a.w[i] == v.a.w[i])
  }

  lemma TableDone(v: Snapshot, v': Snapshot, ch: seq<seq<int>>, n: nat, x: int)
    requires n < |ch| && n < v.a.cap && SoundBut(v, ch, v.idl + 1 + n) && LinkHandle(WorkOf(v), v.idl + 1 + n)
    requires x == v.a.w[v.idl + 1 + n] != 0 && NHW <= x < |v.a.w| && 2 * |ch[n]| <= v.a.w[x - INR] - NHW
    requires TableWritten(v, v', x, ch[n])
    ensures Sound(v', ch) && Meaningful(v.a.w, ch) && Listing(v', ch) == Meaning(v.a.w, ch)
  {
    hide Inv, WTiles, WInds, WDropSum, WTop, WBank, Table, Meaning, Meaningful, Holding, LinkStateBut, SameBankWords;
    var ld := v.idl + 1 + n;
    GrowBounds(WorkOf(v), x);
    WorkBelow(v, ch, ld);
    RefillHandle(WorkOf(v), x);
    var m := HeldMap(WorkOf(v));
    var v0 := v.(a := v.a.(w := v.a.w[x := 0]));
    assert Refilled(WorkOf(v), WorkOf(v0), x, 0);
    var m0 := RefillDone(v, v0, ch, x, ld, 0, m);
    RefilledInv(WorkOf(v), WorkOf(v0), x, 0);
    TableLength(v'.a.w, x, ch[n]);
    assert Refilled(WorkOf(v0), WorkOf(v'), x, 2 * |ch[n]|);
    var m1 := RefillDone(v0, v', ch, x, ld, 2 * |ch[n]|, m0);
    LinkPlaces(v, ch, ld, n);
    SoundButIsSound(v', ch, n);
  }

  // ---- The operation ----------------------------------------------------------------------------------------

  /** Words that a link bank for `nb` banks may take. */
  function LinkWords(nb: nat): nat {
    2 * nb + 10 + NHW
  }

  /** Room that bosNlink needs so that it never compacts work banks of which some are dropped. */
  ghost predicate LinkRoom(b: BosArray, n: nat)
    reads b, b.w
    requires n < |b.ch| && 0 <= b.idl + 1 + n < b.w.Length
  {
    RoomToLink(b.Value(), b.ch[n], n, b.nresr)
  }

  ghost predicate RoomToLink(v: Snapshot, c: seq<int>, n: nat, nresr: nat)
    requires 0 <= v.idl + 1 + n < |v.a.w|
  {
    || (v.ndw == 0 && (v.a.w[v.idl + 1 + n] == 0 || v.a.igp + NHW + nresr <= v.a.iwk))
    || v.a.igp + 2 * |c| + 10 + NHW + nresr <= v.a.iwk
  }

  /** Work banks may have changed; the array is in order and the lists of banks are the same. */
  ghost predicate SameBanks(v: Snapshot, v': Snapshot, ch: seq<seq<int>>) {
    Sound(v, ch) && Sound(v', ch) && Listing(v', ch) == Listing(v, ch) && WorkChanged(v, v')
  }

  lemma SameBanksFrom(v: Snapshot, v': Snapshot, ch: seq<seq<int>>, n: nat, m: map<int, seq<int>>)
    requires Sound(v, ch) && n < |ch| && n < v.a.cap && WorkDone(v, v', ch, v.idl + 1 + n, m)
    requires v'.a.w[v.idl + 1 + n] != 0 ==> 0 <= v'.a.w[v.idl + 1 + n] < |v'.a.w| && v'.a.w[v'.a.w[v.idl + 1 + n]] == 0
    ensures SameBanks(v, v', ch)
  {
    hide Inv, WTiles, WInds, WDropSum, WTop, WBank, Table, Meaning, Meaningful, Holding;
    EmptyIsSound(v', ch, n);
  }

  lemma SameBanksSelf(v: Snapshot, ch: seq<seq<int>>)
    requires Sound(v, ch)
    ensures SameBanks(v, v, ch)
  {
    InvBounds(v.a, ch);
  }

  lemma ChainWalkable(v: Snapshot, ch: seq<seq<int>>, n: nat)
    requires Sound(v, ch) && n < |ch|
    ensures |ch| == |v.a.names| <= v.a.cap && Layout(v.a)
    ensures IsChain(v.a.w, Banks(v.a), v.a.base + n, v.a.names[n], ch[n])
    ensures (forall i :: 0 <= i < |ch[n]| ==> NHW <= ch[n][i] < v.a.igp && v.a.base + INR <= ch[n][i])
    ensures Ascending(v.a.w, ch[n])
    ensures v.a.igp <= v.a.iwk <= v.idl + 1 + n < |v.a.w| && 0 < v.a.base
  {
    hide WInv, Links, Tiles, InSome, Accounts;
    ChainCount(v.a, ch);
    SettleBounds(v, ch, n);
    assert IsChain(v.a.w, Banks(v.a), v.a.base + n, v.a.names[n], ch[n]);
  }

  /** What a chain walk finds. */
  lemma WalkAnswer(v: Snapshot, ch: seq<seq<int>>, n: nat, k: nat, nr: int)
    requires Sound(v, ch) && n < |ch| && IsSlot(v.a.w, ch[n], nr, k)
    ensures Answer(v.a.w, ch[n], nr, if k < |ch[n]| && v.a.w[ch[n][k] - INR] == nr then ch[n][k] else 0)
  {
    hide WInv, Links, Tiles, Accounts, Chained, Inv;
    ChainWalkable(v, ch, n);
    if k < |ch[n]| && v.a.w[ch[n][k] - INR] == nr {
      AnswerAt(v.a.w, ch[n], nr, k);
    } else {
      SlotFree(v, ch, n, k, nr);
    }
  }

  lemma AnswerKept(w: seq<int>, w': seq<int>, c: seq<int>, nr: int, ind: int, base: int, top: int)
    requires Answer(w, c, nr, ind) && |w'| == |w| && base >= 0
    requires forall i :: base <= i < top && 0 <= i < |w| ==> w'[i] == w[i]
    requires forall i :: 0 <= i < |c| ==> base + INR <= c[i] < top
    ensures Answer(w', c, nr, ind)
  {
  }

  /** Before a work-bank operation on the n-th link bank. */
  lemma LinkReady(v: Snapshot, ch: seq<seq<int>>, n: nat)
    requires Sound(v, ch) && n < |ch|
    ensures SoundBut(v, ch, v.idl + 1 + n) && n < v.a.cap && 0 <= v.idl + 1 + n < |v.a.w|
    ensures LinkHandle(WorkOf(v), v.idl + 1 + n) && Zone(WorkOf(v), v.idl + 1 + n)
  {
    hide Inv, WTiles, WInds, WDropSum, WTop, WBank, Table;
    SoundIsSoundBut(v, ch, v.idl + 1 + n);
    ChainCount(v.a, ch);
    LinkPlaces(v, ch, v.idl + 1 + n, n);
  }

  /** After creating an empty link bank, or failing to. */
  lemma LinkBegun(v: Snapshot, v': Snapshot, ch: seq<seq<int>>, n: nat, m: map<int, seq<int>>, m': map<int, seq<int>>,
                  status: int)
    requires Sound(v, ch) && n < |ch| && n < v.a.cap && WorkDone(v, v', ch, v.idl + 1 + n, m')
    requires WorkOutcome(m, m', v.idl + 1 + n, 0, status) && v.idl + 1 + n !in m
    requires 0 <= v.idl + 1 + n < |v.a.w| && (status <= 0 ==> v'.a.w == v.a.w && v.a.w[v.idl + 1 + n] == 0)
    ensures SameBanks(v, v', ch)
  {
    hide Inv, WTiles, WInds, WDropSum, WTop, WBank, Table, Meaning, Meaningful, HeldAt, LinkStateBut;
    if status > 0 { EmptyHeld(WorkOf(v'), m', v.idl + 1 + n); }
    SameBanksFrom(v, v', ch, n, m');
  }

  /** Sequential search; a chain longer than `nlplm` gets an empty link bank for the next time. */
  method SearchChain(b: BosArray, n: nat, nr: int) returns (indi: int)
    requires b.Valid() && n < |b.ch| && 0 <= b.idl + 1 + n < b.w.Length && b.w[b.idl + 1 + n] == 0 && b.jw1 == 0
    requires b.ndw == 0 || b.igp + NHW + b.nresr <= b.iwk || |b.ch[n]| <= b.nlplm
    modifies b`iwk, b`igw, b`jw1, b.w
    ensures SameBanks(old(b.Value()), b.Value(), b.ch) && Answer(b.w[..], b.ch[n], nr, indi)
    ensures b.jw1 == 0 && b.iwk >= old(b.iwk) - NHW
  {
    hide Sound, IsChain, IsSlot, Layout, SameBanks, Answer, SoundBut, WorkDone, Holding, WInv, Ascending, WBanks;
    ghost var v, ch := b.Value(), b.ch;
    ChainWalkable(v, ch, n);
    var nlpl, indj;
    ghost var k;
    nlpl, indi, indj, k := Nindex(b.w, nr, b.base + n, Banks(v.a), v.a.names[n], ch[n]);
    WalkAnswer(v, ch, n, k, nr);
    SlotWithin(b.w[..], ch[n], nr, k);
    if nlpl > b.nlplm {
      LinkReady(v, ch, n);
      WorkSound(v, ch, b.idl + 1 + n);
      ghost var m := HeldMap(WorkOf(v));
      HandleHeld(WorkOf(v), m, b.idl + 1 + n);
      var i;
      ghost var m';
      i, m' := Wcreate(b, b.idl + 1 + n, 0, 1, m);
      LinkBegun(v, b.Value(), ch, n, m, m', i);
      BanksUntouched(v, b.Value(), ch);
      AnswerKept(v.a.w, b.w[..], ch[n], nr, indi, b.base, b.igp);
    } else {
      SameBanksSelf(v, ch);
    }
  }

  lemma SlotWithin(w: seq<int>, c: seq<int>, nr: int, k: nat)
    requires IsSlot(w, c, nr, k)
    ensures k <= |c|
  {
  }

  lemma BanksUntouched(v: Snapshot, v': Snapshot, ch: seq<seq<int>>)
    requires SameBanks(v, v', ch)
    ensures Sound(v', ch) && WorkChanged(v, v')
  {
  }

  lemma NextInChain(s: Area, ch: seq<seq<int>>, n: nat, i: nat)
    requires Inv(s, ch) && n < |ch| && i < |ch[n]|
    ensures s.base + INR <= ch[n][i] < s.igp && NHW <= ch[n][i] && s.igp <= s.iwk < |s.w|
    ensures s.w[ch[n][i] - INXT] == At(ch[n], i + 1)
  {
    hide Tiles, InSome, Accounts;
    ChainBank(s, ch, n, i);
    LinkOfPlace(s, ch, n, i + 1);
  }

  lemma FirstInChain(s: Area, ch: seq<seq<int>>, n: nat)
    requires Inv(s, ch) && n < |ch|
    ensures 0 <= s.base + n < s.igp <= s.iwk < |s.w| && s.w[s.base + n] == At(ch[n], 0)
  {
    hide Tiles, InSome, Accounts;
    LinkOfPlace(s, ch, n, 0);
  }

  /** The number of banks of a name. */
  method CountChain(b: BosArray, n: nat) returns (nb: nat)
    requires Inv(b.Value().a, b.ch) && n < |b.ch|
    ensures nb == |b.ch[n]|
  {
    hide Inv;
    ghost var c := b.ch[n];
    FirstInChain(b.Value().a, b.ch, n);
    nb := 0;
    var ind := b.w[b.base + n];
    while ind != 0
      invariant nb <= |c| && ind == At(c, nb)
      decreases |c| - nb
    {
      NextInChain(b.Value().a, b.ch, n, nb);
      nb := nb + 1;
      ind := b.w[ind - INXT];
    }
    if nb < |c| { NextInChain(b.Value().a, b.ch, n, nb); }
  }

  /** The first `i` pairs of the table are written. */
  ghost predicate PairsWritten(w0: seq<int>, w: seq<int>, x: int, c: seq<int>, i: nat) {
    && |w| == |w0| && 0 <= x && x + 2 * |c| < |w| && w[x] == 2 * |c| && i <= |c|
    && (forall j :: 0 <= j < |w| && !(x <= j <= x + 2 * |c|) ==> w[j] == w0[j])
    && (forall k :: 0 <= k < i ==> INR <= c[k] < |w| && w[x + 1 + 2 * k] == w0[c[k] - INR] && w[x + 2 + 2 * k] == c[k])
  }

  lemma PairStep(w0: seq<int>, w: seq<int>, x: int, c: seq<int>, i: nat)
    requires PairsWritten(w0, w, x, c, i) && i < |c| && INR <= c[i] < x
    ensures x + 2 * i + 2 < |w| && c[i] < |w0|
    ensures PairsWritten(w0, w[x + 2 * i + 1 := w0[c[i] - INR]][x + 2 * i + 2 := c[i]], x, c, i + 1)
  {
  }

  lemma PairsDone(w0: seq<int>, w: seq<int>, x: int, c: seq<int>)
    requires PairsWritten(w0, w, x, c, |c|) && forall k :: 0 <= k < |c| ==> INR <= c[k] < x
    ensures Table(w, x, c)
  {
  }

  /** Fills number/index pairs into the link bank at `x`. */
  method FillTable(b: BosArray, n: nat, x: int, nb: nat)
    requires Inv(b.Value().a, b.ch) && n < |b.ch| && nb == |b.ch[n]| && b.iwk <= x && x + 2 * |b.ch[n]| < b.w.Length
    modifies b.w
    ensures TableWritten(old(b.Value()), b.Value(), x, b.ch[n])
  {
    hide Inv, PairsWritten, Table;
    ghost var v, c := b.Value(), b.ch[n];
    FirstInChain(v.a, b.ch, n);
    b.w[x] := nb * 2;
    NoPairs(v.a.w, b.w[..], x, c);
    var knd := x;
    var ind := b.w[b.base + n];
    ghost var i := 0;
    while ind != 0
      invariant i <= |c| && ind == At(c, i) && knd == x + 2 * i
      invariant PairsWritten(v.a.w, b.w[..], x, c, i)
      decreases |c| - i
    {
      NextInChain(v.a, b.ch, n, i);
      PairStep(v.a.w, b.w[..], x, c, i);
      SameOutside(v.a.w, b.w[..], x, c, i, ind - INR);
      b.w[knd + 1] := b.w[ind - INR];
      b.w[knd + 2] := ind;
      SameOutside(v.a.w, b.w[..], x, c, i + 1, ind - INXT);
      knd := knd + 2;
      ind := b.w[ind - INXT];
      i := i + 1;
    }
    AllBelow(v.a, b.ch, n, x);
    if i < |c| { NextInChain(v.a, b.ch, n, i); }
    PairsDone(v.a.w, b.w[..], x, c);
    OnlyTable(v.a.w, b.w[..], x, c);
  }

  lemma NoPairs(w0: seq<int>, w: seq<int>, x: int, c: seq<int>)
    requires 0 <= x && x + 2 * |c| < |w0| && w == w0[x := 2 * |c|]
    ensures PairsWritten(w0, w, x, c, 0)
  {
  }

  lemma OnlyTable(w0: seq<int>, w: seq<int>, x: int, c: seq<int>)
    requires PairsWritten(w0, w, x, c, |c|)
    ensures |w| == |w0| && forall j :: 0 <= j < |w| && !(x <= j <= x + 2 * |c|) ==> w[j] == w0[j]
  {
  }

  lemma SameOutside(w0: seq<int>, w: seq<int>, x: int, c: seq<int>, i: nat, j: int)
    requires PairsWritten(w0, w, x, c, i) && 0 <= j < x
    ensures j < |w| == |w0| && w[j] == w0[j]
  {
  }

  lemma AllBelow(s: Area, ch: seq<seq<int>>, n: nat, x: int)
    requires Inv(s, ch) && n < |ch| && s.iwk <= x
    ensures forall k :: 0 <= k < |ch[n]| ==> INR <= ch[n][k] < x
  {
    forall k | 0 <= k < |ch[n]| ensures INR <= ch[n][k] < x {
      NextInChain(s, ch, n, k);
    }
  }

  /** The link bank is switched off; then the chain is walked. */
  method DropAndSearch(b: BosArray, n: nat, nr: int) returns (indi: int)
    requires b.Valid() && n < |b.ch| && b.jw1 == 0
    requires b.igp + NHW + b.nresr <= b.iwk || |b.ch[n]| <= b.nlplm
    modifies b`iwk, b`igw, b`ndw, b`jw1, b.w
    ensures SameBanks(old(b.Value()), b.Value(), b.ch) && Answer(b.w[..], b.ch[n], nr, indi)
    ensures b.jw1 == 0 && b.iwk >= old(b.iwk) - NHW
  {
    hide Sound, SameBanks, Answer, SoundBut, WorkDone, Holding, WInv, WBanks;
    ghost var v, ch := b.Value(), b.ch;
    LinkReady(v, ch, n);
    WorkSound(v, ch, b.idl + 1 + n);
    ghost var m := HeldMap(WorkOf(v));
    var i;
    ghost var m';
    i, m' := Wdrop(b, b.idl + 1 + n, m);
    SameBanksFrom(v, b.Value(), ch, n, m');
    ghost var v1 := b.Value();
    BanksUntouched(v, v1, ch);
    indi := SearchChain(b, n, nr);
    BanksUntouched(v1, b.Value(), ch);
    WorkOnlyLower(v, v1, b.Value(), ch);
  }

  lemma WorkOnlyLower(v: Snapshot, v1: Snapshot, v2: Snapshot, ch: seq<seq<int>>)
    requires SameBanks(v, v1, ch) && SameBanks(v1, v2, ch)
    ensures SameBanks(v, v2, ch)
  {
    hide Sound, Listing;
  }

  /** How long a work bank is, from what it holds. */
  lemma Capacity(k: Work, m: map<int, seq<int>>, l: int)
    requires WInv(k) && Holding(k, m) && l in m
    ensures 0 <= l < |k.w| && NHW <= k.w[l] < |k.w| && k.w[k.w[l]] == |m[l]| <= k.w[k.w[l] - INR] - NHW
  {
    hide WTiles, WInds, WDropSum, WTop;
    assert HeldAt(k, l, m[l]);
    GrowBounds(k, k.w[l]);
  }

  /** The link bank is live, large enough for the chain, and may be written. */
  ghost predicate Fillable(v: Snapshot, ch: seq<seq<int>>, n: nat) {
    && SoundBut(v, ch, v.idl + 1 + n) && n < |ch| && n < v.a.cap && LinkHandle(WorkOf(v), v.idl + 1 + n)
    && var x := v.a.w[v.idl + 1 + n];
    && x != 0 && NHW <= x < |v.a.w| && 2 * |ch[n]| <= v.a.w[x - INR] - NHW
  }

  lemma FillableBounds(v: Snapshot, ch: seq<seq<int>>, n: nat)
    requires Fillable(v, ch, n)
    ensures 0 <= v.idl + 1 + n < |v.a.w| && v.a.iwk <= v.a.w[v.idl + 1 + n]
    ensures v.a.w[v.idl + 1 + n] + 2 * |ch[n]| < |v.a.w|
    ensures v.a.w[v.idl + 1 + n] + 2 * |ch[n]| < v.fix <= v.idl + 1 + n
    ensures Inv(v.a, ch)
  {
    hide Inv, WTiles, WInds, WDropSum, WTop, WBank;
    GrowBounds(WorkOf(v), v.a.w[v.idl + 1 + n]);
    LinkPlaces(v, ch, v.idl + 1 + n, n);
  }

  lemma FillableAfterGrowth(v: Snapshot, v1: Snapshot, ch: seq<seq<int>>, n: nat, m: map<int, seq<int>>)
    requires WorkDone(v, v1, ch, v.idl + 1 + n, m) && n < |ch| && n < v.a.cap && v.idl + 1 + n in m
    requires |m[v.idl + 1 + n]| >= 2 * |ch[n]|
    ensures Fillable(v1, ch, n)
  {
    hide WorkDone, SoundBut, WInv, WBanks, Holding, LinkHandle;
    DoneSound(v, v1, ch, v.idl + 1 + n, m);
    Capacity(WorkOf(v1), m, v.idl + 1 + n);
  }

  lemma FillableAsIs(v: Snapshot, ch: seq<seq<int>>, n: nat)
    requires Sound(v, ch) && n < |ch| && 0 <= v.idl + 1 + n < |v.a.w|
    requires v.a.w[v.idl + 1 + n] != 0
    ensures NHW <= v.a.w[v.idl + 1 + n] < |v.a.w|
    ensures 2 * |ch[n]| <= v.a.w[v.a.w[v.idl + 1 + n] - INR] - NHW ==> Fillable(v, ch, n)
  {
    hide Inv, WTiles, WInds, WDropSum, WTop, WBank;
    LinkReady(v, ch, n);
    GrowBounds(WorkOf(v), v.a.w[v.idl + 1 + n]);
  }

  /** A filled table is right, and nothing else has changed since the array was in order. */
  lemma Filled(v: Snapshot, v1: Snapshot, v2: Snapshot, ch: seq<seq<int>>, n: nat)
    requires Sound(v, ch) && Regrown(v, v1, ch) && Fillable(v1, ch, n)
    requires 0 <= v1.idl + 1 + n < |v1.a.w| && TableWritten(v1, v2, v1.a.w[v1.idl + 1 + n], ch[n])
    ensures SameBanks(v, v2, ch)
    ensures 0 <= v2.a.w[v2.idl + 1 + n] && Table(v2.a.w, v2.a.w[v2.idl + 1 + n], ch[n])
  {
    hide Inv, WInv, Table, Meaning, Meaningful, WBanks;
    TableDone(v1, v2, ch, n, v1.a.w[v1.idl + 1 + n]);
    FillableBounds(v1, ch, n);
    hide LinkHandle, LinkStateBut;
  }

  /** The link bank gets room for `2 * nb + 10` words, if there is any. */
  method GrowLinkBank(b: BosArray, n: nat, nb: nat) returns (ok: bool)
    requires b.Valid() && n < |b.ch| && nb == |b.ch[n]| && b.jw1 == 0 && 0 <= b.idl + 1 + n < b.w.Length
    requires b.w[b.idl + 1 + n] != 0 && (b.ndw == 0 || b.igp + 2 * nb + 10 + NHW + b.nresr <= b.iwk)
    modifies b`iwk, b`igw, b`jw1, b.w
    ensures ok ==> Fillable(b.Value(), b.ch, n) && Regrown(old(b.Value()), b.Value(), b.ch)
    ensures !ok ==> b.Value() == old(b.Value()) && b.igp + 2 * nb + 10 + b.nresr > b.iwk
    ensures b.jw1 == 0 && b.iwk >= old(b.iwk) - LinkWords(nb)
  {
    hide Sound, SoundBut, WorkDone, Holding, WInv, WBanks, Fillable, WorkOutcome, LinkHandle, Regrown;
    ghost var v, ch := b.Value(), b.ch;
    var jnd := b.idl + 1 + n;
    LinkReady(v, ch, n);
    SoundInv(v, ch);
    ghost var m := HeldMap(WorkOf(v));
    HandleHeld(WorkOf(v), m, jnd);
    var st;
    ghost var m';
    st, m' := Wcreate(b, jnd, nb * 2 + 10, 1, m);
    ok := st >= 0;
    if st > 0 {
      AfterGrowth(v, b.Value(), ch, n, m, m', nb * 2 + 10, st);
    }
  }

  lemma AfterGrowth(v: Snapshot, v': Snapshot, ch: seq<seq<int>>, n: nat, m: map<int, seq<int>>, m': map<int, seq<int>>,
                    nd: nat, status: int)
    requires n < |ch| && n < v.a.cap && WorkDone(v, v', ch, v.idl + 1 + n, m')
    requires WorkOutcome(m, m', v.idl + 1 + n, nd, status) && status > 0 && nd >= 2 * |ch[n]|
    ensures Fillable(v', ch, n) && Regrown(v, v', ch)
  {
    hide WorkDone, Fillable;
    FillableAfterGrowth(v, v', ch, n, m');
    DoneParts(v, v', ch, v.idl + 1 + n, m');
  }

  /** Lists of banks are as they were; only work banks have changed. */
  ghost predicate Regrown(v: Snapshot, v': Snapshot, ch: seq<seq<int>>) {
    && WorkChanged(v, v') && Meaningful(v.a.w, ch) && Meaningful(v'.a.w, ch)
    && Meaning(v'.a.w, ch) == Meaning(v.a.w, ch)
  }

  /** The table is filled again, or the link bank is given up and the chain is walked. */
  method Rebuild(b: BosArray, n: nat, nr: int) returns (found: bool, indi: int)
    requires b.Valid() && n < |b.ch| && b.jw1 == 0 && 0 <= b.idl + 1 + n < b.w.Length
    requires b.w[b.idl + 1 + n] != 0 && LinkRoom(b, n)
    modifies b`iwk, b`igw, b`ndw, b`jw1, b.w
    ensures SameBanks(old(b.Value()), b.Value(), b.ch) && b.jw1 == 0 && b.iwk >= old(b.iwk) - LinkWords(|b.ch[n]|)
    ensures found ==> Answer(b.w[..], b.ch[n], nr, indi)
    ensures !found ==> 0 <= b.w[b.idl + 1 + n] && Table(b.w[..], b.w[b.idl + 1 + n], b.ch[n]) && b.ch[n] != []
  {
    hide Sound, SameBanks, Answer, Table, Fillable, Regrown, WorkChanged, TableWritten, Inv, WInv, Meaningful;
    ghost var v, ch := b.Value(), b.ch;
    SoundInv(v, ch);
    RegrownSelf(v, ch);
    var nb := CountChain(b, n);
    var jnd := b.idl + 1 + n;
    if nb < b.nlplm {
      indi := DropAndSearch(b, n, nr);
      return true, indi;
    }
    FillableAsIs(v, ch, n);
    if b.w[b.w[jnd] - INR] - NHW < nb * 2 {
      var ok := GrowLinkBank(b, n, nb);
      if !ok {
        indi := DropAndSearch(b, n, nr);
        return true, indi;
      }
    }
    ghost var v1 := b.Value();
    FillableBounds(v1, ch, n);
    FillTable(b, n, b.w[jnd], nb);
    Filled(v, v1, b.Value(), ch, n);
    found, indi := false, 0;
  }

  lemma RegrownSelf(v: Snapshot, ch: seq<seq<int>>)
    requires Sound(v, ch)
    ensures Regrown(v, v, ch)
  {
    SoundInv(v, ch);
    InvBounds(v.a, ch);
  }

  lemma SoundInv(v: Snapshot, ch: seq<seq<int>>)
    requires Sound(v, ch)
    ensures Inv(v.a, ch) && WInv(WorkOf(v)) && Meaningful(v.a.w, ch)
    ensures WorkChanged(v, v)
  {
    InvMeaningful(v.a, ch);
  }

  lemma DoneParts(v: Snapshot, v': Snapshot, ch: seq<seq<int>>, ld: int, m: map<int, seq<int>>)
    requires WorkDone(v, v', ch, ld, m)
    ensures WorkChanged(v, v') && Meaningful(v.a.w, ch) && Meaningful(v'.a.w, ch)
    ensures Meaning(v'.a.w, ch) == Meaning(v.a.w, ch)
  {
  }

  /**
   The index of bank `nr` of name `nama`, or zero (bosNlink): exactly what a walk along the
   chain gives, however the bank is found.  Tables may be rebuilt and link banks come, grow
   and go; named banks stay as they are.
   */
  method Nlink(b: BosArray, nama: int, nr: int) returns (indi: int)
    requires b.Valid() && |b.ch| == |b.names|
    requires nama in b.names ==>
               var n := NameIndex(b.names, nama); 0 <= b.idl + 1 + n < b.w.Length && LinkRoom(b, n)
    modifies b`iwk, b`igw, b`ndw, b`jw1, b.w
    ensures SameBanks(old(b.Value()), b.Value(), b.ch) && b.Valid() && b.Contents() == old(b.Contents()) && b.jw1 == 0
    ensures if nama in b.names then Answer(b.w[..], b.ch[NameIndex(b.names, nama)], nr, indi) else indi == 0
    ensures b.iwk >= old(b.iwk) - (if nama in b.names then LinkWords(|b.ch[NameIndex(b.names, nama)]|) else 0)
  {
    hide Sound, SameBanks, Answer, Table, Ascending, IsChain, Listing;
    ghost var v, ch := b.Value(), b.ch;
    SameBanksSelf(v, ch);
    b.jw1 := 0;
    var n := NameIndex(b.names, nama);
    if n == |b.names| {
      return 0;
    }
    var jnd := b.idl + 1 + n;
    RoomToSearch(b, n);
    if b.w[jnd] == 0 {
      indi := SearchChain(b, n, nr);
      SameBanksParts(v, b.Value(), ch);
      return;
    }
    TableIsRight(v, ch, n);
    if b.w[b.w[jnd]] == 0 {
      var found;
      found, indi := Rebuild(b, n, nr);
      SameBanksParts(v, b.Value(), ch);
      if found {
        return;
      }
    }
    ChainWalkable(b.Value(), ch, n);
    indi := SearchTable(b.w, b.w[jnd], nr, ch[n]);
  }

  lemma RoomToSearch(b: BosArray, n: nat)
    requires n < |b.ch| && 0 <= b.idl + 1 + n < b.w.Length && LinkRoom(b, n)
    ensures b.ndw == 0 || b.igp + NHW + b.nresr <= b.iwk
  {
  }

  lemma SameBanksParts(v: Snapshot, v': Snapshot, ch: seq<seq<int>>)
    requires SameBanks(v, v', ch)
    ensures Sound(v', ch) && Sound(v, ch) && Listing(v', ch) == Listing(v, ch)
  {
  }

  /** In every array that is in order, a link bank that is not empty is the table of its chain. */
  lemma TableIsRight(v: Snapshot, ch: seq<seq<int>>, n: nat)
    requires Sound(v, ch) && n < |ch| && 0 <= v.idl + 1 + n < |v.a.w| && v.a.w[v.idl + 1 + n] != 0
    ensures var x := v.a.w[v.idl + 1 + n];
            0 <= x < |v.a.w| && (v.a.w[x] != 0 ==> Table(v.a.w, x, ch[n]) && ch[n] != [])
  {
    hide Inv, WTiles, WInds, WDropSum, WTop, WBank;
    ChainCount(v.a, ch);
    assert LinkState(WorkOf(v), v.idl, ch, n);
  }
}
