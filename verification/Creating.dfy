/**
 Creating a named bank or changing its length (bosncrea.c, mamind.c).
 */
module Creating {
  import opened Options
  import opened BankLayout
  import opened Chains
  import opened Directory
  import opened NamedArea
  import opened WorkArea
  import opened LinkTables
  import opened BosArrays
  import opened Dropping

  // ---- Bank length -----------------------------------------------------------------------------

  /** C division by a positive divisor: the quotient is truncated towards zero. */
  function CDiv(a: int, d: int): int
    requires d > 0
  {
    if a >= 0 then a / d else -((-a) / d)
  }

  /** Data words of a bank with the given shape; 16- and 8-bit formats pack their values. */
  function DataWords(code: int, ncol: int, nrow: int): int {
    if code == 2 then CDiv(ncol * nrow + 1, 2)
    else if code == 3 then CDiv(ncol * nrow + 3, 4)
    else ncol * nrow
  }

  /**
   `nd` words are what `p` values take, by the bit code of their format: a word each, or two or four to a
   word.  For a negative `p` the quotient is nearer to zero than `p`.
   */
  ghost predicate Packs(code: int, p: int, nd: int) {
    if code == 2 then
      if p >= 0 then 2 * nd - 1 <= p <= 2 * nd else 2 * nd - 2 <= p <= 2 * nd - 1
    else if code == 3 then
      if p >= 0 then 4 * nd - 3 <= p <= 4 * nd
      else nd <= 0 && 4 * nd - 6 <= p && (nd < 0 ==> p <= 4 * nd - 3)
    else nd == p
  }

  lemma Packed(code: int, ncol: int, nrow: int, nd: int)
    ensures Packs(code, ncol * nrow, nd) <==> nd == DataWords(code, ncol, nrow)
  {
  }

  /** The shape 3 by 5. */
  lemma ThreeByFive()
    ensures DataWords(0, 3, 5) == DataWords(1, 3, 5) == 15 && DataWords(2, 3, 5) == 8 && DataWords(3, 3, 5) == 4
    ensures DataWords(0, -1, 3) == -3 && DataWords(2, -1, 3) == -1 && DataWords(3, -1, 3) == 0
  {
  }

  // ---- A new name ----------------------------------------------------------------------------------

  lemma NewNameChains(s: Area, ch: seq<seq<int>>, nama: int)
    requires Inv(s, ch) && nama !in s.names && |s.names| < s.cap
    ensures Inv(s.(names := s.names + [nama]), ch + [[]])
  {
    hide IsChain, InSome, Tiles, Inds, Lowest;
    var s', ch' := s.(names := s.names + [nama]), ch + [[]];
    EmptyChain(s, ch, nama);
    forall m | 0 <= m < |ch'|
      ensures IsChain(s'.w, Banks(s'), s'.base + m, s'.names[m], ch'[m])
    {
      if m < |ch| { assert IsChain(s.w, Banks(s), s.base + m, s.names[m], ch[m]); }
    }
    forall x | x in Banks(s') && s'.w[x] >= 0 ensures InSome(ch', x) {
      assert InSome(ch, x);
      InSomeMore(ch, x);
    }
  }

  lemma EmptyChain(s: Area, ch: seq<seq<int>>, nama: int)
    requires Inv(s, ch) && |s.names| < s.cap
    ensures |ch| == |s.names| && IsChain(s.w, Banks(s), s.base + |ch|, nama, [])
  {
    hide IsChain, InSome, Tiles, Inds, Lowest;
    ZeroHead(s.w, Banks(s), s.base + |ch|, nama);
  }

  lemma ZeroHead(w: seq<int>, b: set<int>, h: int, name: int)
    requires 0 <= h < |w| && w[h] == 0
    ensures IsChain(w, b, h, name, [])
  {
  }

  lemma InSomeMore(ch: seq<seq<int>>, x: int)
    requires InSome(ch, x)
    ensures InSome(ch + [[]], x)
  {
    var m :| 0 <= m < |ch| && x in ch[m];
    assert x in (ch + [[]])[m];
  }

  /** A new name gets an empty chain; nothing else changes. */
  lemma NewName(v: Snapshot, ch: seq<seq<int>>, nama: int)
    requires Sound(v, ch) && nama !in v.a.names && |v.a.names| < v.a.cap
    ensures Sound(v.(a := v.a.(names := v.a.names + [nama])), ch + [[]])
    ensures Listing(v.(a := v.a.(names := v.a.names + [nama])), ch + [[]]) == Listing(v, ch) + [[]]
  {
    hide Inv, LinkBank, WBank, WTiles, WInds;
    NewNameChains(v.a, ch, nama);
    ChainCount(v.a, ch);
    var ch' := ch + [[]];
    forall m: nat | m < v.a.cap ensures LinkState(WorkOf(v), v.idl, ch', m) {
      assert LinkState(WorkOf(v), v.idl, ch, m);
    }
    InvMeaningful(v.a, ch);
    InvMeaningful(v.a.(names := v.a.names + [nama]), ch');
    assert View(v.a.w, []) == [];
  }

  /**
   Index of a name, entered into the list of names if it is new (mamind.c).  A list that is full takes
   one name more, and the array has no place for its chain and its link bank: it stays in order if and
   only if the name is known or the list is not full.
   */
  method Mamind(b: BosArray, nama: int) returns (n: nat)
    requires b.Valid()
    modifies b
    ensures n < |b.names| && b.names[n] == nama && n == NameIndex(b.names, nama)
    ensures b.Valid() <==> nama in old(b.names) || |old(b.names)| < b.cap
    ensures nama in old(b.names) ==> b.Value() == old(b.Value()) && b.ch == old(b.ch)
    ensures nama !in old(b.names) ==>
              && b.names == old(b.names) + [nama] && b.ch == old(b.ch) + [[]]
              && b.Value() == old(b.Value()).(a := old(b.Value()).a.(names := b.names))
              && (b.Valid() ==> b.Contents() == old(b.Contents()) + [[]])
    ensures b.bits == old(b.bits) && b.jw1 == 0
  {
    hide Sound, Listing;
    n := NameIndex(b.names, nama);
    ghost var v := b.Value();
    if n == |b.names| {
      if |b.names| < b.cap {
        NewName(b.Value(), b.ch, nama);
      } else {
        NamesFull(b.Value(), b.ch, nama);
      }
      LastName(b.names, nama);
      b.names := b.names + [nama];
      b.ch := b.ch + [[]];
    }
    b.jw1 := 0;
  }

  lemma NamesFull(v: Snapshot, ch: seq<seq<int>>, nama: int)
    requires |v.a.names| >= v.a.cap
    ensures !Sound(v.(a := v.a.(names := v.a.names + [nama])), ch + [[]])
  {
  }

  lemma {:induction false} LastName(names: seq<int>, nama: int)
    requires nama !in names
    ensures NameIndex(names + [nama], nama) == |names|
  {
    if names != [] {
      assert (names + [nama])[1..] == names[1..] + [nama];
      LastName(names[1..], nama);
    }
  }

  // ---- A new bank ------------------------------------------------------------------------------------

  lemma AppendOthers(s: Area, s': Area, ch: seq<seq<int>>, n: nat, k: nat, nd: int)
    requires Inv(s, ch) && n < |ch| && k <= |ch[n]|
    requires Appended(s, s', ch[n], s.base + n, k, s.names[n], nd)
    ensures OtherChainsSame(s.w, s'.w, ch, ch[n := Insert(ch[n], k, s.igp + (NHW - 1))], n)
  {
    hide Tiles, Inds, InSome, Accounts, SameBelow, LinkPlace, Kept, Insert, Chained;
    LinkOfPlace(s, ch, n, k);
    SameWidth(s.w, s'.w, s.igp, LinkOf(s.base + n, ch[n], k), s.igp + (NHW - 1));
    forall m, z | 0 <= m < |ch| && m != n && z in ch[m]
      ensures INR <= z < |s.w| && s'.w[z - INR] == s.w[z - INR]
    {
      var i :| 0 <= i < |ch[m]| && ch[m][i] == z;
      ChainBank(s, ch, m, i);
      OthersKept(s, s'.w, LinkOf(s.base + n, ch[n], k), s.igp + (NHW - 1), z);
    }
  }

  /** A bank appended at the gap: everything stays in order and the bank is in its list. */
  lemma NewBankSound(v: Snapshot, a: Area, ch: seq<seq<int>>, n: nat, k: nat, nd: int)
    requires Sound(v, ch) && n < |ch| && k <= |ch[n]| && |ch| == |v.a.names|
    requires Appended(v.a, a, ch[n], v.a.base + n, k, v.a.names[n], nd)
    requires FreeSlot(v.a.w, ch[n], a.w[v.a.igp + (NHW - 1) - INR], k)
    requires Settled(v.a.w, a.w, v.a.base, v.a.iwk, v.idl + 1 + n)
    ensures Holds(a.w, v.a.igp + (NHW - 1))
    ensures ListPut(v, ch, v.(a := a), ch[n := Insert(ch[n], k, v.a.igp + (NHW - 1))], n,
                    BankAt(a.w, v.a.igp + (NHW - 1)))
  {
    hide Inv, WInv, Links, Meaning, Meaningful, Put, Insert, FreeSlot, Settled, OtherChainsSame, Holds, BankAt,
         SameBelow;
    var x := v.a.igp + (NHW - 1);
    AppendBank(v.a, a, ch, n, k, nd);
    AppendMeaning(v.a, a, ch, n, k, nd);
    AppendOthers(v.a, a, ch, n, k, nd);
    SettleChain(v, a, ch, ch[n := Insert(ch[n], k, x)], n);
  }

  // ---- A bank moved to the gap -------------------------------------------------------------------------

  /** Bank `k` of chain `c` marked as dropped, and a bank with its number at the gap instead. */
  ghost predicate MovedToGap(s: Area, a: Area, c: seq<int>, h: int, k: nat, name: int, nd: int)
    requires k < |c|
  {
    var x, y := c[k], s.igp + (NHW - 1);
    && NHW <= x < s.igp && y < |s.w| && nd >= 0 && s.igp + NHW + nd <= s.iwk
    && a == s.(w := a.w, igp := s.igp + NHW + nd, ndn := s.ndn + s.w[x] + NHW, ign := if s.ign < x then s.ign else x)
    && SameBelow(s.w, a.w, s.igp, LinkOf(h, c, k), x)
    && 0 <= LinkOf(h, c, k) < |s.w| && LinkOf(h, c, k) != x && a.w[LinkOf(h, c, k)] == y
    && a.w[x] == -(s.w[x] + NHW)
    && a.w[y] == nd && a.w[y - INAM] == name && a.w[y - INXT] == At(c, k + 1) && a.w[y - INR] == s.w[x - INR]
  }

  lemma MoveAppends(s: Area, a: Area, c: seq<int>, h: int, k: nat, name: int, nd: int)
    requires k < |c| && MovedToGap(s, a, c, h, k, name, nd)
    ensures Appended(Dropped(s, c, h, k, false), a, Remove(c, k), h, k, name, nd)
  {
  }

  lemma MoveSlot(s: Area, s1: Area, ch: seq<seq<int>>, n: nat, k: nat)
    requires Inv(s, ch) && n < |ch| && k < |ch[n]|
    requires Removed(s, s1, ch[n], s.base + n, k)
    ensures NHW <= ch[n][k] < |s.w| && FreeSlot(s1.w, Remove(ch[n], k), s.w[ch[n][k] - INR], k)
  {
    hide Tiles, Inds, InSome, Accounts, Chained, SameBelow, LinkPlace, Kept;
    var c := ch[n];
    ChainBank(s, ch, n, k);
    LinkOfPlace(s, ch, n, k);
    SameWidth(s.w, s1.w, s.igp, LinkOf(s.base + n, c, k), c[k]);
    forall i | 0 <= i < |c|
      ensures INR <= c[i] < |s1.w| && (i != k ==> s1.w[c[i] - INR] == s.w[c[i] - INR])
    {
      ChainBank(s, ch, n, i);
      if i != k {
        if c[i] == c[k] { DistinctElements(s.w, c, i, k); }
        OthersKept(s, s1.w, LinkOf(s.base + n, c, k), c[k], c[i]);
      }
    }
    RemovedSlot(s.w, s1.w, c, k);
  }

  lemma RemovedSlot(w: seq<int>, w1: seq<int>, c: seq<int>, k: nat)
    requires k < |c| && |w1| == |w| && (forall i :: 0 <= i < |c| ==> NHW <= c[i] < |w|) && Ascending(w, c)
    requires forall i :: 0 <= i < |c| && i != k ==> w1[c[i] - INR] == w[c[i] - INR]
    ensures FreeSlot(w1, Remove(c, k), w[c[k] - INR], k)
  {
    var c' := Remove(c, k);
    assert forall i :: 0 <= i < |c'| ==> c'[i] == c[if i < k then i else i + 1];
  }

  lemma ReinsertAt(c: seq<int>, k: nat, y: int)
    requires k < |c|
    ensures Insert(Remove(c, k), k, y) == c[k := y]
  {
  }

  lemma MoveOthers(s: Area, a: Area, ch: seq<seq<int>>, n: nat, k: nat, nd: int)
    requires Inv(s, ch) && n < |ch| && k < |ch[n]| && |ch| == |s.names|
    requires MovedToGap(s, a, ch[n], s.base + n, k, s.names[n], nd)
    ensures OtherChainsSame(s.w, a.w, ch, ch[n := ch[n][k := s.igp + (NHW - 1)]], n)
  {
    hide Tiles, Inds, InSome, Accounts, SameBelow, LinkPlace, Kept, Chained;
    ChainBank(s, ch, n, k);
    LinkOfPlace(s, ch, n, k);
    SameWidth(s.w, a.w, s.igp, LinkOf(s.base + n, ch[n], k), ch[n][k]);
    forall m, z | 0 <= m < |ch| && m != n && z in ch[m]
      ensures INR <= z < |s.w| && a.w[z - INR] == s.w[z - INR]
    {
      var i :| 0 <= i < |ch[m]| && ch[m][i] == z;
      ChainBank(s, ch, m, i);
      if z == ch[n][k] { OnOneChain(s, ch, n, m, z); }
      OthersKept(s, a.w, LinkOf(s.base + n, ch[n], k), ch[n][k], z);
    }
  }

  /** Moving a bank to the gap: the invariant of the named area. */
  lemma MoveInv(s: Area, a: Area, ch: seq<seq<int>>, ch': seq<seq<int>>, n: nat, k: nat, nd: int)
    requires Inv(s, ch) && n < |ch| && k < |ch[n]| && |ch| == |s.names|
    requires MovedToGap(s, a, ch[n], s.base + n, k, s.names[n], nd)
    requires ch' == ch[n := ch[n][k := s.igp + (NHW - 1)]]
    ensures Inv(a, ch')
  {
    hide Inv, SameBelow, FreeSlot, LinkOf, Dropped;
    var c, y := ch[n], s.igp + (NHW - 1);
    DropMarked(s, ch, n, k);
    var s1, ch1 := Dropped(s, c, s.base + n, k, false), ch[n := Remove(c, k)];
    DropInv(s, ch, n, k, false);
    MoveAppends(s, a, c, s.base + n, k, s.names[n], nd);
    MoveSlot(s, s1, ch, n, k);
    AppendBank(s1, a, ch1, n, k, nd);
    ReinsertAt(c, k, y);
    assert ch1[n := Insert(ch1[n], k, y)] == ch';
  }

  lemma MoveMeaning(s: Area, a: Area, ch: seq<seq<int>>, ch': seq<seq<int>>, n: nat, k: nat, nd: int)
    requires Inv(s, ch) && n < |ch| && k < |ch[n]| && |ch| == |s.names|
    requires MovedToGap(s, a, ch[n], s.base + n, k, s.names[n], nd)
    requires ch' == ch[n := ch[n][k := s.igp + (NHW - 1)]]
    ensures Holds(a.w, s.igp + (NHW - 1))
    ensures PutInList(s.w, ch, a.w, ch', n, BankAt(a.w, s.igp + (NHW - 1)))
  {
    hide Inv, SameBelow, FreeSlot, LinkOf, Dropped, Put, Delete, Sorted, Meaning, Meaningful, BankAt, Holds;
    var c, y := ch[n], s.igp + (NHW - 1);
    DropMarked(s, ch, n, k);
    var s1, ch1 := Dropped(s, c, s.base + n, k, false), ch[n := Remove(c, k)];
    DropInv(s, ch, n, k, false);
    DropMeaning(s, ch, n, k, false);
    MoveAppends(s, a, c, s.base + n, k, s.names[n], nd);
    MoveSlot(s, s1, ch, n, k);
    AppendMeaning(s1, a, ch1, n, k, nd);
    ReinsertAt(c, k, y);
    assert ch1[n := Insert(ch1[n], k, y)] == ch';
    ListOf(s, ch, n);
    PutDelete(Meaning(s.w, ch)[n], BankAt(a.w, y));
  }

  /** A bank moved to the gap: everything stays in order, its list has it at the same place. */
  lemma MoveSound(v: Snapshot, a: Area, ch: seq<seq<int>>, ch': seq<seq<int>>, n: nat, k: nat, nd: int)
    requires n < |ch| && k < |ch[n]| && |ch| == |v.a.names|
    requires ch' == ch[n := ch[n][k := v.a.igp + (NHW - 1)]]
    requires Settled(v.a.w, a.w, v.a.base, v.a.iwk, v.idl + 1 + n)
    requires MovedToGap(v.a, a, ch[n], v.a.base + n, k, v.a.names[n], nd) && Sound(v, ch)
    ensures Holds(a.w, v.a.igp + (NHW - 1))
    ensures ListPut(v, ch, v.(a := a), ch', n, BankAt(a.w, v.a.igp + (NHW - 1)))
  {
    hide Inv, WInv, Links, Meaning, Meaningful, Put, Settled, OtherChainsSame, Holds, BankAt, SameBelow;
    MoveInv(v.a, a, ch, ch', n, k, nd);
    MoveMeaning(v.a, a, ch, ch', n, k, nd);
    MoveOthers(v.a, a, ch, n, k, nd);
    SettleChain(v, a, ch, ch', n);
  }

  // ---- Changes in place ----------------------------------------------------------------------------------

  /** Numbers of all chains' banks are the same and the work area is untouched. */
  lemma SameChainsSound(v: Snapshot, a: Area, ch: seq<seq<int>>)
    requires Sound(v, ch) && Inv(a, ch)
    requires Changed(v, a)
    requires forall m, i :: 0 <= m < |ch| && 0 <= i < |ch[m]| ==>
        INR <= ch[m][i] < |v.a.w| && a.w[ch[m][i] - INR] == v.a.w[ch[m][i] - INR]
    ensures Sound(v.(a := a), ch)
  {
    hide Inv, WBank, WTiles, WInds, LinkBank;
    var k, k' := WorkOf(v), WorkOf(v.(a := a));
    WFrame(k, k');
    ChainCount(v.a, ch);
    forall m: nat | m < v.a.cap ensures LinkState(k', v.idl, ch, m) {
      assert LinkState(k, v.idl, ch, m);
      LinkBankKept(k, k', v.idl + 1 + m, if m < |ch| then ch[m] else []);
    }
  }

  /** Two header words of a live bank, columns and rows, get new values. */
  lemma ShapeInv(s: Area, ch: seq<seq<int>>, x: int, ncol: int, nrow: int)
    requires Inv(s, ch) && x in Banks(s) && s.w[x] >= 0 && NHW <= x < |s.w|
    ensures Inv(s.(w := s.w[x - ICOL := ncol][x - IROW := nrow]), ch)
  {
    hide IsChain, InSome, Chained, DropSum, Tiles;
    var s' := s.(w := s.w[x - ICOL := ncol][x - IROW := nrow]);
    ShapeHeaders(s, x, ncol, nrow);
    TilesFrame(s.w, s'.w, s.inm, s.igp);
    SameLiveChained(s, s', ch);
  }

  lemma ShapeHeaders(s: Area, x: int, ncol: int, nrow: int)
    requires Layout(s) && x in Banks(s) && s.w[x] >= 0
    ensures s.inm <= x - ICOL && x < |s.w|
    ensures var w' := s.w[x - ICOL := ncol][x - IROW := nrow];
            forall z :: z in Banks(s) ==>
              NHW <= z < |s.w| && w'[z] == s.w[z] && w'[z - INXT] == s.w[z - INXT] && w'[z - INR] == s.w[z - INR]
                  && w'[z - INAM] == s.w[z - INAM]
  {
    TilesApart(s.w, s.inm, s.igp);
  }

  /** A bank whose words are all the same, its link word aside, means the same. */
  lemma SameWordsKept(w: seq<int>, w': seq<int>, z: int)
    requires Holds(w, z) && |w'| == |w|
    requires forall i :: z - ICOL <= i <= z + w[z] && i != z - INXT ==> w'[i] == w[i]
    ensures Kept(w, w', z)
  {
    assert w'[z + 1..z + 1 + w[z]] == w[z + 1..z + 1 + w[z]];
  }

  /** The words that change belong to bank `x` or to no live bank. */
  ghost predicate InsideBank(s: Area, w': seq<int>, x: int)
    requires Layout(s)
  {
    && |w'| == |s.w| && x in Banks(s) && s.w[x] >= 0
    && (forall i :: 0 <= i < s.igp && !(x - ICOL <= i <= x + s.w[x]) ==> w'[i] == s.w[i])
    && w'[x - INR] == s.w[x - INR]
  }

  lemma InsideKept(s: Area, ch: seq<seq<int>>, w': seq<int>, x: int)
    requires Inv(s, ch) && InsideBank(s, w', x)
    ensures KeptBut(s.w, w', ch, x)
    ensures forall m, i :: 0 <= m < |ch| && 0 <= i < |ch[m]| ==>
              INR <= ch[m][i] < |s.w| && w'[ch[m][i] - INR] == s.w[ch[m][i] - INR]
  {
    hide Accounts, InSome, Chained, Tiles;
    TilesApart(s.w, s.inm, s.igp);
    forall m, i | 0 <= m < |ch| && 0 <= i < |ch[m]|
      ensures INR <= ch[m][i] < |s.w| && w'[ch[m][i] - INR] == s.w[ch[m][i] - INR]
      ensures ch[m][i] != x ==> Kept(s.w, w', ch[m][i])
    {
      ChainBank(s, ch, m, i);
      if ch[m][i] != x { SameWordsKept(s.w, w', ch[m][i]); }
    }
  }

  /** A change inside one bank that keeps the named area in order. */
  lemma InsideSound(v: Snapshot, a: Area, ch: seq<seq<int>>, n: nat, k: nat)
    requires Sound(v, ch) && n < |ch| && k < |ch[n]| && Inv(a, ch) && Changed(v, a)
    requires Layout(v.a) && InsideBank(v.a, a.w, ch[n][k]) && Holds(a.w, ch[n][k])
    ensures ListPut(v, ch, v.(a := a), ch, n, BankAt(a.w, ch[n][k]))
  {
    hide Inv, WInv, Links, Meaning, Put, KeptBut, Layout;
    InsideKept(v.a, ch, a.w, ch[n][k]);
    ChainBank(v.a, ch, n, k);
    SameChainsSound(v, a, ch);
    ReplaceMeaning(v.a, a.w, ch, n, k);
  }

  // ---- The operation ---------------------------------------------------------------------------------------

  /** The `n` words behind `x` become zero. */
  method ZeroAfter(w: array<int>, x: int, n: int)
    requires 0 <= n && 0 <= x && x + n < w.Length
    modifies w
    ensures forall i :: 0 <= i < w.Length ==> w[i] == if x < i <= x + n then 0 else old(w[i])
  {
    var m := 1;
    while m <= n
      invariant 1 <= m <= n + 1
      invariant forall i :: 0 <= i < w.Length ==> w[i] == if x < i < x + m then 0 else old(w[i])
    {
      w[x + m] := 0;
      m := m + 1;
    }
  }

  /** What AddBank needs to know about indices. */
  lemma AddTouches(v: Snapshot, ch: seq<seq<int>>, n: nat, k: nat)
    requires Sound(v, ch) && n < |ch| && k <= |ch[n]|
    ensures var l, j := LinkOf(v.a.base + n, ch[n], k), v.idl + 1 + n;
            && v.a.base <= l < v.a.igp && v.a.w[l] == At(ch[n], k)
            && 0 < v.a.base <= v.a.igp <= v.a.iwk <= j < |v.a.w|
            && (v.a.w[j] == 0 || v.a.iwk <= v.a.w[j] < |v.a.w|) && |ch| == |v.a.names|
  {
    hide WInv, Links, Accounts, Chained, Tiles;
    LinkOfPlace(v.a, ch, n, k);
    SettleBounds(v, ch, n);
  }

  /** The words of a bank of `nd` words at `ind`, entered into its chain at the link word `l`. */
  ghost predicate BankWritten(w: seq<int>, w': seq<int>, l: int, ind: int, name: int, nr: int, nd: int, zero: bool) {
    && NHW <= ind + 1 && 0 <= l < ind - ICOL && 0 <= nd && ind + nd < |w| == |w'|
    && w'[l] == ind && w'[ind - INXT] == w[l]
    && w'[ind - INAM] == name && w'[ind - INR] == nr && w'[ind] == nd
    && (forall i :: 0 <= i < |w| && i != l && !(ind - INAM <= i <= ind + nd) ==> w'[i] == w[i])
    && (zero ==> forall i :: ind < i <= ind + nd ==> w'[i] == 0)
  }

  method WriteBank(w: array<int>, l: int, ind: int, name: int, nr: int, nd: int, zero: bool)
    requires 0 <= l < ind - ICOL && 0 <= nd && ind + nd < w.Length
    modifies w
    ensures BankWritten(old(w[..]), w[..], l, ind, name, nr, nd, zero)
  {
    w[ind - INAM] := name;
    w[ind - INR] := nr;
    w[ind - INXT] := w[l];
    w[ind] := nd;
    w[l] := ind;
    if nd > 0 && zero {
      ZeroAfter(w, ind, nd);
    }
  }

  lemma WrittenAppended(v: Snapshot, ch: seq<seq<int>>, w1: seq<int>, n: nat, k: nat, nr: int, nd: int, zero: bool)
    requires n < |ch| && k <= |ch[n]| && |ch| == |v.a.names|
    requires v.a.igp + nd + NHW <= v.a.iwk
    requires BankWritten(v.a.w, w1, LinkOf(v.a.base + n, ch[n], k), v.a.igp + (NHW - 1), v.a.names[n], nr, nd, zero)
    requires Sound(v, ch)
    ensures 0 <= v.idl + 1 + n < |w1| && 0 <= w1[v.idl + 1 + n] < |w1|
    ensures var a := v.a.(w := Emptied(w1, v.idl + 1 + n), igp := v.a.igp + nd + NHW);
            && Appended(v.a, a, ch[n], v.a.base + n, k, v.a.names[n], nd)
            && Settled(v.a.w, a.w, v.a.base, v.a.iwk, v.idl + 1 + n)
            && a.w[..v.a.iwk] == w1[..v.a.iwk]
  {
    hide Sound, LinkOf;
    AddTouches(v, ch, n, k);
  }

  /** Creates a bank at the gap and links it into its chain before slot `k`. */
  method AddBank(b: BosArray, n: nat, nr: int, nd: int, jw1: int, indj: int, ghost k: nat) returns (ind: int)
    requires b.Valid() && n < |b.ch| && n < |b.names| && k <= |b.ch[n]| && FreeSlot(b.w[..], b.ch[n], nr, k)
    requires indj - INXT == LinkOf(b.base + n, b.ch[n], k)
    requires nd >= 0 && b.igp + nd + NHW <= b.iwk
    modifies b, b.w
    ensures ind == old(b.igp) + (NHW - 1) && b.ch == old(b.ch)[n := Insert(old(b.ch)[n], k, ind)]
    ensures Holds(b.w[..], ind) && b.w[ind] == nd && b.w[ind - INR] == nr
    ensures ListPut(old(b.Value()), old(b.ch), b.Value(), b.ch, n, BankAt(b.w[..], ind))
    ensures jw1 == 0 ==> forall i :: ind < i <= ind + nd ==> b.w[i] == 0
    ensures b.names == old(b.names) && b.bits == old(b.bits) && b.jw1 == old(b.jw1)
    ensures b.igp == old(b.igp) + nd + NHW && b.iwk == old(b.iwk) && b.ndw == old(b.ndw)
  {
    hide Sound, FreeSlot, ListPut, BankAt, LinkOf, Insert, At, Appended, Settled;
    ghost var v, ch := b.Value(), b.ch;
    AddTouches(v, ch, n, k);
    ind := b.igp + (NHW - 1);
    WriteBank(b.w, indj - INXT, ind, b.names[n], nr, nd, jw1 == 0);
    b.igp := b.igp + nd + NHW;
    WrittenAppended(v, ch, b.w[..], n, k, nr, nd, jw1 == 0);
    ghost var w1 := b.w[..];
    ResetLink(b.w, b.idl + 1 + n);
    assert forall i :: 0 <= i < b.iwk ==> b.w[i] == b.w[..][..b.iwk][i] && w1[i] == w1[..b.iwk][i];
    NewBankSound(v, v.a.(w := b.w[..], igp := b.igp), ch, n, k, nd);
    b.ch := ch[n := Insert(ch[n], k, ind)];
  }

  lemma ShapeBank(s: Area, x: int, ncol: int, nrow: int)
    requires Layout(s) && x in Banks(s) && s.w[x] >= 0
    ensures Holds(s.w, x) && x + s.w[x] < s.igp && s.base <= s.inm <= x - ICOL
    ensures var w' := s.w[x - ICOL := ncol][x - IROW := nrow];
            && Holds(w', x) && BankAt(w', x) == BankAt(s.w, x).(ncol := ncol, nrow := nrow) && InsideBank(s, w', x)
  {
    hide Tiles;
    TilesApart(s.w, s.inm, s.igp);
    var w' := s.w[x - ICOL := ncol][x - IROW := nrow];
    assert w'[x + 1..x + 1 + w'[x]] == s.w[x + 1..x + 1 + s.w[x]];
  }

  lemma ShapeSound(v: Snapshot, ch: seq<seq<int>>, n: nat, k: nat, ncol: int, nrow: int)
    requires Sound(v, ch) && n < |ch| && k < |ch[n]|
    ensures var x := ch[n][k];
            && Holds(v.a.w, x) && var a := v.a.(w := v.a.w[x - ICOL := ncol][x - IROW := nrow]);
            && Holds(a.w, x) && BankAt(a.w, x) == BankAt(v.a.w, x).(ncol := ncol, nrow := nrow)
            && ListPut(v, ch, v.(a := a), ch, n, BankAt(a.w, x))
  {
    hide WInv, Links, Accounts, Chained, Tiles, ListPut, Holds, BankAt, InsideBank;
    var x := ch[n][k];
    ChainBank(v.a, ch, n, k);
    ShapeBank(v.a, x, ncol, nrow);
    ShapeInv(v.a, ch, x, ncol, nrow);
    ShapeChanged(v, x, ncol, nrow);
    InsideSound(v, v.a.(w := v.a.w[x - ICOL := ncol][x - IROW := nrow]), ch, n, k);
  }

  lemma ShapeChanged(v: Snapshot, x: int, ncol: int, nrow: int)
    requires Layout(v.a) && v.a.inm <= x - ICOL && x < v.a.igp
    ensures Changed(v, v.a.(w := v.a.w[x - ICOL := ncol][x - IROW := nrow]))
  {
  }

  /** The bank gets its columns and rows. */
  method SetShape(b: BosArray, ind: int, ncol: int, nrow: int, ghost n: nat, ghost k: nat)
    requires b.Valid() && n < |b.ch| && k < |b.ch[n]| && ind == b.ch[n][k] && Holds(b.w[..], ind)
    modifies b.w
    ensures b.w[..] == old(b.w[..])[ind - ICOL := ncol][ind - IROW := nrow]
    ensures Holds(b.w[..], ind) && BankAt(b.w[..], ind) == BankAt(old(b.w[..]), ind).(ncol := ncol, nrow := nrow)
    ensures ListPut(old(b.Value()), b.ch, b.Value(), b.ch, n, BankAt(b.w[..], ind))
  {
    hide Sound, ListPut;
    ShapeSound(b.Value(), b.ch, n, k, ncol, nrow);
    b.w[ind - ICOL] := ncol;
    b.w[ind - IROW] := nrow;
  }

  /** Only bank `x` changes its length, to `nd`; new words are zero when `zero` is set. */
  ghost predicate LengthWritten(w: seq<int>, w': seq<int>, x: int, nd: int, zero: bool) {
    && Holds(w, x) && 0 <= nd && x + nd < |w| == |w'| && w'[x] == nd
    && (forall i :: 0 <= i < |w| && i != x && !(x + w[x] < i <= x + nd) ==> w'[i] == w[i])
    && (zero ==> forall i :: x + w[x] < i <= x + nd ==> w'[i] == 0)
  }

  lemma LengthSound(v: Snapshot, ch: seq<seq<int>>, w': seq<int>, n: nat, k: nat, nd: int, zero: bool)
    requires Sound(v, ch) && n < |ch| && k < |ch[n]| && LengthWritten(v.a.w, w', ch[n][k], nd, zero)
    requires ch[n][k] + 1 + v.a.w[ch[n][k]] == v.a.igp && ch[n][k] + 1 + nd <= v.a.iwk
    ensures Holds(w', ch[n][k])
    ensures ListPut(v, ch, v.(a := v.a.(w := w', igp := ch[n][k] + 1 + nd)), ch, n, BankAt(w', ch[n][k]))
  {
    hide WInv, Links, Accounts, Chained, ListPut, Tiles, Inds;
    var x := ch[n][k];
    var a := v.a.(w := w', igp := x + 1 + nd);
    ChainBank(v.a, ch, n, k);
    ResizeLast(v.a, a, ch, x);
    InsideSound(v, a, ch, n, k);
  }

  /** The last bank changes its length in place. */
  method GrowLast(b: BosArray, ind: int, nd: int, jw1: int, ghost n: nat, ghost k: nat)
    requires b.Valid() && n < |b.ch| && k < |b.ch[n]| && ind == b.ch[n][k] && Holds(b.w[..], ind)
    requires ind + b.w[ind] + 1 == b.igp && 0 <= nd && b.igp + nd - b.w[ind] <= b.iwk && b.iwk <= b.w.Length
    modifies b, b.w
    ensures LengthWritten(old(b.w[..]), b.w[..], ind, nd, jw1 == 0) && Holds(b.w[..], ind)
    ensures b.w[ind] == nd && (jw1 != 0 ==> forall i :: 0 <= i < b.w.Length && i != ind ==> b.w[i] == old(b.w[i]))
    ensures ListPut(old(b.Value()), old(b.ch), b.Value(), b.ch, n, BankAt(b.w[..], ind))
    ensures b.names == old(b.names) && b.bits == old(b.bits) && b.jw1 == old(b.jw1) && b.ch == old(b.ch)
    ensures b.iwk == old(b.iwk) && b.ndw == old(b.ndw) && b.igp == ind + 1 + nd
  {
    hide Sound, ListPut, BankAt;
    ghost var v, ch := b.Value(), b.ch;
    var ndif := nd - b.w[ind];
    var izero := ind + b.w[ind];
    b.w[ind] := b.w[ind] + ndif;
    b.igp := b.igp + ndif;
    if ndif > 0 && jw1 == 0 {
      ZeroAfter(b.w, izero, ndif);
    }
    assert LengthWritten(v.a.w, b.w[..], ind, nd, jw1 == 0);
    LengthSound(v, ch, b.w[..], n, k, nd, jw1 == 0);
  }

  lemma HoleSound(v: Snapshot, ch: seq<seq<int>>, n: nat, k: nat, nd: int)
    requires Sound(v, ch) && n < |ch| && k < |ch[n]|
    requires 0 <= nd && Holds(v.a.w, ch[n][k]) && nd + NHW <= v.a.w[ch[n][k]]
    ensures var x, y := ch[n][k], ch[n][k] + nd + NHW;
            var a := v.a.(w := v.a.w[x := nd][y := nd - v.a.w[x]], ndn := v.a.ndn + v.a.w[x] - nd,
                          ign := if v.a.ign < y then v.a.ign else y);
            && Holds(a.w, x) && ListPut(v, ch, v.(a := a), ch, n, BankAt(a.w, x))
  {
    hide WInv, Links, Accounts, Chained, Tiles, Inds, ListPut, BankAt, LinkPlace;
    var x, y := ch[n][k], ch[n][k] + nd + NHW;
    ChainBank(v.a, ch, n, k);
    TilesApart(v.a.w, v.a.inm, v.a.igp);
    var a := v.a.(w := v.a.w[x := nd][y := nd - v.a.w[x]], ndn := v.a.ndn + v.a.w[x] - nd,
                  ign := if v.a.ign < y then v.a.ign else y);
    ResizeWithHole(v.a, a, ch, x, nd);
    InsideSound(v, a, ch, n, k);
  }

  /** The bank shrinks in place; what it gives up becomes a dropped bank behind it. */
  method PunchHole(b: BosArray, ind: int, nd: int, ghost n: nat, ghost k: nat)
    requires b.Valid() && n < |b.ch| && k < |b.ch[n]| && ind == b.ch[n][k] && Holds(b.w[..], ind)
    requires 0 <= nd && nd + NHW <= b.w[ind]
    modifies b, b.w
    ensures ind + nd + NHW < b.w.Length
    ensures b.w[..] == old(b.w[..])[ind := nd][ind + nd + NHW := nd - old(b.w[ind])] && Holds(b.w[..], ind)
    ensures ListPut(old(b.Value()), old(b.ch), b.Value(), b.ch, n, BankAt(b.w[..], ind))
    ensures b.names == old(b.names) && b.bits == old(b.bits) && b.jw1 == old(b.jw1) && b.ch == old(b.ch)
    ensures b.iwk == old(b.iwk) && b.igp == old(b.igp) && b.ndw == old(b.ndw)
  {
    hide Sound, ListPut;
    HoleSound(b.Value(), b.ch, n, k, nd);
    var ndif := nd - b.w[ind];
    b.w[ind] := nd;
    b.w[ind + nd + NHW] := ndif;
    b.ign := if b.ign < ind + nd + NHW then b.ign else ind + nd + NHW;
    b.ndn := b.ndn - ndif;
  }

  /** The words move to a place above them, overlapping or not. */
  method CopyUp(w: array<int>, from: int, to: int, n: int)
    requires 0 <= n && 0 <= from && from + n <= to && to + n <= w.Length
    modifies w
    ensures forall i :: 0 <= i < w.Length ==> w[i] == if to <= i < to + n then old(w[from + i - to]) else old(w[i])
  {
    var i := 0;
    while i < n
      invariant 0 <= i <= n
      invariant forall j :: 0 <= j < w.Length ==> w[j] == if to <= j < to + i then old(w[from + j - to]) else old(w[j])
    {
      w[to + i] := w[from + i];
      i := i + 1;
    }
  }

  /**
   Bank `x` is marked as dropped; its header and as many words as fit are at `y`, a bank of
   `nd` words, whose further words are zero when `zero` is set; link word `l` leads to `y`.
   */
  ghost predicate MoveWritten(w: seq<int>, w': seq<int>, l: int, x: int, y: int, nd: int, zero: bool) {
    && Holds(w, x) && 0 <= nd && x + w[x] < y - ICOL && y + nd < |w| == |w'|
    && 0 <= l < y - ICOL && l != x
    && w'[l] == y && w'[x] == -(w[x] + NHW) && w'[y] == nd
    && (forall i :: y - ICOL <= i < y ==> w'[i] == w[x + i - y])
    && (forall i :: y < i <= y + nd && i <= y + w[x] ==> w'[i] == w[x + i - y])
    && (zero ==> forall i :: y + w[x] < i <= y + nd ==> w'[i] == 0)
    && (forall i :: 0 <= i < |w| && i != l && i != x && !(y - ICOL <= i <= y + nd) ==> w'[i] == w[i])
  }

  method WriteCopy(w: array<int>, l: int, x: int, y: int, n: int)
    requires Holds(w[..], x) && 0 <= n <= w[x] && x + w[x] < y - ICOL && y + n < w.Length
    requires 0 <= l < y - ICOL && l != x
    modifies w
    ensures MoveWritten(old(w[..]), w[..], l, x, y, n, false)
  {
    CopyUp(w, x - (NHW - 1), y - (NHW - 1), NHW + n);
    w[x] := -w[x] - NHW;
    w[y] := n;
    w[l] := y;
  }

  method WriteMove(w: array<int>, l: int, x: int, y: int, nd: int, zero: bool)
    requires Holds(w[..], x) && 0 <= nd && x + w[x] < y - ICOL && y + nd < w.Length
    requires 0 <= l < y - ICOL && l != x
    modifies w
    ensures MoveWritten(old(w[..]), w[..], l, x, y, nd, zero)
  {
    ghost var w0 := w[..];
    var was := w[x];
    WriteCopy(w, l, x, y, if nd < was then nd else was);
    if nd > was {
      ghost var w1 := w[..];
      var izero := y + w[y];
      w[y] := w[y] + (nd - was);
      if zero {
        ZeroAfter(w, izero, nd - was);
      }
      MoveExtended(w0, w1, w[..], l, x, y, nd, zero);
    }
  }

  lemma MoveExtended(w: seq<int>, w1: seq<int>, w2: seq<int>, l: int, x: int, y: int, nd: int, zero: bool)
    requires Holds(w, x) && w[x] < nd && MoveWritten(w, w1, l, x, y, w[x], false)
    requires |w2| == |w1| && y + nd < |w2| && w2[y] == nd
    requires forall i :: 0 <= i < |w| && i != y && !(y + w[x] < i <= y + nd) ==> w2[i] == w1[i]
    requires zero ==> forall i :: y + w[x] < i <= y + nd ==> w2[i] == 0
    ensures MoveWritten(w, w2, l, x, y, nd, zero)
  {
  }

  /** Indices touched when the `k`-th bank of a chain is moved to the gap. */
  lemma MoveTouches(v: Snapshot, ch: seq<seq<int>>, n: nat, k: nat)
    requires Sound(v, ch) && n < |ch| && k < |ch[n]|
    ensures var l, x, j := LinkOf(v.a.base + n, ch[n], k), ch[n][k], v.idl + 1 + n;
            && Holds(v.a.w, x) && v.a.base <= l < v.a.igp && l != x && v.a.base <= x && x + v.a.w[x] < v.a.igp
            && v.a.w[x - INXT] == At(ch[n], k + 1) && v.a.w[x - INAM] == v.a.names[n]
            && 0 < v.a.base <= v.a.igp <= v.a.iwk <= j < |v.a.w|
            && (v.a.w[j] == 0 || v.a.iwk <= v.a.w[j] < |v.a.w|) && |ch| == |v.a.names|
  {
    hide WInv, Links, Accounts, Chained, Tiles, Inds;
    AddTouches(v, ch, n, k);
    ChainBank(v.a, ch, n, k);
    TilesApart(v.a.w, v.a.inm, v.a.igp);
    LinkNotLength(v.a, ch, n, k);
    LinkOfPlace(v.a, ch, n, k + 1);
  }

  lemma MoveWrittenTo(v: Snapshot, a: Area, ch: seq<seq<int>>, w1: seq<int>, n: nat, k: nat, nd: int, zero: bool)
    requires Sound(v, ch) && n < |ch| && k < |ch[n]| && |ch| == |v.a.names|
    requires v.a.igp + nd + NHW <= v.a.iwk
    requires MoveWritten(v.a.w, w1, LinkOf(v.a.base + n, ch[n], k), ch[n][k], v.a.igp + (NHW - 1), nd, zero)
    requires 0 <= v.idl + 1 + n < |w1| && 0 <= w1[v.idl + 1 + n] < |w1| && a.w == Emptied(w1, v.idl + 1 + n)
    requires 0 <= ch[n][k] < |v.a.w|
    requires a == v.a.(w := a.w, igp := v.a.igp + nd + NHW, ndn := v.a.ndn + v.a.w[ch[n][k]] + NHW,
                       ign := if v.a.ign < ch[n][k] then v.a.ign else ch[n][k])
    ensures MovedToGap(v.a, a, ch[n], v.a.base + n, k, v.a.names[n], nd)
    ensures Settled(v.a.w, a.w, v.a.base, v.a.iwk, v.idl + 1 + n)
    ensures 0 <= v.a.iwk <= |w1| && a.w[..v.a.iwk] == w1[..v.a.iwk]
  {
    hide Sound, LinkOf, At;
    MoveTouches(v, ch, n, k);
  }

  /** `d'` is bank `d` with `nd` data words: what fits is kept, the rest is zero if `zero` is set. */
  ghost predicate CarriedOver(d: Bank, d': Bank, nd: int, zero: bool) {
    && d'.nr == d.nr && |d'.data| == nd
    && (forall i :: 0 <= i < nd && i < |d.data| ==> d'.data[i] == d.data[i])
    && (zero ==> forall i :: |d.data| <= i < nd ==> d'.data[i] == 0)
  }

  lemma MoveCarries(w: seq<int>, w1: seq<int>, w': seq<int>, l: int, x: int, y: int, nd: int, zero: bool, t: int)
    requires MoveWritten(w, w1, l, x, y, nd, zero) && y + nd < t <= |w'| == |w1| && w'[..t] == w1[..t]
    requires l != y - INR
    ensures Holds(w', y) && CarriedOver(BankAt(w, x), BankAt(w', y), nd, zero)
  {
    assert forall i :: 0 <= i < t ==> w'[i] == w'[..t][i] && w1[i] == w1[..t][i];
    assert w1[y - INR] == w[x - INR];
  }

  lemma LengthCarries(w: seq<int>, w': seq<int>, x: int, nd: int, zero: bool)
    requires LengthWritten(w, w', x, nd, zero)
    ensures Holds(w', x) && CarriedOver(BankAt(w, x), BankAt(w', x), nd, zero)
  {
  }

  lemma HoleCarries(w: seq<int>, x: int, nd: int, zero: bool)
    requires Holds(w, x) && 0 <= nd && nd + NHW <= w[x]
    ensures var w' := w[x := nd][x + nd + NHW := nd - w[x]];
            Holds(w', x) && CarriedOver(BankAt(w, x), BankAt(w', x), nd, zero)
  {
  }

  /** The bank is copied to the gap and marked where it was. */
  method MoveBank(b: BosArray, n: nat, ind: int, nd: int, jw1: int, indj: int, ghost k: nat) returns (y: int)
    requires b.Valid() && n < |b.ch| && k < |b.ch[n]| && ind == b.ch[n][k] && Holds(b.w[..], ind)
    requires indj - INXT == LinkOf(b.base + n, b.ch[n], k)
    requires 0 <= nd && b.igp + nd + NHW < b.iwk
    modifies b, b.w
    ensures y == old(b.igp) + (NHW - 1) && b.ch == old(b.ch)[n := old(b.ch)[n][k := y]]
    ensures Holds(b.w[..], y)
    ensures CarriedOver(BankAt(old(b.w[..]), ind), BankAt(b.w[..], y), nd, jw1 == 0)
    ensures ListPut(old(b.Value()), old(b.ch), b.Value(), b.ch, n, BankAt(b.w[..], y))
    ensures b.names == old(b.names) && b.bits == old(b.bits) && b.jw1 == old(b.jw1)
    ensures b.iwk == old(b.iwk) && b.ndw == old(b.ndw)
  {
    hide Sound, ListPut, BankAt, LinkOf, At, MovedToGap, Settled, CarriedOver;
    ghost var v, ch := b.Value(), b.ch;
    MoveTouches(v, ch, n, k);
    y := b.igp + (NHW - 1);
    var size := b.w[ind] + NHW;
    WriteMove(b.w, indj - INXT, ind, y, nd, jw1 == 0);
    b.ndn := b.ndn + size;
    b.ign := if b.ign < ind then b.ign else ind;
    b.igp := b.igp + nd + NHW;
    ghost var w1 := b.w[..];
    ResetLink(b.w, b.idl + 1 + n);
    MoveWrittenTo(v, b.Value().a, ch, w1, n, k, nd, jw1 == 0);
    MoveCarries(v.a.w, w1, b.w[..], indj - INXT, ind, y, nd, jw1 == 0, b.iwk);
    b.ch := ch[n := ch[n][k := y]];
    MoveSound(v, b.Value().a, ch, b.ch, n, k, nd);
  }

  const MBANK_WRONG_ARGUMENT := -8
  const MBANK_INSUFFICIENT_SPACE_FOR_NEW_BANK := -9
  const MBANK_INSUFFICIENT_SPACE_TO_INCREASE_LENGTH_OR_MOVE := -10

  /** Compaction of work banks is only entered here when no work bank is dropped; it returns at once. */
  method Wgarbage(b: BosArray)
    requires b.ndw == 0
    modifies b`jw1
    ensures b.jw1 == 0
  {
    b.jw1 := 0;
  }

  lemma ResetSound(v: Snapshot, ch: seq<seq<int>>, n: nat)
    requires Sound(v, ch) && n < |ch|
    ensures 0 <= v.idl + 1 + n < |v.a.w| && 0 <= v.a.w[v.idl + 1 + n] < |v.a.w|
    ensures var v' := v.(a := v.a.(w := Emptied(v.a.w, v.idl + 1 + n)));
            Sound(v', ch) && Listing(v', ch) == Listing(v, ch)
  {
    hide Inv, WInv, Links;
    SettleBounds(v, ch, n);
    NumbersAreWords(v, ch);
    ChangeChain(v, v.a, ch, ch, n);
  }

  lemma NumbersAreWords(v: Snapshot, ch: seq<seq<int>>)
    requires Sound(v, ch)
    ensures forall n: nat :: OtherChainsSame(v.a.w, v.a.w, ch, ch, n)
  {
    ChainsBelowGap(v.a, ch);
    InvBounds(v.a, ch);
  }

  /** The exact test of the source for a bank that exists. */
  ghost predicate NoRoom(s: Area, ind: int, nd: int, jw1: int)
    requires 0 <= ind < |s.w|
  {
    var ndif := nd - s.w[ind];
    && (ndif != 0 || jw1 == 2)
    && (if ind + s.w[ind] + 1 == s.igp then s.igp + ndif > s.iwk
        else (ndif + NHW > 0 || jw1 == 2) && s.igp + nd + NHW >= s.iwk)
  }

  /** There is room for `nd` words in bank `nr` of chain `c`, be it new or not. */
  ghost predicate HasRoom(s: Area, c: seq<int>, nr: int, nd: int, jw1: int) {
    var ind := IndexOf(s.w, c, nr);
    if ind == 0 then s.igp + nd + NHW <= s.iwk else 0 <= ind < |s.w| && !NoRoom(s, ind, nd, jw1)
  }

  /** The bank exists and gets `nd` data words, in place if it can. */
  method ChangeLength(b: BosArray, n: nat, ind: int, nd: int, jw1: int, indj: int, ghost k: nat) returns (r: int)
    requires b.Valid() && n < |b.ch| && k < |b.ch[n]| && ind == b.ch[n][k] && Holds(b.w[..], ind)
    requires indj - INXT == LinkOf(b.base + n, b.ch[n], k) && 0 <= nd
    requires NoRoom(b.Value().a, ind, nd, jw1) ==> b.ndw == 0
    modifies b, b.w
    ensures b.Valid() && b.names == old(b.names) && b.bits == old(b.bits) && b.iwk == old(b.iwk) && b.ndw == old(b.ndw)
    ensures if NoRoom(old(b.Value().a), ind, nd, jw1)
            then r == MBANK_INSUFFICIENT_SPACE_TO_INCREASE_LENGTH_OR_MOVE
                 && b.ch == old(b.ch) && b.Contents() == old(b.Contents())
            else n < |b.ch| && k < |b.ch[n]| && r == b.ch[n][k] && r > 0 && Holds(b.w[..], r)
                 && CarriedOver(BankAt(old(b.w[..]), ind), BankAt(b.w[..], r), nd, jw1 == 0)
                 && ListPut(old(b.Value()), old(b.ch), b.Value(), b.ch, n, BankAt(b.w[..], r))
  {
    hide Sound, ListPut, BankAt, LinkOf, CarriedOver, LengthWritten, Emptied, Listing;
    ghost var v, ch := b.Value(), b.ch;
    MoveTouches(v, ch, n, k);
    r := ind;
    var ndif := nd - b.w[ind];
    if ndif == 0 && jw1 != 2 {
      UnchangedBank(v, ch, n, k, nd, jw1 == 0);
      return;
    }
    if ind + b.w[ind] + 1 == b.igp {
      if b.igp + ndif > b.iwk {
        Wgarbage(b);
        r := MBANK_INSUFFICIENT_SPACE_TO_INCREASE_LENGTH_OR_MOVE;
      } else {
        GrowLast(b, ind, nd, jw1, n, k);
        LengthCarries(v.a.w, b.w[..], ind, nd, jw1 == 0);
      }
    } else if ndif + NHW <= 0 && jw1 != 2 {
      PunchHole(b, ind, nd, n, k);
      HoleCarries(v.a.w, ind, nd, jw1 == 0);
    } else if b.igp + nd + NHW >= b.iwk {
      Wgarbage(b);
      r := MBANK_INSUFFICIENT_SPACE_TO_INCREASE_LENGTH_OR_MOVE;
    } else {
      r := MoveBank(b, n, ind, nd, jw1, indj, k);
    }
    ListPutSound(v, ch, b.Value(), b.ch, n);
    if r < 0 {
      ResetSound(v, ch, n);
      ResetLink(b.w, b.idl + 1 + n);
    }
  }

  lemma ListPutSound(v: Snapshot, ch: seq<seq<int>>, v': Snapshot, ch': seq<seq<int>>, n: nat)
    ensures forall d :: ListPut(v, ch, v', ch', n, d) ==> Sound(v', ch') && Sound(v, ch)
  {
  }

  lemma UnchangedBank(v: Snapshot, ch: seq<seq<int>>, n: nat, k: nat, nd: int, zero: bool)
    requires Sound(v, ch) && n < |ch| && k < |ch[n]| && Holds(v.a.w, ch[n][k]) && nd == v.a.w[ch[n][k]]
    ensures CarriedOver(BankAt(v.a.w, ch[n][k]), BankAt(v.a.w, ch[n][k]), nd, zero)
    ensures ListPut(v, ch, v, ch, n, BankAt(v.a.w, ch[n][k]))
  {
    hide WInv, Links, Accounts, Chained, Tiles;
    ListOf(v.a, ch, n);
    PutReplace(Listing(v, ch)[n], k, BankAt(v.a.w, ch[n][k]));
    assert Listing(v, ch)[n][k := BankAt(v.a.w, ch[n][k])] == Listing(v, ch)[n];
  }

  lemma ListPutTwice(v: Snapshot, ch: seq<seq<int>>, v1: Snapshot, ch1: seq<seq<int>>,
                     v2: Snapshot, ch2: seq<seq<int>>, n: nat, d: Bank, d': Bank)
    requires ListPut(v, ch, v1, ch1, n, d) && ListPut(v1, ch1, v2, ch2, n, d') && d.nr == d'.nr
    ensures ListPut(v, ch, v2, ch2, n, d')
  {
    hide Sound, Put, Listing;
    PutPut(Listing(v, ch)[n], d, d');
  }

  /** The lists after a possibly new name has been entered. */
  ghost function WithName(names: seq<int>, lists: seq<seq<Bank>>, nama: int): seq<seq<Bank>> {
    if nama in names then lists else lists + [[]]
  }

  /** Whether bank `nr` exists tells where its list has it. */
  lemma LookupHere(v: Snapshot, ch: seq<seq<int>>, n: nat, k: nat, nr: int)
    requires Sound(v, ch) && n < |ch| && IsSlot(v.a.w, ch[n], nr, k)
    ensures k <= |ch[n]|
    ensures if Found(v.a.w, ch[n], nr, k)
            then Holds(v.a.w, ch[n][k]) && Lookup(Listing(v, ch)[n], nr) == Some(BankAt(v.a.w, ch[n][k]))
            else Lookup(Listing(v, ch)[n], nr) == None && FreeSlot(v.a.w, ch[n], nr, k)
  {
    hide WInv, Links, Tiles, Inds, InSome, Accounts, Chained;
    ListOf(v.a, ch, n);
    if Found(v.a.w, ch[n], nr, k) {
      LookupAt(Listing(v, ch)[n], k, nr);
    } else {
      SlotFree(v, ch, n, k, nr);
      LookupAbsent(Listing(v, ch)[n], nr);
    }
  }

  /** The index of a bank is zero if and only if its list does not have it; else the bank is there. */
  lemma IndexMeans(v: Snapshot, ch: seq<seq<int>>, n: nat, nr: int)
    requires Sound(v, ch) && n < |ch|
    ensures var ind := IndexOf(v.a.w, ch[n], nr);
            Lookup(Listing(v, ch)[n], nr) == if ind == 0 then None
                else if Holds(v.a.w, ind) then Some(BankAt(v.a.w, ind)) else None
    ensures IndexOf(v.a.w, ch[n], nr) != 0 ==> IndexOf(v.a.w, ch[n], nr) > 0 && Holds(v.a.w, IndexOf(v.a.w, ch[n], nr))
  {
    hide WInv, Links, Tiles, Inds, InSome, Accounts, Chained;
    ListOf(v.a, ch, n);
    var k := IndexFirst(v.a.w, ch[n], nr);
    if k < |ch[n]| {
      LookupAt(Listing(v, ch)[n], k, nr);
    } else {
      LookupAbsent(Listing(v, ch)[n], nr);
    }
  }

  lemma SlotFree(v: Snapshot, ch: seq<seq<int>>, n: nat, k: nat, nr: int)
    requires Sound(v, ch) && n < |ch| && IsSlot(v.a.w, ch[n], nr, k) && !Found(v.a.w, ch[n], nr, k)
    ensures FreeSlot(v.a.w, ch[n], nr, k)
    ensures forall i :: 0 <= i < |ch[n]| ==> INR <= ch[n][i] < |v.a.w| && v.a.w[ch[n][i] - INR] != nr
  {
    hide WInv, Links, Tiles, Inds, InSome, Accounts;
    assert IsChain(v.a.w, Banks(v.a), v.a.base + n, v.a.names[n], ch[n]);
    forall i | 0 <= i < |ch[n]| ensures v.a.w[ch[n][i] - INR] != nr {
      if k < i { assert v.a.w[ch[n][k] - INR] < v.a.w[ch[n][i] - INR]; }
    }
  }

  function BitCode(bits: map<int, int>, nama: int): int {
    if nama in bits then bits[nama] else 0
  }

  /** Bank `d` has `nd` data words and what it may keep of the bank it replaces. */
  ghost predicate Placed(o: Option<Bank>, d: Bank, nr: int, nd: int, zero: bool) {
    && d.nr == nr && |d.data| == nd
    && match o
       case Some(was) => CarriedOver(was, d, nd, zero)
       case None => zero ==> forall i :: 0 <= i < nd ==> d.data[i] == 0
  }

  /** The result of placing a bank: an index if and only if there is room. */
  ghost predicate PlaceStatus(s: Area, c: seq<int>, nr: int, nd: int, jw1: int, ind: int) {
    && (ind > 0 <==> HasRoom(s, c, nr, nd, jw1))
    && (ind <= 0 ==> ind == if IndexOf(s.w, c, nr) == 0 then MBANK_INSUFFICIENT_SPACE_FOR_NEW_BANK
                            else MBANK_INSUFFICIENT_SPACE_TO_INCREASE_LENGTH_OR_MOVE)
  }

  lemma NamesAside(s: Area, names: seq<int>, c: seq<int>, nr: int, nd: int, jw1: int)
    ensures HasRoom(s.(names := names), c, nr, nd, jw1) <==> HasRoom(s, c, nr, nd, jw1)
    ensures forall ind :: PlaceStatus(s.(names := names), c, nr, nd, jw1, ind) <==> PlaceStatus(s, c, nr, nd, jw1, ind)
  {
  }

  lemma PlacedNew(w: seq<int>, x: int, nr: int, nd: int, zero: bool)
    requires Holds(w, x) && w[x] == nd && w[x - INR] == nr
    requires zero ==> forall i :: x < i <= x + nd ==> w[i] == 0
    ensures Placed(None, BankAt(w, x), nr, nd, zero)
  {
  }

  lemma PlacedOld(was: Bank, d: Bank, nr: int, nd: int, zero: bool)
    requires CarriedOver(was, d, nd, zero) && was.nr == nr
    ensures Placed(Some(was), d, nr, nd, zero)
  {
  }

  lemma FoundNumber(w: seq<int>, c: seq<int>, nr: int, k: nat)
    requires Found(w, c, nr, k) && Holds(w, c[k])
    ensures BankAt(w, c[k]).nr == nr
  {
  }

  lemma InsertedAt(ch: seq<seq<int>>, n: nat, k: nat, x: int)
    requires n < |ch| && k <= |ch[n]|
    ensures k < |ch[n := Insert(ch[n], k, x)][n]| && ch[n := Insert(ch[n], k, x)][n][k] == x
  {
  }

  /** bosNcreate between looking up the name and writing the shape. */
  method PlaceBank(b: BosArray, n: nat, nama: int, nr: int, nd: int, jw1: int) returns (ind: int, ghost k: nat)
    requires b.Valid() && n < |b.names| == |b.ch| && b.names[n] == nama && 0 <= nd
    requires b.ndw == 0 || HasRoom(b.Value().a, b.ch[n], nr, nd, jw1)
    modifies b, b.w
    ensures b.Valid() && b.iwk == old(b.iwk) && b.bits == old(b.bits) && b.ndw == old(b.ndw) && b.names == old(b.names)
    ensures |old(b.Contents())| == |old(b.ch)|
    ensures PlaceStatus(old(b.Value().a), old(b.ch)[n], nr, nd, jw1, ind)
    ensures if ind > 0
            then n < |b.ch| && k < |b.ch[n]| && ind == b.ch[n][k] && Holds(b.w[..], ind)
                 && Placed(Lookup(old(b.Contents())[n], nr), BankAt(b.w[..], ind), nr, nd, jw1 == 0)
                 && ListPut(old(b.Value()), old(b.ch), b.Value(), b.ch, n, BankAt(b.w[..], ind))
            else b.Contents() == old(b.Contents()) && b.ch == old(b.ch)
    ensures ind > 0 && Lookup(old(b.Contents())[n], nr) == None ==>
              ind == old(b.igp) + (NHW - 1) && b.igp == old(b.igp) + nd + NHW && b.w[ind] == nd
  {
    hide Sound, ListPut, BankAt, LinkOf, CarriedOver, Listing, Placed, FreeSlot, IsSlot, IsChain, Insert;
    ghost var v, ch := b.Value(), b.ch;
    WalkReady(v, ch, b.w[..], 0, n);
    var nlpl, indi, indj;
    nlpl, indi, indj, k := Nindex(b.w, nr, b.base + n, Banks(v.a), nama, ch[n]);
    LookupHere(v, ch, n, k, nr);
    IndexInChain(v.a.w, Banks(v.a), b.base + n, nama, ch[n], nr, k);
    if indi == 0 {
      if b.igp + nd + NHW > b.iwk {
        Wgarbage(b);
        ind := MBANK_INSUFFICIENT_SPACE_FOR_NEW_BANK;
      } else {
        ind := AddBank(b, n, nr, nd, jw1, indj, k);
        PlacedNew(b.w[..], ind, nr, nd, jw1 == 0);
        InsertedAt(ch, n, k, ind);
        ListPutSound(v, ch, b.Value(), b.ch, n);
      }
    } else {
      FoundNumber(b.w[..], ch[n], nr, k);
      ind := ChangeLength(b, n, indi, nd, jw1, indj, k);
      if ind > 0 {
        PlacedOld(BankAt(v.a.w, indi), BankAt(b.w[..], ind), nr, nd, jw1 == 0);
      }
    }
  }

  /** The chain of a name; a new name has none yet. */
  ghost function NamedChain(names: seq<int>, ch: seq<seq<int>>, nama: int): seq<int>
    requires |ch| == |names|
  {
    if nama in names then ch[NameIndex(names, nama)] else []
  }

  /** Bank `d` has the shape asked for and what it may keep of the bank it replaces. */
  ghost predicate Created(o: Option<Bank>, d: Bank, nr: int, ncol: int, nrow: int, nd: int, zero: bool) {
    Placed(o, d, nr, nd, zero) && d.ncol == ncol && d.nrow == nrow
  }

  lemma PlacedShape(o: Option<Bank>, d: Bank, nr: int, ncol: int, nrow: int, nd: int, zero: bool)
    requires Placed(o, d, nr, nd, zero)
    ensures Created(o, d.(ncol := ncol, nrow := nrow), nr, ncol, nrow, nd, zero)
  {
  }

  /**
   Creates bank `nr` of name `nama` with the given shape, or changes its length (bosNcreate).
   The result is its index, or an error that leaves every bank as it was.
   */
  method Ncreate(b: BosArray, nama: int, nr: int, ncol: int, nrow: int) returns (ind: int, ghost n: nat)
    requires b.Valid() && 0 <= b.jw1 <= 2 && (nama in b.names || |b.names| < b.cap)
    requires |b.ch| == |b.names|
    requires var nd := DataWords(BitCode(b.bits, nama), ncol, nrow);
             b.ndw == 0 || nd < 0 || HasRoom(b.Value().a, NamedChain(b.names, b.ch, nama), nr, nd, b.jw1)
    modifies b, b.w
    ensures b.Valid() && b.iwk == old(b.iwk) && b.bits == old(b.bits) && b.ndw == old(b.ndw)
    ensures b.names == if nama in old(b.names) then old(b.names) else old(b.names) + [nama]
    ensures n == NameIndex(b.names, nama) < |b.names| == |b.ch|
    ensures |WithName(old(b.names), old(b.Contents()), nama)| == |b.names|
    ensures ind <= 0 ==> b.Contents() == WithName(old(b.names), old(b.Contents()), nama)
    ensures var nd, lists := DataWords(BitCode(b.bits, nama), ncol, nrow),
        WithName(old(b.names), old(b.Contents()), nama);
            if nd < 0 then ind == MBANK_WRONG_ARGUMENT
            else
              && PlaceStatus(old(b.Value().a), NamedChain(old(b.names), old(b.ch), nama), nr, nd, old(b.jw1), ind)
              && (ind > 0 ==>
                    && Holds(b.w[..], ind) && ind in b.ch[n]
                    && Created(Lookup(lists[n], nr), BankAt(b.w[..], ind), nr, ncol, nrow, nd, old(b.jw1) == 0)
                    && b.Contents() == lists[n := Put(lists[n], BankAt(b.w[..], ind))]
                    && (Lookup(lists[n], nr) == None ==>
                          ind == old(b.igp) + (NHW - 1) && b.igp == old(b.igp) + nd + NHW))
    ensures ind > 0 ==>
              && Holds(b.w[..], ind) && b.w[ind - ICOL] == ncol && b.w[ind - IROW] == nrow
              && Packs(if nama in b.bits then b.bits[nama] else 0, ncol * nrow, b.w[ind])
  {
    hide Sound, BankAt, LinkOf, Listing, Created, Placed, PlaceStatus, HasRoom, Holds, Put, Packs, DataWords;
    var jw1 := b.jw1;
    ghost var s0, c := b.Value().a, NamedChain(b.names, b.ch, nama);
    var nami := Mamind(b, nama);
    n := nami;
    var nd := DataWords(BitCode(b.bits, nama), ncol, nrow);
    Packed(BitCode(b.bits, nama), ncol, nrow, nd);
    ghost var v, ch := b.Value(), b.ch;
    CountNames(v, ch);
    if nd < 0 {
      return MBANK_WRONG_ARGUMENT, n;
    }
    NamesAside(s0, b.names, c, nr, nd, jw1);
    ghost var k;
    ind, k := PlaceBank(b, nami, nama, nr, nd, jw1);
    if ind > 0 {
      ghost var d, o := BankAt(b.w[..], ind), Lookup(Listing(v, ch)[n], nr);
      PlacedShape(o, d, nr, ncol, nrow, nd, jw1 == 0);
      ghost var v1, ch1 := b.Value(), b.ch;
      SetShape(b, ind, ncol, nrow, n, k);
      ListPutTwice(v, ch, v1, ch1, b.Value(), b.ch, n, d, BankAt(b.w[..], ind));
      ShapeWords(b.w[..], ind, o, nr, ncol, nrow, nd, jw1 == 0);
    }
    CountNames(b.Value(), b.ch);
  }

  /** The shape and length of a bank that has been created. */
  lemma ShapeWords(w: seq<int>, ind: int, o: Option<Bank>, nr: int, ncol: int, nrow: int, nd: int, zero: bool)
    requires Holds(w, ind) && Created(o, BankAt(w, ind), nr, ncol, nrow, nd, zero)
    ensures NHW <= ind < |w| && w[ind - ICOL] == ncol && w[ind - IROW] == nrow && w[ind] == nd
  {
  }

  lemma CountNames(v: Snapshot, ch: seq<seq<int>>)
    requires Sound(v, ch)
    ensures |ch| == |v.a.names|
  {
    ChainCount(v.a, ch);
  }
}
