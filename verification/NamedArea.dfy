/**
 The named-bank area as a value: its invariant, its meaning, and what each elementary
 change of the array does to both.

 The meaning of an area is, for every name in order of first use, the list of its banks
 in chain order: number, columns, rows and data words.
 */
module NamedArea {
  import opened BankLayout
  import opened Chains
  import opened Directory

  /**
   `w` is indexed from 1; word 0 is unused.  The chain heads of the `cap` possible names
   start at `base`, the head of the n-th name in use (`names[n]`) is `w[base + n]`.
   */
  datatype Area = Area(
    w: seq<int>, base: int, cap: nat, names: seq<int>,
    inm: int, igp: int, iwk: int, njw: int, ndn: int, ign: int)

  ghost predicate Layout(s: Area) {
    && 0 < s.base && |s.names| <= s.cap
    && s.base + s.cap <= s.inm <= s.igp <= s.iwk <= s.njw && |s.w| == s.njw + 1
    && (forall i, j :: 0 <= i < j < |s.names| ==> s.names[i] != s.names[j])
    && Tiles(s.w, s.inm, s.igp)
  }

  ghost function Banks(s: Area): set<int>
    requires Layout(s)
  {
    Inds(s.w, s.inm, s.igp)
  }

  /** `ign` is the lowest dropped bank of `b`, or `njw` when there is none. */
  ghost predicate Lowest(w: seq<int>, b: set<int>, ign: int, njw: int)
    requires forall x :: x in b ==> 0 <= x < |w|
  {
    && (forall x :: x in b && w[x] < 0 ==> ign <= x)
    && (if ign in b then w[ign] < 0 else ign == njw && forall x :: x in b ==> w[x] >= 0)
  }

  /** Dropped words and lowest dropped bank are accounted for. */
  ghost predicate Accounts(s: Area)
    requires Layout(s)
  {
    && s.ndn == DropSum(s.w, s.inm, s.igp)
    && Lowest(s.w, Banks(s), s.ign, s.njw)
  }

  ghost predicate InSome(ch: seq<seq<int>>, x: int) {
    exists n :: 0 <= n < |ch| && x in ch[n]
  }

  /** The live banks are exactly those of the chains, each on the chain of its name. */
  ghost predicate Chained(s: Area, ch: seq<seq<int>>)
    requires Layout(s)
  {
    && |ch| == |s.names|
    && (forall n :: 0 <= n < |ch| ==> IsChain(s.w, Banks(s), s.base + n, s.names[n], ch[n]))
    && (forall x {:trigger InSome(ch, x)} :: x in Banks(s) && s.w[x] >= 0 ==> InSome(ch, x))
    && (forall h :: s.base + |ch| <= h < s.base + s.cap ==> s.w[h] == 0)
  }

  ghost predicate Inv(s: Area, ch: seq<seq<int>>) {
    Layout(s) && Accounts(s) && Chained(s, ch)
  }

  // ---- Meaning ------------------------------------------------------------------------

  ghost predicate Holds(w: seq<int>, x: int) {
    NHW <= x < |w| && w[x] >= 0 && x + 1 + w[x] <= |w|
  }

  ghost function BankAt(w: seq<int>, x: int): Bank
    requires Holds(w, x)
  {
    Bank(w[x - INR], w[x - ICOL], w[x - IROW], w[x + 1..x + 1 + w[x]])
  }

  ghost predicate AllHold(w: seq<int>, c: seq<int>) {
    forall i :: 0 <= i < |c| ==> Holds(w, c[i])
  }

  ghost function View(w: seq<int>, c: seq<int>): (v: seq<Bank>)
    requires AllHold(w, c)
    ensures |v| == |c| && forall i :: 0 <= i < |c| ==> v[i] == BankAt(w, c[i])
  {
    seq(|c|, i requires 0 <= i < |c| => BankAt(w, c[i]))
  }

  ghost predicate Meaningful(w: seq<int>, ch: seq<seq<int>>) {
    forall n :: 0 <= n < |ch| ==> AllHold(w, ch[n])
  }

  ghost function Meaning(w: seq<int>, ch: seq<seq<int>>): (m: seq<seq<Bank>>)
    requires Meaningful(w, ch)
    ensures |m| == |ch| && forall n :: 0 <= n < |ch| ==> m[n] == View(w, ch[n])
  {
    seq(|ch|, n requires 0 <= n < |ch| => View(w, ch[n]))
  }

  lemma InvMeaningful(s: Area, ch: seq<seq<int>>)
    requires Inv(s, ch)
    ensures Meaningful(s.w, ch)
  {
    TilesApart(s.w, s.inm, s.igp);
  }

  // ---- Elementary changes ---------------------------------------------------------------

  /** Header and data of a bank are the same, its link word excepted. */
  ghost predicate Kept(w: seq<int>, w': seq<int>, x: int) {
    && Holds(w, x) && Holds(w', x) && BankAt(w', x) == BankAt(w, x)
  }

  /** Words below `top` are the same except at the two given places. */
  ghost predicate SameBelow(w: seq<int>, w': seq<int>, top: int, l: int, x: int) {
    && |w'| == |w| && top <= |w|
    && (forall i :: 0 <= i < top && i != l && i != x ==> w'[i] == w[i])
  }

  lemma SameWidth(w: seq<int>, w': seq<int>, top: int, l: int, x: int)
    requires SameBelow(w, w', top, l, x)
    ensures |w'| == |w|
  {
  }

  /** A place where a link to a bank can be stored: a chain head or a bank's link word. */
  ghost predicate LinkPlace(s: Area, l: int)
    requires Layout(s)
  {
    0 <= l < s.inm || l + INXT in Banks(s)
  }

  lemma LinkOfPlace(s: Area, ch: seq<seq<int>>, n: nat, k: nat)
    requires Inv(s, ch) && n < |ch| && k <= |ch[n]|
    ensures LinkPlace(s, LinkOf(s.base + n, ch[n], k))
    ensures s.base <= LinkOf(s.base + n, ch[n], k) < s.igp
    ensures s.w[LinkOf(s.base + n, ch[n], k)] == At(ch[n], k)
  {
    var c := ch[n];
    assert IsChain(s.w, Banks(s), s.base + n, s.names[n], c);
    if k > 0 {
      assert c[k - 1] in Banks(s);
      assert k < |c| ==> s.w[c[k - 1] - INXT] == c[k];
    }
  }

  lemma ChainBank(s: Area, ch: seq<seq<int>>, n: nat, k: nat)
    requires Inv(s, ch) && n < |ch| && k < |ch[n]|
    ensures ch[n][k] in Banks(s) && s.w[ch[n][k]] >= 0 && s.w[ch[n][k] - INAM] == s.names[n]
    ensures IsChain(s.w, Banks(s), s.base + n, s.names[n], ch[n])
  {
  }

  /** Writing a link word and a length word leaves every other bank as it was. */
  lemma OthersKept(s: Area, w': seq<int>, l: int, x: int, z: int)
    requires Layout(s) && LinkPlace(s, l) && (x in Banks(s) || x >= s.igp)
    requires SameBelow(s.w, w', s.igp, l, x)
    requires z in Banks(s) && z != x && s.w[z] >= 0
    ensures Kept(s.w, w', z)
    ensures NHW <= z < |s.w| == |w'| && w'[z - INAM] == s.w[z - INAM] && w'[z - INR] == s.w[z - INR] && w'[z] == s.w[z]
    ensures z - INXT != l ==> SameHeader(s.w, w', z)
  {
    TilesApart(s.w, s.inm, s.igp);
    forall i | z - ICOL <= i <= z + s.w[z] && i != z - INXT
      ensures w'[i] == s.w[i]
    {
      if l + INXT in Banks(s) && l + INXT != z { }
    }
    assert w'[z + 1..z + 1 + s.w[z]] == s.w[z + 1..z + 1 + s.w[z]];
  }

  lemma LengthsKept(s: Area, w': seq<int>, l: int, x: int)
    requires Layout(s) && LinkPlace(s, l)
    requires SameBelow(s.w, w', s.igp, l, x)
    ensures forall z :: z in Banks(s) && z != x ==> w'[z] == s.w[z]
  {
    TilesApart(s.w, s.inm, s.igp);
  }

  /** A bank is on one chain only. */
  lemma OnOneChain(s: Area, ch: seq<seq<int>>, n: nat, m: nat, x: int)
    requires Inv(s, ch) && n < |ch| && m < |ch| && x in ch[n] && x in ch[m]
    ensures n == m
  {
    hide Tiles, Accounts, Inds, InSome;
    assert IsChain(s.w, Banks(s), s.base + n, s.names[n], ch[n]);
    assert IsChain(s.w, Banks(s), s.base + m, s.names[m], ch[m]);
  }

  lemma LinkOnChain(h: int, c: seq<int>, k: nat)
    requires k <= |c|
    ensures k > 0 ==> LinkOf(h, c, k) + INXT in c
  {
  }

  /** A chain that is not the one being relinked is still a chain. */
  lemma OtherChain(s: Area, ch: seq<seq<int>>, w': seq<int>, b': set<int>, n: nat, k: nat, x: int, m: nat)
    requires Inv(s, ch) && n < |ch| && k <= |ch[n]| && m < |ch| && m != n
    requires Banks(s) <= b'
    requires x in ch[n] || x >= s.igp
    requires SameBelow(s.w, w', s.igp, LinkOf(s.base + n, ch[n], k), x)
    ensures IsChain(w', b', s.base + m, s.names[m], ch[m])
  {
    hide Accounts, Tiles, Inds, SameBelow, LinkOf, Ascending, InSome, SameHeader, Kept, LinkPlace;
    var l := LinkOf(s.base + n, ch[n], k);
    LinkOfPlace(s, ch, n, k);
    OtherHead(s, ch, w', n, k, x, m);
    forall z | z in ch[m]
      ensures z in b' && SameHeader(s.w, w', z)
    {
      OtherHeader(s, ch, w', n, k, x, m, z);
    }
    ChainFrame(s.w, w', Banks(s), b', s.base + m, s.names[m], ch[m]);
  }

  lemma OtherHead(s: Area, ch: seq<seq<int>>, w': seq<int>, n: nat, k: nat, x: int, m: nat)
    requires Inv(s, ch) && n < |ch| && k <= |ch[n]| && m < |ch| && m != n && (x in ch[n] || x >= s.igp)
    requires SameBelow(s.w, w', s.igp, LinkOf(s.base + n, ch[n], k), x)
    ensures 0 <= s.base + m < |w'| == |s.w| && w'[s.base + m] == s.w[s.base + m]
    ensures IsChain(s.w, Banks(s), s.base + m, s.names[m], ch[m])
    ensures x in Banks(s) || x >= s.igp
  {
    hide Accounts, Tiles, InSome, Ascending, LinkPlace;
    LinkOfPlace(s, ch, n, k);
    assert IsChain(s.w, Banks(s), s.base + n, s.names[n], ch[n]);
    assert IsChain(s.w, Banks(s), s.base + m, s.names[m], ch[m]);
  }

  lemma OtherHeader(s: Area, ch: seq<seq<int>>, w': seq<int>, n: nat, k: nat, x: int, m: nat, z: int)
    requires Inv(s, ch) && n < |ch| && k <= |ch[n]| && m < |ch| && m != n && (x in ch[n] || x >= s.igp)
    requires SameBelow(s.w, w', s.igp, LinkOf(s.base + n, ch[n], k), x) && z in ch[m]
    ensures z in Banks(s) && SameHeader(s.w, w', z)
  {
    hide Accounts, Tiles, InSome, SameBelow, SameHeader, Kept;
    LinkOfPlace(s, ch, n, k);
    OtherHead(s, ch, w', n, k, x, m);
    var i :| 0 <= i < |ch[m]| && ch[m][i] == z;
    ChainBank(s, ch, m, i);
    if z in ch[n] { OnOneChain(s, ch, n, m, z); }
    LinkOnChain(s.base + n, ch[n], k);
    OthersKept(s, w', LinkOf(s.base + n, ch[n], k), x, z);
  }

  /** On its own chain, the write of link word and length word is a relinking. */
  lemma RelinkedAt(s: Area, ch: seq<seq<int>>, w': seq<int>, n: nat, k: nat, v: int, x: int, out: int)
    requires Inv(s, ch) && n < |ch| && k <= |ch[n]|
    requires SameBelow(s.w, w', s.igp, LinkOf(s.base + n, ch[n], k), x)
    requires if 0 <= out < |ch[n]| then x == ch[n][out] && out >= k else x >= s.igp
    requires 0 <= LinkOf(s.base + n, ch[n], k) < |w'| && w'[LinkOf(s.base + n, ch[n], k)] == v
    requires IsChain(s.w, Banks(s), s.base + n, s.names[n], ch[n])
    ensures Relinked(s.w, w', s.base + n, ch[n], k, v, out)
  {
    var c, h := ch[n], s.base + n;
    var l := LinkOf(h, c, k);
    LinkOfPlace(s, ch, n, k);
    assert x in c ==> 0 <= out < |c| && x == c[out];
    assert h < s.inm && (k > 0 ==> w'[h] == s.w[h]);
    hide Accounts, Tiles, Inds, Chained, Kept;
    forall z | z in c && z != x
      ensures h < z - INXT && w'[z] == s.w[z] && w'[z - INR] == s.w[z - INR] && w'[z - INAM] == s.w[z - INAM]
      ensures z - INXT != l ==> w'[z - INXT] == s.w[z - INXT]
    {
      OthersKept(s, w', l, x, z);
    }
    hide Layout;
    RelinkedFrom(s.w, w', h, c, k, v, x, out);
  }

  lemma RelinkedFrom(w: seq<int>, w': seq<int>, h: int, c: seq<int>, k: nat, v: int, x: int, out: int)
    requires (forall i :: 0 <= i < |c| ==> NHW <= c[i] < |w|) && 0 <= h < |w| == |w'| && k <= |c|
    requires Ascending(w, c)
    requires 0 <= LinkOf(h, c, k) < |w| && w'[LinkOf(h, c, k)] == v && (k > 0 ==> w'[h] == w[h])
    requires forall z :: z in c && z != x ==>
               && h < z - INXT && w'[z] == w[z] && w'[z - INR] == w[z - INR] && w'[z - INAM] == w[z - INAM]
               && (z - INXT != LinkOf(h, c, k) ==> w'[z - INXT] == w[z - INXT])
    requires if 0 <= out < |c| then x == c[out] && out >= k else x !in c
    ensures Relinked(w, w', h, c, k, v, out)
  {
    forall i | 0 <= i < |c| && i != out
      ensures c[i] in c && c[i] != x && (i != k - 1 ==> c[i] - INXT != LinkOf(h, c, k))
    {
      if 0 < k && i != k - 1 { assert w[c[i] - INR] != w[c[k - 1] - INR]; }
    }
  }

  /** Relinking a chain leaves the unused chain heads empty. */
  lemma UnusedHeads(s: Area, ch: seq<seq<int>>, w': seq<int>, n: nat, k: nat, x: int)
    requires Inv(s, ch) && n < |ch| && k <= |ch[n]| && (x in Banks(s) || x >= s.igp)
    requires SameBelow(s.w, w', s.igp, LinkOf(s.base + n, ch[n], k), x)
    ensures forall h :: s.base + |ch| <= h < s.base + s.cap ==> w'[h] == 0
  {
    assert IsChain(s.w, Banks(s), s.base + n, s.names[n], ch[n]);
  }

  lemma CoverInsert(ch: seq<seq<int>>, n: nat, k: nat, x: int, z: int)
    requires n < |ch| && k <= |ch[n]| && (z == x || InSome(ch, z))
    ensures InSome(ch[n := Insert(ch[n], k, x)], z)
  {
    var ch' := ch[n := Insert(ch[n], k, x)];
    if z == x {
      assert ch'[n][k] == x;
    } else {
      var m :| 0 <= m < |ch| && z in ch[m];
      var i :| 0 <= i < |ch[m]| && ch[m][i] == z;
      assert z in ch'[m] by {
        if m == n { assert ch'[n][if i < k then i else i + 1] == z; }
      }
    }
  }

  lemma CoverRemove(ch: seq<seq<int>>, n: nat, k: nat, z: int)
    requires n < |ch| && k < |ch[n]| && z != ch[n][k] && InSome(ch, z)
    ensures InSome(ch[n := Remove(ch[n], k)], z)
  {
    var ch' := ch[n := Remove(ch[n], k)];
    var m :| 0 <= m < |ch| && z in ch[m];
    var i :| 0 <= i < |ch[m]| && ch[m][i] == z;
    assert z in ch'[m] by {
      if m == n { assert ch'[n][if i < k then i else i - 1] == z; }
    }
  }

  /** The state after appending a bank of `nd` words at the gap. */
  ghost predicate Appended(s: Area, s': Area, c: seq<int>, h: int, k: nat, name: int, nd: int)
    requires k <= |c|
  {
    var x := s.igp + (NHW - 1);
    && nd >= 0 && s.igp + NHW + nd <= s.iwk
    && s' == s.(w := s'.w, igp := s.igp + NHW + nd)
    && 0 <= s.igp && x < |s.w|
    && SameBelow(s.w, s'.w, s.igp, LinkOf(h, c, k), x)
    && 0 <= LinkOf(h, c, k) < |s.w| && s'.w[LinkOf(h, c, k)] == x
    && s'.w[x] == nd && s'.w[x - INAM] == name && s'.w[x - INXT] == At(c, k)
  }

  lemma AppendTiles(s: Area, s': Area, c: seq<int>, h: int, k: nat, name: int, nd: int)
    requires Layout(s) && Accounts(s) && k <= |c| && LinkPlace(s, LinkOf(h, c, k))
    requires Appended(s, s', c, h, k, name, nd)
    ensures Layout(s') && Accounts(s')
    ensures Banks(s') == Banks(s) + {s.igp + (NHW - 1)}
    ensures forall z :: z in Banks(s) ==> s'.w[z] == s.w[z]
  {
    hide DropSum, At, LinkOf;
    LengthsKept(s, s'.w, LinkOf(h, c, k), s.igp + (NHW - 1));
    TilesAppend(s.w, s'.w, s.inm, s.igp, s'.igp);
  }

  /** A new bank of `nd` words at the gap, linked into its chain: the invariant holds. */
  lemma AppendBank(s: Area, s': Area, ch: seq<seq<int>>, n: nat, k: nat, nd: int)
    requires Inv(s, ch) && n < |ch| && k <= |ch[n]|
    requires Appended(s, s', ch[n], s.base + n, k, s.names[n], nd)
    requires FreeSlot(s.w, ch[n], s'.w[s.igp + (NHW - 1) - INR], k)
    ensures Inv(s', ch[n := Insert(ch[n], k, s.igp + (NHW - 1))])
  {
    hide IsChain, FreeSlot, Accounts, SameBelow, Tiles, Inds, InSome, LinkOf, Insert, At, Relinked, LinkPlace, Lowest;
    var x, c, h := s.igp + (NHW - 1), ch[n], s.base + n;
    var ch' := ch[n := Insert(c, k, x)];
    LinkOfPlace(s, ch, n, k);
    AppendTiles(s, s', c, h, k, s.names[n], nd);
    UnusedHeads(s, ch, s'.w, n, k, x);
    forall m | 0 <= m < |ch'|
      ensures IsChain(s'.w, Banks(s'), s.base + m, s.names[m], ch'[m])
    {
      if m != n {
        OtherChain(s, ch, s'.w, Banks(s'), n, k, x, m);
      } else {
        RelinkedAt(s, ch, s'.w, n, k, x, x, -1);
        ChainInsert(s.w, s'.w, Banks(s), h, s.names[n], c, k, x);
      }
    }
    forall z | z in Banks(s') && s'.w[z] >= 0
      ensures InSome(ch', z)
    {
      assert z != x ==> InSome(ch, z);
      CoverInsert(ch, n, k, x, z);
    }
  }


  /** The state after unlinking the `k`-th bank of a chain and marking it as dropped. */
  ghost predicate Removed(s: Area, s': Area, c: seq<int>, h: int, k: nat)
    requires k < |c| && 0 <= c[k] < |s.w|
  {
    var x := c[k];
    && s' == s.(w := s'.w, ndn := s.ndn + s.w[x] + NHW, ign := if s.ign < x then s.ign else x)
    && SameBelow(s.w, s'.w, s.igp, LinkOf(h, c, k), x)
    && 0 <= LinkOf(h, c, k) < |s.w| && s'.w[LinkOf(h, c, k)] == At(c, k + 1)
    && s'.w[x] == -(s.w[x] + NHW)
  }

  lemma MarkAccounts(s: Area, s': Area, l: int, x: int)
    requires Layout(s) && Accounts(s) && LinkPlace(s, l) && x in Banks(s) && s.w[x] >= 0
    requires s' == s.(w := s'.w, ndn := s.ndn + s.w[x] + NHW, ign := if s.ign < x then s.ign else x)
    requires SameBelow(s.w, s'.w, s.igp, l, x) && s'.w[x] == -(s.w[x] + NHW)
    ensures Layout(s') && Accounts(s') && Banks(s') == Banks(s)
    ensures forall z :: z in Banks(s) && z != x ==> s'.w[z] == s.w[z]
  {
    assert s.ign in Banks(s) || s.ign == s.njw;
    LengthsKept(s, s'.w, l, x);
    TilesMark(s.w, s'.w, s.inm, s.igp, x);
  }

  /** Unlinking a bank and marking it as dropped keeps the invariant. */
  lemma RemoveBank(s: Area, s': Area, ch: seq<seq<int>>, n: nat, k: nat)
    requires Inv(s, ch) && n < |ch| && k < |ch[n]|
    requires IsChain(s.w, Banks(s), s.base + n, s.names[n], ch[n])
    requires Removed(s, s', ch[n], s.base + n, k)
    ensures Inv(s', ch[n := Remove(ch[n], k)])
  {
    hide IsChain, FreeSlot, Accounts, SameBelow, Tiles, Inds, InSome, LinkOf, Remove, At, Relinked, LinkPlace, Lowest;
    var x, c, h := ch[n][k], ch[n], s.base + n;
    ChainBank(s, ch, n, k);
    var ch' := ch[n := Remove(c, k)];
    LinkOfPlace(s, ch, n, k);
    MarkAccounts(s, s', LinkOf(h, c, k), x);
    UnusedHeads(s, ch, s'.w, n, k, x);
    forall m | 0 <= m < |ch'|
      ensures IsChain(s'.w, Banks(s'), s.base + m, s.names[m], ch'[m])
    {
      if m != n {
        OtherChain(s, ch, s'.w, Banks(s'), n, k, x, m);
      } else {
        RelinkedAt(s, ch, s'.w, n, k, At(c, k + 1), x, k);
        ChainRemove(s.w, s'.w, Banks(s), h, s.names[n], c, k);
      }
    }
    forall z | z in Banks(s') && s'.w[z] >= 0
      ensures InSome(ch', z)
    {
      assert z != x && InSome(ch, z);
      CoverRemove(ch, n, k, z);
    }
  }

  /** Heads and live headers are the same, lengths excepted: the chains are the same. */
  ghost predicate SameLive(s: Area, s': Area)
    requires Layout(s) && Layout(s')
  {
    && s'.base == s.base && s'.cap == s.cap && s'.names == s.names && s'.inm == s.inm
    && (forall h :: s.base <= h < s.inm ==> s'.w[h] == s.w[h])
    && (forall z :: z in Banks(s) && s.w[z] >= 0 ==>
          && z in Banks(s') && s'.w[z] >= 0 && s'.w[z - INXT] == s.w[z - INXT]
          && s'.w[z - INR] == s.w[z - INR] && s'.w[z - INAM] == s.w[z - INAM])
    && (forall z :: z in Banks(s') && s'.w[z] >= 0 ==> z in Banks(s) && s.w[z] >= 0)
  }

  lemma SameLiveChain(s: Area, s': Area, ch: seq<seq<int>>, m: nat)
    requires Layout(s) && Chained(s, ch) && Layout(s') && SameLive(s, s') && m < |ch|
    ensures IsChain(s'.w, Banks(s'), s.base + m, s.names[m], ch[m])
  {
    hide Tiles, Inds, InSome;
    assert IsChain(s.w, Banks(s), s.base + m, s.names[m], ch[m]);
    ChainFrame(s.w, s'.w, Banks(s), Banks(s'), s.base + m, s.names[m], ch[m]);
  }

  lemma SameLiveChained(s: Area, s': Area, ch: seq<seq<int>>)
    requires Layout(s) && Chained(s, ch) && Layout(s') && SameLive(s, s')
    ensures Chained(s', ch)
  {
    hide IsChain, InSome, Tiles, Inds;
    forall m | 0 <= m < |ch|
      ensures IsChain(s'.w, Banks(s'), s.base + m, s.names[m], ch[m])
    {
      SameLiveChain(s, s', ch, m);
    }
    forall z | z in Banks(s') && s'.w[z] >= 0
      ensures InSome(ch, z)
    {
      assert InSome(ch, z);
    }
  }

  /** The invariant reads no word at or above the gap. */
  lemma InvFrame(s: Area, s': Area, ch: seq<seq<int>>)
    requires Inv(s, ch)
    requires s' == s.(w := s'.w, iwk := s'.iwk) && s.igp <= s'.iwk <= s.njw && |s'.w| == |s.w|
    requires forall i :: s.base <= i < s.igp ==> s'.w[i] == s.w[i]
    ensures Inv(s', ch)
  {
    hide IsChain, InSome, Chained;
    TilesFrame(s.w, s'.w, s.inm, s.igp);
    SameLiveChained(s, s', ch);
  }

  /** Bank `x` alone changes its length; the words of the shorter of the two lengths stay. */
  ghost predicate Resized(s: Area, w': seq<int>, x: int)
    requires Layout(s)
  {
    && |w'| == |s.w| && x in Banks(s) && s.w[x] >= 0 && w'[x] >= 0
    && (forall i :: 0 <= i < x ==> w'[i] == s.w[i])
    && (forall i :: x < i < |s.w| && i <= x + s.w[x] && i <= x + w'[x] ==> w'[i] == s.w[i])
    && (forall i :: x + s.w[x] < i < s.igp && i < |s.w| ==> w'[i] == s.w[i])
  }

  /** The last bank gets another length. */
  lemma ResizeLast(s: Area, s': Area, ch: seq<seq<int>>, x: int)
    requires Inv(s, ch) && Resized(s, s'.w, x)
    requires x + 1 + s.w[x] == s.igp && x + 1 + s'.w[x] <= s.iwk
    requires s' == s.(w := s'.w, igp := x + 1 + s'.w[x])
    ensures Inv(s', ch)
  {
    hide IsChain, InSome, Chained;
    assert forall z :: z in Banks(s) ==> z <= x by {
      TilesApart(s.w, s.inm, s.igp);
    }
    TilesLast(s.w, s'.w, s.inm, s.igp, x, s'.igp);
    SameLiveChained(s, s', ch);
  }

  /** The state after bank `x` shrank in place and left a dropped bank behind it. */
  ghost predicate Holed(s: Area, s': Area, x: int, nd: int)
    requires Layout(s)
  {
    var y := x + nd + NHW;
    && x in Banks(s) && 0 <= nd && 0 <= x < y < |s.w| && nd + NHW <= s.w[x]
    && s' == s.(w := s.w[x := nd][y := nd - s.w[x]], ndn := s.ndn + s.w[x] - nd,
                ign := if s.ign < y then s.ign else y)
  }

  lemma HoleAccounts(s: Area, s': Area, x: int, nd: int)
    requires Layout(s) && Accounts(s) && Holed(s, s', x, nd)
    ensures Layout(s') && Accounts(s') && Banks(s') == Banks(s) + {x + nd + NHW}
  {
    hide DropSum;
    var y := x + nd + NHW;
    assert forall z :: z in Banks(s) ==> z != y by {
      TilesApart(s.w, s.inm, s.igp);
    }
    TilesHole(s.w, s'.w, s.inm, s.igp, x, y);
  }

  lemma ResizeWithHole(s: Area, s': Area, ch: seq<seq<int>>, x: int, nd: int)
    requires Inv(s, ch) && Holed(s, s', x, nd)
    ensures Inv(s', ch)
  {
    hide IsChain, InSome, Chained, Accounts, Tiles;
    HoleAccounts(s, s', x, nd);
    assert forall z :: z in Banks(s) && z != x ==> z < x || z - NHW >= x + nd + NHW by {
      TilesApart(s.w, s.inm, s.igp);
    }
    SameLiveChained(s, s', ch);
  }

  /** A trailing run of dropped banks is given back to the gap. */
  lemma Truncate(s: Area, s': Area, ch: seq<seq<int>>, q: int)
    requires Inv(s, ch) && s.inm <= q <= s.igp
    requires Tiles(s.w, s.inm, q) && Tiles(s.w, q, s.igp) && DropSum(s.w, q, s.igp) == s.igp - q
    requires s' == s.(igp := q, ndn := s.ndn - (s.igp - q), ign := if s.ign < q then s.ign else s.njw)
    ensures Inv(s', ch)
  {
    hide IsChain, InSome, Chained;
    TilesConcat(s.w, s.inm, q, s.igp);
    DropSumBounds(s.w, q, s.igp);
    SameLiveChained(s, s', ch);
  }

  // ---- What the changes mean ---------------------------------------------------------------

  lemma ViewSorted(w: seq<int>, b: set<int>, h: int, name: int, c: seq<int>)
    requires IsChain(w, b, h, name, c) && AllHold(w, c)
    ensures Sorted(View(w, c))
  {
  }

  /** Only the chain of the n-th name means something else. */
  lemma MeaningAt(w: seq<int>, ch: seq<seq<int>>, w': seq<int>, ch': seq<seq<int>>, n: nat)
    requires Meaningful(w, ch) && n < |ch| == |ch'|
    requires forall m :: 0 <= m < |ch| && m != n ==> ch'[m] == ch[m] && forall x :: x in ch[m] ==> Kept(w, w', x)
    requires AllHold(w', ch'[n])
    ensures Meaningful(w', ch') && Meaning(w', ch') == Meaning(w, ch)[n := View(w', ch'[n])]
  {
    hide Holds, BankAt;
    forall m | 0 <= m < |ch| && m != n
      ensures AllHold(w', ch'[m]) && View(w', ch'[m]) == View(w, ch[m])
    {
      forall i | 0 <= i < |ch[m]| ensures Kept(w, w', ch[m][i]) {
        assert ch[m][i] in ch[m];
      }
    }
  }

  lemma ViewInsert(w: seq<int>, w': seq<int>, c: seq<int>, k: nat, x: int)
    requires AllHold(w, c) && k <= |c| && Holds(w', x) && forall y :: y in c ==> Kept(w, w', y)
    ensures AllHold(w', Insert(c, k, x))
    ensures View(w', Insert(c, k, x)) == Insert(View(w, c), k, BankAt(w', x))
  {
    hide Holds, BankAt;
    forall i | 0 <= i < |c| ensures Kept(w, w', c[i]) {
      assert c[i] in c;
    }
  }

  lemma ViewRemove(w: seq<int>, w': seq<int>, c: seq<int>, k: nat)
    requires AllHold(w, c) && k < |c| && forall i :: 0 <= i < |c| && i != k ==> Kept(w, w', c[i])
    ensures AllHold(w', Remove(c, k))
    ensures View(w', Remove(c, k)) == Remove(View(w, c), k)
  {
    hide Holds, BankAt;
    var c' := Remove(c, k);
    forall i | 0 <= i < |c'| ensures Kept(w, w', c'[i]) && View(w, c)[if i < k then i else i + 1] == BankAt(w, c'[i]) {
      assert c'[i] == c[if i < k then i else i + 1];
    }
  }

  /** Every bank of the chains other than `x` means the same in `w'`. */
  ghost predicate KeptBut(w: seq<int>, w': seq<int>, ch: seq<seq<int>>, x: int) {
    forall m, i :: 0 <= m < |ch| && 0 <= i < |ch[m]| && ch[m][i] != x ==> Kept(w, w', ch[m][i])
  }

  /** No element of the chains but the `k`-th of the `n`-th is `x`. */
  ghost predicate OnlyAt(ch: seq<seq<int>>, n: nat, k: nat, x: int) {
    forall m, i :: 0 <= m < |ch| && 0 <= i < |ch[m]| && ch[m][i] == x ==> m == n && i == k
  }

  lemma MeaningInsert(w: seq<int>, w': seq<int>, ch: seq<seq<int>>, n: nat, k: nat, x: int)
    requires Meaningful(w, ch) && n < |ch| && k <= |ch[n]| && Holds(w', x)
    requires KeptBut(w, w', ch, x) && OnlyAt(ch, n, |ch[n]|, x)
    requires Sorted(View(w, ch[n]))
    requires forall i :: 0 <= i < k ==> View(w, ch[n])[i].nr < BankAt(w', x).nr
    requires forall i :: k <= i < |ch[n]| ==> View(w, ch[n])[i].nr > BankAt(w', x).nr
    ensures Meaningful(w', ch[n := Insert(ch[n], k, x)])
    ensures Meaning(w', ch[n := Insert(ch[n], k, x)]) == Meaning(w, ch)[n := Put(Meaning(w, ch)[n], BankAt(w', x))]
  {
    hide Holds, BankAt, Kept, Sorted, Put;
    ViewInsert(w, w', ch[n], k, x);
    MeaningAt(w, ch, w', ch[n := Insert(ch[n], k, x)], n);
    PutInsert(View(w, ch[n]), k, BankAt(w', x));
  }

  lemma MeaningDelete(w: seq<int>, w': seq<int>, ch: seq<seq<int>>, n: nat, k: nat, nr: int)
    requires Meaningful(w, ch) && n < |ch| && k < |ch[n]|
    requires KeptBut(w, w', ch, ch[n][k]) && OnlyAt(ch, n, k, ch[n][k])
    requires Sorted(View(w, ch[n])) && View(w, ch[n])[k].nr == nr
    ensures Meaningful(w', ch[n := Remove(ch[n], k)])
    ensures Meaning(w', ch[n := Remove(ch[n], k)]) == Meaning(w, ch)[n := Delete(Meaning(w, ch)[n], nr)]
  {
    hide Holds, BankAt, Kept, Sorted, Delete;
    ViewRemove(w, w', ch[n], k);
    MeaningAt(w, ch, w', ch[n := Remove(ch[n], k)], n);
    DeleteRemove(View(w, ch[n]), k, nr);
  }

  lemma MeaningReplace(w: seq<int>, w': seq<int>, ch: seq<seq<int>>, n: nat, k: nat)
    requires Meaningful(w, ch) && n < |ch| && k < |ch[n]| && Holds(w', ch[n][k])
    requires KeptBut(w, w', ch, ch[n][k]) && OnlyAt(ch, n, k, ch[n][k])
    requires Sorted(View(w, ch[n])) && View(w, ch[n])[k].nr == BankAt(w', ch[n][k]).nr
    ensures Meaningful(w', ch)
    ensures Meaning(w', ch) == Meaning(w, ch)[n := Put(Meaning(w, ch)[n], BankAt(w', ch[n][k]))]
  {
    hide Holds, BankAt, Sorted, Put;
    PutReplace(View(w, ch[n]), k, BankAt(w', ch[n][k]));
    assert AllHold(w', ch[n]) && View(w', ch[n]) == View(w, ch[n])[k := BankAt(w', ch[n][k])];
    MeaningAt(w, ch, w', ch, n);
  }

  lemma BankOnlyAt(s: Area, ch: seq<seq<int>>, n: nat, k: nat)
    requires Inv(s, ch) && n < |ch| && k < |ch[n]|
    ensures OnlyAt(ch, n, k, ch[n][k])
  {
    hide Tiles, Inds, InSome, Accounts;
    forall m, i | 0 <= m < |ch| && 0 <= i < |ch[m]| && ch[m][i] == ch[n][k]
      ensures m == n && i == k
    {
      assert ch[n][k] in ch[n] && ch[n][k] in ch[m];
      OnOneChain(s, ch, n, m, ch[n][k]);
      ChainBank(s, ch, n, k);
      DistinctElements(s.w, ch[n], i, k);
    }
  }

  /** The list of a name: sorted, and with the numbers of the chain's banks. */
  lemma ListOf(s: Area, ch: seq<seq<int>>, n: nat)
    requires Inv(s, ch) && n < |ch|
    ensures Meaningful(s.w, ch) && Sorted(Meaning(s.w, ch)[n])
    ensures forall i :: 0 <= i < |ch[n]| ==> NHW <= ch[n][i] < |s.w| && Meaning(s.w, ch)[n][i].nr == s.w[ch[n][i] - INR]
  {
    hide Tiles, Inds, InSome, Accounts;
    InvMeaningful(s, ch);
    assert IsChain(s.w, Banks(s), s.base + n, s.names[n], ch[n]);
    ViewSorted(s.w, Banks(s), s.base + n, s.names[n], ch[n]);
  }

  lemma WriteKeptBut(s: Area, ch: seq<seq<int>>, w': seq<int>, l: int, x: int)
    requires Inv(s, ch) && LinkPlace(s, l) && (x in Banks(s) || x >= s.igp)
    requires SameBelow(s.w, w', s.igp, l, x)
    ensures KeptBut(s.w, w', ch, x)
  {
    hide Tiles, Inds, InSome, Accounts, Kept, SameBelow, LinkPlace;
    forall m, i | 0 <= m < |ch| && 0 <= i < |ch[m]| && ch[m][i] != x
      ensures Kept(s.w, w', ch[m][i])
    {
      ChainBank(s, ch, m, i);
      OthersKept(s, w', l, x, ch[m][i]);
    }
  }

  lemma AppendedHolds(s: Area, s': Area, c: seq<int>, h: int, k: nat, name: int, nd: int)
    requires Layout(s) && k <= |c| && Appended(s, s', c, h, k, name, nd)
    ensures Holds(s'.w, s.igp + (NHW - 1))
    ensures BankAt(s'.w, s.igp + (NHW - 1)).nr == s'.w[s.igp + (NHW - 1) - INR]
  {
  }

  lemma ChainSlot(s: Area, ch: seq<seq<int>>, n: nat, k: nat, nr: int)
    requires Inv(s, ch) && n < |ch| && FreeSlot(s.w, ch[n], nr, k)
    ensures Meaningful(s.w, ch)
    ensures forall i :: 0 <= i < k ==> Meaning(s.w, ch)[n][i].nr < nr
    ensures forall i :: k <= i < |ch[n]| ==> Meaning(s.w, ch)[n][i].nr > nr
  {
    hide Tiles, Inds, InSome, Accounts;
    InvMeaningful(s, ch);
    assert IsChain(s.w, Banks(s), s.base + n, s.names[n], ch[n]);
    SlotNumbers(s.w, ch[n], k, nr);
  }

  /** The n-th list has bank `b` put in; all other lists are the same. */
  ghost predicate PutInList(w: seq<int>, ch: seq<seq<int>>, w': seq<int>, ch': seq<seq<int>>, n: nat, b: Bank) {
    && Meaningful(w, ch) && Meaningful(w', ch') && n < |ch|
    && Meaning(w', ch') == Meaning(w, ch)[n := Put(Meaning(w, ch)[n], b)]
  }

  /** Appending a bank puts it into the list of its name. */
  lemma AppendMeaning(s: Area, s': Area, ch: seq<seq<int>>, n: nat, k: nat, nd: int)
    requires Inv(s, ch) && n < |ch| && k <= |ch[n]|
    requires Appended(s, s', ch[n], s.base + n, k, s.names[n], nd)
    requires FreeSlot(s.w, ch[n], s'.w[s.igp + (NHW - 1) - INR], k)
    ensures Holds(s'.w, s.igp + (NHW - 1)) && BankAt(s'.w, s.igp + (NHW - 1)).nr == s'.w[s.igp + (NHW - 1) - INR]
    ensures PutInList(s.w, ch, s'.w, ch[n := Insert(ch[n], k, s.igp + (NHW - 1))], n, BankAt(s'.w, s.igp + (NHW - 1)))
  {
    hide Tiles, Inds, InSome, Accounts, Kept, SameBelow, Meaning, Put, Insert, Sorted, FreeSlot, Holds, BankAt;
    var x := s.igp + (NHW - 1);
    AppendedHolds(s, s', ch[n], s.base + n, k, s.names[n], nd);
    ListOf(s, ch, n);
    LinkOfPlace(s, ch, n, k);
    WriteKeptBut(s, ch, s'.w, LinkOf(s.base + n, ch[n], k), x);
    ChainBelow(s, ch);
    ChainSlot(s, ch, n, k, s'.w[x - INR]);
    MeaningInsert(s.w, s'.w, ch, n, k, x);
  }

  lemma ChainBelow(s: Area, ch: seq<seq<int>>)
    requires Inv(s, ch)
    ensures forall m, i :: 0 <= m < |ch| && 0 <= i < |ch[m]| ==> s.inm < ch[m][i] < s.igp
  {
    hide Tiles, InSome, Accounts;
    forall m, i | 0 <= m < |ch| && 0 <= i < |ch[m]|
      ensures s.inm < ch[m][i] < s.igp
    {
      ChainBank(s, ch, m, i);
    }
  }

  lemma SlotNumbers(w: seq<int>, c: seq<int>, k: nat, nr: int)
    requires AllHold(w, c) && Ascending(w, c) && FreeSlot(w, c, nr, k)
    ensures forall i :: 0 <= i < k ==> View(w, c)[i].nr < nr
    ensures forall i :: k <= i < |c| ==> View(w, c)[i].nr > nr
  {
    forall i | k <= i < |c| ensures View(w, c)[i].nr > nr {
      if k < i { assert w[c[k] - INR] < w[c[i] - INR]; }
    }
  }

  /** A bank with the same number but another shape or data: it is put back into its list. */
  lemma ReplaceMeaning(s: Area, w': seq<int>, ch: seq<seq<int>>, n: nat, k: nat)
    requires Inv(s, ch) && n < |ch| && k < |ch[n]| && |w'| == |s.w|
    requires Holds(w', ch[n][k]) && w'[ch[n][k] - INR] == s.w[ch[n][k] - INR]
    requires KeptBut(s.w, w', ch, ch[n][k])
    ensures Meaningful(s.w, ch) && Meaningful(w', ch)
    ensures Meaning(w', ch) == Meaning(s.w, ch)[n := Put(Meaning(s.w, ch)[n], BankAt(w', ch[n][k]))]
  {
    hide Tiles, Inds, InSome, Accounts, Kept, Put, Sorted, IsChain;
    ListOf(s, ch, n);
    BankOnlyAt(s, ch, n, k);
    MeaningReplace(s.w, w', ch, n, k);
  }

  lemma SameMeaning(w: seq<int>, ch: seq<seq<int>>, w': seq<int>, ch': seq<seq<int>>)
    requires |ch| == |ch'| && forall n :: 0 <= n < |ch| ==> |ch[n]| == |ch'[n]|
    requires forall n, i :: 0 <= n < |ch| && 0 <= i < |ch[n]| ==>
               Holds(w, ch[n][i]) && Holds(w', ch'[n][i]) && BankAt(w', ch'[n][i]) == BankAt(w, ch[n][i])
    ensures Meaningful(w, ch) && Meaningful(w', ch') && Meaning(w', ch') == Meaning(w, ch)
  {
    forall n | 0 <= n < |ch|
      ensures View(w', ch'[n]) == View(w, ch[n])
    {
    }
  }
}
