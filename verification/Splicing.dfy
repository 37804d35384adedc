/**
 bosins (bosread.c): the words of the +REC bank become ordinary banks where they are.

 While this goes on, the array is looked at with +REC empty and the named area ending at
 `next`; what follows up to the end of +REC is the part of the record still to be taken over.
 */
module Splicing {
  import opened BankLayout
  import opened Chains
  import opened Directory
  import opened NamedArea
  import opened WorkArea
  import opened LinkTables
  import opened BosArrays
  import opened Dropping
  import opened Creating
  import opened Records

  // ---- What each change of the array means ---------------------------------------------------

  /** The record bank, last in the area, seen as empty. */
  lemma SeeRecord(v: Snapshot, ch: seq<seq<int>>, rn: nat, rk: nat)
    requires Sound(v, ch) && rn < |ch| && rk < |ch[rn]|
    requires Holds(v.a.w, ch[rn][rk]) && ch[rn][rk] + 1 + v.a.w[ch[rn][rk]] == v.a.igp
    ensures var x := ch[rn][rk];
            ListPut(v, ch, v.(a := v.a.(w := v.a.w[x := 0], igp := x + 1)), ch, rn, BankAt(v.a.w, x).(data := []))
  {
    hide Sound, ListPut;
    var x := ch[rn][rk];
    InvBoundsOf(v, ch);
    LengthSound(v, ch, v.a.w[x := 0], rn, rk, 0, false);
    assert BankAt(v.a.w[x := 0], x) == BankAt(v.a.w, x).(data := []);
  }

  lemma InvBoundsOf(v: Snapshot, ch: seq<seq<int>>)
    requires Sound(v, ch)
    ensures 0 < v.a.base <= v.a.inm <= v.a.igp <= v.a.iwk <= v.a.njw && |v.a.w| == v.a.njw + 1
  {
  }

  /** Words of the gap do not matter. */
  lemma GapSound(v: Snapshot, ch: seq<seq<int>>, w': seq<int>)
    requires Sound(v, ch) && |w'| == |v.a.w|
    requires forall i :: 0 <= i < |w'| && (i < v.a.igp || v.a.iwk <= i) ==> w'[i] == v.a.w[i]
    ensures Sound(v.(a := v.a.(w := w')), ch) && Listing(v.(a := v.a.(w := w')), ch) == Listing(v, ch)
  {
    hide WInv, Links, Accounts, Chained, Tiles;
    var a, s0 := v.a.(w := w'), v.a.(iwk := v.a.igp);
    InvFrame(v.a, a, ch);
    InvFrame(v.a, s0, ch);
    assert w'[..s0.iwk] == v.a.w[..s0.iwk];
    SameListing(s0, w', ch);
    forall m, i | 0 <= m < |ch| && 0 <= i < |ch[m]|
      ensures INR <= ch[m][i] < |v.a.w| && a.w[ch[m][i] - INR] == v.a.w[ch[m][i] - INR]
    {
      ChainBank(v.a, ch, m, i);
    }
    SameChainsSound(v, a, ch);
  }

  /** The last bank takes in the `nd` words that follow it. */
  ghost predicate TakenIn(s: Area, w': seq<int>, x: int, nd: int) {
    && Holds(s.w, x) && x + 1 + s.w[x] == s.igp && 0 <= nd && s.igp + nd <= s.iwk
    && |w'| == |s.w| && w'[x] == s.w[x] + nd
    && (forall i :: 0 <= i < |w'| && i != x && (i < s.igp || s.iwk <= i) ==> w'[i] == s.w[i])
  }

  lemma TakenInBank(s: Area, w': seq<int>, x: int, nd: int)
    requires TakenIn(s, w', x, nd) && s.iwk <= |s.w|
    ensures Holds(w', x) && s.igp >= 0
    ensures BankAt(w', x) == BankAt(s.w, x).(data := BankAt(s.w, x).data + w'[s.igp..s.igp + nd])
  {
    assert w'[x + 1..s.igp] == s.w[x + 1..s.igp];
    assert w'[x + 1..s.igp + nd] == w'[x + 1..s.igp] + w'[s.igp..s.igp + nd];
  }

  lemma MergeSound(v: Snapshot, ch: seq<seq<int>>, w': seq<int>, n: nat, k: nat, nd: int)
    requires Sound(v, ch) && n < |ch| && k < |ch[n]| && TakenIn(v.a, w', ch[n][k], nd)
    ensures Holds(w', ch[n][k]) && 0 <= v.a.igp <= v.a.igp + nd <= |w'|
    ensures BankAt(w', ch[n][k]) == BankAt(v.a.w,
        ch[n][k]).(data := BankAt(v.a.w, ch[n][k]).data + w'[v.a.igp..v.a.igp + nd])
    ensures ListPut(v, ch, v.(a := v.a.(w := w', igp := v.a.igp + nd)), ch, n, BankAt(w', ch[n][k]))
  {
    hide Sound, Listing, Put, BankAt;
    var x := ch[n][k];
    InvBoundsOf(v, ch);
    TakenInBank(v.a, w', x, nd);
    var w1 := w'[x := v.a.w[x]];
    GapSound(v, ch, w1);
    LengthSound(v.(a := v.a.(w := w1)), ch, w', n, k, v.a.w[x] + nd, false);
  }

  /** The words at the end of the area, entered into a chain, are a bank of its list. */
  ghost predicate Entered(v: Snapshot, ch: seq<seq<int>>, w': seq<int>, n: nat, k: nat, f: Frag) {
    var l, y, e := LinkOfOr(v.a.base + n, ch, n, k), v.a.igp + (NHW - 1), v.a.igp + NHW + |f.bank.data|;
    && f.n == n < |ch| == |v.a.names| && k <= |ch[n]|
    && 0 <= l < v.a.igp && e <= v.a.iwk <= |v.a.w|
    && v.a.w[v.a.igp..e] == Words(v.a.base, v.a.names, f)
    && w' == v.a.w[l := y][y - INXT := At(ch[n], k)]
  }

  function LinkOfOr(h: int, ch: seq<seq<int>>, n: nat, k: nat): int {
    if n < |ch| && k <= |ch[n]| then LinkOf(h, ch[n], k) else 0
  }

  lemma EnteredBank(v: Snapshot, ch: seq<seq<int>>, w': seq<int>, n: nat, k: nat, f: Frag)
    requires Entered(v, ch, w', n, k, f)
    ensures var y := v.a.igp + (NHW - 1);
            && Holds(w', y) && BankAt(w', y) == f.bank && w'[y - INAM] == v.a.names[n] && w'[y - INR] == f.bank.nr
            && w'[y] == |f.bank.data|
  {
    hide LinkOfOr, At;
    EnteredWords(v.a.w, w', v.a.igp, LinkOfOr(v.a.base + n, ch, n, k), At(ch[n], k), v.a.base, v.a.names, f);
  }

  lemma EnteredWords(w: seq<int>, w': seq<int>, p: int, l: int, u: int, base: int, names: seq<int>, f: Frag)
    requires 0 <= l < p && p + NHW + |f.bank.data| <= |w| && f.n < |names|
    requires w[p..p + NHW + |f.bank.data|] == Words(base, names, f)
    requires w' == w[l := p + (NHW - 1)][p + (NHW - 1) - INXT := u]
    ensures var y := p + (NHW - 1);
            && Holds(w', y) && BankAt(w', y) == f.bank && w'[y - INAM] == names[f.n] && w'[y - INR] == f.bank.nr
            && w'[y] == |f.bank.data|
  {
    var y, g := p + (NHW - 1), w[p..p + NHW + |f.bank.data|];
    assert w[p] == g[0] && w[p + 1] == g[1] && w[p + 2] == g[2] && w[p + 3] == g[3] && w[p + 5] == g[5];
    assert w'[y + 1..y + 1 + w'[y]] == g[NHW..] == f.bank.data;
  }

  lemma InsertSound(v: Snapshot, ch: seq<seq<int>>, w': seq<int>, n: nat, k: nat, f: Frag, v': Snapshot,
                    ch': seq<seq<int>>)
    requires Sound(v, ch) && Entered(v, ch, w', n, k, f)
    requires FreeSlot(v.a.w, ch[n], f.bank.nr, k) && NoTable(v.a.w, v.idl + 1 + n)
    requires v' == v.(a := v.a.(w := w', igp := v.a.igp + NHW + |f.bank.data|))
    requires ch' == ch[n := Insert(ch[n], k, v.a.igp + (NHW - 1))]
    ensures ListPut(v, ch, v', ch', n, f.bank) && Ends(v', ch', n, k, v.a.igp + (NHW - 1), f)
  {
    hide Sound, ListPut, BankAt, Insert, FreeSlot, LinkOf, Appended, Settled;
    EnteredBank(v, ch, w', n, k, f);
    AddTouches(v, ch, n, k);
    EnteredAppends(v, ch, w', n, k, f);
    EnteredSettles(v, ch, w', n, k, f);
    NewBankSound(v, v'.a, ch, n, k, |f.bank.data|);
    InsertedAt(ch, n, k, v.a.igp + (NHW - 1));
  }

  lemma EnteredAppends(v: Snapshot, ch: seq<seq<int>>, w': seq<int>, n: nat, k: nat, f: Frag)
    requires Entered(v, ch, w', n, k, f)
    ensures Appended(v.a, v.a.(w := w', igp := v.a.igp + NHW + |f.bank.data|), ch[n], v.a.base + n, k, v.a.names[n],
        |f.bank.data|)
  {
    hide LinkOf, Words, At;
    EnteredBank(v, ch, w', n, k, f);
  }

  lemma EnteredSettles(v: Snapshot, ch: seq<seq<int>>, w': seq<int>, n: nat, k: nat, f: Frag)
    requires Entered(v, ch, w', n, k, f) && NoTable(v.a.w, v.idl + 1 + n) && v.a.base <= LinkOf(v.a.base + n, ch[n], k)
    ensures Settled(v.a.w, w', v.a.base, v.a.iwk, v.idl + 1 + n)
  {
    hide LinkOf, Words, At;
  }

  // ---- Between two fragments ---------------------------------------------------------------------

  ghost predicate Foreign(names: seq<int>, rn: nat, fs: seq<Frag>) {
    forall i :: 0 <= i < |fs| ==> fs[i].n < |names| && fs[i].n != rn
  }

  /** No name of the record has a table of its chain. */
  ghost predicate Untabled(w: seq<int>, idl: int, fs: seq<Frag>) {
    forall i :: 0 <= i < |fs| ==> NoTable(w, idl + 1 + fs[i].n)
  }

  /**
   The array `w`, seen as `v`, with `ntot` words of the record left and `nsft` words given up
   by fragments that were joined to their predecessors.
   */
  ghost predicate Underway(v: Snapshot, ch: seq<seq<int>>, w: seq<int>, ird: int, ntot: int, nsft: int,
                           rn: nat, rk: nat, rest: seq<Frag>) {
    && Sound(v, ch) && |ch| == |v.a.names|
    && 0 < ird < |w| && v.a.w == w[ird := 0] && ird < v.a.igp
    && 0 <= ntot && 0 <= nsft && ird + 1 + w[ird] == v.a.igp + ntot + nsft <= v.a.iwk < |w|
    && rn < |ch| && rk < |ch[rn]| && ird == ch[rn][rk]
    && Foreign(v.a.names, rn, rest) && Untabled(v.a.w, v.idl, rest)
    && w[v.a.igp..v.a.igp + ntot] == Flat(v.a.base, v.a.names, rest)
  }

  /** The words at `p` are those of fragment `f`. */
  ghost predicate FragmentAt(w: seq<int>, p: int, base: int, names: seq<int>, f: Frag) {
    var e := NHW + |f.bank.data|;
    && 0 < p && p + e <= |w| && f.n < |names|
    && w[p..p + e] == Words(base, names, f) && w[p + NHW..p + e] == f.bank.data
    && w[p + 5] == |f.bank.data| && w[p + 4] == base + f.n && w[p + 3] == f.bank.nr && w[p + 2] == names[f.n]
  }

  lemma FlatPieces(w: seq<int>, p: int, t: int, base: int, names: seq<int>, fs: seq<Frag>)
    requires 0 < p <= p + t <= |w| && Named(names, fs) && w[p..p + t] == Flat(base, names, fs)
    ensures t == 0 <==> fs == []
    ensures fs != [] ==>
              var e := NHW + |fs[0].bank.data|;
              && e <= t && FragmentAt(w, p, base, names, fs[0])
              && Named(names, fs[1..]) && w[p + e..p + t] == Flat(base, names, fs[1..])
  {
    if fs != [] {
      hide Flat, Words;
      var r, f, e := w[p..p + t], fs[0], NHW + |fs[0].bank.data|;
      FlatFirst(base, names, fs);
      var g := Words(base, names, f);
      WordsOf(base, names, f);
      assert r[..e] == g && r[e..] == Flat(base, names, fs[1..]);
      assert w[p..p + e] == r[..e] && w[p + e..p + t] == r[e..] && w[p + NHW..p + e] == r[..e][NHW..];
      assert w[p + 5] == g[5] && w[p + 4] == g[4] && w[p + 2] == g[2] && w[p + 3] == g[3];
    }
  }

  lemma WordsOf(base: int, names: seq<int>, f: Frag)
    requires f.n < |names|
    ensures var g := Words(base, names, f);
            g[5] == |f.bank.data| && g[4] == base + f.n && g[2] == names[f.n] && g[3] == f.bank.nr
                && g[NHW..] == f.bank.data
  {
  }

  /** The next fragment of the record lies at the end of the area, the others behind it. */
  lemma FirstFragment(v: Snapshot, ch: seq<seq<int>>, w: seq<int>, ird: int, ntot: int, nsft: int,
                      rn: nat, rk: nat, rest: seq<Frag>)
    requires Underway(v, ch, w, ird, ntot, nsft, rn, rk, rest)
    ensures ntot == 0 <==> rest == []
    ensures 0 < v.a.base <= v.a.inm <= v.a.igp <= v.a.igp + ntot <= v.a.iwk < |w| == |v.a.w| && w[ird] >= 0
    ensures rest != [] ==>
              var f, e := rest[0], NHW + |rest[0].bank.data|;
              && e <= ntot && f.n < |ch| && f.n != rn
              && FragmentAt(w, v.a.igp, v.a.base, v.a.names, f) && FragmentAt(v.a.w, v.a.igp, v.a.base, v.a.names, f)
              && w[v.a.igp + e..v.a.igp + ntot] == Flat(v.a.base, v.a.names, rest[1..])
              && Foreign(v.a.names, rn, rest[1..]) && Untabled(v.a.w, v.idl, rest[1..])
              && NoTable(v.a.w, v.idl + 1 + f.n)
  {
    hide Sound, Words, Flat, FragmentAt, NoTable;
    InvBoundsOf(v, ch);
    FlatPieces(w, v.a.igp, ntot, v.a.base, v.a.names, rest);
    if rest != [] {
      FragmentKept(w, v.a.w, v.a.igp, v.a.base, v.a.names, rest[0]);
    }
  }

  lemma FragmentKept(w: seq<int>, w': seq<int>, p: int, base: int, names: seq<int>, f: Frag)
    requires FragmentAt(w, p, base, names, f) && |w'| == |w| && forall i :: p <= i < |w| && 0 <= i ==> w'[i] == w[i]
    ensures FragmentAt(w', p, base, names, f)
  {
    var e := NHW + |f.bank.data|;
    assert w'[p..p + e] == w[p..p + e] && w'[p + NHW..p + e] == w[p + NHW..p + e];
  }

  lemma LinkNotRecord(v: Snapshot, ch: seq<seq<int>>, rn: nat, rk: nat, n: nat, k: nat)
    requires Sound(v, ch) && rn < |ch| && rk < |ch[rn]| && n < |ch| && k <= |ch[n]|
    ensures LinkOf(v.a.base + n, ch[n], k) != ch[rn][rk]
    ensures v.a.base <= LinkOf(v.a.base + n, ch[n], k) < v.a.igp
    ensures v.a.w[LinkOf(v.a.base + n, ch[n], k)] == At(ch[n], k)
  {
    hide WInv, Links, InSome, Accounts;
    ChainBank(v.a, ch, rn, rk);
    LinkOfPlace(v.a, ch, n, k);
    TilesApart(v.a.w, v.a.inm, v.a.igp);
  }

  /** Entering the first fragment of the rest into its chain. */
  lemma InsertUnderway(v: Snapshot, ch: seq<seq<int>>, w: seq<int>, ird: int, ntot: int, nsft: int, rn: nat, rk: nat,
                       rest: seq<Frag>, n: nat, k: nat, w': seq<int>, v': Snapshot, ch': seq<seq<int>>)
    requires Underway(v, ch, w, ird, ntot, nsft, rn, rk, rest) && rest != [] && rest[0].n == n < |ch| && k <= |ch[n]|
    requires FreeSlot(v.a.w, ch[n], rest[0].bank.nr, k)
    requires var l, y := LinkOf(v.a.base + n, ch[n], k), v.a.igp + (NHW - 1);
             0 <= l < |w| && INXT <= y < |w| && w' == w[l := y][y - INXT := At(ch[n], k)]
    requires ird < |w'| && v' == v.(a := v.a.(w := w'[ird := 0], igp := v.a.igp + NHW + |rest[0].bank.data|))
    requires ch' == ch[n := Insert(ch[n], k, v.a.igp + (NHW - 1))]
    ensures Underway(v', ch', w', ird, ntot - (NHW + |rest[0].bank.data|), nsft, rn, rk, rest[1..])
    ensures ListPut(v, ch, v', ch', n, rest[0].bank)
    ensures Ends(v', ch', n, k, v.a.igp + (NHW - 1), rest[0])
  {
    hide Sound, ListPut, BankAt, FreeSlot, LinkOf, Words, Flat, Insert, At, Untabled, Foreign, NoTable, Ends;
    var f, l, y, e := rest[0], LinkOf(v.a.base + n, ch[n], k), v.a.igp + (NHW - 1), NHW + |rest[0].bank.data|;
    FirstFragment(v, ch, w, ird, ntot, nsft, rn, rk, rest);
    LinkNotRecord(v, ch, rn, rk, n, k);
    var v1 := w'[ird := 0];
    assert v1 == v.a.w[l := y][y - INXT := At(ch[n], k)];
    assert Entered(v, ch, v1, n, k, f);
    InsertSound(v, ch, v1, n, k, f, v', ch');
    ListPutSound(v, ch, v', ch', n);
    ForeignNamed(v.a.names, rn, rest[1..]);
    UntabledAbove(v, ch, v1, rest[1..]);
    SameAbove(w, l, y - INXT, y, At(ch[n], k), v.a.igp + e, v.a.igp + ntot);
  }

  lemma SameAbove(w: seq<int>, i: int, j: int, x: int, z: int, from: int, to: int)
    requires 0 <= i < from && 0 <= j < from && from <= to <= |w|
    ensures w[i := x][j := z][from..to] == w[from..to]
  {
  }

  lemma ForeignNamed(names: seq<int>, rn: nat, fs: seq<Frag>)
    requires Foreign(names, rn, fs)
    ensures Named(names, fs)
  {
  }

  lemma UntabledAbove(v: Snapshot, ch: seq<seq<int>>, w': seq<int>, fs: seq<Frag>)
    requires Sound(v, ch) && Untabled(v.a.w, v.idl, fs) && Named(v.a.names, fs) && |ch| == |v.a.names|
    requires |w'| == |v.a.w| && forall i :: v.a.iwk <= i < |w'| && 0 <= i ==> w'[i] == v.a.w[i]
    ensures Untabled(w', v.idl, fs)
  {
    hide Sound;
    forall i | 0 <= i < |fs| ensures NoTable(w', v.idl + 1 + fs[i].n) {
      assert NoTable(v.a.w, v.idl + 1 + fs[i].n);
      SettleBounds(v, ch, fs[i].n);
    }
  }

  /** The area ends with the `k`-th bank of the n-th chain, which is the fragment `f`. */
  ghost predicate Ends(v: Snapshot, ch: seq<seq<int>>, n: nat, k: nat, ind: int, f: Frag) {
    && f.n == n < |ch| && k < |ch[n]| && ch[n][k] == ind
    && Holds(v.a.w, ind) && BankAt(v.a.w, ind) == f.bank && ind + 1 + v.a.w[ind] == v.a.igp
  }

  /** What the words are after the header of the next fragment has been squeezed out. */
  ghost function Squeezed(w: seq<int>, ind: int, next: int, ntot: int): seq<int>
    requires 0 <= ind < next && next + NHW <= next + ntot <= |w|
  {
    w[..next][ind := w[ind] + w[next + (NHW - 1)]] + w[next + NHW..next + ntot] + w[next + ntot - NHW..]
  }

  lemma SqueezedPieces(w: seq<int>, ind: int, p: int, ntot: int, e: int)
    requires 0 <= ind < p && 0 <= e && p + NHW + e <= p + ntot <= |w|
    ensures var w' := Squeezed(w, ind, p, ntot);
            && |w'| == |w| && w'[ind] == w[ind] + w[p + (NHW - 1)]
            && w'[p..p + e] == w[p + NHW..p + NHW + e]
            && w'[p + e..p + ntot - NHW] == w[p + NHW + e..p + ntot]
            && (forall i :: 0 <= i < |w| && i != ind && (i < p || p + ntot <= i) ==> w'[i] == w[i])
  {
    var w' := Squeezed(w, ind, p, ntot);
    assert w'[p..p + ntot - NHW] == w[p + NHW..p + ntot];
    assert w'[p..p + e] == w'[p..p + ntot - NHW][..e] && w[p + NHW..p + NHW + e] == w[p + NHW..p + ntot][..e];
    assert w'[p + e..p + ntot - NHW] == w'[p..p + ntot - NHW][e..]
        && w[p + NHW + e..p + ntot] == w[p + NHW..p + ntot][e..];
  }

  lemma MergeEnds(v: Snapshot, ch: seq<seq<int>>, v1: seq<int>, n: nat, k: nat, ind: int, cur: Frag, f: Frag,
                  v': Snapshot)
    requires Sound(v, ch) && Ends(v, ch, n, k, ind, cur)
    requires TakenIn(v.a, v1, ind, |f.bank.data|) && 0 <= v.a.igp <= v.a.igp + |f.bank.data| <= |v1|
    requires v1[v.a.igp..v.a.igp + |f.bank.data|] == f.bank.data
    requires v' == v.(a := v.a.(w := v1, igp := v.a.igp + |f.bank.data|))
    ensures Sound(v', ch) && ListPut(v, ch, v', ch, n, Joined(cur, f).bank) && Ends(v', ch, n, k, ind, Joined(cur, f))
  {
    hide Sound, ListPut, BankAt, TakenIn;
    MergeSound(v, ch, v1, n, k, |f.bank.data|);
    ListPutSound(v, ch, v', ch, n);
    TakenInBank1(v.a, v1, ind, |f.bank.data|);
  }

  lemma TakenInBank1(s: Area, w': seq<int>, x: int, nd: int)
    requires TakenIn(s, w', x, nd)
    ensures 0 <= x < |w'| && x + 1 + w'[x] == s.igp + nd
  {
  }

  lemma FragmentData(w: seq<int>, p: int, base: int, names: seq<int>, f: Frag)
    requires FragmentAt(w, p, base, names, f)
    ensures 0 < p && p + NHW + |f.bank.data| <= |w|
    ensures w[p + NHW..p + NHW + |f.bank.data|] == f.bank.data && w[p + (NHW - 1)] == |f.bank.data|
  {
  }

  /** The words of the rest of the record after the squeeze, and what the joined bank becomes. */
  lemma MergeWords(v: Snapshot, ch: seq<seq<int>>, w: seq<int>, ird: int, ntot: int, nsft: int,
                   rn: nat, rk: nat, rest: seq<Frag>, n: nat, k: nat, ind: int, cur: Frag, w': seq<int>)
    requires Underway(v, ch, w, ird, ntot, nsft, rn, rk, rest) && rest != [] && n != rn
    requires Ends(v, ch, n, k, ind, cur)
    requires 0 <= ind < v.a.igp && v.a.igp + NHW <= v.a.igp + ntot <= |w| && w' == Squeezed(w, ind, v.a.igp, ntot)
    ensures var p, e := v.a.igp, |rest[0].bank.data|;
            && 0 <= p && 0 <= ird < |w'| && p + NHW + e <= p + ntot <= |w'|
            && |w'| == |w| && TakenIn(v.a, w'[ird := 0], ind, e)
            && w'[p..p + e] == rest[0].bank.data == w'[ird := 0][p..p + e]
            && w'[p + e..p + ntot - NHW] == Flat(v.a.base, v.a.names, rest[1..])
            && w'[ird] == w[ird]
            && (forall i :: v.a.iwk <= i < |w'| && 0 <= i ==> w'[ird := 0][i] == v.a.w[i])
  {
    hide Sound, BankAt, Words, Flat, Squeezed, Untabled, Foreign, NoTable, FragmentAt, TakenIn;
    var p, e := v.a.igp, |rest[0].bank.data|;
    FirstFragment(v, ch, w, ird, ntot, nsft, rn, rk, rest);
    FragmentData(w, p, v.a.base, v.a.names, rest[0]);
    NotRecord(v, ch, rn, rk, n, k);
    SqueezedPieces(w, ind, p, ntot, e);
    MergeTakes(v.a, w, w', ind, ird, ntot, e);
    assert w'[ird := 0][p..p + e] == w'[p..p + e];
  }

  lemma MergeUnderway(v: Snapshot, ch: seq<seq<int>>, w: seq<int>, ird: int, ntot: int, nsft: int, rn: nat, rk: nat,
                      rest: seq<Frag>, n: nat, k: nat, ind: int, cur: Frag, w': seq<int>, v': Snapshot)
    requires Underway(v, ch, w, ird, ntot, nsft, rn, rk, rest) && rest != [] && n != rn
    requires Ends(v, ch, n, k, ind, cur) && SameBank(cur, rest[0])
    requires 0 <= ind < v.a.igp && v.a.igp + NHW <= v.a.igp + ntot <= |w| && w' == Squeezed(w, ind, v.a.igp, ntot)
    requires ird < |w'| && v' == v.(a := v.a.(w := w'[ird := 0], igp := v.a.igp + |rest[0].bank.data|))
    ensures Underway(v', ch, w', ird, ntot - |rest[0].bank.data| - NHW, nsft + NHW, rn, rk, rest[1..])
    ensures ListPut(v, ch, v', ch, n, Joined(cur, rest[0]).bank)
    ensures Ends(v', ch, n, k, ind, Joined(cur, rest[0]))
  {
    hide Sound, ListPut, BankAt, Words, Flat, Squeezed, Untabled, Foreign, NoTable, TakenIn, FragmentAt, Ends, Holds;
    FirstFragment(v, ch, w, ird, ntot, nsft, rn, rk, rest);
    MergeWords(v, ch, w, ird, ntot, nsft, rn, rk, rest, n, k, ind, cur, w');
    MergeEnds(v, ch, w'[ird := 0], n, k, ind, cur, rest[0], v');
    ForeignNamed(v.a.names, rn, rest[1..]);
    UntabledAbove(v, ch, w'[ird := 0], rest[1..]);
  }

  lemma MergeTakes(s: Area, w: seq<int>, w': seq<int>, ind: int, ird: int, ntot: int, e: int)
    requires 0 <= ird < |w| == |w'| && s.w == w[ird := 0] && ind != ird && Holds(s.w, ind)
    requires ind + 1 + s.w[ind] == s.igp
    requires 0 <= e && s.igp + NHW + e <= s.igp + ntot <= s.iwk <= |w| && w'[ind] == w[ind] + e
    requires forall i :: 0 <= i < |w| && i != ind && (i < s.igp || s.igp + ntot <= i) ==> w'[i] == w[i]
    ensures TakenIn(s, w'[ird := 0], ind, e)
  {
  }

  lemma NotRecord(v: Snapshot, ch: seq<seq<int>>, rn: nat, rk: nat, n: nat, k: nat)
    requires Sound(v, ch) && rn < |ch| && rk < |ch[rn]| && n < |ch| && k < |ch[n]| && n != rn
    ensures ch[rn][rk] != ch[n][k]
  {
    hide WInv, Links, InSome, Accounts, Tiles;
    if ch[rn][rk] == ch[n][k] {
      assert ch[rn][rk] in ch[n] && ch[rn][rk] in ch[rn];
      OnOneChain(v.a, ch, n, rn, ch[rn][rk]);
    }
  }

  // ---- Making room in the chain ----------------------------------------------------------------

  lemma DropRegion(v: Snapshot, ch: seq<seq<int>>, n: nat, k: nat)
    requires Sound(v, ch) && n < |ch| && k < |ch[n]| && NoTable(v.a.w, v.idl + 1 + n)
    ensures var v' := DropState(v, ch, n, k, false);
            && v' == v.(a := v.a.(w := v'.a.w, ndn := v'.a.ndn, ign := v'.a.ign)) && |v'.a.w| == |v.a.w|
            && 0 <= v.a.igp && forall i :: v.a.igp <= i < |v.a.w| ==> v'.a.w[i] == v.a.w[i]
  {
    hide Sound, DropState, LinkOf;
    DropTouches(v, ch, n, k);
    AddTouches(v, ch, n, k);
    DropStateWords(v, ch, n, k, false);
  }

  /** After a bank is dropped its number has a free slot where it was. */
  lemma DropSlot(v: Snapshot, ch: seq<seq<int>>, n: nat, k: nat, nr: int)
    requires Sound(v, ch) && n < |ch| && k < |ch[n]| && NHW <= ch[n][k] < |v.a.w| && nr == v.a.w[ch[n][k] - INR]
    ensures FreeSlot(DropState(v, ch, n, k, false).a.w, Remove(ch[n], k), nr, k)
  {
    hide Inv, WInv, Links, Removed;
    DropMarked(v.a, ch, n, k);
    var s1 := Dropped(v.a, ch[n], v.a.base + n, k, false);
    MoveSlot(v.a, s1, ch, n, k);
    InvBoundsOf(v, ch);
    SettleBounds(v, ch, n);
    ChainsBelowGap(v.a, ch);
    LinkBelow(v.a, ch, n, k);
    assert forall i :: 0 <= i < v.a.iwk ==> DropState(v, ch, n, k, false).a.w[i] == s1.w[i];
    SlotBelow(s1.w, DropState(v, ch, n, k, false).a.w, ch[n], k, nr, v.a.iwk);
  }

  lemma LinkBelow(s: Area, ch: seq<seq<int>>, n: nat, k: nat)
    requires Inv(s, ch) && n < |ch| && k < |ch[n]|
    ensures 0 <= LinkOf(s.base + n, ch[n], k) < s.igp && NHW <= ch[n][k] < s.igp
  {
    ChainBank(s, ch, n, k);
    LinkOfPlace(s, ch, n, k);
  }

  lemma SlotBelow(w: seq<int>, w': seq<int>, c: seq<int>, k: nat, nr: int, t: int)
    requires k < |c| && FreeSlot(w, Remove(c, k), nr, k) && |w'| == |w| && t <= |w|
    requires forall i :: 0 <= i < t ==> w'[i] == w[i]
    requires forall x :: x in c ==> INR <= x < t
    ensures FreeSlot(w', Remove(c, k), nr, k)
  {
    var c' := Remove(c, k);
    assert forall i :: 0 <= i < |c'| ==> c'[i] == c[if i < k then i else i + 1] && c'[i] in c;
  }

  /** Dropping a bank with the number of the next fragment. */
  lemma DropUnderway(v: Snapshot, ch: seq<seq<int>>, w: seq<int>, ird: int, ntot: int, nsft: int, rn: nat, rk: nat,
                     rest: seq<Frag>, n: nat, k: nat, v': Snapshot, ch': seq<seq<int>>, w': seq<int>)
    requires Underway(v, ch, w, ird, ntot, nsft, rn, rk, rest) && rest != [] && rest[0].n == n < |ch| && k < |ch[n]|
    requires v' == DropState(v, ch, n, k, false) && ch' == ch[n := Remove(ch[n], k)] && Sound(v', ch')
    requires |w'| == |w| && v'.a.w == w'[ird := 0] && w'[ird] == w[ird]
    ensures Underway(v', ch', w', ird, ntot, nsft, rn, rk, rest)
  {
    hide Sound, DropState, Flat, Untabled, Foreign, NoTable, FragmentAt, Remove;
    FirstFragment(v, ch, w, ird, ntot, nsft, rn, rk, rest);
    DropRegion(v, ch, n, k);
    ForeignNamed(v.a.names, rn, rest);
    UntabledAbove(v, ch, v'.a.w, rest);
    var p := v.a.igp;
    assert w'[p..p + ntot] == w[p..p + ntot] by {
      assert forall i :: p <= i < |w| ==> w'[i] == v'.a.w[i];
      assert forall i :: p <= i < p + ntot ==> w'[i] == w[i];
    }
  }

  /**
   Walks the chain with head `w[h]` past all numbers below `nr`; `nind` is the next bank then,
   or zero.
   */
  method LastBefore(w: array<int>, nr: int, h: int, ghost b: set<int>, ghost name: int, ghost c: seq<int>)
    returns (ind: int, nind: int, ghost k: nat)
    requires IsChain(w[..], b, h, name, c)
    ensures IsSlot(w[..], c, nr, k) && ind - INXT == LinkOf(h, c, k) && nind == At(c, k)
  {
    hide Ascending;
    ind := h + 1;
    k := 0;
    while true
      invariant 0 <= k <= |c| && ind == LinkOf(h, c, k) + INXT
      invariant forall i :: 0 <= i < k ==> w[c[i] - INR] < nr
      decreases |c| - k
    {
      nind := w[ind - INXT];
      assert nind == At(c, k);
      if nind == 0 {
        break;
      }
      if w[nind - INR] >= nr {
        ChainFrom(w[..], b, h, name, c, k, nr);
        break;
      }
      ind := nind;
      k := k + 1;
    }
  }

  lemma RecordBank(v: Snapshot, ch: seq<seq<int>>, rn: nat, rk: nat, n: nat)
    requires Sound(v, ch) && rn < |ch| && rk < |ch[rn]| && n < |ch| && n != rn
    ensures Layout(v.a) && ch[rn][rk] in Banks(v.a) && ch[rn][rk] !in ch[n]
    ensures |ch| == |v.a.names| && NameIndex(v.a.names, v.a.names[n]) == n
  {
    hide WInv, Links, InSome, Accounts, Tiles, Inds;
    ChainBank(v.a, ch, rn, rk);
    if ch[rn][rk] in ch[n] { OnOneChain(v.a, ch, n, rn, ch[rn][rk]); }
    ChainCount(v.a, ch);
    NameAt(v.a.names, n);
  }

  lemma NameAt(names: seq<int>, n: nat)
    requires n < |names| && forall i, j :: 0 <= i < j < |names| ==> names[i] != names[j]
    ensures NameIndex(names, names[n]) == n
  {
  }

  lemma SlotSame(w: seq<int>, c: seq<int>, nr: int, k: nat, k': nat)
    requires IsSlot(w, c, nr, k) && IsSlot(w, c, nr, k') && Found(w, c, nr, k)
    ensures k' == k
  {
    if k' < k { SlotAbove(w, c, nr, k', k'); }
  }

  lemma SlotAbove(w: seq<int>, c: seq<int>, nr: int, k: nat, i: nat)
    requires IsSlot(w, c, nr, k) && k <= i < |c|
    ensures INR <= c[i] < |w| && w[c[i] - INR] >= nr
  {
  }

  lemma SlotSeen(w: seq<int>, w': seq<int>, c: seq<int>, nr: int, k: nat)
    requires IsSlot(w, c, nr, k)
    requires forall i :: 0 <= i < |c| ==> INR <= c[i] < |w'| && w'[c[i] - INR] == w[c[i] - INR]
    ensures IsSlot(w', c, nr, k)
  {
  }

  /** The lists without the bank that is about to be put in, if it was there. */
  ghost predicate Cleared(v: Snapshot, ch: seq<seq<int>>, v': Snapshot, ch': seq<seq<int>>, n: nat, nr: int) {
    && Sound(v, ch) && Sound(v', ch') && n < |ch|
    && Listing(v', ch') == Listing(v, ch)[n := Delete(Listing(v, ch)[n], nr)]
  }

  lemma ClearedPut(v: Snapshot, ch: seq<seq<int>>, v1: Snapshot, ch1: seq<seq<int>>, v2: Snapshot, ch2: seq<seq<int>>,
                   n: nat, d: Bank)
    requires Cleared(v, ch, v1, ch1, n, d.nr) && ListPut(v1, ch1, v2, ch2, n, d)
    ensures ListPut(v, ch, v2, ch2, n, d)
  {
    hide Sound, Listing, Sorted, Put, Delete;
    ListIsSorted(v, ch, n);
    PutDelete(Listing(v, ch)[n], d);
  }

  lemma ListIsSorted(v: Snapshot, ch: seq<seq<int>>, n: nat)
    requires Sound(v, ch) && n < |ch|
    ensures Sorted(Listing(v, ch)[n])
  {
    ListOf(v.a, ch, n);
  }

  lemma NothingCleared(v: Snapshot, ch: seq<seq<int>>, n: nat, k: nat, nr: int)
    requires Sound(v, ch) && n < |ch| && FreeSlot(v.a.w, ch[n], nr, k)
    ensures Cleared(v, ch, v, ch, n, nr)
  {
    hide Sound, Listing;
    AbsentListing(v, ch, n, k, nr);
  }

  /** A slot whose bank has another number is free. */
  lemma SlotIsFree(v: Snapshot, ch: seq<seq<int>>, n: nat, k: nat, nr: int)
    requires Sound(v, ch) && n < |ch| && IsSlot(v.a.w, ch[n], nr, k) && !Found(v.a.w, ch[n], nr, k)
    ensures FreeSlot(v.a.w, ch[n], nr, k)
  {
    hide Sound;
    SlotFree(v, ch, n, k, nr);
  }

  /** The drop of a bank that the record replaces. */
  lemma ReplacedBank(v: Snapshot, ch: seq<seq<int>>, w: seq<int>, ird: int, ntot: int, nsft: int, rn: nat, rk: nat,
                     rest: seq<Frag>, n: nat, k: nat, k': nat, v': Snapshot, ch': seq<seq<int>>, w': seq<int>)
    requires Underway(v, ch, w, ird, ntot, nsft, rn, rk, rest) && rest != [] && rest[0].n == n < |ch|
    requires IsSlot(v.a.w, ch[n], rest[0].bank.nr, k) && Found(v.a.w, ch[n], rest[0].bank.nr, k)
    requires AfterDrop(v, ch, v', ch', n, rest[0].bank.nr, k', 1)
    requires |w'| == |w| && v'.a.w == w'[ird := 0] && w'[ird] == w[ird]
    ensures Underway(v', ch', w', ird, ntot, nsft, rn, rk, rest)
    ensures n < |ch'| && FreeSlot(v'.a.w, ch'[n], rest[0].bank.nr, k)
    ensures Cleared(v, ch, v', ch', n, rest[0].bank.nr)
    ensures k < |ch[n]| && ch'[n] == Remove(ch[n], k)
  {
    hide Sound, DropState, Flat, Untabled, Foreign, NoTable, FreeSlot, Listing, IsSlot, Delete, Remove;
    SlotSame(v.a.w, ch[n], rest[0].bank.nr, k, k');
    DropSlot(v, ch, n, k, rest[0].bank.nr);
    DropUnderway(v, ch, w, ird, ntot, nsft, rn, rk, rest, n, k, v', ch', w');
  }

  lemma LinkAfterRemove(h: int, c: seq<int>, k: nat)
    requires k < |c|
    ensures LinkOf(h, Remove(c, k), k) == LinkOf(h, c, k)
  {
  }

  /** What FindPlace needs to know of the array. */
  lemma PlaceReady(v: Snapshot, ch: seq<seq<int>>, w: seq<int>, ird: int, ntot: int, nsft: int,
                   rn: nat, rk: nat, rest: seq<Frag>)
    requires Underway(v, ch, w, ird, ntot, nsft, rn, rk, rest) && rest != []
    ensures Sound(v, ch) && |ch| == |v.a.names|
    ensures var n, f, y := rest[0].n, rest[0], v.a.igp + (NHW - 1);
            && n < |ch| && 0 < ird < |w| && v.a.w == Hide0(w, ird) && w[ird] >= 0 && Layout(v.a) && ird in Banks(v.a)
            && ird !in ch[n]
            && NameIndex(v.a.names, v.a.names[n]) == n && FragmentAt(w, v.a.igp, v.a.base, v.a.names, f)
  {
    hide Inv, WInv, Links, NoTable;
    FirstFragment(v, ch, w, ird, ntot, nsft, rn, rk, rest);
    RecordBank(v, ch, rn, rk, rest[0].n);
  }

  /**
   Finds the place of the fragment at `next` in the chain of its name; a bank that has its
   number is dropped.
   */
  method FindPlace(b: BosArray, ird: int, next: int, nami: int, ghost ntot: int, ghost nsft: int,
                   ghost rn: nat, ghost rk: nat, ghost rest: seq<Frag>)
    returns (ind: int, nind: int, ghost k: nat)
    requires Underway(b.Seen(ird, next), b.ch, b.w[..], ird, ntot, nsft, rn, rk, rest) && rest != []
    requires b.Seen(ird, next).a.igp == next && nami == b.base + rest[0].n
    modifies b, b.w
    ensures Underway(b.Seen(ird, next), b.ch, b.w[..], ird, ntot, nsft, rn, rk, rest)
    ensures Cleared(old(b.Seen(ird, next)), old(b.ch), b.Seen(ird, next), b.ch, rest[0].n, rest[0].bank.nr)
    ensures var n := rest[0].n;
            && n < |b.ch| && k <= |b.ch[n]| && ind - INXT == LinkOf(b.base + n, b.ch[n], k) && nind == At(b.ch[n], k)
            && FreeSlot(b.Seen(ird, next).a.w, b.ch[n], rest[0].bank.nr, k)
    ensures b.names == old(b.names) && b.iwk == old(b.iwk) && b.bits == old(b.bits) && b.ndw == old(b.ndw)
    ensures b.igp == old(b.igp)
    ensures old(b.jw1) == 0 ==> b.jw1 == 0
  {
    hide Sound, Underway, FreeSlot, IsSlot, IsChain, LinkOf, Layout, AfterDrop, Cleared, Listing;
    ghost var v, ch, w, n := b.Seen(ird, next), b.ch, b.w[..], rest[0].n;
    PlaceReady(v, ch, w, ird, ntot, nsft, rn, rk, rest);
    WalkReady(v, ch, w, ird, n);
    var nr := b.w[next + (NHW - 1) - INR];
    ind, nind, k := LastBefore(b.w, nr, nami, Banks(v.a), v.a.names[n], ch[n]);
    SlotSeen(w, v.a.w, ch[n], nr, k);
    SlotBounds(v.a.w, ch[n], nr, k);
    if nind != 0 && b.w[nind - INR] == nr {
      nind := DropThere(b, ird, next, nr, ind, ntot, nsft, rn, rk, rest, k);
    } else {
      SlotIsFree(v, ch, n, k, nr);
      NothingCleared(v, ch, n, k, nr);
    }
  }

  /** The bank that has the number of the fragment is dropped; what the link at `ind` leads to then. */
  method DropThere(b: BosArray, ird: int, next: int, nr: int, ind: int, ghost ntot: int, ghost nsft: int,
                   ghost rn: nat, ghost rk: nat, ghost rest: seq<Frag>, ghost k: nat)
    returns (nind: int)
    requires Underway(b.Seen(ird, next), b.ch, b.w[..], ird, ntot, nsft, rn, rk, rest) && rest != []
    requires b.Seen(ird, next).a.igp == next && rest[0].bank.nr == nr
    requires var v, n := b.Seen(ird, next), rest[0].n;
             && n < |b.ch| && IsSlot(v.a.w, b.ch[n], nr, k) && Found(v.a.w, b.ch[n], nr, k)
             && k < |b.ch[n]| && ind - INXT == LinkOf(b.base + n, b.ch[n], k)
    modifies b, b.w
    ensures Underway(b.Seen(ird, next), b.ch, b.w[..], ird, ntot, nsft, rn, rk, rest)
    ensures Cleared(old(b.Seen(ird, next)), old(b.ch), b.Seen(ird, next), b.ch, rest[0].n, nr)
    ensures var n := rest[0].n;
            && n < |b.ch| && k <= |b.ch[n]| && ind - INXT == LinkOf(b.base + n, b.ch[n], k) && nind == At(b.ch[n], k)
            && FreeSlot(b.Seen(ird, next).a.w, b.ch[n], nr, k)
    ensures b.names == old(b.names) && b.iwk == old(b.iwk) && b.bits == old(b.bits) && b.ndw == old(b.ndw)
    ensures b.igp == old(b.igp)
    ensures b.jw1 == 0
  {
    hide Sound, Underway, FreeSlot, IsSlot, IsChain, LinkOf, Layout, AfterDrop, Cleared, Listing, Found;
    ghost var v, ch, w, n := b.Seen(ird, next), b.ch, b.w[..], rest[0].n;
    PlaceReady(v, ch, w, ird, ntot, nsft, rn, rk, rest);
    WalkReady(v, ch, w, ird, n);
    var name := b.w[next + (NHW - 1) - INAM];
    b.jw1 := 1;
    ghost var k' := Ndrop(b, name, nr, ird, next);
    ReplacedBank(v, ch, w, ird, ntot, nsft, rn, rk, rest, n, k, k', b.Seen(ird, next), b.ch, b.w[..]);
    LinkAfterRemove(b.base + n, ch[n], k);
    NextAfter(b.Seen(ird, next), b.ch, b.w[..], ird, ntot, nsft, rn, rk, rest, k);
    nind := b.w[ind - INXT];
  }

  lemma SlotBounds(w: seq<int>, c: seq<int>, nr: int, k: nat)
    requires IsSlot(w, c, nr, k)
    ensures k <= |c| && forall i :: 0 <= i < |c| ==> INR <= c[i] < |w|
  {
  }

  lemma NextAfter(v: Snapshot, ch: seq<seq<int>>, w: seq<int>, ird: int, ntot: int, nsft: int,
                  rn: nat, rk: nat, rest: seq<Frag>, k: nat)
    requires Underway(v, ch, w, ird, ntot, nsft, rn, rk, rest) && rest != [] && rest[0].n < |ch| && k <= |ch[rest[0].n]|
    ensures var l := LinkOf(v.a.base + rest[0].n, ch[rest[0].n], k);
            0 <= l < |w| && l < v.a.igp && w[l] == At(ch[rest[0].n], k)
  {
    hide Sound, Flat;
    InvBoundsOf(v, ch);
    LinkNotRecord(v, ch, rn, rk, rest[0].n, k);
  }

  // ---- One fragment ---------------------------------------------------------------------------------

  lemma RecordAway(v: Snapshot, ch: seq<seq<int>>, rn: nat, rk: nat, n: nat, k: nat)
    requires Sound(v, ch) && rn < |ch| && rk < |ch[rn]| && n < |ch| && k < |ch[n]| && n != rn
    ensures var x, ird := ch[n][k], ch[rn][rk];
            NHW <= x < v.a.igp <= |v.a.w| && ird != x && ird != x - INR && ird != x - INXT
            && v.a.w[x - INXT] == At(ch[n], k + 1)
  {
    hide WInv, Links, InSome, Accounts, Chained, IsChain;
    NotRecord(v, ch, rn, rk, n, k);
    ChainBank(v.a, ch, n, k);
    ChainBank(v.a, ch, rn, rk);
    TilesApart(v.a.w, v.a.inm, v.a.igp);
    LinkOfPlace(v.a, ch, n, k + 1);
  }

  /** The last bank of a chain is the place to continue, if its number is smaller. */
  lemma TailFree(v: Snapshot, ch: seq<seq<int>>, n: nat, k: nat, nr: int)
    requires Sound(v, ch) && n < |ch| && k < |ch[n]| && At(ch[n], k + 1) == 0
    requires NHW <= ch[n][k] < |v.a.w| && v.a.w[ch[n][k] - INR] < nr
    ensures FreeSlot(v.a.w, ch[n], nr, |ch[n]|) && ch[n][k] - INXT == LinkOf(v.a.base + n, ch[n], |ch[n]|)
  {
    hide Inv, WInv, Links, FreeSlot, Ascending;
    EndOfChain(v.a, ch, n, k);
    AscendingTail(v.a.w, ch[n], nr);
  }

  lemma TailSlot(v: Snapshot, ch: seq<seq<int>>, w: seq<int>, ird: int, ntot: int, nsft: int,
                 rn: nat, rk: nat, rest: seq<Frag>, n: nat, k: nat, ind: int, cur: Frag, nr: int)
    requires Underway(v, ch, w, ird, ntot, nsft, rn, rk, rest) && n != rn && Ends(v, ch, n, k, ind, cur)
    ensures NHW <= ind < |w| && w[ind - INR] == cur.bank.nr && w[ind - INXT] == At(ch[n], k + 1)
    ensures w[ind] == v.a.w[ind] && ind + 1 + w[ind] == v.a.igp && ind != ird
    ensures w[ind - INXT] == 0 && cur.bank.nr < nr ==>
              FreeSlot(v.a.w, ch[n], nr, |ch[n]|) && ind - INXT == LinkOf(v.a.base + n, ch[n], |ch[n]|)
  {
    hide Sound, Flat, Foreign, Untabled, FreeSlot, LinkOf, At;
    RecordAway(v, ch, rn, rk, n, k);
    if w[ind - INXT] == 0 && cur.bank.nr < nr {
      TailFree(v, ch, n, k, nr);
    }
  }

  lemma EndOfChain(s: Area, ch: seq<seq<int>>, n: nat, k: nat)
    requires Inv(s, ch) && n < |ch| && k < |ch[n]| && At(ch[n], k + 1) == 0
    ensures k == |ch[n]| - 1
    ensures (forall i :: 0 <= i < |ch[n]| ==> NHW <= ch[n][i] < |s.w|) && Ascending(s.w, ch[n])
  {
    ChainBank(s, ch, n, k);
  }

  lemma AscendingTail(w: seq<int>, c: seq<int>, nr: int)
    requires (forall i :: 0 <= i < |c| ==> NHW <= c[i] < |w|) && Ascending(w, c) && c != []
    requires w[c[|c| - 1] - INR] < nr
    ensures FreeSlot(w, c, nr, |c|)
  {
    forall i | 0 <= i < |c| ensures w[c[i] - INR] < nr {
      if i < |c| - 1 { assert w[c[i] - INR] < w[c[|c| - 1] - INR]; }
    }
  }

  /** Enters the fragment at `next` behind the bank or pseudo-bank `ind`. */
  method InsertPointer(b: BosArray, ird: int, next: int, ind: int, nind: int, ghost ntot: int, ghost nsft: int,
                       ghost rn: nat, ghost rk: nat, ghost rest: seq<Frag>, ghost k: nat)
    returns (ind': int, next': int)
    requires Underway(b.Seen(ird, next), b.ch, b.w[..], ird, ntot, nsft, rn, rk, rest) && rest != []
    requires b.Seen(ird, next).a.igp == next
    requires var n := rest[0].n;
             && n < |b.ch| && k <= |b.ch[n]| && ind - INXT == LinkOf(b.base + n, b.ch[n], k) && nind == At(b.ch[n], k)
             && FreeSlot(b.Seen(ird, next).a.w, b.ch[n], rest[0].bank.nr, k)
    modifies b, b.w
    ensures next' == next + NHW + |rest[0].bank.data| && ind' == next + (NHW - 1)
    ensures Underway(b.Seen(ird, next'), b.ch, b.w[..], ird, ntot - (NHW + |rest[0].bank.data|), nsft, rn, rk,
        rest[1..])
    ensures ListPut(old(b.Seen(ird, next)), old(b.ch), b.Seen(ird, next'), b.ch, rest[0].n, rest[0].bank)
    ensures Ends(b.Seen(ird, next'), b.ch, rest[0].n, k, ind', rest[0]) && b.Seen(ird, next').a.igp == next'
    ensures b.names == old(b.names) && b.iwk == old(b.iwk) && b.bits == old(b.bits) && b.ndw == old(b.ndw)
    ensures b.igp == old(b.igp) && b.jw1 == old(b.jw1)
  {
    hide Sound, Underway, FreeSlot, LinkOf, ListPut, Ends, Layout, At, Insert;
    ghost var v, ch, w, n := b.Seen(ird, next), b.ch, b.w[..], rest[0].n;
    PlaceReady(v, ch, w, ird, ntot, nsft, rn, rk, rest);
    NextAfter(v, ch, w, ird, ntot, nsft, rn, rk, rest, k);
    var y := next + (NHW - 1);
    next' := next + b.w[y] + NHW;
    b.w[ind - INXT] := y;
    ind' := y;
    b.w[ind' - INXT] := nind;
    b.ch := ch[n := Insert(ch[n], k, y)];
    InsertUnderway(v, ch, w, ird, ntot, nsft, rn, rk, rest, n, k, b.w[..], b.Seen(ird, next'), b.ch);
    EndsAt(b.Seen(ird, next'), b.ch, n, k, ind', rest[0]);
  }

  lemma EndsAt(v: Snapshot, ch: seq<seq<int>>, n: nat, k: nat, ind: int, f: Frag)
    requires Ends(v, ch, n, k, ind, f)
    ensures 0 <= ind < |v.a.w| && v.a.igp == ind + 1 + |f.bank.data|
  {
  }

  /** The words behind a header at `next` move down onto it. */
  method ShiftDown(w: array<int>, next: int, ntot: int)
    requires 0 <= next && NHW <= ntot && next + ntot <= w.Length
    modifies w
    ensures forall j :: 0 <= j < w.Length ==> w[j] == old(w[..])[if next <= j < next + ntot - NHW then j + NHW else j]
  {
    var i := 0;
    while i < ntot - NHW
      invariant 0 <= i <= ntot - NHW
      invariant forall j :: 0 <= j < w.Length ==> w[j] == old(w[..])[if next <= j < next + i then j + NHW else j]
    {
      w[next + i] := w[next + NHW + i];
      i := i + 1;
    }
  }

  /** The fragment at `next` continues the bank that ends there. */
  method MergeFragment(b: BosArray, ird: int, next: int, ind: int, ntot: int, ghost nsft: int,
                       ghost rn: nat, ghost rk: nat, ghost rest: seq<Frag>, ghost k: nat, ghost cur: Frag)
    returns (next': int)
    requires Underway(b.Seen(ird, next), b.ch, b.w[..], ird, ntot, nsft, rn, rk, rest) && rest != []
    requires b.Seen(ird, next).a.igp == next
    requires Ends(b.Seen(ird, next), b.ch, cur.n, k, ind, cur) && SameBank(cur, rest[0])
    modifies b.w
    ensures next' == next + |rest[0].bank.data|
    ensures Underway(b.Seen(ird, next'), b.ch, b.w[..], ird, ntot - |rest[0].bank.data| - NHW, nsft + NHW, rn, rk,
        rest[1..])
    ensures ListPut(old(b.Seen(ird, next)), b.ch, b.Seen(ird, next'), b.ch, cur.n, Joined(cur, rest[0]).bank)
    ensures Ends(b.Seen(ird, next'), b.ch, cur.n, k, ind, Joined(cur, rest[0])) && b.Seen(ird, next').a.igp == next'
  {
    hide Sound, Underway, ListPut, Ends, Layout, Squeezed, FragmentAt;
    ghost var v, w := b.Seen(ird, next), b.w[..];
    MergeReady(v, b.ch, w, ird, ntot, nsft, rn, rk, rest, k, ind, cur);
    var nd := b.w[next + (NHW - 1)];
    b.w[ind] := b.w[ind] + nd;
    ghost var w1 := b.w[..];
    ShiftDown(b.w, next, ntot);
    next' := next + nd;
    SqueezedIs(w, w1, b.w[..], ind, next, ntot);
    MergeUnderway(v, b.ch, w, ird, ntot, nsft, rn, rk, rest, cur.n, k, ind, cur, b.w[..], b.Seen(ird, next'));
    EndsAt(b.Seen(ird, next'), b.ch, cur.n, k, ind, Joined(cur, rest[0]));
  }

  lemma SqueezedIs(w: seq<int>, w1: seq<int>, w': seq<int>, ind: int, next: int, ntot: int)
    requires 0 <= ind < next && next + NHW <= next + ntot <= |w| == |w'|
    requires w1 == w[ind := w[ind] + w[next + (NHW - 1)]]
    requires forall j :: 0 <= j < |w| ==> w'[j] == w1[if next <= j < next + ntot - NHW then j + NHW else j]
    ensures w' == Squeezed(w, ind, next, ntot)
  {
  }

  lemma MergeReady(v: Snapshot, ch: seq<seq<int>>, w: seq<int>, ird: int, ntot: int, nsft: int,
                   rn: nat, rk: nat, rest: seq<Frag>, k: nat, ind: int, cur: Frag)
    requires Underway(v, ch, w, ird, ntot, nsft, rn, rk, rest) && rest != []
    requires Ends(v, ch, cur.n, k, ind, cur) && SameBank(cur, rest[0])
    ensures 0 <= ind < v.a.igp && 0 < ird < |w| && cur.n != rn
    ensures NHW + |rest[0].bank.data| <= ntot && v.a.igp + ntot <= |w|
    ensures 0 < v.a.igp && w[v.a.igp + (NHW - 1)] == |rest[0].bank.data|
  {
    hide Sound, Flat, Untabled, NoTable, Words;
    FirstFragment(v, ch, w, ird, ntot, nsft, rn, rk, rest);
  }
}
