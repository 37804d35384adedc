/**
 Work banks of a BOS array: creation, growth and dropping in place (boswcrea.c, boswdrop.c).
 */
module WorkBankOps {
  import opened BankLayout
  import opened Chains
  import opened NamedArea
  import opened WorkArea
  import opened Slices
  import opened WorkBanks
  import opened LinkTables
  import opened BosArrays
  import opened Creating
  import opened Compaction
  import opened Garbage

  /** The link bank with handle `l` is absent or a live bank; what it holds does not matter. */
  ghost predicate LinkHandle(k: Work, l: int)
    requires WLayout(k)
  {
    0 <= l < |k.w| && (k.w[l] != 0 ==> k.w[l] in WBanks(k) && k.w[k.w[l]] >= 0 && k.w[k.w[l] - INXT] == l)
  }

  /** The state of the n-th name's link bank, its table excepted if its handle is `l`. */
  ghost predicate LinkStateBut(k: Work, idl: int, ch: seq<seq<int>>, n: nat, l: int)
    requires WLayout(k)
  {
    LinkHandle(k, idl + 1 + n) && (idl + 1 + n != l ==> LinkState(k, idl, ch, n))
  }

  /** All is in order, the table of the link bank with handle `l` excepted. */
  ghost predicate SoundBut(v: Snapshot, ch: seq<seq<int>>, l: int) {
    && Inv(v.a, ch) && WInv(WorkOf(v)) && v.fix <= v.idl + 1 && v.idl + v.a.cap <= v.a.njw
    && (forall n: nat :: n < v.a.cap ==> LinkStateBut(WorkOf(v), v.idl, ch, n, l))
  }

  lemma SoundIsSoundBut(v: Snapshot, ch: seq<seq<int>>, l: int)
    requires Sound(v, ch)
    ensures SoundBut(v, ch, l)
  {
    hide Inv, WBank, WTiles, WInds, WDropSum, WTop;
    forall n: nat | n < v.a.cap ensures LinkStateBut(WorkOf(v), v.idl, ch, n, l) {
      assert LinkState(WorkOf(v), v.idl, ch, n);
    }
  }

  lemma SoundButIsSound(v: Snapshot, ch: seq<seq<int>>, n: nat)
    requires SoundBut(v, ch, v.idl + 1 + n) && (n < v.a.cap ==> LinkState(WorkOf(v), v.idl, ch, n))
    ensures Sound(v, ch)
  {
    hide Inv, WBank, WTiles, WInds, WDropSum, WTop, LinkState;
    forall m: nat | m < v.a.cap ensures LinkState(WorkOf(v), v.idl, ch, m) {
      assert LinkStateBut(WorkOf(v), v.idl, ch, m, v.idl + 1 + n);
    }
  }

  /** The bank with handle `h` is where its handle says now, with the words it had. */
  ghost predicate HandleMoved(k: Work, k': Work, h: int)
    requires WLayout(k) && WLayout(k') && LinkHandle(k, h)
  {
    && |k'.w| == |k.w|
    && (k.w[h] == 0 ==> k'.w[h] == 0)
    && (k.w[h] != 0 ==> k'.w[h] in WBanks(k') && SameBankWords(k.w, k'.w, k.w[h], k'.w[h]))
  }

  lemma LinkMoved(k: Work, k': Work, l: int, c: seq<int>)
    requires WInv(k) && WInv(k') && LinkBank(k, l, c) && LinkHandle(k, l) && HandleMoved(k, k', l)
    requires forall x :: x in c ==> INR <= x < |k.w| && k'.w[x - INR] == k.w[x - INR]
    ensures LinkBank(k', l, c)
  {
    hide WTiles, WInds, WDropSum, WTop;
    if k.w[l] != 0 {
      var x, x' := k.w[l], k'.w[l];
      SameHeaderWords(k.w, k'.w, x, x');
      if k.w[x] != 0 { TableMoved(k.w, k'.w, x, x', c); }
    }
  }

  lemma TableMoved(w: seq<int>, w': seq<int>, x: int, x': int, c: seq<int>)
    requires Table(w, x, c) && SameBankWords(w, w', x, x') && |w'| == |w|
    requires forall y :: y in c ==> INR <= y < |w| && w'[y - INR] == w[y - INR]
    ensures Table(w', x', c)
  {
    var d, d' := w[x + 1..x + 1 + w[x]], w'[x' + 1..x' + 1 + w[x]];
    forall i | 0 <= i < |c|
      ensures INR <= c[i] < |w'| && w'[x' + 1 + 2 * i] == w'[c[i] - INR] && w'[x' + 2 + 2 * i] == c[i]
    {
      assert c[i] in c;
      assert d[2 * i] == d'[2 * i] && d[2 * i + 1] == d'[2 * i + 1];
    }
  }

  /** Only work banks have changed: `v'` is `v` with other words from the gap on and in the system words. */
  ghost predicate WorkChanged(v: Snapshot, v': Snapshot) {
    && v' == v.(a := v.a.(w := v'.a.w, iwk := v'.a.iwk), ndw := v'.ndw, igw := v'.igw)
    && |v'.a.w| == |v.a.w| && v.a.igp <= v'.a.iwk
    && (forall i :: v.a.base <= i < v.a.igp && 0 <= i < |v.a.w| ==> v'.a.w[i] == v.a.w[i])
  }

  lemma NamedUntouched(v: Snapshot, v': Snapshot, ch: seq<seq<int>>)
    requires Inv(v.a, ch) && WorkChanged(v, v') && v'.a.iwk <= v.a.njw
    ensures Inv(v'.a, ch) && Meaningful(v.a.w, ch) && Meaningful(v'.a.w, ch)
    ensures Meaning(v'.a.w, ch) == Meaning(v.a.w, ch)
    ensures forall m, i :: 0 <= m < |ch| && 0 <= i < |ch[m]| ==>
              INR <= ch[m][i] < |v.a.w| && v'.a.w[ch[m][i] - INR] == v.a.w[ch[m][i] - INR]
  {
    hide Tiles, Inds, InSome, Accounts, IsChain;
    InvFrame(v.a, v'.a, ch);
    forall n, i | 0 <= n < |ch| && 0 <= i < |ch[n]|
      ensures Holds(v.a.w, ch[n][i]) && Holds(v'.a.w, ch[n][i]) && BankAt(v'.a.w, ch[n][i]) == BankAt(v.a.w, ch[n][i])
      ensures INR <= ch[n][i] < |v.a.w| && v'.a.w[ch[n][i] - INR] == v.a.w[ch[n][i] - INR]
    {
      ChainBank(v.a, ch, n, i);
      TilesApart(v.a.w, v.a.inm, v.a.igp);
      SameWordsKept(v.a.w, v'.a.w, ch[n][i]);
    }
    SameMeaning(v.a.w, ch, v'.a.w, ch);
  }

  lemma LinkStateMoved(v: Snapshot, v': Snapshot, ch: seq<seq<int>>, n: nat, l: int)
    requires SoundBut(v, ch, l) && WorkChanged(v, v') && v'.a.iwk <= v.a.njw && WInv(WorkOf(v')) && n < v.a.cap
    requires LinkHandle(WorkOf(v'), l) && (v.idl + 1 + n != l ==> MovedName(v, v', n))
    requires Inv(v'.a, ch) && forall m, i :: 0 <= m < |ch| && 0 <= i < |ch[m]| ==>
               INR <= ch[m][i] < |v.a.w| && v'.a.w[ch[m][i] - INR] == v.a.w[ch[m][i] - INR]
    ensures LinkStateBut(WorkOf(v'), v.idl, ch, n, l)
  {
    hide Inv, WBank, WTiles, WInds, WDropSum, WTop, Table, SameBankWords;
    assert LinkStateBut(WorkOf(v), v.idl, ch, n, l);
    if v.idl + 1 + n != l {
      LinkMoved(WorkOf(v), WorkOf(v'), v.idl + 1 + n, if n < |ch| then ch[n] else []);
      MovedHandle(WorkOf(v), WorkOf(v'), v.idl + 1 + n);
    }
  }

  /** If every other link bank is where its handle says, tables are still right. */
  lemma LinksMoved(v: Snapshot, v': Snapshot, ch: seq<seq<int>>, l: int)
    requires SoundBut(v, ch, l) && WorkChanged(v, v') && v'.a.iwk <= v.a.njw && WInv(WorkOf(v'))
    requires forall n: nat :: n < v.a.cap && v.idl + 1 + n != l ==> MovedName(v, v', n)
    requires LinkHandle(WorkOf(v'), l)
    ensures SoundBut(v', ch, l) && Meaningful(v.a.w, ch) && Meaningful(v'.a.w, ch)
    ensures Meaning(v'.a.w, ch) == Meaning(v.a.w, ch)
  {
    hide Inv, WBank, WTiles, WInds, WDropSum, WTop, Table, SameBankWords, Meaning, Meaningful;
    NamedUntouched(v, v', ch);
    forall n: nat | n < v.a.cap ensures LinkStateBut(WorkOf(v'), v.idl, ch, n, l) {
      LinkStateMoved(v, v', ch, n, l);
    }
  }

  ghost predicate MovedName(v: Snapshot, v': Snapshot, n: nat) {
    && WLayout(WorkOf(v)) && WLayout(WorkOf(v')) && LinkHandle(WorkOf(v), v.idl + 1 + n)
    && HandleMoved(WorkOf(v), WorkOf(v'), v.idl + 1 + n)
  }

  lemma MovedHandle(k: Work, k': Work, l: int)
    requires WLayout(k) && WLayout(k') && LinkHandle(k, l) && HandleMoved(k, k', l)
    ensures LinkHandle(k', l)
  {
    hide WTiles, WInds;
    if k.w[l] != 0 { SameHeaderWords(k.w, k'.w, k.w[l], k'.w[l]); }
  }

  // ---- Where handles lead after each change ------------------------------------------------------

  lemma BegunMoved(k: Work, k': Work, ld: int, nd: nat, h: int)
    requires WInv(k) && Begun(k, k', ld, nd) && LinkHandle(k, h) && h != ld && k.fix <= h
    ensures WInv(k') && HandleMoved(k, k', h) && LinkHandle(k', ld)
  {
    hide WTiles, WInds, WDropSum, WTop, WBank, SameBankWords;
    BegunInv(k, k', ld, nd);
    if k.w[h] != 0 { BegunOther(k, k', ld, nd, k.w[h]); }
  }

  lemma RefilledMoved(k: Work, k': Work, x: int, nd: nat, h: int)
    requires WInv(k) && Refilled(k, k', x, nd) && x in WBanks(k) && LinkHandle(k, h) && h != k.w[x - INXT] && k.fix <= h
    ensures WInv(k') && HandleMoved(k, k', h)
  {
    hide WTiles, WInds, WDropSum, WTop, WBank, SameBankWords;
    RefilledInv(k, k', x, nd);
    GrowBounds(k, x);
    if k.w[h] != 0 { RefilledOther(k, k', x, nd, k.w[h]); }
  }

  lemma MarkedMoved(k: Work, k': Work, x: int, h: int)
    requires WInv(k) && Marked(k, k', x) && x in WBanks(k) && LinkHandle(k, h) && h != k.w[x - INXT] && k.fix <= h
    ensures WInv(k') && HandleMoved(k, k', h)
  {
    hide WTiles, WInds, WDropSum, WTop, WBank, SameBankWords;
    MarkedInv(k, k', x);
    GrowBounds(k, x);
    if k.w[h] != 0 { MarkedOther(k, k', x, k.w[h]); }
  }

  lemma GrownMoved(k: Work, k': Work, w0: seq<int>, x: int, nd: int, g: int, h: int)
    requires WInv(k) && x in WBanks(k) && Grown(k, k', w0, x, nd, g) && LinkHandle(k, h) && k.fix <= h <= k.njw
    requires NHW <= x < |k.w| && h != k.w[x - INXT]
    ensures WInv(k') && HandleMoved(k, k', h)
  {
    hide WTiles, WInds, WDropSum, WTop, WBank, SameBankWords, GrowShift;
    GrownInv(k, k', w0, x, nd, g);
    if k.w[h] != 0 {
      GrownHandle(k, k', w0, x, nd, g, k.w[h]);
      GrownOther(k, k', w0, x, nd, g, k.w[h]);
    } else {
      UnusedHandle(k, w0, k'.w, x, nd, g, h);
    }
    GrowSized(k.w, w0, k.iwk, x, nd);
  }

  /** A handle that leads nowhere is not set. */
  lemma UnusedHandle(k: Work, w0: seq<int>, w2: seq<int>, x: int, nd: int, g: int, h: int)
    requires WInv(k) && x in WBanks(k) && GrowShift(k.w, w0, k.iwk, x, nd)
    requires g == nd + NHW - k.w[x - INR] && g <= k.iwk - k.inm
    requires HandlesSet(w0, w2, MovedBanks(k, x, g), k.base, k.fix)
    requires 0 <= h < |k.w| && Zone(k, h) && k.w[h] == 0
    ensures h < |w2| && w2[h] == 0
  {
    hide WTiles, WInds, WDropSum, WTop, SameBankWords, GrowShift, WBank;
    ZoneWord(k, w0, x, nd, h);
    assert SetAt(w0, w2, MovedBanks(k, x, g), h);
    if w2[h] != w0[h] {
      var y := w2[h] + g;
      MovedHeader(k, w0, x, nd, y);
      HandleLeads(k, y);
    }
  }

  // ---- Growth, written word by word ------------------------------------------------------------------

  /** `w2` is `s` but for the header of bank `y` and one handle. */
  ghost predicate HeaderSet(s: seq<int>, w2: seq<int>, y: int, ld: int, u: int, ncol: int, nrow: int, nd: int) {
    && ICOL <= y < |s| == |w2| && 0 <= ld < |s| && (ld < y - ICOL || y < ld)
    && w2[ld] == u && w2[y - ICOL] == ncol && w2[y - IROW] == nrow && w2[y - INR] == nd + NHW && w2[y] == nd
    && (forall i :: 0 <= i < |s| && i != ld && i != y - ICOL && i != y - IROW && i != y - INR && i != y ==>
        w2[i] == s[i])
  }

  /** The words after the copy and the new header, before handles of lower banks are set. */
  ghost predicate GrowWritten(w: seq<int>, w2: seq<int>, p: int, x: int, nd: int, g: int, ld: int, ncol: int,
                              nrow: int) {
    && NHW <= x < |w| && 0 <= w[x] && 0 <= g <= p <= x + w[x] + 1 <= |w|
    && HeaderSet(Shifted(w, p, x + w[x] + 1, g), w2, x - g, ld, x - g, ncol, nrow, nd)
  }

  lemma ShiftedParts(w: seq<int>, p: int, e: int, g: int)
    requires 0 <= g <= p <= e <= |w|
    ensures var s := Shifted(w, p, e, g);
            |s| == |w| && s[p - g..e - g] == w[p..e] && s[..p - g] == w[..p - g] && s[e..] == w[e..]
  {
  }

  lemma {:induction false} SliceOfSlice(s: seq<int>, w: seq<int>, p: int, q: int, g: int, a: int, b: int)
    requires 0 <= g <= p <= q && q <= |w| && q - g <= |s| && s[p - g..q - g] == w[p..q] && p <= a <= b <= q
    ensures s[a - g..b - g] == w[a..b]
  {
    SubSlice(w, p, q, a, b);
    SubSlice(s, p - g, q - g, a - g, b - g);
  }

  lemma GrowHeader(s: seq<int>, w: seq<int>, p: int, x: int, e: int, g: int)
    requires 0 <= g < p && p + (NHW - 1) <= x < e <= |w| == |s| && s[p - g..e - g] == w[p..e]
    ensures NHW <= x && INAM <= x - g && s[x - g - INXT] == w[x - INXT] && s[x - g - INAM] == w[x - INAM]
  {
    assert s[p - g..e - g][x - INXT - p] == w[p..e][x - INXT - p];
    assert s[p - g..e - g][x - INAM - p] == w[p..e][x - INAM - p];
  }

  lemma HeaderSetParts(s: seq<int>, w2: seq<int>, y: int, ld: int, u: int, x: int, ncol: int, nrow: int, nd: int,
                       a: int, b: int)
    requires HeaderSet(s, w2, y, ld, u, ncol, nrow, nd) && 0 <= a <= b <= |s|
    requires b <= y - ICOL || y < a
    requires s[ld] == x
    ensures |w2| == |s| && w2[ld := x][a..b] == s[a..b]
    ensures w2[ld := x][y] == nd && w2[ld := x][y - INR] == nd + NHW && w2[ld := x][y - INXT] == s[y - INXT]
    ensures w2[ld := x][y - INAM] == s[y - INAM]
  {
  }

  lemma WrittenWords(w: seq<int>, w2: seq<int>, p: int, x: int, nd: int, g: int, ld: int, ncol: int, nrow: int)
    requires GrowWritten(w, w2, p, x, nd, g, ld, ncol, nrow) && 0 < g < p && p + (NHW - 1) <= x && 0 <= ld < |w|
    requires w[ld] == x
    requires x - (NHW - 1) + w[x - INR] <= |w| && w[x] + NHW <= w[x - INR] && g == nd + NHW - w[x - INR]
    requires ld < p - g || x - (NHW - 1) + w[x - INR] <= ld
    ensures |w2| == |w| && GrowShift(w, w2[ld := x], p, x, nd)
  {
    hide Shifted, HeaderSet, GrowShift;
    var e, y, q, r := x + w[x] + 1, x - g, x - (NHW - 1), x - (NHW - 1) + w[x - INR];
    var s := Shifted(w, p, e, g);
    ShiftedSlices(w, p, x, e, g, q, r);
    LeftAlone(s, w, p, e, g, ld);
    WrittenSlices(s, w2, p, x, e, g, q, r, ld, ncol, nrow, nd);
    ShiftGathered(w, w2[ld := x], s, p, x, nd, g, q, r, e);
  }

  lemma WrittenSlices(s: seq<int>, w2: seq<int>, p: int, x: int, e: int, g: int, q: int, r: int, ld: int,
                      ncol: int, nrow: int, nd: int)
    requires HeaderSet(s, w2, x - g, ld, x - g, ncol, nrow, nd) && s[ld] == x
    requires 0 < g < p && p + (NHW - 1) <= x < e <= r <= |s| && q == x - (NHW - 1)
    ensures |w2| == |s| && NHW <= x - g < |s|
    ensures var w0 := w2[ld := x];
            && w0[p - g..q - g] == s[p - g..q - g] && w0[x + 1 - g..e - g] == s[x + 1 - g..e - g]
            && w0[0..p - g] == s[0..p - g] && w0[r..|s|] == s[r..|s|]
            && w0[x - g] == nd && w0[x - g - INR] == nd + NHW && w0[x - g - INXT] == s[x - g - INXT]
            && w0[x - g - INAM] == s[x - g - INAM]
  {
    hide HeaderSet;
    HeaderSetParts(s, w2, x - g, ld, x - g, x, ncol, nrow, nd, p - g, q - g);
    HeaderSetParts(s, w2, x - g, ld, x - g, x, ncol, nrow, nd, x + 1 - g, e - g);
    HeaderSetParts(s, w2, x - g, ld, x - g, x, ncol, nrow, nd, 0, p - g);
    HeaderSetParts(s, w2, x - g, ld, x - g, x, ncol, nrow, nd, r, |s|);
  }

  lemma ShiftedSlices(w: seq<int>, p: int, x: int, e: int, g: int, q: int, r: int)
    requires 0 < g < p && p + (NHW - 1) <= x < e <= r <= |w| && q == x - (NHW - 1)
    ensures var s := Shifted(w, p, e, g);
            && |s| == |w| && s[p - g..e - g] == w[p..e] && s[..p - g] == w[..p - g] && s[e..] == w[e..]
            && s[p - g..q - g] == w[p..q] && s[x + 1 - g..e - g] == w[x + 1..e] && s[r..|w|] == w[r..]
            && INAM <= x - g && s[x - g - INXT] == w[x - INXT] && s[x - g - INAM] == w[x - INAM]
  {
    hide Shifted;
    var s := Shifted(w, p, e, g);
    ShiftedParts(w, p, e, g);
    GrowHeader(s, w, p, x, e, g);
    SliceOfSlice(s, w, p, e, g, p, q);
    SliceOfSlice(s, w, p, e, g, x + 1, e);
    SuffixWords(s, w, e, r);
  }

  lemma SuffixWords(s: seq<int>, w: seq<int>, e: int, r: int)
    requires 0 <= e <= r <= |w| == |s| && s[e..] == w[e..]
    ensures s[r..|w|] == w[r..]
  {
    assert s[e..][r - e..] == s[r..|w|] && w[e..][r - e..] == w[r..];
  }

  /** The handle of the bank is outside the words that are copied. */
  lemma LeftAlone(s: seq<int>, w: seq<int>, p: int, e: int, g: int, ld: int)
    requires 0 <= g <= p <= e <= |w| == |s| && s[..p - g] == w[..p - g] && s[e..] == w[e..]
    requires 0 <= ld < p - g || e <= ld < |w|
    ensures s[ld] == w[ld]
  {
    if ld < p - g { assert s[..p - g][ld] == w[..p - g][ld]; } else { assert s[e..][ld - e] == w[e..][ld - e]; }
  }

  lemma ShiftGathered(w: seq<int>, w0: seq<int>, s: seq<int>, p: int, x: int, nd: int, g: int, q: int, r: int, e: int)
    requires NHW <= x < |w| == |w0| == |s| && 0 < g <= p && p + (NHW - 1) <= x && g == nd + NHW - w[x - INR]
    requires q == x - (NHW - 1) && r == q + w[x - INR] <= |w| && e == x + 1 + w[x] <= r && 0 <= w[x]
    requires w0[p - g..q - g] == s[p - g..q - g] == w[p..q]
    requires w0[x + 1 - g..e - g] == s[x + 1 - g..e - g] == w[x + 1..e]
    requires w0[0..p - g] == s[0..p - g] && s[..p - g] == w[..p - g]
    requires w0[r..|w|] == s[r..|w|] == w[r..]
    requires w0[x - g] == nd && w0[x - g - INR] == nd + NHW && w0[x - g - INXT] == w[x - INXT]
    requires w0[x - g - INAM] == w[x - INAM]
    ensures GrowShift(w, w0, p, x, nd)
  {
    assert w0[..p - g] == w0[0..p - g] && s[..p - g] == s[0..p - g];
    assert w0[r..] == w0[r..|w|];
    assert x - g + 1 == x + 1 - g && x - g + 1 + w[x] == e - g;
  }

  /** Seen without the new handle of the bank itself, this is a growth. */
  lemma WrittenShift(k: Work, w2: seq<int>, x: int, nd: int, g: int, ncol: int, nrow: int)
    requires WInv(k) && x in WBanks(k) && NHW <= x < |k.w| && k.w[x] >= 0
    requires g == nd + NHW - k.w[x - INR] && 0 < g <= k.iwk - k.inm
    requires GrowWritten(k.w, w2, k.iwk, x, nd, g, k.w[x - INXT], ncol, nrow)
    ensures |w2| == |k.w| && k.w[x - INXT] < |w2|
    ensures GrowShift(k.w, w2[k.w[x - INXT] := x], k.iwk, x, nd)
  {
    hide WTiles, WInds, WDropSum, WTop, Shifted, GrowWritten, GrowShift;
    GrowBounds(k, x);
    HandleZone(k, x);
    WrittenWords(k.w, w2, k.iwk, x, nd, g, k.w[x - INXT], ncol, nrow);
  }

  /** The banks below the one that has grown, where they are now. */
  ghost function LowBanks(k: Work, x: int, g: int): set<int>
    requires WLayout(k)
  {
    set z | z in WBanks(k) && z < x :: z - g
  }

  lemma LowTiles(k: Work, w0: seq<int>, x: int, nd: int, g: int, y: int, ld: int)
    requires WInv(k) && x in WBanks(k) && GrowShift(k.w, w0, k.iwk, x, nd) && Zone(k, ld)
    requires g == nd + NHW - k.w[x - INR] && g <= k.iwk - k.inm && y == x - g
    ensures ld < |w0| && k.iwk - g <= y - (NHW - 1) <= k.fix
    ensures var w2 := w0[ld := y];
            WTiles(w2, k.iwk - g, y - (NHW - 1)) && WInds(w2, k.iwk - g, y - (NHW - 1)) == LowBanks(k, x, g)
  {
    hide WTiles, WInds, WDropSum, WTop, GrowShift, WBank;
    GrowBounds(k, x);
    GrowSized(k.w, w0, k.iwk, x, nd);
    GrowTiles(k.w, w0, k.iwk, x, k.fix, nd);
    WTilesRange(w0, k.iwk - g, y - (NHW - 1));
    WTilesFrame(w0, w0[ld := y], k.iwk - g, y - (NHW - 1));
  }

  lemma LowFound(k: Work, w0: seq<int>, x: int, nd: int, g: int, y: int, ld: int)
    requires WInv(k) && x in WBanks(k) && GrowShift(k.w, w0, k.iwk, x, nd) && Zone(k, ld) && 0 <= ld < |k.w|
    requires k.w[ld] == x
    requires g == nd + NHW - k.w[x - INR] && g <= k.iwk - k.inm && y == x - g
    ensures ld < |w0| && HandlesFind(w0[ld := y], LowBanks(k, x, g), k.base, k.fix, g)
  {
    hide WTiles, WInds, WDropSum, WTop, GrowShift, WBank;
    GrowSized(k.w, w0, k.iwk, x, nd);
    GrowBounds(k, x);
    forall z' | z' in LowBanks(k, x, g) ensures HandleFinds(w0[ld := y], z', k.base, k.fix, g) {
      var z := z' + g;
      GrowBounds(k, z);
      MovedHeader(k, w0, x, nd, z);
      if k.w[z] >= 0 {
        HandleZone(k, z);
        ZoneWord(k, w0, x, nd, k.w[z - INXT]);
      }
    }
  }

  lemma HandleZone(k: Work, z: int)
    requires WInv(k) && z in WBanks(k) && NHW <= z < |k.w| && k.w[z] >= 0
    ensures Zone(k, k.w[z - INXT]) && 0 <= k.w[z - INXT] < |k.w| && k.w[k.w[z - INXT]] == z
  {
    GrowBounds(k, z);
  }

  lemma AllSet(k: Work, w0: seq<int>, w3: seq<int>, x: int, nd: int, g: int, y: int, ld: int)
    requires WInv(k) && x in WBanks(k) && NHW <= x < |k.w| && k.w[x] >= 0 && GrowShift(k.w, w0, k.iwk, x, nd)
    requires g == nd + NHW - k.w[x - INR] && g <= k.iwk - k.inm && y == x - g && ld == k.w[x - INXT] && 0 <= nd
    requires 0 <= ld < |w0| && HandlesSet(w0[ld := y], w3, LowBanks(k, x, g), k.base, k.fix)
    ensures HandlesSet(w0, w3, MovedBanks(k, x, g), k.base, k.fix)
  {
    hide WTiles, WInds, WDropSum, WTop, GrowShift, WBank;
    var w2, low, moved := w0[ld := y], LowBanks(k, x, g), MovedBanks(k, x, g);
    HandleZone(k, x);
    MovedHeader(k, w0, x, nd, x);
    GrowSized(k.w, w0, k.iwk, x, nd);
    GrowBounds(k, x);
    OwnHandle(k, w0, w3, x, nd, g, y, ld);
    forall z' | z' in moved ensures Known(w0, w3, z') {
      var z := z' + g;
      GrowBounds(k, z);
      MovedHeader(k, w0, x, nd, z);
      if z != x { assert z' in low && Known(w2, w3, z'); }
    }
    forall i | 0 <= i < |w0| ensures SetAt(w0, w3, moved, i) {
      assert SetAt(w2, w3, low, i);
      if i != ld && w3[i] != w2[i] {
        GrowBounds(k, w3[i] + g);
        MovedHeader(k, w0, x, nd, w3[i] + g);
      }
    }
  }

  lemma OwnHandle(k: Work, w0: seq<int>, w3: seq<int>, x: int, nd: int, g: int, y: int, ld: int)
    requires WInv(k) && x in WBanks(k) && NHW <= x < |k.w| && k.w[x] >= 0 && GrowShift(k.w, w0, k.iwk, x, nd)
    requires g == nd + NHW - k.w[x - INR] && g <= k.iwk - k.inm && y == x - g && ld == k.w[x - INXT]
    requires 0 <= ld < |w0| && HandlesSet(w0[ld := y], w3, LowBanks(k, x, g), k.base, k.fix)
    ensures |w3| == |w0| && w3[ld] == y
  {
    hide WTiles, WInds, WDropSum, WTop, GrowShift, WBank;
    var w2, low := w0[ld := y], LowBanks(k, x, g);
    HandleZone(k, x);
    GrowSized(k.w, w0, k.iwk, x, nd);
    assert SetAt(w2, w3, low, ld);
    if w3[ld] != w2[ld] {
      var z := w3[ld] + g;
      GrowBounds(k, z);
      GrowBounds(k, x);
      MovedHeader(k, w0, x, nd, z);
      HandleLeads(k, z);
    }
  }

  // ---- The zeroing loop ---------------------------------------------------------------------------------

  /** Zeroes words from `izer` on; the source takes a length, `nzer`, for their end. */
  method ZeroFrom(w: array<int>, izer: int, nzer: int)
    requires 0 <= izer && nzer <= w.Length
    modifies w
    ensures forall i :: 0 <= i < w.Length ==> w[i] == if izer <= i < nzer then 0 else old(w[i])
  {
    var i := izer;
    while i < nzer
      invariant izer <= i
      invariant forall j :: 0 <= j < w.Length ==> w[j] == if izer <= j < i && j < nzer then 0 else old(w[j])
    {
      w[i] := 0;
      i := i + 1;
    }
  }

  lemma FreshKnown(w0: seq<int>, w0': seq<int>, w3: seq<int>, w4: seq<int>, y: int, izer: int, end: int)
    requires PatchedWords(w0, w0', w3, w4, izer, end) && Known(w0, w3, y)
    requires y < izer && (INXT <= y < |w0| && w0[y] >= 0 ==> w0[y - INXT] < izer || end <= w0[y - INXT])
    ensures Known(w0', w4, y)
  {
  }

  lemma FreshSetAt(w0: seq<int>, w0': seq<int>, w3: seq<int>, w4: seq<int>, b: set<int>, i: int, izer: int, end: int)
    requires PatchedWords(w0, w0', w3, w4, izer, end) && 0 <= i < |w0| && SetAt(w0, w3, b, i)
    requires w3[i] != w0[i] ==> w3[i] < izer
    ensures SetAt(w0', w4, b, i)
  {
  }

  lemma Patched(w0: seq<int>, w3: seq<int>, w4: seq<int>, izer: int, end: int, base: int, fix: int)
    returns (w0': seq<int>)
    requires |w0| == |w3| == |w4| && 0 <= izer <= end <= |w0|
    requires forall i :: 0 <= i < |w3| && (i < izer || end <= i) ==> w4[i] == w3[i]
    requires forall i :: base <= i < fix && 0 <= i < |w0| ==> w3[i] == w0[i]
    ensures |w0'| == |w0|
    ensures PatchedWords(w0, w0', w3, w4, izer, end)
    ensures forall i :: base <= i < fix && 0 <= i < |w0| ==> w4[i] == w0'[i]
  {
    w0' := seq(|w0|, j requires 0 <= j < |w0| => if izer <= j < end then w4[j] else w0[j]);
  }

  /** Fresh words of the bank may hold anything. */
  lemma FreshWords(k: Work, w0: seq<int>, w3: seq<int>, w4: seq<int>, x: int, nd: int, g: int, izer: int, end: int)
    returns (w0': seq<int>)
    requires WInv(k) && x in WBanks(k) && NHW <= x < |k.w| && k.w[x] >= 0 && GrowShift(k.w, w0, k.iwk, x, nd)
    requires g == nd + NHW - k.w[x - INR] && g <= k.iwk - k.inm
    requires HandlesSet(w0, w3, MovedBanks(k, x, g), k.base, k.fix)
    requires izer == x - g + 1 + k.w[x] && end == x - g + 1 + nd && |w4| == |w3|
    requires forall i :: 0 <= i < |w3| && (i < izer || end <= i) ==> w4[i] == w3[i]
    ensures GrowShift(k.w, w0', k.iwk, x, nd) && HandlesSet(w0', w4, MovedBanks(k, x, g), k.base, k.fix)
  {
    hide WTiles, WInds, WDropSum, WTop, GrowShift, WBank, SetAt, Known;
    GrowBounds(k, x);
    GrowSized(k.w, w0, k.iwk, x, nd);
    w0' := Patched(w0, w3, w4, izer, end, k.base, k.fix);
    FreshShift(k.w, w0, w0', k.iwk, x, nd, g);
    FreshKnownAll(k, w0, w0', w3, w4, x, nd, g, izer, end);
    FreshSetAll(k, w0, w0', w3, w4, x, nd, g, izer, end);
  }

  /** Outside the fresh words of the bank nothing differs; there `w0'` has what `w4` has. */
  ghost predicate PatchedWords(w0: seq<int>, w0': seq<int>, w3: seq<int>, w4: seq<int>, izer: int, end: int) {
    && |w0'| == |w0| == |w3| == |w4|
    && (forall j :: 0 <= j < |w0| ==> if izer <= j < end then w0'[j] == w4[j] else w0'[j] == w0[j] && w4[j] == w3[j])
  }

  lemma FreshKnownAll(k: Work, w0: seq<int>, w0': seq<int>, w3: seq<int>, w4: seq<int>, x: int, nd: int, g: int,
                      izer: int, end: int)
    requires WInv(k) && x in WBanks(k) && NHW <= x < |k.w| && k.w[x] >= 0 && GrowShift(k.w, w0, k.iwk, x, nd)
    requires g == nd + NHW - k.w[x - INR] && g <= k.iwk - k.inm
    requires izer == x - g + 1 + k.w[x] && end == x - g + 1 + nd && PatchedWords(w0, w0', w3, w4, izer, end)
    requires forall z' :: z' in MovedBanks(k, x, g) ==> Known(w0, w3, z')
    ensures forall z' :: z' in MovedBanks(k, x, g) ==> Known(w0', w4, z')
  {
    hide WTiles, WInds, WDropSum, WTop, GrowShift, WBank, Known;
    GrowSized(k.w, w0, k.iwk, x, nd);
    forall z' | z' in MovedBanks(k, x, g) ensures Known(w0', w4, z') {
      FreshHeader(k, w0, x, nd, g, z' + g);
      FreshKnown(w0, w0', w3, w4, z', izer, end);
    }
  }

  lemma FreshSetAll(k: Work, w0: seq<int>, w0': seq<int>, w3: seq<int>, w4: seq<int>, x: int, nd: int, g: int,
                    izer: int, end: int)
    requires WInv(k) && x in WBanks(k) && NHW <= x < |k.w| && k.w[x] >= 0 && GrowShift(k.w, w0, k.iwk, x, nd)
    requires g == nd + NHW - k.w[x - INR] && g <= k.iwk - k.inm
    requires izer == x - g + 1 + k.w[x] && end == x - g + 1 + nd && PatchedWords(w0, w0', w3, w4, izer, end)
    requires forall i :: 0 <= i < |w0| ==> SetAt(w0, w3, MovedBanks(k, x, g), i)
    ensures forall i :: 0 <= i < |w0'| ==> SetAt(w0', w4, MovedBanks(k, x, g), i)
  {
    hide WTiles, WInds, WDropSum, WTop, GrowShift, WBank, SetAt;
    forall i | 0 <= i < |w0'| ensures SetAt(w0', w4, MovedBanks(k, x, g), i) {
      SetAtBank(w0, w3, MovedBanks(k, x, g), i);
      if w3[i] != w0[i] { FreshHeader(k, w0, x, nd, g, w3[i] + g); }
      FreshSetAt(w0, w0', w3, w4, MovedBanks(k, x, g), i, izer, end);
    }
  }

  lemma SetAtBank(w: seq<int>, w': seq<int>, b: set<int>, i: int)
    requires 0 <= i < |w| == |w'| && SetAt(w, w', b, i)
    ensures w'[i] == w[i] || w'[i] in b
  {
  }

  lemma FreshHeader(k: Work, w0: seq<int>, x: int, nd: int, g: int, z: int)
    requires WInv(k) && x in WBanks(k) && z in WBanks(k) && z <= x && GrowShift(k.w, w0, k.iwk, x, nd)
    requires NHW <= x < |k.w| && k.w[x] >= 0 && g == nd + NHW - k.w[x - INR] && g <= k.iwk - k.inm
    ensures INXT <= z - g < x - g + 1 + k.w[x] && NHW <= z < |k.w| && z - g < |w0| && w0[z - g - INXT] == k.w[z - INXT]
    ensures w0[z - g] >= 0 ==> Zone(k, w0[z - g - INXT]) && 0 <= w0[z - g - INXT] < |w0|
    ensures x - g + 1 + nd <= k.fix && k.base <= x - g
  {
    hide WTiles, WInds, WDropSum, WTop, GrowShift, WBank;
    GrowBounds(k, z);
    GrowBounds(k, x);
    GrowSized(k.w, w0, k.iwk, x, nd);
    MovedHeader(k, w0, x, nd, z);
    if k.w[z] >= 0 { HandleZone(k, z); }
  }

  lemma FreshShift(w: seq<int>, w0: seq<int>, w0': seq<int>, p: int, x: int, nd: int, g: int)
    requires GrowShift(w, w0, p, x, nd) && g == nd + NHW - w[x - INR] && |w0'| == |w0|
    requires forall i :: 0 <= i < |w0| && (i < x - g + 1 + w[x] || x - g + 1 + nd <= i) ==> w0'[i] == w0[i]
    ensures GrowShift(w, w0', p, x, nd)
  {
    var q, r := x - (NHW - 1), x - (NHW - 1) + w[x - INR];
    SameSlice(w0', w0, p - g, q - g);
    SameSlice(w0', w0, x - g + 1, x - g + 1 + w[x]);
    SameSlice(w0', w0, 0, p - g);
    SameSlice(w0', w0, r, |w0|);
    SameEnds(w0', w0, p - g, r);
  }

  lemma SameEnds(a: seq<int>, b: seq<int>, i: int, j: int)
    requires 0 <= i <= |a| == |b| && 0 <= j <= |a| && a[0..i] == b[0..i] && a[j..|a|] == b[j..|b|]
    ensures a[..i] == b[..i] && a[j..] == b[j..]
  {
    assert a[..i] == a[0..i] && b[..i] == b[0..i] && a[j..] == a[j..|a|] && b[j..] == b[j..|b|];
  }

  // ---- The whole array after each change -------------------------------------------------------------------

  /**
   All but one table is in order, the lists of banks are the same, and work banks hold `m`; columns, rows
   and names of all other work banks are as they were.
   */
  ghost predicate WorkDone(v: Snapshot, v': Snapshot, ch: seq<seq<int>>, ld: int, m: map<int, seq<int>>) {
    && SoundBut(v', ch, ld) && Holding(WorkOf(v'), m) && HeadsKept(WorkOf(v), WorkOf(v'), m, ld)
    && Meaningful(v.a.w, ch) && Meaningful(v'.a.w, ch) && Meaning(v'.a.w, ch) == Meaning(v.a.w, ch)
    && LinkHandle(WorkOf(v'), ld) && WorkChanged(v, v')
  }

  lemma LinkPlaces(v: Snapshot, ch: seq<seq<int>>, l: int, n: nat)
    requires SoundBut(v, ch, l) && n < v.a.cap
    ensures LinkHandle(WorkOf(v), v.idl + 1 + n) && v.fix <= v.idl + 1 + n <= v.a.njw
  {
    assert LinkStateBut(WorkOf(v), v.idl, ch, n, l);
  }

  lemma GrownNamed(k: Work, k': Work, w0: seq<int>, x: int, nd: int, g: int, top: int)
    requires WInv(k) && x in WBanks(k) && Grown(k, k', w0, x, nd, g) && top <= k.iwk - g
    ensures |k'.w| == |k.w| && forall i :: k.base <= i < top && 0 <= i < |k.w| ==> k'.w[i] == k.w[i]
  {
    hide WTiles, WInds, WDropSum, WTop, WBank;
    GrowSized(k.w, w0, k.iwk, x, nd);
    forall i | k.base <= i < top && 0 <= i < |k.w| ensures k'.w[i] == k.w[i] {
      assert w0[..k.iwk - g][i] == k.w[..k.iwk - g][i];
    }
  }

  lemma GrowDone(v: Snapshot, v': Snapshot, ch: seq<seq<int>>, w0: seq<int>, x: int, nd: nat, g: int, ld: int,
                 m: map<int, seq<int>>) returns (m': map<int, seq<int>>)
    requires SoundBut(v, ch, ld) && Holding(WorkOf(v), m) && x in WBanks(WorkOf(v)) && NHW <= x < |v.a.w|
    requires v.a.w[x] >= 0 && v.a.w[x - INXT] == ld
    requires Grown(WorkOf(v), WorkOf(v'), w0, x, nd, g) && v.a.igp <= v.a.iwk - g
    requires v' == v.(a := v.a.(w := v'.a.w, iwk := v'.a.iwk), igw := v'.igw)
    ensures WorkDone(v, v', ch, ld, m') && Reshaped(m, m', ld, nd) && v'.a.w[ld] == x - g
  {
    hide SameHead;
    hide Inv, WTiles, WInds, WDropSum, WTop, WBank, Grown, Meaning, Meaningful, LinkState, SameBankWords, HeldAt,
         LinkStateBut;
    GrownShape(WorkOf(v), WorkOf(v'), w0, x, nd, g);
    m' := GrownHolding(WorkOf(v), WorkOf(v'), w0, x, nd, g, m);
    GrownHeads(WorkOf(v), WorkOf(v'), w0, x, nd, g, m);
    assert HeadsKept(WorkOf(v), WorkOf(v'), m', ld);
    GrownNamed(WorkOf(v), WorkOf(v'), w0, x, nd, g, v.a.igp);
    WorkBelow(v, ch, ld);
    GrownAllMoved(v, v', ch, w0, x, nd, g, ld);
    GrownLink(WorkOf(v), WorkOf(v'), w0, x, nd, g);
    LinksMoved(v, v', ch, ld);
  }

  lemma GrownAllMoved(v: Snapshot, v': Snapshot, ch: seq<seq<int>>, w0: seq<int>, x: int, nd: nat, g: int, ld: int)
    requires SoundBut(v, ch, ld) && x in WBanks(WorkOf(v)) && NHW <= x < |v.a.w|
    requires v.a.w[x] >= 0 && v.a.w[x - INXT] == ld && Grown(WorkOf(v), WorkOf(v'), w0, x, nd, g) && v'.idl == v.idl
    ensures forall n: nat :: n < v.a.cap && v.idl + 1 + n != ld ==> MovedName(v, v', n)
  {
    hide Inv, WTiles, WInds, WDropSum, WTop, WBank, Grown, LinkState, HandleMoved, LinkHandle, LinkStateBut;
    forall n: nat | n < v.a.cap && v.idl + 1 + n != ld ensures MovedName(v, v', n) {
      LinkPlaces(v, ch, ld, n);
      GrownMoved(WorkOf(v), WorkOf(v'), w0, x, nd, g, v.idl + 1 + n);
    }
  }

  lemma GrownLink(k: Work, k': Work, w0: seq<int>, x: int, nd: nat, g: int)
    requires WInv(k) && x in WBanks(k) && NHW <= x < |k.w| && k.w[x] >= 0 && Grown(k, k', w0, x, nd, g)
    ensures WInv(k') && LinkHandle(k', k.w[x - INXT]) && k'.w[k.w[x - INXT]] == x - g
  {
    hide WTiles, WInds, WDropSum, WTop, WBank, Grown;
    GrownHandle(k, k', w0, x, nd, g, x);
    GrownSelf(k, k', w0, x, nd, g);
    GrownInv(k, k', w0, x, nd, g);
    assert x - g == Lowered(x, g, x);
  }

  lemma GrownShape(k: Work, k': Work, w0: seq<int>, x: int, nd: int, g: int)
    requires WInv(k) && Grown(k, k', w0, x, nd, g)
    ensures k' == k.(w := k'.w, iwk := k.iwk - g, igw := if k.igw != 0 && k.igw < x then k.igw - g else k.igw) && g > 0
  {
  }

  lemma BeginDone(v: Snapshot, v': Snapshot, ch: seq<seq<int>>, ld: int, nd: nat, m: map<int, seq<int>>)
    returns (m': map<int, seq<int>>)
    requires SoundBut(v, ch, ld) && Holding(WorkOf(v), m) && Begun(WorkOf(v), WorkOf(v'), ld, nd)
    requires v.a.igp <= v.a.iwk - (nd + NHW) && v' == v.(a := v.a.(w := v'.a.w, iwk := v'.a.iwk))
    ensures WorkDone(v, v', ch, ld, m') && ld !in m && ld in m' && |m'[ld]| == nd && m' == m[ld := m'[ld]]
  {
    hide SameHead, HeadsKept;
    hide Inv, WTiles, WInds, WDropSum, WTop, WBank, Meaning, Meaningful, LinkState, SameBankWords, HeldAt;
    m' := BegunHolding(WorkOf(v), WorkOf(v'), ld, nd, m);
    BegunLink(WorkOf(v), WorkOf(v'), ld, nd);
    forall n: nat | n < v.a.cap && v.idl + 1 + n != ld ensures MovedName(v, v', n) {
      LinkPlaces(v, ch, ld, n);
      BegunMoved(WorkOf(v), WorkOf(v'), ld, nd, v.idl + 1 + n);
    }
    LinksMoved(v, v', ch, ld);
  }

  lemma BegunLink(k: Work, k': Work, ld: int, nd: nat)
    requires WInv(k) && Begun(k, k', ld, nd)
    ensures WInv(k') && LinkHandle(k', ld)
  {
    hide WTiles, WInds, WDropSum, WTop, WBank;
    BegunInv(k, k', ld, nd);
  }

  lemma RefillDone(v: Snapshot, v': Snapshot, ch: seq<seq<int>>, x: int, ld: int, nd: nat, m: map<int, seq<int>>)
    returns (m': map<int, seq<int>>)
    requires SoundBut(v, ch, ld) && Holding(WorkOf(v), m) && x in WBanks(WorkOf(v))
    requires Refilled(WorkOf(v), WorkOf(v'), x, nd) && v.a.w[x - INXT] == ld && v' == v.(a := v.a.(w := v'.a.w))
    ensures WorkDone(v, v', ch, ld, m') && Reshaped(m, m', ld, nd)
  {
    hide SameHead, HeadsKept;
    hide Inv, WTiles, WInds, WDropSum, WTop, WBank, Meaning, Meaningful, LinkState, SameBankWords, HeldAt;
    m' := RefilledHolding(WorkOf(v), WorkOf(v'), x, nd, m);
    RefilledLink(WorkOf(v), WorkOf(v'), x, nd);
    GrowBounds(WorkOf(v), x);
    WorkBelow(v, ch, ld);
    forall n: nat | n < v.a.cap && v.idl + 1 + n != ld ensures MovedName(v, v', n) {
      LinkPlaces(v, ch, ld, n);
      RefilledMoved(WorkOf(v), WorkOf(v'), x, nd, v.idl + 1 + n);
    }
    LinksMoved(v, v', ch, ld);
  }

  lemma WorkBelow(v: Snapshot, ch: seq<seq<int>>, l: int)
    requires SoundBut(v, ch, l)
    ensures 0 < v.a.base <= v.a.inm <= v.a.igp <= v.a.iwk <= v.fix <= v.a.njw && |v.a.w| == v.a.njw + 1
  {
  }

  lemma RefilledLink(k: Work, k': Work, x: int, nd: nat)
    requires WInv(k) && Refilled(k, k', x, nd) && x in WBanks(k)
    ensures WInv(k') && LinkHandle(k', k.w[x - INXT])
  {
    hide WTiles, WInds, WDropSum, WTop;
    RefilledInv(k, k', x, nd);
    GrowBounds(k, x);
  }

  lemma FewerHeads(k: Work, k': Work, m: map<int, seq<int>>, ld: int)
    requires HeadsKept(k, k', m, ld)
    ensures HeadsKept(k, k', m - {ld}, ld)
  {
  }

  lemma MarkDone(v: Snapshot, v': Snapshot, ch: seq<seq<int>>, x: int, ld: int, m: map<int, seq<int>>)
    requires SoundBut(v, ch, ld) && Holding(WorkOf(v), m) && x in WBanks(WorkOf(v))
    requires Marked(WorkOf(v), WorkOf(v'), x) && v.a.w[x - INXT] == ld
    requires v' == v.(a := v.a.(w := v'.a.w), ndw := v'.ndw, igw := v'.igw)
    ensures WorkDone(v, v', ch, ld, m - {ld}) && ld in m && 0 <= ld < |v'.a.w| && v'.a.w[ld] == 0
  {
    hide SameHead, HeadsKept, LinkStateBut, HandleMoved;
    hide Inv, WTiles, WInds, WDropSum, WTop, Meaning, Meaningful, LinkState, SameBankWords, HeldAt;
    MarkedHolding(WorkOf(v), WorkOf(v'), x, m);
    FewerHeads(WorkOf(v), WorkOf(v'), m, ld);
    GrowBounds(WorkOf(v), x);
    WorkBelow(v, ch, ld);
    forall n: nat | n < v.a.cap && v.idl + 1 + n != ld ensures MovedName(v, v', n) {
      LinkPlaces(v, ch, ld, n);
      MarkedMoved(WorkOf(v), WorkOf(v'), x, v.idl + 1 + n);
    }
    LinksMoved(v, v', ch, ld);
  }

  // ---- The operations -----------------------------------------------------------------------------------------

  const HWORK := 0x4b524f57  // the name "WORK"
  const W_INSUFFICIENT_SPACE_FOR_NEW_BANK := -2
  const WRONG_ARGUMENT := -4
  const W_INSUFFICIENT_SPACE_TO_INCREASE_LENGTH_OF_EXISTING_BANK := -6

  /** The bank at `x` has these columns, rows and name. */
  ghost predicate Headed(w: seq<int>, x: int, ncol: int, nrow: int, name: int) {
    ICOL <= x < |w| && w[x - ICOL] == ncol && w[x - IROW] == nrow && w[x - INAM] == name
  }

  /** Of the `n` words from `from` on those before word `n` of the array are zero, if any; others are as they were. */
  ghost predicate Zeroed(w: seq<int>, w': seq<int>, from: int, n: int, zero: bool) {
    && 0 <= from && from + n <= |w| == |w'|
    && forall i :: from <= i < from + n ==> w'[i] == if zero && i < n then 0 else w[i]
  }

  /**
   The bank with handle `ld` has got `nd` words: one that had to move has columns and rows asked for and its old
   name, one that changed in place its old header.
   */
  ghost predicate ChangedWords(w: seq<int>, w': seq<int>, ld: int, ncol: int, nrow: int, nd: int, zero: bool) {
    && |w'| == |w| && 0 <= ld < |w| && NHW <= w[ld] < |w|
    && (if nd + NHW > w[w[ld] - INR]
        then Headed(w', w'[ld], ncol, nrow, w[w[ld] - INAM])
        else w'[ld] == w[ld] && SameHead(w, w', w[ld], w[ld]))
    && (nd > w[w[ld]] ==> Zeroed(w, w', w'[ld] + 1 + w[w[ld]], nd - w[w[ld]], zero))
  }

  /** The words of a new bank of `nd` words at `id` with handle `ld`. */
  ghost predicate NewWritten(w: seq<int>, w': seq<int>, id: int, nd: nat, ld: int, ncol: int, nrow: int, zero: bool) {
    && ICOL <= id && id + nd < |w| == |w'| && 0 <= ld < |w| && Headed(w', id, ncol, nrow, HWORK)
    && Zeroed(w, w', id + 1, nd, zero)
    && w'[id] == nd && w'[id - INR] == nd + NHW && w'[id - INXT] == ld && w'[ld] == id
    && (forall i :: 0 <= i < |w| && i != ld && (i < id - ICOL || id + nd < i) ==> w'[i] == w[i])
  }

  method WriteNew(w: array<int>, id: int, nd: nat, ld: int, ncol: int, nrow: int, zero: bool)
    requires ICOL <= id && id + nd < w.Length && 0 <= ld < w.Length && (ld < id - ICOL || id + nd < ld)
    modifies w
    ensures NewWritten(old(w[..]), w[..], id, nd, ld, ncol, nrow, zero)
  {
    w[ld] := id;
    w[id - ICOL] := ncol;
    w[id - IROW] := nrow;
    w[id - INAM] := HWORK;
    w[id - INR] := nd + NHW;
    w[id - INXT] := ld;
    w[id] := nd;
    if nd > 0 && zero {
      ZeroFrom(w, id + 1, nd);
    }
  }

  /** A new work bank at the lower end of the work area. */
  method BeginWork(b: BosArray, ld: int, ncol: int, nrow: int, nd: nat, ghost m: map<int, seq<int>>)
    returns (ghost m': map<int, seq<int>>)
    requires SoundBut(b.Value(), b.ch, ld) && Holding(WorkOf(b.Value()), m)
    requires 0 <= ld < b.w.Length && Zone(WorkOf(b.Value()), ld) && b.w[ld] == 0 && b.igp + nd + NHW <= b.iwk
    modifies b`iwk, b`jw1, b.w
    ensures WorkDone(old(b.Value()), b.Value(), b.ch, ld, m') && b.jw1 == 0
    ensures ld !in m && ld in m' && |m'[ld]| == nd && m' == m[ld := m'[ld]]
    ensures b.iwk == old(b.iwk) - (nd + NHW) && Headed(b.w[..], b.w[ld], ncol, nrow, HWORK)
    ensures Zeroed(old(b.w[..]), b.w[..], b.w[ld] + 1, nd, old(b.jw1) != 1)
  {
    hide SoundBut, WInv, Holding, WorkDone;
    ghost var v := b.Value();
    WorkBelow(v, b.ch, ld);
    b.iwk := b.iwk - (nd + NHW);
    WriteNew(b.w, b.iwk + (NHW - 1), nd, ld, ncol, nrow, b.jw1 != 1);
    b.jw1 := 0;
    m' := BeginDone(v, b.Value(), b.ch, ld, nd, m);
  }

  /** The bank changes its length within the words it has. */
  method RefillWork(b: BosArray, ld: int, nd: nat, ghost ncol: int, ghost nrow: int, ghost m: map<int, seq<int>>)
    returns (ghost m': map<int, seq<int>>)
    requires SoundBut(b.Value(), b.ch, ld) && Holding(WorkOf(b.Value()), m)
    requires 0 <= ld < b.w.Length && b.w[ld] in WBanks(WorkOf(b.Value())) && NHW <= b.w[ld] < b.w.Length
    requires b.w[b.w[ld]] >= 0 && b.w[b.w[ld] - INXT] == ld && nd + NHW <= b.w[b.w[ld] - INR]
    modifies b`jw1, b.w
    ensures WorkDone(old(b.Value()), b.Value(), b.ch, ld, m') && Reshaped(m, m', ld, nd) && b.jw1 == 0
    ensures ChangedWords(old(b.w[..]), b.w[..], ld, ncol, nrow, nd, old(b.jw1) != 1)
  {
    hide WTiles, WInds, WDropSum, WTop, Inv, Holding, WorkDone, Reshaped, WBank, LinkStateBut;
    ghost var v := b.Value();
    WorkBelow(v, b.ch, ld);
    var id := b.w[ld];
    GrowBounds(WorkOf(v), id);
    RefillHandle(WorkOf(v), id);
    var izer, nzer := id + b.w[id] + 1, nd - b.w[id];
    b.w[id] := nd;
    if nzer > 0 && b.jw1 != 1 {
      ZeroFrom(b.w, izer, nzer);
    }
    b.jw1 := 0;
    m' := RefillDone(v, b.Value(), b.ch, id, ld, nd, m);
  }

  lemma RefillHandle(k: Work, x: int)
    requires WInv(k) && x in WBanks(k) && NHW <= x < |k.w| && k.w[x] >= 0
    ensures k.w[x - INXT] < k.iwk || x - (NHW - 1) + k.w[x - INR] <= k.w[x - INXT]
  {
    GrowBounds(k, x);
  }

  /** Header words of a bank, and its handle. */
  method WriteHeader(w: array<int>, id: int, nd: int, ld: int, ncol: int, nrow: int)
    requires ICOL <= id < w.Length && 0 <= ld < w.Length && (ld < id - ICOL || id < ld)
    modifies w
    ensures HeaderSet(old(w[..]), w[..], id, ld, id, ncol, nrow, nd)
  {
    w[ld] := id;
    w[id - ICOL] := ncol;
    w[id - IROW] := nrow;
    w[id - INR] := nd + NHW;
    w[id] := nd;
  }

  /** The copy, and the header of the bank at its new place; its handle leads there. */
  method WriteGrown(w: array<int>, p: int, x: int, nd: int, g: int, ld: int, ncol: int, nrow: int)
    requires NHW <= x < w.Length && 0 <= w[x] && 0 <= g <= p <= x + w[x] + 1 <= w.Length && g <= x - ICOL
    requires 0 <= ld < w.Length
    requires ld < x - g - ICOL || x - g < ld
    modifies w
    ensures GrowWritten(old(w[..]), w[..], p, x, nd, g, ld, ncol, nrow)
  {
    hide Shifted, HeaderSet;
    CopyDown(w, p, x + w[x] + 1 - p, g);
    WriteHeader(w, x - g, nd, ld, ncol, nrow);
  }

  lemma GrowRanges(k: Work, x: int, nd: int, g: int)
    requires WInv(k) && x in WBanks(k) && NHW <= x < |k.w| && k.w[x] >= 0
    requires g == nd + NHW - k.w[x - INR] && 0 < g <= k.iwk - k.inm
    ensures g <= k.iwk <= x + k.w[x] + 1 <= x - g + 1 + nd <= k.fix <= |k.w| && g <= x - ICOL
    ensures k.iwk - g <= x - g - (NHW - 1) <= k.fix && 0 <= k.base <= k.iwk - g
    ensures 0 <= k.w[x - INXT] < |k.w| && Zone(k, k.w[x - INXT]) && k.w[k.w[x - INXT]] == x
    ensures x - g + 1 + k.w[x] == x + k.w[x - INR] - (nd - k.w[x]) - (NHW - 1)
  {
    hide WTiles, WInds, WDropSum, WTop;
    GrowBounds(k, x);
  }

  /** The words after SetHandles, as a growth of the work area. */
  lemma GrownWords(k: Work, w2: seq<int>, w3: seq<int>, w4: seq<int>, k': Work, x: int, nd: int, g: int, ncol: int,
                   nrow: int, izer: int, end: int) returns (w0: seq<int>)
    requires WInv(k) && x in WBanks(k) && NHW <= x < |k.w| && k.w[x] >= 0 && 0 <= nd
    requires g == nd + NHW - k.w[x - INR] && 0 < g <= k.iwk - k.inm
    requires GrowWritten(k.w, w2, k.iwk, x, nd, g, k.w[x - INXT], ncol, nrow)
    requires HandlesSet(w2, w3, LowBanks(k, x, g), k.base, k.fix)
    requires izer == x - g + 1 + k.w[x] && end == x - g + 1 + nd && |w4| == |w3|
    requires forall i :: 0 <= i < |w3| && (i < izer || end <= i) ==> w4[i] == w3[i]
    requires k' == k.(w := w4, iwk := k.iwk - g, igw := if k.igw != 0 && k.igw < x then k.igw - g else k.igw)
    ensures Grown(k, k', w0, x, nd, g)
  {
    hide WTiles, WInds, WDropSum, WTop, WBank, GrowWritten, HandlesSet, GrowShift;
    WrittenShift(k, w2, x, nd, g, ncol, nrow);
    GrowRanges(k, x, nd, g);
    var ld := k.w[x - INXT];
    var w1 := w2[ld := x];
    WrittenHandle(k.w, w2, k.iwk, x, nd, g, ld, ncol, nrow);
    assert w1[ld := x - g] == w2;
    AllSet(k, w1, w3, x, nd, g, x - g, ld);
    SetWidth(w1, w3, MovedBanks(k, x, g), k.base, k.fix);
    w0 := FreshWords(k, w1, w3, w4, x, nd, g, izer, end);
  }

  lemma SetWidth(w: seq<int>, w': seq<int>, b: set<int>, base: int, fix: int)
    requires HandlesSet(w, w', b, base, fix)
    ensures |w'| == |w|
  {
  }

  lemma WrittenHandle(w: seq<int>, w2: seq<int>, p: int, x: int, nd: int, g: int, ld: int, ncol: int, nrow: int)
    requires GrowWritten(w, w2, p, x, nd, g, ld, ncol, nrow)
    ensures |w2| == |w| && 0 <= ld < |w2| && w2[ld] == x - g
  {
  }

  /** The bank grows: it and all lower banks move down. */
  method GrowWork(b: BosArray, ld: int, ncol: int, nrow: int, nd: nat, ghost m: map<int, seq<int>>)
    returns (ghost m': map<int, seq<int>>)
    requires SoundBut(b.Value(), b.ch, ld) && Holding(WorkOf(b.Value()), m)
    requires 0 <= ld < b.w.Length && b.w[ld] in WBanks(WorkOf(b.Value())) && NHW <= b.w[ld] < b.w.Length
    requires b.w[b.w[ld]] >= 0 && b.w[b.w[ld] - INXT] == ld && nd + NHW > b.w[b.w[ld] - INR]
    requires b.igp + (nd + NHW - b.w[b.w[ld] - INR]) <= b.iwk
    modifies b`iwk, b`igw, b`jw1, b.w
    ensures WorkDone(old(b.Value()), b.Value(), b.ch, ld, m') && Reshaped(m, m', ld, nd) && b.jw1 == 0
    ensures b.iwk == old(b.iwk) - (nd + NHW - old(b.w[b.w[ld] - INR]))
    ensures ChangedWords(old(b.w[..]), b.w[..], ld, ncol, nrow, nd, old(b.jw1) != 1)
  {
    hide SoundBut, WTiles, WInds, WDropSum, WTop, WBank, Holding, WorkDone, Reshaped, Grown, GrowWritten, HandlesSet,
         HandlesFind, Headed;
    ghost var v, k := b.Value(), WorkOf(b.Value());
    WorkBelow(v, b.ch, ld);
    WorkSound(v, b.ch, ld);
    var id := b.w[ld];
    var ndif := nd + NHW - b.w[id - INR];
    GrowRanges(k, id, nd, ndif);
    var nzer := nd - b.w[id];
    var izer := id + b.w[id - INR] - nzer - (NHW - 1);
    ghost var w2 := MoveDown(b, ld, ncol, nrow, nd, ndif);
    ghost var w3 := b.w[..];
    SetWidth(w2, w3, LowBanks(k, id, ndif), b.base, b.fix);
    if nzer > 0 && b.jw1 != 1 {
      ZeroFrom(b.w, izer, nzer);
    }
    b.jw1 := 0;
    ghost var w0 := GrownWords(k, w2, w3, b.w[..], WorkOf(b.Value()), id, nd, ndif, ncol, nrow, izer,
        id - ndif + 1 + nd);
    m' := GrowDone(v, b.Value(), b.ch, w0, id, nd, ndif, ld, m);
    GrownHead(k, w2, w3, b.w[..], id, nd, ndif, ncol, nrow, izer);
    GrownFresh(k, w2, w3, id, nd, ndif, ncol, nrow);
  }

  /** The bank and all lower banks go to their new places, and the handles lead there. */
  method MoveDown(b: BosArray, ld: int, ncol: int, nrow: int, nd: nat, ndif: int) returns (ghost w2: seq<int>)
    requires var k := WorkOf(b.Value());
             && WInv(k) && 0 <= ld < b.w.Length && b.w[ld] in WBanks(k) && NHW <= b.w[ld] < b.w.Length
             && b.w[b.w[ld]] >= 0 && b.w[b.w[ld] - INXT] == ld
             && ndif == nd + NHW - b.w[b.w[ld] - INR] && 0 < ndif <= k.iwk - k.inm
    modifies b`iwk, b`igw, b.w
    ensures var k, x := old(WorkOf(b.Value())), old(b.w[ld]);
            && GrowWritten(k.w, w2, k.iwk, x, nd, ndif, ld, ncol, nrow)
            && HandlesSet(w2, b.w[..], LowBanks(k, x, ndif), k.base, k.fix)
    ensures b.iwk == old(b.iwk) - ndif
    ensures b.igw == if old(b.igw) != 0 && old(b.igw) < old(b.w[ld]) then old(b.igw) - ndif else old(b.igw)
  {
    hide WTiles, WInds, WDropSum, WTop, WBank, GrowWritten, HandlesSet, HandlesFind;
    ghost var k := WorkOf(b.Value());
    var id := b.w[ld];
    GrowRanges(k, id, nd, ndif);
    WriteGrown(b.w, b.iwk, id, nd, ndif, ld, ncol, nrow);
    w2 := b.w[..];
    if b.igw != 0 && b.igw < id {
      b.igw := b.igw - ndif;
    }
    b.iwk := b.iwk - ndif;
    LowReady(k, w2, id, nd, ndif, ncol, nrow);
    SetHandles(b.w, b.iwk, id - ndif, b.base, b.fix, ndif);
  }

  /** Words that the bank has got have what was there before. */
  lemma GrownFresh(k: Work, w2: seq<int>, w3: seq<int>, x: int, nd: int, g: int, ncol: int, nrow: int)
    requires WInv(k) && x in WBanks(k) && NHW <= x < |k.w| && k.w[x] >= 0
    requires g == nd + NHW - k.w[x - INR] && 0 < g <= k.iwk - k.inm
    requires GrowWritten(k.w, w2, k.iwk, x, nd, g, k.w[x - INXT], ncol, nrow)
    requires HandlesSet(w2, w3, LowBanks(k, x, g), k.base, k.fix)
    ensures |w3| == |k.w| && 0 <= x - g && x - g + nd < |k.w|
    ensures forall i :: x - g + 1 + k.w[x] <= i < x - g + 1 + nd ==> w3[i] == k.w[i]
  {
    hide WTiles, WInds, WDropSum, WTop, WBank, LowBanks, SetAt, Known;
    GrowRanges(k, x, nd, g);
    WrittenBehind(k.w, w2, k.iwk, x, nd, g, k.w[x - INXT], ncol, nrow);
  }

  lemma WrittenBehind(w: seq<int>, w2: seq<int>, p: int, x: int, nd: int, g: int, ld: int, ncol: int, nrow: int)
    requires GrowWritten(w, w2, p, x, nd, g, ld, ncol, nrow)
    ensures |w2| == |w| && forall i :: x - g + w[x] < i < |w| && i != ld ==> w2[i] == w[i]
  {
    ShiftedAt(w, p, x + w[x] + 1, g);
  }

  /** Header words of the bank that has grown. */
  lemma GrownHead(k: Work, w2: seq<int>, w3: seq<int>, w4: seq<int>, x: int, nd: int, g: int, ncol: int, nrow: int,
                  izer: int)
    requires WInv(k) && x in WBanks(k) && NHW <= x < |k.w| && k.w[x] >= 0
    requires g == nd + NHW - k.w[x - INR] && 0 < g <= k.iwk - k.inm
    requires GrowWritten(k.w, w2, k.iwk, x, nd, g, k.w[x - INXT], ncol, nrow)
    requires HandlesSet(w2, w3, LowBanks(k, x, g), k.base, k.fix)
    requires izer > x - g && |w4| == |w3| && forall i :: 0 <= i < izer && i < |w3| ==> w4[i] == w3[i]
    ensures Headed(w4, x - g, ncol, nrow, k.w[x - INAM])
  {
    hide WTiles, WInds, WDropSum, WTop, WBank, GrowWritten;
    GrowBounds(k, x);
    WrittenHead(k.w, w2, k.iwk, x, nd, g, k.w[x - INXT], ncol, nrow);
  }

  lemma WrittenHead(w: seq<int>, w2: seq<int>, p: int, x: int, nd: int, g: int, ld: int, ncol: int, nrow: int)
    requires GrowWritten(w, w2, p, x, nd, g, ld, ncol, nrow) && 0 < g < p && p + (NHW - 1) <= x
    ensures Headed(w2, x - g, ncol, nrow, w[x - INAM])
  {
    ShiftedParts(w, p, x + w[x] + 1, g);
    GrowHeader(Shifted(w, p, x + w[x] + 1, g), w, p, x, x + w[x] + 1, g);
  }

  lemma WorkSound(v: Snapshot, ch: seq<seq<int>>, l: int)
    requires SoundBut(v, ch, l)
    ensures WInv(WorkOf(v))
  {
  }

  /** What SetHandles needs. */
  lemma LowReady(k: Work, w2: seq<int>, x: int, nd: int, g: int, ncol: int, nrow: int)
    requires WInv(k) && x in WBanks(k) && NHW <= x < |k.w| && k.w[x] >= 0
    requires g == nd + NHW - k.w[x - INR] && 0 < g <= k.iwk - k.inm
    requires GrowWritten(k.w, w2, k.iwk, x, nd, g, k.w[x - INXT], ncol, nrow)
    ensures |w2| == |k.w| && 0 <= k.base <= k.iwk - g <= x - g - (NHW - 1) <= k.fix
    ensures WTiles(w2, k.iwk - g, x - g - (NHW - 1))
    ensures WInds(w2, k.iwk - g, x - g - (NHW - 1)) == LowBanks(k, x, g)
    ensures HandlesFind(w2, LowBanks(k, x, g), k.base, k.fix, g)
  {
    hide WTiles, WInds, WDropSum, WTop, WBank, GrowWritten, HandlesFind, GrowShift;
    WrittenShift(k, w2, x, nd, g, ncol, nrow);
    GrowRanges(k, x, nd, g);
    var ld := k.w[x - INXT];
    var w0 := w2[ld := x];
    WrittenHandle(k.w, w2, k.iwk, x, nd, g, ld, ncol, nrow);
    assert w0[ld := x - g] == w2;
    LowTiles(k, w0, x, nd, g, x - g, ld);
    LowFound(k, w0, x, nd, g, x - g, ld);
  }

  /** The test of the source that a handle leads to a work bank. */
  predicate BadIndex(id: int, len: int, nxt: int, iwk: int, njw: int, ld: int) {
    id <= iwk || id >= njw || len < 0 || nxt != ld
  }

  /** What bosWcreate does to what work banks hold. */
  ghost predicate WorkOutcome(m: map<int, seq<int>>, m': map<int, seq<int>>, ld: int, nd: int, status: int) {
    if status > 0 then
      && nd >= 0 && ld in m'
      && (if ld in m then Reshaped(m, m', ld, nd) else |m'[ld]| == nd && m' == m[ld := m'[ld]])
    else m' == m
  }

  /** Words of the work bank with handle `ld`, header and unused end included. */
  ghost function WordsAt(w: seq<int>, ld: int): int {
    if 0 <= ld < |w| && INR <= w[ld] < |w| then w[w[ld] - INR] else 0
  }

  /**
   Creates the work bank whose handle is word `ld`, or changes its length (bosWcreate).  Lower
   banks move when it has to grow; every handle leads to its bank again and every bank holds
   what it held.
   */
  method Wcreate(b: BosArray, ld: int, ncol: int, nrow: int, ghost m: map<int, seq<int>>)
    returns (status: int, ghost m': map<int, seq<int>>)
    requires SoundBut(b.Value(), b.ch, ld) && Holding(WorkOf(b.Value()), m)
    requires 0 <= ld < b.w.Length && Zone(WorkOf(b.Value()), ld) && LinkHandle(WorkOf(b.Value()), ld)
    requires b.jw1 != 4 && (b.ndw == 0 || b.igp + ncol * nrow + NHW + b.nresr <= b.iwk)
    modifies b`iwk, b`igw, b`jw1, b.w
    ensures WorkDone(old(b.Value()), b.Value(), b.ch, ld, m')
    ensures WorkOutcome(m, m', ld, ncol * nrow, status)
    ensures status > 0 ==> status == b.w[ld]
    ensures ncol * nrow >= 0 ==> b.jw1 == 0 && b.iwk >= old(b.iwk) - (ncol * nrow + NHW)
    ensures status <= 0 ==> b.w[..] == old(b.w[..]) && b.iwk == old(b.iwk) && b.igw == old(b.igw)
    ensures status == WRONG_ARGUMENT <==> ncol * nrow < 0
    ensures ld !in m && ncol * nrow >= 0 ==>
              (status > 0 <==> old(b.igp) + ncol * nrow + NHW + b.nresr <= old(b.iwk))
              && (status <= 0 ==> status == W_INSUFFICIENT_SPACE_FOR_NEW_BANK)
    ensures ld in m && ncol * nrow >= 0 ==>
              var ndif := ncol * nrow + NHW - old(WordsAt(b.w[..], ld));
              && (status > 0 <==> !(ndif > 0 && ndif + b.nresr > old(b.iwk) - old(b.igp)))
              && (status <= 0 ==> status == W_INSUFFICIENT_SPACE_TO_INCREASE_LENGTH_OF_EXISTING_BANK)
    ensures status > 0 && ld !in m ==>
              && Headed(b.w[..], status, ncol, nrow, 0x4b52_4f57)  // WORK
              && Zeroed(old(b.w[..]), b.w[..], status + 1, ncol * nrow, old(b.jw1) != 1)
    ensures status > 0 && ld in m ==>
              ChangedWords(old(b.w[..]), b.w[..], ld, ncol, nrow, ncol * nrow, old(b.jw1) != 1)
  {
    hide ChangedWords, Headed, Zeroed, SoundBut, WInv, Holding, WorkDone, WBanks;
    ghost var v := b.Value();
    WorkSound(v, b.ch, ld);
    var nd := ncol * nrow;
    m' := m;
    Unchanged(v, b.ch, ld, m);
    HandleHeld(WorkOf(v), m, ld);
    if nd < 0 {
      return WRONG_ARGUMENT, m;
    }
    if b.w[ld] == 0 {
      if nd + NHW + b.nresr > b.iwk - b.igp {
        Wgarbage(b);
        b.jw1 := 0;
        return W_INSUFFICIENT_SPACE_FOR_NEW_BANK, m;
      }
      m' := BeginWork(b, ld, ncol, nrow, nd, m);
    } else {
      var id := b.w[ld];
      if BadIndex(id, b.w[id], b.w[id - INXT], b.iwk, b.njw, ld) {
        assert false;
      }
      var ndif := nd + NHW - b.w[id - INR];
      if ndif <= 0 && b.jw1 != 4 {
        m' := RefillWork(b, ld, nd, ncol, nrow, m);
      } else {
        if ndif > 0 && ndif + b.nresr > b.iwk - b.igp {
          Wgarbage(b);
          b.jw1 := 0;
          return W_INSUFFICIENT_SPACE_TO_INCREASE_LENGTH_OF_EXISTING_BANK, m;
        }
        m' := GrowWork(b, ld, ncol, nrow, nd, m);
      }
    }
    status := b.w[ld];
    HandleNow(old(b.Value()), b.Value(), b.ch, ld, m');
  }

  lemma Unchanged(v: Snapshot, ch: seq<seq<int>>, ld: int, m: map<int, seq<int>>)
    requires SoundBut(v, ch, ld) && Holding(WorkOf(v), m) && LinkHandle(WorkOf(v), ld)
    ensures WorkDone(v, v, ch, ld, m)
  {
    InvMeaningful(v.a, ch);
  }

  lemma NotHeld(k: Work, m: map<int, seq<int>>, ld: int)
    requires WLayout(k) && Holding(k, m) && 0 <= ld < |k.w| && k.w[ld] == 0
    ensures ld !in m
  {
    forall h | h in m ensures h != ld {
      assert HeldAt(k, h, m[h]);
    }
  }

  /** A handle that is set leads to a live bank above the gap. */
  lemma HandleHeld(k: Work, m: map<int, seq<int>>, ld: int)
    requires WInv(k) && Holding(k, m) && LinkHandle(k, ld)
    ensures 0 <= ld < |k.w| && (ld in m <==> k.w[ld] != 0)
    ensures k.w[ld] != 0 ==>
              && k.iwk < k.w[ld] < k.njw && NHW <= k.w[ld] < |k.w| && k.w[k.w[ld]] >= 0 && k.w[k.w[ld] - INXT] == ld
              && NHW <= k.w[k.w[ld] - INR]
  {
    hide WTiles, WInds, WDropSum, WTop, WBank, HeldAt, Holding;
    if k.w[ld] != 0 {
      GrowBounds(k, k.w[ld]);
      HeldBy(k, m, k.w[ld]);
    } else {
      NotHeld(k, m, ld);
    }
  }

  lemma HandleNow(v: Snapshot, v': Snapshot, ch: seq<seq<int>>, ld: int, m: map<int, seq<int>>)
    requires WorkDone(v, v', ch, ld, m) && ld in m
    ensures 0 <= ld < |v'.a.w| && v'.a.w[ld] > 0
  {
    hide Inv, WTiles, WInds, WDropSum, WTop;
    HandleHeld(WorkOf(v'), m, ld);
  }

  /**
   Drops the work bank whose handle is word `ld` (bosWdrop with `jw1` at most one).  It is only
   marked; no space is regained.
   */
  method Wdrop(b: BosArray, ld: int, ghost m: map<int, seq<int>>) returns (status: int, ghost m': map<int, seq<int>>)
    requires SoundBut(b.Value(), b.ch, ld) && Holding(WorkOf(b.Value()), m)
    requires 0 <= ld < b.w.Length && LinkHandle(WorkOf(b.Value()), ld) && b.jw1 <= 1
    modifies b`ndw, b`igw, b`jw1, b.w
    ensures WorkDone(old(b.Value()), b.Value(), b.ch, ld, m') && status == 0
    ensures m' == m - {ld} && b.w[ld] == 0 && b.jw1 == 0
  {
    hide SoundBut, WTiles, WInds, WDropSum, WTop, WBank, Holding, WorkDone, WBanks;
    ghost var v := b.Value();
    WorkSound(v, b.ch, ld);
    HandleHeld(WorkOf(v), m, ld);
    Unchanged(v, b.ch, ld, m);
    m' := m - {ld};
    b.jw1 := 0;
    if b.w[ld] != 0 {
      var id := b.w[ld];
      if id <= b.iwk || id >= b.njw || b.w[id - INXT] != ld {
        assert false;
      }
      var end := id + b.w[id - INR] - (NHW - 1);
      b.ndw := b.ndw + b.w[id - INR];
      b.igw := if b.igw > end then b.igw else end;
      b.w[id] := -b.w[id - INR];
      b.w[ld] := 0;
      MarkDone(v, b.Value(), b.ch, id, ld, m);
    } else {
      assert m - {ld} == m;
    }
    DoneSound(v, b.Value(), b.ch, ld, m');
    // the loop that should regain space tests the handle, which is zero by now
    if b.ndw == 0 {
      NothingMarked(b.Value(), b.ch, ld);
      b.igw := 0;
    }
    status := 0;
  }

  lemma DoneSound(v: Snapshot, v': Snapshot, ch: seq<seq<int>>, ld: int, m: map<int, seq<int>>)
    requires WorkDone(v, v', ch, ld, m)
    ensures SoundBut(v', ch, ld) && WInv(WorkOf(v')) && LinkHandle(WorkOf(v'), ld) && Holding(WorkOf(v'), m)
    ensures v'.idl == v.idl && v'.a.cap == v.a.cap
  {
  }

  lemma NothingMarked(v: Snapshot, ch: seq<seq<int>>, l: int)
    requires SoundBut(v, ch, l) && v.ndw == 0
    ensures v.igw == 0
  {
    NoneDropped(v.a.w, v.a.iwk, v.fix);
  }

  lemma {:induction false} NoneDropped(w: seq<int>, p: int, e: int)
    requires WTiles(w, p, e) && WDropSum(w, p, e) == 0
    ensures WTop(w, p, e) == 0
    decreases e - p
  {
    if p < e {
      WTopBounds(w, p + w[p + NHW - 1 - INR], e);
      NoneDropped(w, p + w[p + NHW - 1 - INR], e);
    }
  }
}
