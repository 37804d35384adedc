/**
 The bank loop of bosins and what it does to the lists of banks (bosread.c).
 */
module Loading {
  import opened Options
  import opened BankLayout
  import opened Chains
  import opened Directory
  import opened NamedArea
  import opened WorkArea
  import opened LinkTables
  import opened BosArrays
  import opened Dropping
  import opened Creating
  import opened Records
  import opened Splicing
  import opened Linking
  import opened Garbage

  /**
   Between two rounds: bank `cur` at `ind` was taken over last and ends the area, or nothing
   has been taken over; the lists will be `t` when the rest of the record has been.
   */
  ghost predicate Continuing(v: Snapshot, ch: seq<seq<int>>, started: bool, cur: Frag, k: nat, ind: int, nami: int,
                             mp: seq<seq<Bank>>, rest: seq<Frag>, t: seq<seq<Bank>>)
    requires Sound(v, ch)
  {
    if started then
      && nami == v.a.base + cur.n && Ends(v, ch, cur.n, k, ind, cur)
      && Pending(mp, cur, rest, Listing(v, ch), t)
    else
      && rest != [] && nami != v.a.base + rest[0].n
      && Load(Listing(v, ch), Grouped(rest)) == t
  }

  lemma ContinueMerge(v: Snapshot, ch: seq<seq<int>>, cur: Frag, k: nat, ind: int, nami: int, mp: seq<seq<Bank>>,
                      rest: seq<Frag>, t: seq<seq<Bank>>, v': Snapshot)
    requires Sound(v, ch) && Continuing(v, ch, true, cur, k, ind, nami, mp, rest, t)
    requires rest != [] && SameBank(cur, rest[0]) && v'.a.base == v.a.base
    requires ListPut(v, ch, v', ch, cur.n, Joined(cur, rest[0]).bank)
    requires Ends(v', ch, cur.n, k, ind, Joined(cur, rest[0]))
    ensures Sound(v', ch) && Continuing(v', ch, true, Joined(cur, rest[0]), k, ind, nami, mp, rest[1..], t)
  {
    hide Sound, Listing, Ends, Pending, Put;
    PendingMerge(mp, cur, rest, Listing(v, ch), t);
  }

  lemma ContinueInsert(v: Snapshot, ch: seq<seq<int>>, started: bool, cur: Frag, k: nat, ind: int, nami: int,
                       mp: seq<seq<Bank>>, rest: seq<Frag>, t: seq<seq<Bank>>,
                       v': Snapshot, ch': seq<seq<int>>, k': nat, ind': int)
    requires Sound(v, ch) && Continuing(v, ch, started, cur, k, ind, nami, mp, rest, t)
    requires rest != [] && (started ==> !SameBank(cur, rest[0])) && v'.a.base == v.a.base
    requires ListPut(v, ch, v', ch', rest[0].n, rest[0].bank) && Ends(v', ch', rest[0].n, k', ind', rest[0])
    ensures Sound(v', ch')
    ensures Continuing(v', ch', true, rest[0], k', ind', v.a.base + rest[0].n, Listing(v, ch), rest[1..], t)
  {
    hide Sound, Ends, Pending, Put, Load, Grouped;
    assert |Listing(v, ch)| == |ch|;
    hide Listing;
    if started {
      PendingWidth(mp, cur, rest, Listing(v, ch), t);
      PendingNext(mp, cur, rest, Listing(v, ch), t);
    } else {
      PendingFirst(Listing(v, ch), rest);
    }
  }

  lemma PendingWidth(mp: seq<seq<Bank>>, cur: Frag, rest: seq<Frag>, lists: seq<seq<Bank>>, t: seq<seq<Bank>>)
    requires Pending(mp, cur, rest, lists, t)
    ensures |mp| == |lists|
  {
  }

  /** What the branches of TakeOver compare. */
  lemma TakeOverReady(v: Snapshot, ch: seq<seq<int>>, w: seq<int>, ird: int, ntot: int, nsft: int, rn: nat, rk: nat,
                      rest: seq<Frag>, started: bool, cur: Frag, k: nat, ind: int, nami: int, mp: seq<seq<Bank>>,
                      t: seq<seq<Bank>>)
    requires Underway(v, ch, w, ird, ntot, nsft, rn, rk, rest) && rest != []
    requires started ==> cur.n != rn
    requires Continuing(v, ch, started, cur, k, ind, nami, mp, rest, t)
    ensures FragmentAt(w, v.a.igp, v.a.base, v.a.names, rest[0])
    ensures started ==> nami == v.a.base + cur.n
    ensures v.a.base + rest[0].n == nami ==>
              && started && cur.n == rest[0].n && NHW <= ind < |w| && ind + w[ind] + 1 == v.a.igp
              && w[ind - INR] == cur.bank.nr && cur.n < |ch| && w[ind - INXT] == At(ch[cur.n], k + 1)
              && (w[ind - INXT] == 0 && cur.bank.nr < rest[0].bank.nr ==>
                    && FreeSlot(v.a.w, ch[cur.n], rest[0].bank.nr, |ch[cur.n]|)
                    && ind - INXT == LinkOf(v.a.base + cur.n, ch[cur.n], |ch[cur.n]|))
    ensures ird + 1 + w[ird] == v.a.igp + ntot + nsft && NHW + |rest[0].bank.data| <= ntot
    ensures rest[0].n < |ch| && rest[0].n != rn && ntot >= NHW
  {
    hide Sound, FreeSlot, Pending, Listing, Flat, NoTable, Load, FragmentAt;
    FirstFragment(v, ch, w, ird, ntot, nsft, rn, rk, rest);
    if started {
      TailSlot(v, ch, w, ird, ntot, nsft, rn, rk, rest, cur.n, k, ind, cur, rest[0].bank.nr);
    }
  }

  lemma FragmentHeader(w: seq<int>, p: int, base: int, names: seq<int>, f: Frag)
    requires FragmentAt(w, p, base, names, f)
    ensures 0 < p && p + NHW <= |w| && w[p + 5] == |f.bank.data| && w[p + 4] == base + f.n && w[p + 3] == f.bank.nr
  {
  }

  /** One round of the bank loop of bosins: the fragment at `next` is joined or entered. */
  method TakeOver(b: BosArray, ird: int, next: int, nami: int, ind: int, ntot: int, nsft: int, ghost rn: nat,
                  ghost rk: nat, ghost rest: seq<Frag>, ghost started: bool, ghost cur: Frag, ghost k: nat,
                  ghost mp: seq<seq<Bank>>, ghost t: seq<seq<Bank>>)
    returns (next': int, nami': int, ind': int, nsft': int, ghost cur': Frag, ghost k': nat, ghost mp': seq<seq<Bank>>)
    requires Underway(b.Seen(ird, next), b.ch, b.w[..], ird, ntot, nsft, rn, rk, rest) && rest != []
    requires b.Seen(ird, next).a.igp == next && b.jw1 == 0 && (started ==> cur.n != rn)
    requires Continuing(b.Seen(ird, next), b.ch, started, cur, k, ind, nami, mp, rest, t)
    modifies b, b.w
    ensures Underway(b.Seen(ird, next'), b.ch, b.w[..], ird, ntot - (NHW + |rest[0].bank.data|), nsft', rn, rk,
        rest[1..])
    ensures b.Seen(ird, next').a.igp == next' && b.jw1 == 0 && cur'.n != rn
    ensures next' + (ntot - (NHW + |rest[0].bank.data|)) + nsft' == next + ntot + nsft
    ensures Continuing(b.Seen(ird, next'), b.ch, true, cur', k', ind', nami', mp', rest[1..], t)
    ensures b.names == old(b.names) && b.iwk == old(b.iwk) && b.bits == old(b.bits) && b.ndw == old(b.ndw)
    ensures b.igp == old(b.igp)
  {
    hide Sound, Underway, FreeSlot, LinkOf, ListPut, Ends, Layout, At, Cleared, Continuing, FragmentAt, Listing;
    ghost var v, ch := b.Seen(ird, next), b.ch;
    UnderwaySound(v, ch, b.w[..], ird, ntot, nsft, rn, rk, rest);
    TakeOverReady(v, ch, b.w[..], ird, ntot, nsft, rn, rk, rest, started, cur, k, ind, nami, mp, t);
    FragmentHeader(b.w[..], next, b.base, b.names, rest[0]);
    var y := next + (NHW - 1);
    next', nami', ind', nsft' := next, nami, ind, nsft;
    var same, nind, walk := false, 0, true;
    k' := k;
    if b.w[y - INXT] != nami {
      nami' := b.w[y - INXT];
    } else if b.w[ind - INR] == b.w[y - INR] && ind + b.w[ind] + 1 == next {
      same := true;
    } else {
      nind := b.w[ind - INXT];
      if b.w[ind - INR] < b.w[y - INR] && nind == 0 {
        walk := false;
        k' := |ch[cur.n]|;
        TailEnd(ch[cur.n]);
      }
    }
    if same {
      nsft' := nsft + NHW;
      ContinuingEnds(v, ch, cur, k, ind, nami, mp, rest, t);
      next' := MergeFragment(b, ird, next, ind, ntot, nsft, rn, rk, rest, k, cur);
      ContinueMerge(v, ch, cur, k, ind, nami, mp, rest, t, b.Seen(ird, next'));
      cur', mp' := Joined(cur, rest[0]), mp;
    } else {
      if walk {
        ind', nind, k' := FindPlace(b, ird, next, nami', ntot, nsft, rn, rk, rest);
      } else {
        NothingCleared(v, ch, rest[0].n, k', rest[0].bank.nr);
      }
      ghost var v1, ch1 := b.Seen(ird, next), b.ch;
      ind', next' := InsertPointer(b, ird, next, ind', nind, ntot, nsft, rn, rk, rest, k');
      ClearedPut(v, ch, v1, ch1, b.Seen(ird, next'), b.ch, rest[0].n, rest[0].bank);
      ContinueInsert(v, ch, started, cur, k, ind, nami, mp, rest, t, b.Seen(ird, next'), b.ch, k', ind');
      cur', mp' := rest[0], Listing(v, ch);
    }
  }

  lemma TailEnd(c: seq<int>)
    ensures At(c, |c|) == 0
  {
  }

  lemma UnderwaySound(v: Snapshot, ch: seq<seq<int>>, w: seq<int>, ird: int, ntot: int, nsft: int, rn: nat, rk: nat,
                      rest: seq<Frag>)
    requires Underway(v, ch, w, ird, ntot, nsft, rn, rk, rest)
    ensures Sound(v, ch) && 0 < ird < |w| && ntot >= 0 && ird + 1 + w[ird] == v.a.igp + ntot + nsft
    ensures |ch| == |v.a.names|
  {
  }

  lemma ContinuingEnds(v: Snapshot, ch: seq<seq<int>>, cur: Frag, k: nat, ind: int, nami: int, mp: seq<seq<Bank>>,
                       rest: seq<Frag>, t: seq<seq<Bank>>)
    requires Sound(v, ch) && Continuing(v, ch, true, cur, k, ind, nami, mp, rest, t)
    ensures Ends(v, ch, cur.n, k, ind, cur)
  {
  }

  /** The bank loop of bosins. */
  method Splice(b: BosArray, ird: int, ghost rn: nat, ghost rk: nat, ghost fs: seq<Frag>) returns (next: int, nsft: int)
    requires 0 < ird < b.w.Length && fs != []
    requires Underway(b.Seen(ird, ird + 1), b.ch, b.w[..], ird, b.w[ird], 0, rn, rk, fs) && b.jw1 == 0
    requires b.igp == ird + 1 + b.w[ird]
    modifies b, b.w
    ensures Underway(b.Seen(ird, next), b.ch, b.w[..], ird, 0, nsft, rn, rk, []) && b.Seen(ird, next).a.igp == next
    ensures Sound(b.Seen(ird, next), b.ch) && Sound(old(b.Seen(ird, ird + 1)), old(b.ch))
    ensures Listing(b.Seen(ird, next), b.ch) == Load(Listing(old(b.Seen(ird, ird + 1)), old(b.ch)), Grouped(fs))
    ensures b.names == old(b.names) && b.iwk == old(b.iwk) && b.bits == old(b.bits) && b.ndw == old(b.ndw)
    ensures b.igp == old(b.igp)
    ensures b.jw1 == 0 && b.igp == next + nsft
  {
    hide Sound, Underway, Ends, Layout, Continuing, Listing, FragmentAt, Load, Grouped;
    var ntot := b.w[ird];
    nsft := 0;
    next := ird + 1;
    ghost var rest, started, cur, k, mp := fs, false, fs[0], 0, [];
    ghost var v := b.Seen(ird, next);
    UnderwayFirst(v, b.ch, b.w[..], ird, ntot, nsft, rn, rk, fs);
    ghost var t := Load(Listing(v, b.ch), Grouped(fs));
    var nami := b.w[next + (NHW - 1) - INXT] + 1;
    var ind := 0;
    ContinuingStart(v, b.ch, fs, nami, ind, t);
    while ntot != 0
      invariant Underway(b.Seen(ird, next), b.ch, b.w[..], ird, ntot, nsft, rn, rk, rest)
      invariant b.Seen(ird, next).a.igp == next && b.jw1 == 0 && (started ==> cur.n != rn) && ntot >= 0
      invariant Sound(b.Seen(ird, next), b.ch)
      invariant Continuing(b.Seen(ird, next), b.ch, started, cur, k, ind, nami, mp, rest, t)
      invariant b.names == old(b.names) && b.iwk == old(b.iwk) && b.bits == old(b.bits) && b.ndw == old(b.ndw)
      invariant b.igp == old(b.igp) == next + ntot + nsft
    {
      UnderwayFirst(b.Seen(ird, next), b.ch, b.w[..], ird, ntot, nsft, rn, rk, rest);
      var leng := b.w[next + (NHW - 1)] + NHW;
      next, nami, ind, nsft, cur, k, mp := TakeOver(b, ird, next, nami, ind, ntot, nsft, rn, rk, rest, started, cur, k,
          mp, t);
      ntot := ntot - leng;
      started := true;
      rest := rest[1..];
      UnderwaySound(b.Seen(ird, next), b.ch, b.w[..], ird, ntot, nsft, rn, rk, rest);
    }
    UnderwayDone(b.Seen(ird, next), b.ch, b.w[..], ird, nsft, rn, rk, rest);
    ContinuingDone(b.Seen(ird, next), b.ch, started, cur, k, ind, nami, mp, rest, t);
  }

  lemma UnderwayFirst(v: Snapshot, ch: seq<seq<int>>, w: seq<int>, ird: int, ntot: int, nsft: int, rn: nat, rk: nat,
                      rest: seq<Frag>)
    requires Underway(v, ch, w, ird, ntot, nsft, rn, rk, rest)
    ensures ntot >= 0 && (ntot == 0 <==> rest == [])
    ensures Sound(v, ch) && 0 < ird < |w|
    ensures rest != [] ==>
              && 0 < v.a.igp && v.a.igp + NHW <= |w| && w[v.a.igp + 5] == |rest[0].bank.data|
              && w[v.a.igp + 4] == v.a.base + rest[0].n
  {
    hide Sound, FragmentAt, Flat;
    FirstFragment(v, ch, w, ird, ntot, nsft, rn, rk, rest);
    if rest != [] { FragmentHeader(w, v.a.igp, v.a.base, v.a.names, rest[0]); }
  }

  lemma UnderwayDone(v: Snapshot, ch: seq<seq<int>>, w: seq<int>, ird: int, nsft: int, rn: nat, rk: nat,
                     rest: seq<Frag>)
    requires Underway(v, ch, w, ird, 0, nsft, rn, rk, rest)
    ensures rest == []
  {
    UnderwayFirst(v, ch, w, ird, 0, nsft, rn, rk, rest);
  }

  lemma ContinuingStart(v: Snapshot, ch: seq<seq<int>>, fs: seq<Frag>, nami: int, ind: int, t: seq<seq<Bank>>)
    requires Sound(v, ch) && fs != [] && nami == v.a.base + fs[0].n + 1 && t == Load(Listing(v, ch), Grouped(fs))
    ensures Continuing(v, ch, false, fs[0], 0, ind, nami, [], fs, t)
  {
  }

  lemma ContinuingDone(v: Snapshot, ch: seq<seq<int>>, started: bool, cur: Frag, k: nat, ind: int, nami: int,
                       mp: seq<seq<Bank>>, rest: seq<Frag>, t: seq<seq<Bank>>)
    requires Sound(v, ch) && Continuing(v, ch, started, cur, k, ind, nami, mp, rest, t) && rest == []
    ensures Listing(v, ch) == t
  {
    hide Sound;
    PendingDone(mp, cur, Listing(v, ch), t);
  }

  // ---- Before and after the bank loop -------------------------------------------------------------

  /** The `rk`-th bank of the rn-th name holds the fragments `fs` and is the last bank of the area. */
  ghost predicate IsRecord(v: Snapshot, ch: seq<seq<int>>, rn: nat, rk: nat, fs: seq<Frag>) {
    && rn < |ch| && rk < |ch[rn]| && |ch| == |v.a.names| && fs != [] && Foreign(v.a.names, rn, fs)
    && var x := ch[rn][rk];
    && Holds(v.a.w, x) && x + 1 + v.a.w[x] == v.a.igp
    && v.a.w[x + 1..v.a.igp] == Flat(v.a.base, v.a.names, fs)
  }

  lemma ResetKeeps(v: Snapshot, ch: seq<seq<int>>, n: nat, n': nat)
    requires Sound(v, ch) && n < |ch| && n' < |ch|
    ensures var l, l' := v.idl + 1 + n, v.idl + 1 + n';
            && 0 <= l < |v.a.w| && 0 <= v.a.w[l] < |v.a.w|
            && (forall i :: 0 <= i < v.a.iwk ==> Emptied(v.a.w, l)[i] == v.a.w[i])
            && NoTable(Emptied(v.a.w, l), l) && (NoTable(v.a.w, l') ==> NoTable(Emptied(v.a.w, l), l'))
  {
    hide Inv, WTiles, WInds, WDropSum, WTop, WBank, LinkState;
    SettleBounds(v, ch, n);
    SettleBounds(v, ch, n');
    ChainCount(v.a, ch);
    HandleInRange(v, ch, n);
    HandleInRange(v, ch, n');
  }

  lemma UntabledMore(v: Snapshot, ch: seq<seq<int>>, n: nat, fs: seq<Frag>)
    requires Sound(v, ch) && n < |ch| && |ch| == |v.a.names| && Named(v.a.names, fs) && Untabled(v.a.w, v.idl, fs)
    ensures 0 <= v.idl + 1 + n < |v.a.w| && 0 <= v.a.w[v.idl + 1 + n] < |v.a.w|
    ensures Untabled(Emptied(v.a.w, v.idl + 1 + n), v.idl, fs) && NoTable(Emptied(v.a.w, v.idl + 1 + n), v.idl + 1 + n)
    ensures forall i :: 0 <= i < v.a.iwk ==> Emptied(v.a.w, v.idl + 1 + n)[i] == v.a.w[i]
  {
    hide Sound, NoTable, Emptied;
    ResetKeeps(v, ch, n, n);
    forall i | 0 <= i < |fs| ensures NoTable(Emptied(v.a.w, v.idl + 1 + n), v.idl + 1 + fs[i].n) {
      assert NoTable(v.a.w, v.idl + 1 + fs[i].n);
      ResetKeeps(v, ch, n, fs[i].n);
    }
  }

  /** The first `j` fragments have been passed; the others fill `[next, next + ntot)`. */
  ghost predicate Passing(v: Snapshot, w: seq<int>, next: int, ntot: int, fs: seq<Frag>, j: nat) {
    && |w| == |v.a.w| && 0 < next && 0 <= ntot && next + ntot == v.a.igp <= |w| && j <= |fs| && Named(v.a.names, fs)
    && w[next..next + ntot] == Flat(v.a.base, v.a.names, fs[j..])
    && Untabled(w, v.idl, fs[..j])
  }

  lemma PassFirst(v: Snapshot, w: seq<int>, next: int, ntot: int, fs: seq<Frag>, j: nat)
    requires Passing(v, w, next, ntot, fs, j)
    ensures |w| == |v.a.w| && (ntot == 0 <==> j == |fs|)
    ensures ntot != 0 ==> 0 < next && next + NHW <= |w| && FragmentAt(w, next, v.a.base, v.a.names, fs[j])
                          && NHW + |fs[j].bank.data| <= ntot
  {
    FlatPieces(w, next, ntot, v.a.base, v.a.names, fs[j..]);
  }

  lemma PassNext(v: Snapshot, w: seq<int>, w': seq<int>, next: int, ntot: int, fs: seq<Frag>, j: nat, leng: int)
    requires Passing(v, w, next, ntot, fs, j) && ntot != 0 && j < |fs| && leng == NHW + |fs[j].bank.data|
    requires |w'| == |w| && forall i :: 0 <= i < v.a.igp ==> w'[i] == w[i]
    requires Untabled(w', v.idl, fs[..j]) && NoTable(w', v.idl + 1 + fs[j].n)
    ensures Passing(v, w', next + leng, ntot - leng, fs, j + 1)
  {
    hide Flat, Words, NoTable, FragmentAt;
    FlatPieces(w, next, ntot, v.a.base, v.a.names, fs[j..]);
    assert fs[j..][0] == fs[j] && fs[j..][1..] == fs[j + 1..] && fs[..j + 1] == fs[..j] + [fs[j]];
    assert w'[next + leng..next + ntot] == w[next + leng..next + ntot];
  }

  lemma RecordStart(v: Snapshot, ch: seq<seq<int>>, rn: nat, rk: nat, fs: seq<Frag>)
    requires IsRecord(v, ch, rn, rk, fs)
    ensures rn < |ch| && rk < |ch[rn]| && 0 <= ch[rn][rk] < |v.a.w|
    ensures Passing(v, v.a.w, ch[rn][rk] + 1, v.a.w[ch[rn][rk]], fs, 0)
  {
    assert fs[0..] == fs && fs[..0] == [];
  }

  lemma RecordKept(v: Snapshot, v': Snapshot, ch: seq<seq<int>>, rn: nat, rk: nat, fs: seq<Frag>)
    requires Sound(v, ch) && IsRecord(v, ch, rn, rk, fs) && v' == v.(a := v.a.(w := v'.a.w)) && |v'.a.w| == |v.a.w|
    requires forall i :: 0 <= i < v.a.igp ==> v'.a.w[i] == v.a.w[i]
    ensures IsRecord(v', ch, rn, rk, fs)
  {
    hide Sound, Flat;
    var x := ch[rn][rk];
    assert v'.a.w[x + 1..v.a.igp] == v.a.w[x + 1..v.a.igp];
  }

  /** The link bank of the name of the fragment at hand is emptied. */
  method ResetName(b: BosArray, nami: int, ghost fs: seq<Frag>, ghost j: nat, ghost next: int, ghost ntot: int)
    requires b.Valid() && Passing(b.Value(), b.w[..], next, ntot, fs, j) && ntot != 0 && j < |fs|
    requires nami == b.base + fs[j].n
    modifies b.w
    ensures b.Valid() && b.Contents() == old(b.Contents())
    ensures Untabled(b.w[..], b.idl, fs[..j]) && NoTable(b.w[..], b.idl + 1 + fs[j].n)
    ensures forall i :: 0 <= i < b.iwk && i < b.w.Length ==> b.w[i] == old(b.w[i])
  {
    hide Sound, Listing, Untabled, NoTable, Emptied, Flat;
    ghost var v, ch := b.Value(), b.ch;
    CountNames(v, ch);
    ResetSound(v, ch, fs[j].n);
    UntabledMore(v, ch, fs[j].n, fs[..j]);
    ResetLink(b.w, b.idl + nami - (b.base - 1));
  }

  /** One round of the first bank loop. */
  method PassName(b: BosArray, next: int, ntot: int, nami: int, ghost v: Snapshot, ghost fs: seq<Frag>, ghost j: nat)
    returns (nami': int, leng: int)
    requires b.Valid() && b.Value() == v.(a := v.a.(w := b.w[..])) && 0 < v.a.igp <= b.iwk <= |v.a.w|
    requires Passing(v, b.w[..], next, ntot, fs, j) && ntot != 0 && fs != []
    requires j <= |fs| && nami == if j > 0 then b.base + fs[j - 1].n else b.base + fs[0].n + 1
    modifies b.w
    ensures b.Valid() && b.Contents() == old(b.Contents()) && j < |fs| && nami' == b.base + fs[j].n && leng <= ntot
    ensures Passing(v, b.w[..], next + leng, ntot - leng, fs, j + 1)
    ensures forall i :: 0 <= i < b.iwk && i < b.w.Length ==> b.w[i] == old(b.w[i])
  {
    hide Sound, Listing, Untabled, NoTable, Passing, Flat, FragmentAt;
    ghost var w1 := b.w[..];
    PassFirst(v, w1, next, ntot, fs, j);
    FragmentHeader(w1, next, b.base, b.names, fs[j]);
    PassingNow(v, b.Value(), w1, next, ntot, fs, j);
    nami' := nami;
    leng := b.w[next + (NHW - 1)] + NHW;
    if b.w[next + (NHW - 1) - INXT] != nami {
      nami' := b.w[next + (NHW - 1) - INXT];
      ResetName(b, nami', fs, j, next, ntot);
    } else {
      SameName(w1, b.idl, fs, j);
    }
    PassNext(v, w1, b.w[..], next, ntot, fs, j, leng);
  }

  /** The first bank loop of bosins: link banks of all names of the record are emptied. */
  method ResetNames(b: BosArray, ird: int, ghost rn: nat, ghost rk: nat, ghost fs: seq<Frag>)
    requires b.Valid() && IsRecord(b.Value(), b.ch, rn, rk, fs) && ird == b.ch[rn][rk]
    modifies b.w
    ensures b.Valid() && b.Contents() == old(b.Contents())
    ensures IsRecord(b.Value(), b.ch, rn, rk, fs) && Untabled(b.w[..], b.idl, fs)
    ensures forall i :: 0 <= i < b.iwk && i < b.w.Length ==> b.w[i] == old(b.w[i])
  {
    hide Sound, Listing, Untabled, NoTable, Passing, Flat, FragmentAt, Foreign, Holds;
    ghost var v, ch := b.Value(), b.ch;
    InvBoundsOf(v, ch);
    RecordStart(v, ch, rn, rk, fs);
    var ntot, next := b.w[ird], ird + 1;
    ghost var j := 0;
    PassFirst(v, v.a.w, next, ntot, fs, 0);
    FragmentHeader(v.a.w, next, b.base, b.names, fs[0]);
    var nami := b.w[next + (NHW - 1) - INXT] + 1;
    while ntot > 0
      invariant b.Valid() && b.Contents() == old(b.Contents()) && j <= |fs| && ntot >= 0
      invariant b.Value() == v.(a := v.a.(w := b.w[..]))
      invariant forall i :: 0 <= i < b.iwk && i < b.w.Length ==> b.w[i] == old(b.w[i])
      invariant Passing(v, b.w[..], next, ntot, fs, j)
      invariant nami == if j > 0 then b.base + fs[j - 1].n else b.base + fs[0].n + 1
      decreases |fs| - j
    {
      var leng;
      nami, leng := PassName(b, next, ntot, nami, v, fs, j);
      next, ntot, j := next + leng, ntot - leng, j + 1;
    }
    PassFirst(v, b.w[..], next, ntot, fs, j);
    PassingNow(v, b.Value(), b.w[..], next, ntot, fs, j);
    assert fs[..j] == fs;
    RecordKept(v, b.Value(), ch, rn, rk, fs);
  }

  lemma PassingNow(v: Snapshot, v': Snapshot, w: seq<int>, next: int, ntot: int, fs: seq<Frag>, j: nat)
    requires Passing(v, w, next, ntot, fs, j) && v' == v.(a := v.a.(w := v'.a.w)) && |v'.a.w| == |v.a.w|
    ensures Passing(v', w, next, ntot, fs, j) && j <= |fs| && Untabled(w, v.idl, fs[..j])
    ensures ntot >= 0
  {
  }

  lemma SameName(w: seq<int>, idl: int, fs: seq<Frag>, j: nat)
    requires 0 < j < |fs| && Untabled(w, idl, fs[..j]) && fs[j].n == fs[j - 1].n
    ensures NoTable(w, idl + 1 + fs[j].n)
  {
    assert NoTable(w, idl + 1 + fs[..j][j - 1].n);
  }

  /** The array with its record bank seen as empty: the bank loop can start. */
  lemma SpliceReady(v: Snapshot, ch: seq<seq<int>>, rn: nat, rk: nat, fs: seq<Frag>, x: int, v': Snapshot)
    requires Sound(v, ch) && IsRecord(v, ch, rn, rk, fs) && Untabled(v.a.w, v.idl, fs)
    requires x == ch[rn][rk] && v' == v.(a := v.a.(w := v.a.w[x := 0], igp := x + 1))
    ensures ListPut(v, ch, v', ch, rn, BankAt(v.a.w, x).(data := []))
    ensures Underway(v', ch, v.a.w, x, v.a.w[x], 0, rn, rk, fs)
  {
    hide Sound, ListPut, BankAt, Flat, NoTable;
    SeeRecord(v, ch, rn, rk);
    InvBoundsOf(v, ch);
    ListPutSound(v, ch, v', ch, rn);
    ForeignNamed(v.a.names, rn, fs);
    UntabledAbove(v, ch, v.a.w[x := 0], fs);
  }

  lemma UnderwayNames(v: Snapshot, ch: seq<seq<int>>, w: seq<int>, ird: int, ntot: int, nsft: int, rn: nat, rk: nat,
                      rest: seq<Frag>)
    requires Underway(v, ch, w, ird, ntot, nsft, rn, rk, rest)
    ensures Sound(v, ch) && 0 < ird < |w| == |v.a.w| && v.a.w == Hide0(w, ird) && w[ird] >= 0 && Layout(v.a)
    ensures ird in Banks(v.a)
    ensures rn < |ch| == |v.a.names| && rk < |ch[rn]| && ch[rn][rk] == ird
    ensures IsChain(w, Banks(v.a), v.a.base + rn, v.a.names[rn], ch[rn])
    ensures NHW <= ird && w[ird - INR] == v.a.w[ird - INR] && Holds(v.a.w, ird)
    ensures ird + 1 + w[ird] == v.a.igp + ntot + nsft && v.a.igp + ntot + nsft <= v.a.iwk < |w| && v.a.igp <= v.a.iwk
  {
    hide WInv, Links, Flat, Foreign, Untabled, InSome, Accounts;
    ChainBank(v.a, ch, rn, rk);
    WalkReady(v, ch, w, ird, rn);
    TilesApart(v.a.w, v.a.inm, v.a.igp);
  }

  lemma SlotExact(w: seq<int>, b: set<int>, h: int, name: int, c: seq<int>, nr: int, k: nat, rk: nat)
    requires IsChain(w, b, h, name, c) && IsSlot(w, c, nr, k) && rk < |c| && NHW <= c[rk] < |w| && w[c[rk] - INR] == nr
    ensures k == rk
  {
    SlotOf(w, c, rk, k);
  }

  /**
   The call of bosNcreate by which bosins gives the words back that joined fragments left over:
   the record bank is found, is the last bank, and shrinks in place.
   */
  method ShrinkRecord(b: BosArray, ird: int, next: int, nama: int, unit: int, ncol: int,
                      ghost nsft: int, ghost rn: nat, ghost rk: nat) returns (ind: int, ghost d: Bank)
    requires Underway(b.Seen(ird, next), b.ch, b.w[..], ird, 0, nsft, rn, rk, []) && b.Seen(ird, next).a.igp == next
    requires rn < |b.names| && b.names[rn] == nama && 0 < ird < b.w.Length && ncol == b.w[ird] - nsft
    requires DataWords(BitCode(b.bits, nama), ncol, 1) == ncol && ird >= INR && b.w[ird - INR] == unit
    requires b.igp == next + nsft
    modifies b`igp, b`jw1, b.w
    ensures ind == ird && b.igp == next && b.jw1 == 0
    ensures Underway(b.Seen(ird, next), b.ch, b.w[..], ird, 0, 0, rn, rk, []) && b.Seen(ird, next).a.igp == next
    ensures Sound(b.Seen(ird, next), b.ch) && Sound(old(b.Seen(ird, next)), b.ch)
    ensures d.nr == unit && ListPut(old(b.Seen(ird, next)), b.ch, b.Seen(ird, next), b.ch, rn, d)
  {
    hide Sound, Underway, IsChain, Layout, ListPut, IsSlot;
    ghost var v, ch := b.Seen(ird, next), b.ch;
    UnderwayNames(v, ch, b.w[..], ird, 0, nsft, rn, rk, []);
    b.jw1 := 0;
    var nami := NameIndex(b.names, nama);
    NameHere(v, ch, rn);
    var nd := DataWords(BitCode(b.bits, nama), ncol, 1);
    var nlpl, indj;
    ghost var k;
    nlpl, ind, indj, k := Nindex(b.w, unit, b.base + nami, Banks(v.a), nama, ch[rn]);
    SlotExact(b.w[..], Banks(v.a), b.base + nami, nama, ch[rn], unit, k, rk);
    assert ind + b.w[ind] + 1 == b.igp;
    var ndif := nd - b.w[ind];
    if ndif != 0 {
      b.w[ind] := b.w[ind] + ndif;
      b.igp := b.igp + ndif;
    }
    b.w[ind - ICOL] := ncol;
    b.w[ind - IROW] := 1;
    assert b.w[..][ird := 0] == v.a.w[ird - ICOL := ncol][ird - IROW := 1];
    d := ShrunkUnderway(v, ch, ird, nsft, rn, rk, ncol, b.Seen(ird, next), b.w[..], unit);
  }

  lemma NameHere(v: Snapshot, ch: seq<seq<int>>, rn: nat)
    requires Sound(v, ch) && rn < |v.a.names|
    ensures NameIndex(v.a.names, v.a.names[rn]) == rn
  {
    hide WInv, Links, Accounts, Chained, Tiles;
    NameAt(v.a.names, rn);
  }

  lemma ShrunkUnderway(v: Snapshot, ch: seq<seq<int>>, ird: int, nsft: int, rn: nat, rk: nat, ncol: int,
                       v': Snapshot, w': seq<int>, unit: int) returns (d: Bank)
    requires Sound(v, ch) && rn < |ch| == |v.a.names| && rk < |ch[rn]| && ird == ch[rn][rk] && Holds(v.a.w, ird)
    requires ird < v.a.igp
    requires v.a.w[ird - INR] == unit
    requires v' == v.(a := v.a.(w := v.a.w[ird - ICOL := ncol][ird - IROW := 1]))
    requires |w'| == |v.a.w| && v'.a.w == w'[ird := 0] && ird + 1 + w'[ird] == v.a.igp <= v.a.iwk < |w'|
    ensures Underway(v', ch, w', ird, 0, 0, rn, rk, []) && Sound(v', ch)
    ensures d.nr == unit && ListPut(v, ch, v', ch, rn, d)
  {
    hide Sound, ListPut;
    ShapeSound(v, ch, rn, rk, ncol, 1);
    ListPutSound(v, ch, v', ch, rn);
    assert w'[v.a.igp..v.a.igp] == [];
    d := BankAt(v'.a.w, ird);
  }

  // ---- The operation ------------------------------------------------------------------------------------

  /** The lists after a record has been taken over and its own bank dropped. */
  ghost function Loaded(m: seq<seq<Bank>>, rn: nat, unit: int, fs: seq<Frag>): seq<seq<Bank>>
    requires rn < |m|
  {
    Load(m, Grouped(fs))[rn := Delete(m[rn], unit)]
  }

  lemma LoadedIs(m: seq<seq<Bank>>, rn: nat, d: Bank, d': Bank, fs: seq<Frag>, shrunk: bool)
    requires rn < |m| && Sorted(m[rn]) && d'.nr == d.nr && forall i :: 0 <= i < |fs| ==> fs[i].n != rn
    ensures var m2 := Load(m[rn := Put(m[rn], d)], Grouped(fs));
            var m3 := if shrunk then m2[rn := Put(m2[rn], d')] else m2;
            m3[rn := Delete(m3[rn], d.nr)] == Loaded(m, rn, d.nr, fs)
  {
    GroupedNames(fs, rn);
    LoadElsewhere(m, Grouped(fs), rn, Put(m[rn], d));
    PutPut(m[rn], d, d');
    DeletePut(m[rn], d);
    DeletePut(m[rn], d');
  }

  /** What bosins asks of the record bank, if there is one. */
  ghost predicate RecordReady(v: Snapshot, ch: seq<seq<int>>, rn: nat, unit: int, fs: seq<Frag>) {
    && rn < |ch|
    && forall rk :: 0 <= rk < |ch[rn]| && INR <= ch[rn][rk] < |v.a.w| && v.a.w[ch[rn][rk] - INR] == unit ==>
         IsRecord(v, ch, rn, rk, fs)
  }

  /** The record bank that bosNlink has found. */
  lemma RecordFound(v: Snapshot, v': Snapshot, ch: seq<seq<int>>, rn: nat, unit: int, fs: seq<Frag>, ird: int)
    returns (rk: nat)
    requires SameBanks(v, v', ch) && RecordReady(v, ch, rn, unit, fs) && Answer(v'.a.w, ch[rn], unit, ird) && ird != 0
    ensures rk < |ch[rn]| && ch[rn][rk] == ird && IsRecord(v', ch, rn, rk, fs) && Sound(v', ch)
    ensures Holds(v'.a.w, ird) && v'.a.w[ird - INR] == unit && Lookup(Listing(v, ch)[rn], unit) != None
    ensures BankAt(v'.a.w, ird).nr == unit && Sorted(Listing(v', ch)[rn]) && ird < v'.a.igp <= v'.a.iwk <= |v'.a.w|
  {
    hide Inv, WInv, Links, Flat, Foreign;
    rk :| 0 <= rk < |ch[rn]| && ch[rn][rk] == ird && INR <= ch[rn][rk] < |v'.a.w| && v'.a.w[ch[rn][rk] - INR] == unit;
    ListSortedHere(v', ch, rn, rk);
    InvBoundsOf(v, ch);
    InvBoundsOf(v', ch);
    LookupAt(Listing(v', ch)[rn], rk, unit);
    assert v.a.w[ird - INR] == unit;
    assert IsRecord(v, ch, rn, rk, fs);
    assert v'.a.w[ird + 1..v.a.igp] == v.a.w[ird + 1..v.a.igp];
  }

  lemma ListSortedHere(v: Snapshot, ch: seq<seq<int>>, n: nat, k: nat)
    requires Sound(v, ch) && n < |ch| && k < |ch[n]|
    ensures Sorted(Listing(v, ch)[n]) && |Listing(v, ch)[n]| == |ch[n]|
    ensures NHW <= ch[n][k] < v.a.igp && v.a.base + NHW <= ch[n][k] + 1 && ch[n][k] < |v.a.w|
    ensures Listing(v, ch)[n][k].nr == v.a.w[ch[n][k] - INR] && Holds(v.a.w, ch[n][k])
  {
    hide WInv, Links, Accounts, InSome;
    ListOf(v.a, ch, n);
    ChainBank(v.a, ch, n, k);
    TilesApart(v.a.w, v.a.inm, v.a.igp);
  }

  lemma NoRecord(v: Snapshot, v': Snapshot, ch: seq<seq<int>>, rn: nat, unit: int)
    requires SameBanks(v, v', ch) && rn < |ch| && Answer(v'.a.w, ch[rn], unit, 0)
    ensures Sound(v, ch) && Lookup(Listing(v, ch)[rn], unit) == None
  {
    hide Inv, WInv, Links;
    forall i | 0 <= i < |ch[rn]| ensures Listing(v', ch)[rn][i].nr != unit {
      ListSortedHere(v', ch, rn, i);
    }
    ListLength(v', ch, rn);
    LookupAbsent(Listing(v', ch)[rn], unit);
  }

  lemma ListLength(v: Snapshot, ch: seq<seq<int>>, n: nat)
    requires Sound(v, ch) && n < |ch|
    ensures |Listing(v, ch)[n]| == |ch[n]|
  {
    InvMeaningful(v.a, ch);
  }

  /** From the found record bank to the end of bosins. */
  method TakeRecord(b: BosArray, nama: int, unit: int, ird: int, ghost rn: nat, ghost rk: nat, ghost fs: seq<Frag>)
    requires b.Valid() && IsRecord(b.Value(), b.ch, rn, rk, fs) && b.ch[rn][rk] == ird && b.jw1 == 0
    requires rn < |b.names| && b.names[rn] == nama && Holds(b.w[..], ird) && b.w[ird - INR] == unit
    requires Sorted(b.Contents()[rn]) && ird < b.igp <= b.iwk <= b.w.Length
    requires BitCode(b.bits, nama) != 2 && BitCode(b.bits, nama) != 3
    modifies b, b.w
    ensures b.Valid() && b.names == old(b.names) && b.bits == old(b.bits) && b.iwk == old(b.iwk)
    ensures b.Contents() == Loaded(old(b.Contents()), rn, unit, fs)
  {
    hide Sound, Underway, IsRecord, Listing, Untabled, ListPut, AfterDrop, Layout, Sorted, Load, Put, Delete, BankAt;
    ghost var v0, ch0 := b.Value(), b.ch;
    RecordForeign(v0, ch0, rn, rk, fs);
    ResetNames(b, ird, rn, rk, fs);
    ghost var v := b.Value();
    SpliceReady(v, ch0, rn, rk, fs, ird, b.Seen(ird, ird + 1));
    ghost var d := BankAt(v.a.w, ird).(data := []);
    BankNumber(v.a.w, ird);
    ListPutIs(v, ch0, b.Seen(ird, ird + 1), ch0, rn, d);
    ghost var v1 := b.Seen(ird, ird + 1);
    RecordLength(v, ch0, rn, rk, fs);
    var next, nsft := Splice(b, ird, rn, rk, fs);
    ghost var v2, d', shrunk := b.Seen(ird, next), d, nsft != 0;
    UnderwayNames(v2, b.ch, b.w[..], ird, 0, nsft, rn, rk, []);
    LoadKeeps(Listing(v1, ch0), rn, fs);
    RecordNumber(v1, ch0, v2, b.ch, rn, rk, ird, unit);
    if nsft != 0 {
      var ind;
      ind, d' := ShrinkRecord(b, ird, next, nama, unit, b.w[ird] - nsft, nsft, rn, rk);
      ListPutIs(v2, b.ch, b.Seen(ird, next), b.ch, rn, d');
    }
    b.w[ird] := 0;
    assert b.Value() == b.Seen(ird, next);
    LoadedIs(Listing(v0, ch0), rn, d, d', fs, shrunk);
    ghost var v3, ch3 := b.Value(), b.ch;
    NameHere(v3, ch3, rn);
    ghost var k := Ndrop(b, nama, unit, 0, 0);
    AfterDropIs(v3, ch3, b.Value(), b.ch, rn, unit, k, 0);
  }

  lemma LoadKeeps(m: seq<seq<Bank>>, rn: nat, fs: seq<Frag>)
    requires rn < |m| && forall i :: 0 <= i < |fs| ==> fs[i].n != rn
    ensures Load(m, Grouped(fs))[rn] == m[rn]
  {
    GroupedNames(fs, rn);
    LoadElsewhere(m, Grouped(fs), rn, []);
  }

  lemma NumberAt(v: Snapshot, ch: seq<seq<int>>, n: nat, k: nat, nr: int)
    requires Sound(v, ch) && n < |ch| && k < |ch[n]|
    ensures NHW <= ch[n][k] < |v.a.w| && |Listing(v, ch)[n]| == |ch[n]|
    ensures Listing(v, ch)[n][k].nr == nr <==> v.a.w[ch[n][k] - INR] == nr
  {
    hide Sound, Listing, Sorted, Holds;
    ListSortedHere(v, ch, n, k);
  }

  /** The record bank keeps its number while others are entered. */
  lemma RecordNumber(v: Snapshot, ch: seq<seq<int>>, v': Snapshot, ch': seq<seq<int>>, rn: nat, rk: nat, x: int,
                     nr: int)
    requires Sound(v, ch) && Sound(v', ch') && rn < |ch| && rn < |ch'| && rk < |ch[rn]| && rk < |ch'[rn]|
    requires ch[rn][rk] == x && ch'[rn][rk] == x && Listing(v', ch')[rn] == Listing(v, ch)[rn]
    requires INR <= x < |v.a.w| && v.a.w[x - INR] == nr
    ensures x < |v'.a.w| && v'.a.w[x - INR] == nr
  {
    hide Sound, Listing;
    NumberAt(v, ch, rn, rk, nr);
    NumberAt(v', ch', rn, rk, nr);
  }

  lemma RecordLength(v: Snapshot, ch: seq<seq<int>>, rn: nat, rk: nat, fs: seq<Frag>)
    requires IsRecord(v, ch, rn, rk, fs)
    ensures rn < |ch| && rk < |ch[rn]| && 0 <= ch[rn][rk] < |v.a.w| && ch[rn][rk] + 1 + v.a.w[ch[rn][rk]] == v.a.igp
  {
  }

  lemma BankNumber(w: seq<int>, x: int)
    requires Holds(w, x)
    ensures BankAt(w, x).nr == w[x - INR]
  {
  }

  lemma RecordForeign(v: Snapshot, ch: seq<seq<int>>, rn: nat, rk: nat, fs: seq<Frag>)
    requires IsRecord(v, ch, rn, rk, fs)
    ensures fs != [] && rn < |ch| == |v.a.names| && forall i :: 0 <= i < |fs| ==> fs[i].n != rn
  {
  }

  lemma ListPutIs(v: Snapshot, ch: seq<seq<int>>, v': Snapshot, ch': seq<seq<int>>, n: nat, d: Bank)
    requires ListPut(v, ch, v', ch', n, d)
    ensures Sound(v, ch) && Sound(v', ch') && n < |ch|
    ensures Listing(v', ch') == Listing(v, ch)[n := Put(Listing(v, ch)[n], d)]
  {
  }

  /**
   Takes the banks of record bank `unit` of name `nama` over where they lie (bosins).  Every
   chain is the old one overridden by the record's banks, adjacent fragments joined in order;
   replaced banks are marked and counted, the record bank itself is dropped.
   */
  method Ins(b: BosArray, nama: int, unit: int, ghost fs: seq<Frag>) returns (status: int)
    requires b.Valid() && |b.ch| == |b.names|
    requires nama in b.names ==>
               var rn := NameIndex(b.names, nama);
               0 <= b.idl + 1 + rn < b.w.Length && LinkRoom(b, rn) && RecordReady(b.Value(), b.ch, rn, unit, fs)
    requires BitCode(b.bits, nama) != 2 && BitCode(b.bits, nama) != 3
    modifies b, b.w
    ensures b.Valid() && b.names == old(b.names) && b.bits == old(b.bits) && status == 0
    ensures var rn := NameIndex(b.names, nama);
            if nama in b.names && rn < |old(b.Contents())| && Lookup(old(b.Contents())[rn], unit) != None
            then b.Contents() == Loaded(old(b.Contents()), rn, unit, fs)
            else b.Contents() == old(b.Contents())
  {
    hide Sound, SameBanks, RecordReady, IsRecord, Listing, Answer, Loaded, Sorted, BankAt;
    ghost var v, ch, rn := b.Value(), b.ch, NameIndex(b.names, nama);
    b.jw1 := 0;
    assert b.Value() == v;
    var ird := Nlink(b, nama, unit);
    BanksUntouched(v, b.Value(), ch);
    if ird == 0 {
      if nama in b.names { NoRecord(v, b.Value(), ch, rn, unit); }
      return 0;
    }
    ghost var rk := RecordFound(v, b.Value(), ch, rn, unit, fs, ird);
    TakeRecord(b, nama, unit, ird, rn, rk, fs);
    status := 0;
  }
}
