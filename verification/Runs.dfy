/**
 Whole runs: an array as bosInit leaves it, and any sequence of calls.
 */
module Runs {
  import opened BankLayout
  import opened Directory
  import opened Chains
  import opened NamedArea
  import opened BosArrays
  import opened WorkArea
  import opened LinkTables
  import opened Dropping
  import opened Creating
  import opened Garbage
  import opened ListDropping
  import opened Linking
  import opened Loading
  import opened Initialising
  import opened EventWalking
  import opened EventLoading
  import opened Options
  import Segments
  import EtWriting

  /** A call, with its arguments. */
  datatype Call =
    | Create(nama: int, nr: int, ncol: int, nrow: int, jw1: int)
    | Drop(nama: int, nr: int, jw1: int)
    | DropLists(list: seq<nat>)
    | Compact
    | Find(nama: int, nr: int)
    | Load(rec: Segments.Record, nama: int, unit: int)

  datatype Outcome = Refused | Done(code: int)

  /** The array at some moment: its words and counters, and the chains of its names. */
  datatype Moment = Moment(v: Snapshot, ch: seq<seq<int>>)

  ghost predicate InOrder(m: Moment) {
    Sound(m.v, m.ch) && |m.ch| == |m.v.a.names| && m.v.fix + NHW <= m.v.idl + 1 <= |m.v.a.w|
  }

  /** What the array means: for each name in order of first use its list of banks. */
  ghost function Lists(m: Moment): (l: seq<seq<Bank>>)
    requires InOrder(m)
    ensures |l| == |m.v.a.names|
  {
    Listing(m.v, m.ch)
  }

  /** The index of a bank, or zero. */
  ghost function WhereIs(m: Moment, nama: int, nr: int): int
    requires InOrder(m)
  {
    IndexOf(m.v.a.w, NamedChain(m.v.a.names, m.ch, nama), nr)
  }

  /** The array as it is now. */
  ghost function Now(b: BosArray): Moment
    reads b, b.w
  {
    Moment(b.Value(), b.ch)
  }

  lemma NowInOrder(b: BosArray)
    requires b.Valid() && b.fix + NHW <= b.idl + 1 <= b.w.Length
    ensures InOrder(Now(b)) && Lists(Now(b)) == b.Contents() && |b.Contents()| == |b.names| == |b.ch|
  {
    CountNames(b.Value(), b.ch);
  }

  /**
   A call is refused if a name is not there or has no place, if it would compact work banks of
   which some are dropped, or if the array has no room for the record.
   */
  ghost predicate Refuses(m: Moment, c: Call, bits: map<int, int>, nresr: nat)
    requires InOrder(m)
  {
    var a, v := m.v.a, m.v;
    match c
    case Create(nama, nr, ncol, nrow, jw1) =>
      || (nama !in a.names && |a.names| >= a.cap) || jw1 < 0 || jw1 > 2
      || (v.ndw != 0 && a.igp + DataWords(BitCode(bits, nama), ncol, nrow) + NHW >= a.iwk)
    case Drop(nama, nr, jw1) => false
    case DropLists(list) => exists i :: 0 <= i < |list| && list[i] >= |a.names|
    case Compact => false
    case Find(nama, nr) => nama in a.names && NoLinkRoom(m, NameIndex(a.names, nama), nresr)
    case Load(rec, nama, unit) =>
      || !Segments.Whole(rec) || !Careful(rec.segs) || v.ndw != 0
      || (exists i :: 0 <= i < |rec.segs| && Head(rec.segs[i], Segments.idNAME1) == nama)
      || |EnterAll(LaidNames(a.names, nama, ClipAll(rec.segs)), ClipAll(rec.segs))| > a.cap
      || BitCode(bits, nama) == 2 || BitCode(bits, nama) == 3
      || !RoomFor(a.igp, a.iwk, nresr, |NamedChain(a.names, m.ch, nama)| + 1, |RawAll(ClipAll(rec.segs))|)
  }

  ghost predicate NoLinkRoom(m: Moment, n: nat, nresr: nat)
    requires InOrder(m) && n < |m.ch|
  {
    HandleBounds(m, n);
    !RoomToLink(m.v, m.ch[n], n, nresr)
  }

  lemma HandleBounds(m: Moment, n: nat)
    requires Sound(m.v, m.ch) && n < |m.ch|
    ensures 0 <= m.v.idl + 1 + n < |m.v.a.w|
  {
    hide Inv, WInv, Links;
    SettleBounds(m.v, m.ch, n);
  }

  /** What a call that gave `code` has done to the array. */
  ghost predicate Effect(c: Call, code: int, bits: map<int, int>, m: Moment, m': Moment)
    requires InOrder(m) && InOrder(m')
  {
    var names, names', lists' := m.v.a.names, m'.v.a.names, Lists(m');
    match c
    case Create(nama, nr, ncol, nrow, jw1) =>
      var nd, lists, n := DataWords(BitCode(bits, nama), ncol, nrow), WithName(names, Lists(m), nama),
          NameIndex(names, nama);
      && names' == (if nama in names then names else names + [nama])
      && n < |lists|
      && (if nd < 0 then code == MBANK_WRONG_ARGUMENT
          else PlaceStatus(m.v.a, NamedChain(names, m.ch, nama), nr, nd, jw1, code))
      && (if code > 0 then code == WhereIs(m', nama, nr) && CreatedIn(lists, n, nr, ncol, nrow, nd, jw1 == 0, lists')
          else lists' == lists)
    case Drop(nama, nr, jw1) =>
      var n := NameIndex(names, nama);
      && code == 0 && names' == names
      && lists' == if n < |Lists(m)| then Lists(m)[n := Delete(Lists(m)[n], nr)] else Lists(m)
    case DropLists(list) =>
      code == 0 && names' == names && lists' == Without(Lists(m), list)
    case Compact =>
      code == 0 && names' == names && lists' == Lists(m) && m'.v.a.ndn == 0 && m'.v.a.igp == m.v.a.igp - m.v.a.ndn
    case Find(nama, nr) =>
      names' == names && lists' == Lists(m) && code == WhereIs(m', nama, nr)
          && WhereIs(m', nama, nr) == WhereIs(m, nama, nr)
    case Load(rec, nama, unit) =>
      code == 0 && Arrived(names, Lists(m), names', lists', nama, unit, ClipAll(rec.segs))
  }

  /** A bank of the given shape is put into the n-th list, with what it may keep of the one it replaces. */
  ghost predicate CreatedIn(lists: seq<seq<Bank>>, n: nat, nr: int, ncol: int, nrow: int, nd: int, zero: bool,
                            lists': seq<seq<Bank>>)
    requires n < |lists|
  {
    exists d :: Created(Lookup(lists[n], nr), d, nr, ncol, nrow, nd, zero) && lists' == lists[n := Put(lists[n], d)]
  }

  /** A bank that has been created has the shape asked for, and a word for each of its values. */
  lemma EffectShape(nama: int, nr: int, ncol: int, nrow: int, jw1: int, code: int, m: Moment, m': Moment)
    requires InOrder(m) && InOrder(m') && Effect(Create(nama, nr, ncol, nrow, jw1), code, map[], m, m') && code > 0
    ensures nama in m'.v.a.names
    ensures var n := NameIndex(m'.v.a.names, nama);
            && n < |Lists(m')|
            && exists d :: Lookup(Lists(m')[n], nr) == Some(d) && d.ncol == ncol && d.nrow == nrow
                && |d.data| == ncol * nrow
  {
    hide Sound, Listing, PlaceStatus, Put, Lookup, DataWords;
    var lists, n := WithName(m.v.a.names, Lists(m), nama), NameIndex(m.v.a.names, nama);
    PlaceOfNew(m.v.a.names, nama);
    var nd := DataWords(BitCode(map[], nama), ncol, nrow);
    Packed(0, ncol, nrow, nd);
    var d :| Created(Lookup(lists[n], nr), d, nr, ncol, nrow, nd, jw1 == 0)
        && Lists(m') == lists[n := Put(lists[n], d)];
    SortedLists(m.v, m.ch);
    NewSorted(m.v.a.names, Lists(m), nama, n);
    LookupPut(lists[n], d, nr);
  }

  lemma NewSorted(names: seq<int>, lists: seq<seq<Bank>>, nama: int, n: nat)
    requires |lists| == |names| && n == NameIndex(names, nama) && forall k :: 0 <= k < |lists| ==> Sorted(lists[k])
    ensures n < |WithName(names, lists, nama)| && Sorted(WithName(names, lists, nama)[n])
  {
  }

  /** What has become of the array by a call with this outcome. */
  ghost predicate Did(c: Call, o: Outcome, bits: map<int, int>, nresr: nat, m: Moment, m': Moment)
    requires InOrder(m)
  {
    && InOrder(m') && (o.Refused? <==> Refuses(m, c, bits, nresr))
    && if o.Done? then Effect(c, o.code, bits, m, m') else m' == m
  }

  lemma {:induction false} PlaceOfNew(names: seq<int>, nama: int)
    ensures NameIndex(if nama in names then names else names + [nama], nama) == NameIndex(names, nama)
  {
    if nama !in names { LastName(names, nama); AbsentIndex(names, nama); }
  }

  lemma AbsentIndex(names: seq<int>, nama: int)
    requires nama !in names
    ensures NameIndex(names, nama) == |names|
  {
  }

  /** The bank a search finds is where the index says. */
  lemma AnswerIndex(v: Snapshot, ch: seq<seq<int>>, n: nat, nr: int, ind: int)
    requires Sound(v, ch) && n < |ch| && Answer(v.a.w, ch[n], nr, ind)
    ensures ind == IndexOf(v.a.w, ch[n], nr)
  {
    hide Sound, IsChain;
    ChainWalkable(v, ch, n);
    var w, c := v.a.w, ch[n];
    var k := IndexFirst(w, c, nr);
    if ind != 0 {
      var j :| 0 <= j < |c| && c[j] == ind && INR <= c[j] < |w| && w[c[j] - INR] == nr;
      OneOfNumber(w, c, j, k);
    }
  }

  /** Changes in the work area leave every bank where it is. */
  lemma {:induction false} IndexKept(w: seq<int>, w': seq<int>, c: seq<int>, nr: int)
    requires |w'| == |w| && forall i :: 0 <= i < |c| ==> INR <= c[i] < |w| && w'[c[i] - INR] == w[c[i] - INR]
    ensures IndexOf(w', c, nr) == IndexOf(w, c, nr)
  {
    if c != [] { IndexKept(w, w', c[1..], nr); }
  }

  lemma StaysWhere(v: Snapshot, v': Snapshot, ch: seq<seq<int>>, n: nat, nr: int)
    requires SameBanks(v, v', ch) && n < |ch|
    ensures IndexOf(v'.a.w, ch[n], nr) == IndexOf(v.a.w, ch[n], nr)
  {
    hide Sound, IsChain, Listing;
    ChainWalkable(v, ch, n);
    IndexKept(v.a.w, v'.a.w, ch[n], nr);
  }

  /** There is room for a bank if it fits behind all others. */
  lemma EnoughRoom(m: Moment, nama: int, nr: int, nd: int, jw1: int)
    requires InOrder(m) && nd >= 0 && m.v.a.igp + nd + NHW < m.v.a.iwk
    ensures HasRoom(m.v.a, NamedChain(m.v.a.names, m.ch, nama), nr, nd, jw1)
  {
    hide Sound, Listing;
    if nama in m.v.a.names { IndexMeans(m.v, m.ch, NameIndex(m.v.a.names, nama), nr); }
  }

  method PerformCreate(b: BosArray, nama: int, nr: int, ncol: int, nrow: int, jw1: int) returns (o: Outcome)
    requires InOrder(Now(b))
    modifies b, b.w
    ensures b.bits == old(b.bits) && Did(Create(nama, nr, ncol, nrow, jw1), o, b.bits, b.nresr, old(Now(b)), Now(b))
  {
    hide InOrder, Effect, DataWords, BitCode;
    if (nama !in b.names && |b.names| >= b.cap) || jw1 < 0 || jw1 > 2
       || (b.ndw != 0 && b.igp + DataWords(BitCode(b.bits, nama), ncol, nrow) + NHW >= b.iwk) {
      return Refused;
    }
    var ind := MakeBank(b, nama, nr, ncol, nrow, jw1);
    o := Done(ind);
  }

  method MakeBank(b: BosArray, nama: int, nr: int, ncol: int, nrow: int, jw1: int) returns (ind: int)
    requires InOrder(Now(b)) && (nama in b.names || |b.names| < b.cap) && 0 <= jw1 <= 2
    requires b.ndw == 0 || b.igp + DataWords(BitCode(b.bits, nama), ncol, nrow) + NHW < b.iwk
    modifies b, b.w
    ensures b.bits == old(b.bits) && InOrder(Now(b))
    ensures Effect(Create(nama, nr, ncol, nrow, jw1), ind, b.bits, old(Now(b)), Now(b))
  {
    hide Sound, Listing, Created, Put, HasRoom, PlaceStatus, Effect, Lists, CreatedIn, Holds, BankAt, DataWords,
         NamedChain, WithName, BitCode;
    NowInOrder(b);
    var nd := DataWords(BitCode(b.bits, nama), ncol, nrow);
    if nd >= 0 && b.ndw != 0 { EnoughRoom(Now(b), nama, nr, nd, jw1); }
    b.jw1 := jw1;
    PlaceOfNew(b.names, nama);
    ghost var n;
    ind, n := Ncreate(b, nama, nr, ncol, nrow);
    NowInOrder(b);
    CreateEffect(nama, nr, ncol, nrow, jw1, ind, b.bits, old(Now(b)), Now(b), n);
  }

  lemma CreateEffect(nama: int, nr: int, ncol: int, nrow: int, jw1: int, ind: int, bits: map<int, int>, m: Moment,
                     m': Moment, n: nat)
    requires InOrder(m) && InOrder(m') && n == NameIndex(m.v.a.names, nama) < |m'.ch|
    requires n == NameIndex(m'.v.a.names, nama)
    requires m'.v.a.names == if nama in m.v.a.names then m.v.a.names else m.v.a.names + [nama]
    requires var nd, lists := DataWords(BitCode(bits, nama), ncol, nrow), WithName(m.v.a.names, Lists(m), nama);
             && |lists| == |m'.v.a.names|
             && (ind <= 0 ==> Lists(m') == lists)
             && if nd < 0 then ind == MBANK_WRONG_ARGUMENT
                else PlaceStatus(m.v.a, NamedChain(m.v.a.names, m.ch, nama), nr, nd, jw1, ind)
                     && (ind > 0 ==> Placing(lists, m', n, nr, ncol, nrow, nd, jw1, ind))
    ensures Effect(Create(nama, nr, ncol, nrow, jw1), ind, bits, m, m')
  {
    hide Sound, Listing, Created, Put, HasRoom, PlaceStatus, Lists, Holds, BankAt;
    if ind > 0 { CreatedIndex(m'.v, m'.ch, n, nr, ind, Lookup(WithName(m.v.a.names, Lists(m), nama)[n], nr), ncol,
        nrow, DataWords(BitCode(bits, nama), ncol, nrow), jw1 == 0); }
  }

  ghost predicate Placing(lists: seq<seq<Bank>>, m: Moment, n: nat, nr: int, ncol: int, nrow: int, nd: int, jw1: int,
                          ind: int)
    requires InOrder(m) && n < |m.ch| && n < |lists|
  {
    && Holds(m.v.a.w, ind) && ind in m.ch[n]
    && Created(Lookup(lists[n], nr), BankAt(m.v.a.w, ind), nr, ncol, nrow, nd, jw1 == 0)
    && Lists(m) == lists[n := Put(lists[n], BankAt(m.v.a.w, ind))]
  }

  lemma CreatedIndex(v: Snapshot, ch: seq<seq<int>>, n: nat, nr: int, ind: int, o: Option<Bank>, ncol: int, nrow: int,
                     nd: int, zero: bool)
    requires Sound(v, ch) && n < |ch| && ind in ch[n] && Holds(v.a.w, ind)
    requires Created(o, BankAt(v.a.w, ind), nr, ncol, nrow, nd, zero)
    ensures ind == IndexOf(v.a.w, ch[n], nr)
  {
    hide Sound;
    AnswerIndex(v, ch, n, nr, ind);
  }

  method PerformDrop(b: BosArray, nama: int, nr: int, jw1: int) returns (o: Outcome)
    requires InOrder(Now(b))
    modifies b, b.w
    ensures b.bits == old(b.bits) && Did(Drop(nama, nr, jw1), o, b.bits, b.nresr, old(Now(b)), Now(b))
  {
    hide Sound, Listing, Delete, AfterDrop;
    NowInOrder(b);
    b.jw1 := jw1;
    ghost var v, ch := b.Value(), b.ch;
    ghost var k := Ndrop(b, nama, nr, 0, 0);
    if nama in b.names {
      AfterDropIs(v, ch, b.Value(), b.ch, NameIndex(b.names, nama), nr, k, jw1);
    }
    NowInOrder(b);
    o := Done(0);
  }

  method PerformDropLists(b: BosArray, list: seq<nat>) returns (o: Outcome)
    requires InOrder(Now(b))
    modifies b, b.w
    ensures b.bits == old(b.bits) && Did(DropLists(list), o, b.bits, b.nresr, old(Now(b)), Now(b))
  {
    hide Sound, Listing, Layout;
    NowInOrder(b);
    var i := 0;
    while i < |list|
      invariant 0 <= i <= |list| && forall j :: 0 <= j < i ==> list[j] < |b.names|
    {
      if list[i] >= |b.names| {
        return Refused;
      }
      i := i + 1;
    }
    var status := Ldrop(b, list);
    NowInOrder(b);
    o := Done(status);
  }

  method PerformCompact(b: BosArray) returns (o: Outcome)
    requires InOrder(Now(b))
    modifies b, b.w
    ensures b.bits == old(b.bits) && Did(Compact, o, b.bits, b.nresr, old(Now(b)), Now(b))
  {
    hide Sound, Listing;
    NowInOrder(b);
    var status := Ngarbage(b);
    NowInOrder(b);
    o := Done(status);
  }

  method PerformFind(b: BosArray, nama: int, nr: int) returns (o: Outcome)
    requires InOrder(Now(b))
    modifies b, b.w
    ensures b.bits == old(b.bits) && Did(Find(nama, nr), o, b.bits, b.nresr, old(Now(b)), Now(b))
  {
    hide Sound, Listing, Answer, SameBanks, Inv, Layout, Lists, IsChain, NoTable;
    ghost var v := b.Value();
    NowInOrder(b);
    var n := NameIndex(b.names, nama);
    if n < |b.names| {
      HandleBounds(Now(b), n);
      SoundInv(v, b.ch);
      if !(b.ndw == 0 && (b.w[b.idl + 1 + n] == 0 || b.igp + NHW + b.nresr <= b.iwk)) {
        var nb := CountChain(b, n);
        if b.igp + 2 * nb + 10 + NHW + b.nresr > b.iwk {
          return Refused;
        }
      }
    }
    var ind := Nlink(b, nama, nr);
    NowInOrder(b);
    SameNames(v, b.Value(), b.ch);
    if nama in b.names {
      AnswerIndex(b.Value(), b.ch, n, nr, ind);
      StaysWhere(v, b.Value(), b.ch, n, nr);
    }
    o := Done(ind);
  }

  lemma SameNames(v: Snapshot, v': Snapshot, ch: seq<seq<int>>)
    requires SameBanks(v, v', ch)
    ensures v'.a.names == v.a.names && Sound(v', ch)
  {
    hide Sound, Listing;
  }

  /** The words of a complete record are an event buffer that holds it. */
  lemma WordsHold(rec: Segments.Record, e: seq<int>)
    requires Segments.Whole(rec) && |e| == |Segments.RecWords(rec)| + 1 && e[..|e| - 1] == Segments.RecWords(rec)
    ensures EtWriting.Holds(e, rec) && RoomBehind(|e|, rec.segs)
  {
    hide Segments.Flat;
    assert |Segments.RecWords(rec)| == Segments.RECHEADLEN + |Segments.Flat(rec.segs)|;
  }

  method PerformLoad(b: BosArray, rec: Segments.Record, nama: int, unit: int) returns (o: Outcome)
    requires InOrder(Now(b))
    modifies b, b.w
    ensures b.bits == old(b.bits) && Did(Load(rec, nama, unit), o, b.bits, b.nresr, old(Now(b)), Now(b))
  {
    hide Sound, Listing, Arrived, EnterAll, LaidNames, RawAll, Segments.Whole, EtWriting.Holds, Segments.RecWords, Inv,
         ClipAll, Careful, RoomBehind, RoomOrNot, GapAfter, WithoutBank, Walked;
    NowInOrder(b);
    var nb, n := 0, NameIndex(b.names, nama);
    if n < |b.names| {
      SoundInv(b.Value(), b.ch);
      nb := CountChain(b, n);
      ListLength(b.Value(), b.ch, n);
    }
    var i := 0;
    while i < |rec.segs|
      invariant 0 <= i <= |rec.segs| && forall j :: 0 <= j < i ==> Head(rec.segs[j], Segments.idNAME1) != nama
    {
      if Head(rec.segs[i], Segments.idNAME1) == nama {
        return Refused;
      }
      i := i + 1;
    }
    var cs := ClipAll(rec.segs);
    if !Segments.Whole(rec) || !Careful(rec.segs) || b.ndw != 0 || |EnterAll(LaidNames(b.names, nama, cs), cs)| > b.cap
       || BitCode(b.bits, nama) == 2 || BitCode(b.bits, nama) == 3
       || !RoomFor(b.igp, b.iwk, b.nresr, nb + 1, |RawAll(cs)|) {
      return Refused;
    }
    var e := Segments.RecWords(rec);
    var ev := new int[|e| + 1](i => if 0 <= i < |e| then e[i] else 0);
    assert ev[..|e|] == e;
    WordsHold(rec, ev[..]);
    RoomEnough(b.Value(), b.ch, nama, unit, b.nresr, cs);
    var status, broken;
    ghost var k;
    status, broken, k := Et2bos(b, ev, nama, unit, rec);
    NowInOrder(b);
    o := Done(status);
  }

  /**
   Carries a call out, unless it is refused.
   */
  method Perform(b: BosArray, c: Call) returns (o: Outcome)
    requires InOrder(Now(b))
    modifies b, b.w
    ensures b.bits == old(b.bits) && Did(c, o, b.bits, b.nresr, old(Now(b)), Now(b))
  {
    hide Did, InOrder;
    match c
    case Create(nama, nr, ncol, nrow, jw1) => o := PerformCreate(b, nama, nr, ncol, nrow, jw1);
    case Drop(nama, nr, jw1) => o := PerformDrop(b, nama, nr, jw1);
    case DropLists(list) => o := PerformDropLists(b, list);
    case Compact => o := PerformCompact(b);
    case Find(nama, nr) => o := PerformFind(b, nama, nr);
    case Load(rec, nama, unit) => o := PerformLoad(b, rec, nama, unit);
  }

  /** `ms` are the moments between the calls `cs` with outcomes `os`, from first to last. */
  ghost predicate History(cs: seq<Call>, os: seq<Outcome>, bits: map<int, int>, nresr: nat, ms: seq<Moment>) {
    && |ms| == |cs| + 1 && |os| == |cs|
    && (forall i :: 0 <= i <= |cs| ==> InOrder(ms[i]))
    && forall i, j :: 0 <= i < |cs| && j == i + 1 ==> Did(cs[i], os[i], bits, nresr, ms[i], ms[j])
  }

  /**
   Whatever is called on an array that bosInit has made: tilings, chains, accounts and tables
   are in order all the time, exactly the calls that must be refused are, and every other step
   does to the array what its call says.
   */
  method Run(ndim: int, nsyst: nat, cap: nat, nprim: nat, pad: nat, nresr: nat, cs: seq<Call>)
    returns (b: BosArray?, os: seq<Outcome>, ghost ms: seq<Moment>)
    requires 10 <= cap && nprim <= cap + 1 && nsyst >= 19
    ensures b != null <==>
              ndim > 0 && nsyst + 5 * cap + pad + nprim + 39 + nresr <= (if ndim > 1000 then ndim else 1000)
    ensures b != null ==> History(cs, os, map[], nresr, ms) && ms[|cs|] == Now(b)
    ensures b != null ==>
              && ms[0].v.a.names == [] && Lists(ms[0]) == [] && ms[0].v.a.igp == ms[0].v.a.inm
              && ms[0].v.ndw == 0
  {
    hide Sound, Listing, Did;
    var status;
    status, b := Init(ndim, nsyst, cap, nprim, pad, nresr);
    ms, os := [], [];
    if b == null {
      return;
    }
    NowInOrder(b);
    ms := [Now(b)];
    var i := 0;
    while i < |cs|
      invariant 0 <= i <= |cs| && fresh(b) && fresh(b.w) && InOrder(Now(b)) && b.bits == map[] && b.nresr == nresr
      invariant History(cs[..i], os, map[], nresr, ms) && ms[i] == Now(b)
      invariant ms[0].v.a.names == [] && Lists(ms[0]) == [] && ms[0].v.a.igp == ms[0].v.a.inm && ms[0].v.ndw == 0
    {
      var o := Perform(b, cs[i]);
      DidInOrder(cs[i], o, nresr, ms[i], Now(b));
      Longer(cs, i, os, o, nresr, ms, Now(b));
      ms, os := ms + [Now(b)], os + [o];
      i := i + 1;
    }
    assert cs[..i] == cs;
  }

  lemma DidInOrder(c: Call, o: Outcome, nresr: nat, m: Moment, m': Moment)
    requires InOrder(m) && Did(c, o, map[], nresr, m, m')
    ensures InOrder(m')
  {
    hide Effect, Refuses;
  }

  lemma Longer(cs: seq<Call>, i: nat, os: seq<Outcome>, o: Outcome, nresr: nat, ms: seq<Moment>, m: Moment)
    requires i < |cs| && History(cs[..i], os, map[], nresr, ms) && InOrder(ms[i])
    requires Did(cs[i], o, map[], nresr, ms[i], m) && InOrder(m)
    ensures History(cs[..i + 1], os + [o], map[], nresr, ms + [m])
  {
    hide Did, InOrder;
  }
}
