/**
 Writing banks of a BOS array into a flat record (bosldump.c, bos2et.c).
 */
module EventUnloading {
  import opened BankLayout
  import opened Chains
  import opened Directory
  import opened NamedArea
  import opened WorkArea
  import opened LinkTables
  import opened BosArrays
  import opened Creating
  import opened Linking
  import opened Records
  import opened Slices
  import opened Segments

  import opened HeaderTexts
  import EtWriting

  const BLANK := 0x20202020   // four blanks
  const RUNE := 0x454E5552    // "RUNE", little-endian
  const VENT := 0x544E4556    // "VENT"
  const EBIO_NOETSPACE := -977

  // ---- The banks of the listed names -------------------------------------------------------------------

  ghost predicate InRange(list: seq<nat>, n: nat) {
    forall i :: 0 <= i < |list| ==> list[i] < n
  }

  /** The banks of one name, as complete fragments. */
  ghost function OfName(n: nat, l: seq<Bank>): seq<Frag> {
    seq(|l|, i requires 0 <= i < |l| => Frag(n, l[i]))
  }

  /** The banks of the listed names: name by name, in chain order. */
  ghost function Listed(m: seq<seq<Bank>>, list: seq<nat>): seq<Frag>
    requires InRange(list, |m|)
  {
    if list == [] then [] else Listed(m, list[..|list| - 1]) + OfName(list[|list| - 1], m[list[|list| - 1]])
  }

  lemma ListedMore(m: seq<seq<Bank>>, list: seq<nat>, i: nat)
    requires InRange(list, |m|) && i < |list|
    ensures InRange(list[..i], |m|) && InRange(list[..i + 1], |m|)
    ensures Listed(m, list[..i + 1]) == Listed(m, list[..i]) + OfName(list[i], m[list[i]])
  {
    assert list[..i + 1][..i] == list[..i];
  }

  lemma {:induction false} ListedNamed(m: seq<seq<Bank>>, list: seq<nat>)
    requires InRange(list, |m|)
    ensures forall j :: 0 <= j < |Listed(m, list)| ==>
        Listed(m, list)[j].n < |m| && Listed(m, list)[j].bank in m[Listed(m, list)[j].n]
  {
    if list != [] { ListedNamed(m, list[..|list| - 1]); }
  }

  /** The index arrays belong to the fragments. */
  ghost predicate Indexed(w: seq<int>, names: seq<int>, buf: seq<int>, fmtbuf: seq<nat>, fs: seq<Frag>) {
    && |buf| == |fmtbuf| == |fs|
    && forall j :: 0 <= j < |fs| ==>
          && IsFragment(w, names, buf[j], fmtbuf[j])
          && Frag(fmtbuf[j], BankAt(w, buf[j])) == fs[j]
  }

  /** Bank `x` is live and has the n-th name. */
  ghost predicate IsFragment(w: seq<int>, names: seq<int>, x: int, n: nat) {
    Holds(w, x) && n < |names| && w[x - INAM] == names[n]
  }

  lemma IndexedMore(w: seq<int>, names: seq<int>, buf: seq<int>, fmtbuf: seq<nat>, fs: seq<Frag>, x: int, n: nat)
    requires Indexed(w, names, buf, fmtbuf, fs) && IsFragment(w, names, x, n)
    ensures Indexed(w, names, buf + [x], fmtbuf + [n], fs + [Frag(n, BankAt(w, x))])
  {
  }

  lemma ChainListed(v: Snapshot, ch: seq<seq<int>>, n: nat, k: nat)
    requires Sound(v, ch) && n < |ch| && k < |ch[n]|
    ensures n < |v.a.names| && IsFragment(v.a.w, v.a.names, ch[n][k], n)
    ensures k < |Listing(v, ch)[n]| && Listing(v, ch)[n][k] == BankAt(v.a.w, ch[n][k])
    ensures INXT <= ch[n][k] < |v.a.w| && v.a.w[ch[n][k] - INXT] == At(ch[n], k + 1) && ch[n][k] != 0
  {
    hide WInv, Links, Accounts, InSome;
    ListOf(v.a, ch, n);
    NextInChain(v.a, ch, n, k);
    assert IsChain(v.a.w, Banks(v.a), v.a.base + n, v.a.names[n], ch[n]);
  }

  lemma ChainStart(v: Snapshot, ch: seq<seq<int>>, n: nat)
    requires Sound(v, ch) && n < |ch|
    ensures 0 <= v.a.base + n < |v.a.w| && v.a.w[v.a.base + n] == At(ch[n], 0) && |Listing(v, ch)[n]| == |ch[n]|
  {
    hide WInv, Links, Accounts, InSome, Chained;
    InvMeaningful(v.a, ch);
    FirstInChain(v.a, ch, n);
  }

  /** The indices of all banks of one name. */
  method DumpChain(b: BosArray, n: nat, buf: seq<int>, fmtbuf: seq<nat>, ghost fs: seq<Frag>)
    returns (buf': seq<int>, fmtbuf': seq<nat>)
    requires b.Valid() && n < |b.ch| && Indexed(b.w[..], b.names, buf, fmtbuf, fs)
    ensures |b.Contents()| == |b.ch|
    ensures Indexed(b.w[..], b.names, buf', fmtbuf', fs + OfName(n, b.Contents()[n]))
  {
    hide Sound, Listing, Indexed, BankAt;
    ghost var v, ch := b.Value(), b.ch;
    ChainStart(v, ch, n);
    ghost var l, k := b.Contents()[n], 0;
    buf', fmtbuf' := buf, fmtbuf;
    assert fs + OfName(n, l)[..0] == fs;
    var ind := b.w[b.base + n];
    while ind != 0
      invariant 0 <= k <= |ch[n]| && ind == At(ch[n], k)
      invariant Indexed(b.w[..], b.names, buf', fmtbuf', fs + OfName(n, l)[..k])
      decreases |ch[n]| - k
    {
      ChainListed(v, ch, n, k);
      IndexedMore(b.w[..], b.names, buf', fmtbuf', fs + OfName(n, l)[..k], ind, n);
      OneMore(n, l, k, fs);
      fmtbuf' := fmtbuf' + [n];
      buf' := buf' + [ind];
      ind := b.w[ind - INXT];
      k := k + 1;
    }
    if k < |ch[n]| { ChainListed(v, ch, n, k); }
    assert OfName(n, l)[..k] == OfName(n, l);
  }

  lemma OneMore(n: nat, l: seq<Bank>, k: nat, fs: seq<Frag>)
    requires k < |l|
    ensures fs + OfName(n, l)[..k] + [Frag(n, l[k])] == fs + OfName(n, l)[..k + 1]
  {
    assert OfName(n, l)[..k + 1] == OfName(n, l)[..k] + [OfName(n, l)[k]];
    Assoc(fs, OfName(n, l)[..k], [Frag(n, l[k])]);
  }

  /** The indices of the banks of the listed names (bosLdump). */
  method Ldump(b: BosArray, list: seq<nat>) returns (buf: seq<int>, fmtbuf: seq<nat>)
    requires b.Valid() && InRange(list, |b.names|)
    ensures |b.Contents()| == |b.names| && Indexed(b.w[..], b.names, buf, fmtbuf, Listed(b.Contents(), list))
  {
    hide Sound, Listing, Indexed, Listed;
    CountNames(b.Value(), b.ch);
    ghost var m := b.Contents();
    buf, fmtbuf := [], [];
    NoneListed(b.w[..], b.names, m, list);
    var ils := 0;
    while ils < |list|
      invariant 0 <= ils <= |list| && InRange(list[..ils], |m|)
      invariant Indexed(b.w[..], b.names, buf, fmtbuf, Listed(m, list[..ils]))
    {
      ListedMore(m, list, ils);
      buf, fmtbuf := DumpChain(b, list[ils], buf, fmtbuf, Listed(m, list[..ils]));
      ils := ils + 1;
    }
    assert list[..ils] == list;
  }

  /** All names, in order of first use. */
  function AllOf(n: nat): (list: seq<nat>)
    ensures |list| == n && forall i :: 0 <= i < n ==> list[i] == i
  {
    seq(n, i requires 0 <= i => i)
  }

  /** The indices of all banks (bosLdump with the list "0" or "*"). */
  method LdumpAll(b: BosArray) returns (buf: seq<int>, fmtbuf: seq<nat>)
    requires b.Valid()
    ensures |b.Contents()| == |b.names|
    ensures Indexed(b.w[..], b.names, buf, fmtbuf, Listed(b.Contents(), AllOf(|b.names|)))
  {
    hide Sound, Listing, Indexed, Listed;
    CountNames(b.Value(), b.ch);
    ghost var m, all := b.Contents(), AllOf(|b.names|);
    buf, fmtbuf := [], [];
    NoneListed(b.w[..], b.names, m, all);
    var i := 0;
    while i < |b.names|
      invariant 0 <= i <= |b.names| && InRange(all[..i], |m|)
      invariant Indexed(b.w[..], b.names, buf, fmtbuf, Listed(m, all[..i]))
    {
      ListedMore(m, all, i);
      buf, fmtbuf := DumpChain(b, i, buf, fmtbuf, Listed(m, all[..i]));
      i := i + 1;
    }
    assert all[..i] == all;
  }

  lemma NoneListed(w: seq<int>, names: seq<int>, m: seq<seq<Bank>>, list: seq<nat>)
    ensures InRange(list[..0], |m|) && Indexed(w, names, [], [], Listed(m, list[..0]))
  {
  }

  // ---- The flat record ------------------------------------------------------------------------------------

  /** Format words of every name: at most sixty. */
  ghost predicate FormatsOk(fmts: seq<seq<int>>, n: nat) {
    |fmts| == n && forall i :: 0 <= i < n ==> |fmts[i]| <= MAXHEAD - idFRMT
  }

  /** A bank of the array in the flat record. */
  function SegOf(names: seq<int>, fmts: seq<seq<int>>, f: Frag): Segment
    requires f.n < |names| && f.n < |fmts|
  {
    Segment([idFRMT + |fmts[f.n]|, names[f.n], BLANK, f.bank.nr, f.bank.ncol, f.bank.nrow, 0, 0,
        |f.bank.data|] + fmts[f.n],
            f.bank.data)
  }

  ghost function SegsOf(names: seq<int>, fmts: seq<seq<int>>, fs: seq<Frag>): (ds: seq<Segment>)
    requires Named(names, fs) && |fmts| == |names|
    ensures |ds| == |fs|
  {
    seq(|fs|, i requires 0 <= i < |fs| => SegOf(names, fmts, fs[i]))
  }

  lemma SegFits(names: seq<int>, fmts: seq<seq<int>>, f: Frag)
    requires f.n < |names| && FormatsOk(fmts, |names|)
    ensures var d := SegOf(names, fmts, f);
            && SegOk(d) && |SegWords(d)| == |d.hd| + |d.data| && |d.hd| == idFRMT + |fmts[f.n]|
            && d.hd[idCODE] == 0 && d.hd[idNPREV] == 0
  {
  }

  lemma SegsMore(names: seq<int>, fmts: seq<seq<int>>, fs: seq<Frag>, i: nat)
    requires Named(names, fs) && FormatsOk(fmts, |names|) && i < |fs|
    ensures var ds := SegsOf(names, fmts, fs);
            Segments.Flat(ds[..i + 1]) == Segments.Flat(ds[..i]) + SegWords(ds[i]) && ds[i] == SegOf(names, fmts, fs[i])
  {
    var ds := SegsOf(names, fmts, fs);
    assert ds[..i + 1] == ds[..i] + [ds[i]];
    FlatAdd(ds[..i], ds[i]);
  }

  /** What has been written: `i` banks. */
  ghost predicate Laid(ev: seq<int>, hd: seq<int>, ds: seq<Segment>, i: nat, start: int) {
    && i <= |ds| && |hd| == RECHEADLEN && start == RECHEADLEN + |Segments.Flat(ds[..i])| <= |ev|
    && ev[..start] == hd + Segments.Flat(ds[..i])
  }

  /** Header words of a bank, without its format. */
  method PutHeaderWords(w: array<int>, ev: array<int>, start: nat, ind: int)
    requires Holds(w[..], ind) && start + idFRMT <= ev.Length && ev != w
    modifies ev
    ensures ev[start] == idFRMT && ev[start + 1] == w[ind - INAM] && ev[start + 2] == BLANK
    ensures ev[start + 3] == w[ind - INR]
    ensures ev[start + 4] == w[ind - ICOL] && ev[start + 5] == w[ind - IROW] && ev[start + 6] == 0 && ev[start + 7] == 0
    ensures ev[start + 8] == w[ind]
    ensures forall j :: 0 <= j < ev.Length && !(start <= j < start + idFRMT) ==> ev[j] == old(ev[j])
  {
    ev[start] := idFRMT;
    ev[start + idNAME1] := w[ind - INAM];
    ev[start + idNAME2] := BLANK;
    ev[start + idNSGM] := w[ind - INR];
    ev[start + idNCOL] := w[ind - ICOL];
    ev[start + idNROW] := w[ind - IROW];
    ev[start + idCODE] := 0;
    ev[start + idNPREV] := 0;
    ev[start + idDATA] := w[ind];
  }

  /** Formats that are known, with texts that the header of a bank has room for. */
  predicate AllKnown(formats: seq<BankFormat>, n: nat) {
    && |formats| == n
    && forall i :: 0 <= i < n ==> (formats[i].Bits? ==> 1 <= formats[i].code <= 3)
                                  && |TextWords(FormatChars(formats[i]))| <= MAXHEAD - idFRMT
  }

  lemma KnownOk(formats: seq<BankFormat>, n: nat)
    requires AllKnown(formats, n)
    ensures FormatsOk(HeaderFormats(formats), n)
  {
  }

  /** The buffer after header `h` has been put, with `r` blanks behind it. */
  ghost function HeaderPut(e: seq<int>, start: int, h: seq<int>, r: nat): (e': seq<int>)
    requires 0 <= start && r < 4 && start + |h| + (if r > 0 then 1 else 0) <= |e|
    ensures |e'| == |e|
  {
    var a := EtWriting.Overwritten(e, start, h);
    if r > 0 then a[start + |h| := WithBlanks(e[start + |h|], r)] else a
  }

  /** Whatever is there, the header touches no word from `ndim` on, if and only if it ends before, blanks included. */
  lemma BehindTheEnd(start: nat, h: seq<int>, r: nat, ndim: int)
    requires start <= ndim && r < 4 && h != []
    ensures var end := start + |h| + if r > 0 then 1 else 0;
            (forall e: seq<int> :: |e| >= end && |e| >= ndim ==> HeaderPut(e, start, h, r)[ndim..] == e[ndim..])
                <==> end <= ndim
  {
    hide HeaderPut;
    var end := start + |h| + if r > 0 then 1 else 0;
    if end <= ndim {
      forall e: seq<int> | |e| >= end && |e| >= ndim ensures HeaderPut(e, start, h, r)[ndim..] == e[ndim..] {
        PutKeeps(e, start, h, r, ndim);
      }
    } else {
      var n := if end > ndim then end else ndim;
      var e := seq(n, j requires 0 <= j => if start <= j < start + |h| then h[j - start] + 1 else 0);
      PutChanges(e, start, h, r);
      assert HeaderPut(e, start, h, r)[ndim..][end - 1 - ndim] != e[ndim..][end - 1 - ndim];
    }
  }

  lemma PutKeeps(e: seq<int>, start: nat, h: seq<int>, r: nat, ndim: nat)
    requires r < 4 && start + |h| + (if r > 0 then 1 else 0) <= ndim <= |e|
    ensures HeaderPut(e, start, h, r)[ndim..] == e[ndim..]
  {
    hide WithBlanks;
    assert forall j :: ndim <= j < |e| ==> HeaderPut(e, start, h, r)[j] == e[j];
  }

  lemma PutChanges(e: seq<int>, start: nat, h: seq<int>, r: nat)
    requires r < 4 && h != [] && start + |h| + (if r > 0 then 1 else 0) <= |e|
    requires forall j :: start <= j < start + |h| ==> e[j] == h[j - start] + 1
    requires r > 0 ==> e[start + |h|] == 0
    ensures var end := start + |h| + if r > 0 then 1 else 0; HeaderPut(e, start, h, r)[end - 1] != e[end - 1]
  {
  }

  /** Header words of a bank, the words of its format, and the blanks behind them. */
  method PutBankHeader(b: BosArray, ev: array<int>, start: nat, ind: int, nami: nat, formats: seq<BankFormat>)
    requires Holds(b.w[..], ind) && nami < |b.names| && AllKnown(formats, |b.names|) && ev != b.w
    requires start + idFRMT + |TextWords(FormatChars(formats[nami]))| + Spills(formats[nami]) <= ev.Length
    requires b.w[ind - INAM] == b.names[nami]
    modifies ev
    ensures var h := SegOf(b.names, HeaderFormats(formats), Frag(nami, BankAt(b.w[..], ind))).hd;
            && |h| == idFRMT + |TextWords(FormatChars(formats[nami]))|
            && ev[..] == HeaderPut(old(ev[..]), start, h, Spill(formats[nami])) && ev[start] == |h|
  {
    hide SegOf, TextWords, WithBlanks, HeaderPut;
    ghost var e0 := ev[..];
    var fmt, r := TextWords(FormatChars(formats[nami])), Spill(formats[nami]);
    PutHeaderWords(b.w, ev, start, ind);
    PutFormat(ev, start, fmt, r);
    HeaderIs(ev[..], start, b.names, HeaderFormats(formats), Frag(nami, BankAt(b.w[..], ind)));
    PutIs(e0, ev[..], start, SegOf(b.names, HeaderFormats(formats), Frag(nami, BankAt(b.w[..], ind))).hd, r);
  }

  /** The words of the format are counted and put behind the header words, with `r` blanks behind them. */
  method PutFormat(ev: array<int>, start: nat, fmt: seq<int>, r: nat)
    requires r < 4 && start + idFRMT + |fmt| + (if r > 0 then 1 else 0) <= ev.Length
    modifies ev
    ensures ev[start] == old(ev[start]) + |fmt| && ev[start + idFRMT..start + idFRMT + |fmt|] == fmt
    ensures r > 0 ==> ev[start + idFRMT + |fmt|] == WithBlanks(old(ev[start + idFRMT + |fmt|]), r)
    ensures var end := start + idFRMT + |fmt| + if r > 0 then 1 else 0;
            forall j :: 0 <= j < ev.Length && j != start && !(start + idFRMT <= j < end) ==> ev[j] == old(ev[j])
  {
    hide WithBlanks;
    ev[start] := ev[start] + |fmt|;
    CopyWords(ev, start + idFRMT, fmt);
    ghost var e1 := ev[..];
    if r > 0 {
      ev[start + idFRMT + |fmt|] := WithBlanks(ev[start + idFRMT + |fmt|], r);
    }
    assert ev[start + idFRMT..start + idFRMT + |fmt|] == e1[start + idFRMT..start + idFRMT + |fmt|];
  }

  lemma PutIs(e: seq<int>, e': seq<int>, start: nat, h: seq<int>, r: nat)
    requires r < 4 && start + |h| + (if r > 0 then 1 else 0) <= |e| == |e'| && e'[start..start + |h|] == h
    requires forall j :: 0 <= j < |e| && (j < start || start + |h| + (if r > 0 then 1 else 0) <= j) ==> e'[j] == e[j]
    requires r > 0 ==> e'[start + |h|] == WithBlanks(e[start + |h|], r)
    ensures e' == HeaderPut(e, start, h, r)
  {
    var x := HeaderPut(e, start, h, r);
    forall j | 0 <= j < |e| ensures e'[j] == x[j] {
      if start <= j < start + |h| { assert e'[j] == e'[start..start + |h|][j - start]; }
    }
  }

  lemma HeaderIs(e: seq<int>, p: nat, names: seq<int>, fmts: seq<seq<int>>, f: Frag)
    requires f.n < |names| && f.n < |fmts| && p + idFRMT + |fmts[f.n]| <= |e|
    requires e[p] == idFRMT + |fmts[f.n]| && e[p + 1] == names[f.n] && e[p + 2] == BLANK && e[p + 3] == f.bank.nr
    requires e[p + 4] == f.bank.ncol && e[p + 5] == f.bank.nrow && e[p + 6] == 0 && e[p + 7] == 0
    requires e[p + 8] == |f.bank.data|
    requires e[p + idFRMT..p + idFRMT + |fmts[f.n]|] == fmts[f.n]
    ensures var h := SegOf(names, fmts, f).hd; |h| == idFRMT + |fmts[f.n]| && e[p..p + |h|] == h
  {
    var h := SegOf(names, fmts, f).hd;
    assert e[p..p + |h|] == e[p..p + idFRMT] + e[p + idFRMT..p + |h|];
    assert e[p..p + idFRMT] == h[..idFRMT];
  }

  /** Where the words of bank `i` end, blanks behind its header included; data only if they fit. */
  ghost function BankEnd(ds: seq<Segment>, sp: seq<nat>, ndim: int, i: nat): int
    requires i < |ds| && |sp| == |ds|
  {
    var p := RECHEADLEN + |Segments.Flat(ds[..i])| + |ds[i].hd|;
    p + if p + |ds[i].data| <= ndim && ds[i].data != [] then |ds[i].data| else sp[i]
  }

  /** Where the words end that are written into the event buffer. */
  ghost function Reach(ds: seq<Segment>, sp: seq<nat>, ndim: int, i: nat): (r: int)
    requires i <= |ds| && |sp| == |ds|
    decreases |ds| - i
  {
    if i == |ds| then RECHEADLEN + |Segments.Flat(ds)|
    else if RECHEADLEN + |Segments.Flat(ds[..i + 1])| > ndim then BankEnd(ds, sp, ndim, i)
    else
      var a, b := BankEnd(ds, sp, ndim, i), Reach(ds, sp, ndim, i + 1);
      if a < b then b else a
  }

  /** Which banks have blanks behind their headers. */
  ghost function SpillsOf(formats: seq<BankFormat>, fs: seq<Frag>): (sp: seq<nat>)
    requires forall i :: 0 <= i < |fs| ==> fs[i].n < |formats|
    ensures |sp| == |fs| && forall i :: 0 <= i < |fs| ==> sp[i] == Spills(formats[fs[i].n])
  {
    seq(|fs|, i requires 0 <= i < |fs| => Spills(formats[fs[i].n]))
  }

  /** One bank is added to the flat record, if there is room; its header is written in any case. */
  method UnloadBank(b: BosArray, ev: array<int>, start: nat, ind: int, nami: nat, formats: seq<BankFormat>, ndim: int,
                 ghost hd: seq<int>, ghost fs: seq<Frag>, ghost i: nat)
    returns (start': nat, ok: bool)
    requires IsFragment(b.w[..], b.names, ind, nami) && AllKnown(formats, |b.names|) && ev != b.w
    requires i < |fs| && Named(b.names, fs) && Frag(nami, BankAt(b.w[..], ind)) == fs[i]
    requires start <= ndim && Laid(ev[..], hd, SegsOf(b.names, HeaderFormats(formats), fs), i, start)
    requires var ds := SegsOf(b.names, HeaderFormats(formats), fs);
             start + |ds[i].hd| + Spills(formats[nami]) <= ev.Length
                 && (start + |SegWords(ds[i])| <= ndim ==> start + |SegWords(ds[i])| <= ev.Length)
    modifies ev
    ensures var ds := SegsOf(b.names, HeaderFormats(formats), fs);
            && (ok <==> start + |SegWords(ds[i])| <= ndim)
            && (if ok then start' == start + |SegWords(ds[i])| && Laid(ev[..], hd, ds, i + 1, start')
                else start' == start && Laid(ev[..], hd, ds, i, start)
                     && ev[..] == HeaderPut(old(ev[..]), start, ds[i].hd, Spill(formats[nami])))
            && var behind := if ok && ds[i].data != [] then |ds[i].data| else Spills(formats[nami]);
               forall j :: 0 <= j < ev.Length && j >= start + |ds[i].hd| + behind ==> ev[j] == old(ev[j])
  {
    hide SegOf, Laid, Segments.Flat, Named, BankAt, TextWords, WithBlanks, HeaderPut, AllKnown, Spill, FormatChars;
    ghost var fmts := HeaderFormats(formats);
    KnownOk(formats, |b.names|);
    ghost var ds, e0 := SegsOf(b.names, fmts, fs), ev[..];
    ghost var d := SegOf(b.names, fmts, fs[i]);
    SegFits(b.names, fmts, fs[i]);
    DataLength(b.w[..], ind, nami, fs[i], b.names, fmts);
    PutBankHeader(b, ev, start, ind, nami, formats);
    HeaderPutAt(e0, ev[..], start, d.hd, Spill(formats[nami]));
    WrittenStill(e0, ev[..], hd, ds, i, start);
    var nhead := ev[start];
    if start + nhead + b.w[ind] > ndim {
      return start, false;
    }
    ghost var e1 := ev[..];
    CopyWords(ev, start + nhead, b.w[ind + 1..ind + 1 + b.w[ind]]);
    start', ok := start + nhead + b.w[ind], true;
    assert forall j :: start <= j < start + nhead ==> ev[j] == e1[j];
    assert ev[start..start + nhead] == e1[start..start + nhead];
    WrittenMore(e0, ev[..], hd, b.names, fmts, fs, i, start, start');
  }

  lemma HeaderPutAt(e: seq<int>, e': seq<int>, start: nat, h: seq<int>, r: nat)
    requires r < 4 && start + |h| + (if r > 0 then 1 else 0) <= |e| && e' == HeaderPut(e, start, h, r)
    ensures |e'| == |e| && e'[start..start + |h|] == h
    ensures forall j :: 0 <= j < |e| && (j < start || j >= start + |h| + (if r > 0 then 1 else 0)) ==> e'[j] == e[j]
  {
  }

  lemma DataLength(w: seq<int>, x: int, n: nat, f: Frag, names: seq<int>, fmts: seq<seq<int>>)
    requires IsFragment(w, names, x, n) && f == Frag(n, BankAt(w, x)) && FormatsOk(fmts, |names|)
    ensures f.n == n && SegOf(names, fmts, f).data == w[x + 1..x + 1 + w[x]] == f.bank.data
    ensures |f.bank.data| == w[x] >= 0
  {
  }

  lemma WrittenStill(e: seq<int>, e': seq<int>, hd: seq<int>, ds: seq<Segment>, i: nat, start: nat)
    requires Laid(e, hd, ds, i, start) && |e'| == |e| && forall j :: 0 <= j < start && j < |e| ==> e'[j] == e[j]
    ensures Laid(e', hd, ds, i, start)
  {
    assert e'[..start] == e[..start];
  }

  lemma WrittenMore(e: seq<int>, e': seq<int>, hd: seq<int>, names: seq<int>, fmts: seq<seq<int>>, fs: seq<Frag>,
                    i: nat, start: nat, start': nat)
    requires Named(names, fs) && FormatsOk(fmts, |names|) && i < |fs| && fs[i].n < |names|
    requires Laid(e, hd, SegsOf(names, fmts, fs), i, start) && |e'| == |e| && start <= |e|
    requires forall j :: 0 <= j < start ==> e'[j] == e[j]
    requires var d := SegOf(names, fmts, fs[i]);
             && start' == start + |d.hd| + |d.data| <= |e'|
             && e'[start..start + |d.hd|] == d.hd && e'[start + |d.hd|..start'] == d.data
    ensures Laid(e', hd, SegsOf(names, fmts, fs), i + 1, start')
  {
    hide SegOf, Segments.Flat;
    var ds, d := SegsOf(names, fmts, fs), SegOf(names, fmts, fs[i]);
    SegsMore(names, fmts, fs, i);
    assert e'[..start] == e[..start];
    assert e'[..start'] == e'[..start] + (e'[start..start + |d.hd|] + e'[start + |d.hd|..start']);
    Assoc(hd, Segments.Flat(ds[..i]), SegWords(d));
  }

  // ---- The operation ------------------------------------------------------------------------------------------

  /** The record header: run, event and trigger are those of the HEAD bank if there is one. */
  ghost predicate HeaderOk(h: seq<int>, nwrd: int) {
    // RUNE, VENT
    |h| == RECHEADLEN && h[..5] == [0x0403_0201, 64, 0, 0x454e_5552, 0x544e_4556] && h[7] == 0 && h[9] == 0
        && h[10] == nwrd
  }

  ghost predicate EventOf(h: seq<int>, d: seq<int>) {
    |h| == RECHEADLEN && |d| >= 5 && h[5] == d[1] && h[6] == d[2] && h[8] == d[4]
  }

  /** The header words that are the same for every record. */
  method PutConstants(ev: array<int>)
    requires RECHEADLEN <= ev.Length
    modifies ev
    ensures HeaderOk(ev[..RECHEADLEN], 0) && forall j :: RECHEADLEN <= j < ev.Length ==> ev[j] == old(ev[j])
  {
    ev[irPTRN], ev[irFORG], ev[irNRSG] := EtWriting.SWAP, EtWriting.LOCAL * 16, 0;
    ev[irNAME1], ev[irNAME2], ev[irNPHYS], ev[irCODE], ev[irNWRD] := RUNE, VENT, 0, 0, 0;
  }

  /** Run, event and trigger of the HEAD bank at `ind`. */
  method PutEvent(w: array<int>, ev: array<int>, ind: int)
    requires Holds(w[..], ind) && ind + 5 < w.Length && ev != w && RECHEADLEN <= ev.Length
    requires HeaderOk(ev[..RECHEADLEN], 0)
    modifies ev
    ensures HeaderOk(ev[..RECHEADLEN], 0) && (w[ind] >= 5 ==> EventOf(ev[..RECHEADLEN], BankAt(w[..], ind).data))
    ensures forall j :: RECHEADLEN <= j < ev.Length ==> ev[j] == old(ev[j])
  {
    ev[irNRUN] := w[ind + 2];
    ev[irNEVNT] := w[ind + 3];
    ev[irTRIG] := w[ind + 5];
  }

  /** The header words that do not depend on the banks. */
  method PutRecordHeader(b: BosArray, ev: array<int>, head: int)
    requires b.Valid() && |b.ch| == |b.names| && ev != b.w && RECHEADLEN <= ev.Length && b.fix + NHW <= b.w.Length
    requires head in b.names ==> var n := NameIndex(b.names, head); 0 <= b.idl + 1 + n < b.w.Length && LinkRoom(b, n)
    modifies ev, b`iwk, b`igw, b`ndw, b`jw1, b.w
    ensures b.Valid() && b.Contents() == old(b.Contents()) && HeaderOk(ev[..RECHEADLEN], 0)
    ensures b.iwk >= old(b.iwk) - (if head in b.names then LinkWords(|b.ch[NameIndex(b.names, head)]|) else 0)
    ensures forall j :: RECHEADLEN <= j < ev.Length ==> ev[j] == old(ev[j])
    ensures head in b.names ==>
              var n := NameIndex(b.names, head);
              && n < |b.Contents()|
              && (Lookup(b.Contents()[n], 0).Some? && |Lookup(b.Contents()[n], 0).value.data| >= 5 ==>
                    EventOf(ev[..RECHEADLEN], Lookup(b.Contents()[n], 0).value.data))
  {
    hide Sound, Listing, SameBanks, Answer, HeaderOk, EventOf, LinkRoom, Lookup;
    PutConstants(ev);
    ghost var v, ch := b.Value(), b.ch;
    var ind := Nlink(b, head, 0);
    if head in b.names { AnswerMeans(b.Value(), ch, NameIndex(b.names, head), 0, ind); }
    if ind != 0 {
      PutEvent(b.w, ev, ind);
    }
  }

  /** The index that bosNlink gives leads to the bank of the list. */
  lemma AnswerMeans(v: Snapshot, ch: seq<seq<int>>, n: nat, nr: int, ind: int)
    requires Sound(v, ch) && n < |ch| && Answer(v.a.w, ch[n], nr, ind)
    ensures n < |Listing(v, ch)|
    ensures ind == 0 ==> Lookup(Listing(v, ch)[n], nr).None?
    ensures ind != 0 ==> Holds(v.a.w, ind) && ind < v.fix
    ensures ind != 0 ==>
              && Lookup(Listing(v, ch)[n], nr).Some?
              && Lookup(Listing(v, ch)[n], nr).value == BankAt(v.a.w, ind)
  {
    hide Links, Accounts, InSome, Chained, WTiles, WInds, WDropSum, WTop, WBank;
    ListOf(v.a, ch, n);
    SettleBounds(v, ch, n);
    InvMeaningful(v.a, ch);
    if ind == 0 {
      LookupAbsent(Listing(v, ch)[n], nr);
    } else {
      var k :| 0 <= k < |ch[n]| && ch[n][k] == ind && INR <= ch[n][k] < |v.a.w| && v.a.w[ch[n][k] - INR] == nr;
      NextInChain(v.a, ch, n, k);
      LookupAt(Listing(v, ch)[n], k, nr);
    }
  }

  /** The words of the first banks are some of all words. */
  lemma PartFits(ds: seq<Segment>, k: nat)
    requires k <= |ds|
    ensures |Segments.Flat(ds[..k])| <= |Segments.Flat(ds)| && (k == |ds| ==> ds[..k] == ds)
    ensures k < |ds| ==>
              |Segments.Flat(ds[..k + 1])| == |Segments.Flat(ds[..k])| + |SegWords(ds[k])| <= |Segments.Flat(ds)|
  {
    hide SegWords;
    if k < |ds| { EtWriting.FlatAt(ds, k); } else { assert ds[..k] == ds; }
  }

  /** The flat record is complete: its header has the right number of words. */
  lemma FinishWritten(e: seq<int>, e': seq<int>, hd: seq<int>, ds: seq<Segment>, k: nat, start: nat)
    requires Laid(e, hd, ds, k, start) && HeaderOk(hd, 0) && |e| >= RECHEADLEN && e' == e[irNWRD := start - RECHEADLEN]
    ensures var hd' := hd[irNWRD := start - RECHEADLEN];
            HeaderOk(hd', start - RECHEADLEN) && Laid(e', hd', ds, k, start) && e'[..RECHEADLEN] == hd'
            && (forall d :: EventOf(hd, d) ==> EventOf(hd', d))
  {
    var hd' := hd[irNWRD := start - RECHEADLEN];
    var f := Segments.Flat(ds[..k]);
    assert e'[..start] == e[..start][irNWRD := start - RECHEADLEN] == hd' + f;
    assert e'[..RECHEADLEN] == e'[..start][..RECHEADLEN];
  }

  /** What bos2et leaves in the event buffer: header, and the first `k` banks. */
  ghost predicate Unloaded(ev: seq<int>, ds: seq<Segment>, k: nat, ndim: int) {
    && |ev| >= RECHEADLEN && k <= |ds|
    && var n := RECHEADLEN + |Segments.Flat(ds[..k])|;
    && n <= ndim && Laid(ev, ev[..RECHEADLEN], ds, k, n) && HeaderOk(ev[..RECHEADLEN], n - RECHEADLEN)
    && (k < |ds| ==> ndim < RECHEADLEN + |Segments.Flat(ds[..k + 1])|)
  }

  lemma BankEnds(ds: seq<Segment>, sp: seq<nat>, ndim: int, i: nat)
    requires i < |ds| && |sp| == |ds| && sp[i] <= 1
    ensures var p := RECHEADLEN + |Segments.Flat(ds[..i])|;
            && p + |ds[i].hd| + sp[i] <= BankEnd(ds, sp, ndim, i) && |SegWords(ds[i])| == |ds[i].hd| + |ds[i].data|
            && (p + |SegWords(ds[i])| <= ndim ==> p + |SegWords(ds[i])| <= BankEnd(ds, sp, ndim, i))
  {
  }

  lemma StillSame(e: seq<int>, e': seq<int>, e0: seq<int>, ds: seq<Segment>, sp: seq<nat>, ndim: int, i: nat)
    requires i < |ds| && SameBehind(e, e0, ds, sp, ndim) && BankEnd(ds, sp, ndim, i) <= Reach(ds, sp, ndim, 0)
    requires |e'| == |e|
    requires forall j :: 0 <= j < |e| && j >= BankEnd(ds, sp, ndim, i) ==> e'[j] == e[j]
    ensures SameBehind(e', e0, ds, sp, ndim)
  {
    hide Segments.Flat, BankEnd;
  }

  /** The header of bank `k` is in the buffer, with `r` blanks behind it. */
  ghost predicate HeaderBehind(e: seq<int>, ds: seq<Segment>, k: nat, r: nat)
    requires r < 4
  {
    && k < |ds|
    && var p, h := RECHEADLEN + |Segments.Flat(ds[..k])|, ds[k].hd;
       && p + |h| <= |e| && e[p..p + |h|] == h
       && (r > 0 ==> p + |h| < |e| && e[p + |h|] == WithBlanks(e[p + |h|], r))
  }

  lemma PutBehind(e: seq<int>, e': seq<int>, ds: seq<Segment>, k: nat, r: nat)
    requires r < 4 && k < |ds|
    requires var p, h := RECHEADLEN + |Segments.Flat(ds[..k])|, ds[k].hd;
             p + |h| + (if r > 0 then 1 else 0) <= |e| && e' == HeaderPut(e, p, h, r)
    ensures HeaderBehind(e', ds, k, r)
  {
    hide Segments.Flat;
    var p, h := RECHEADLEN + |Segments.Flat(ds[..k])|, ds[k].hd;
    assert e'[p..p + |h|] == h;
    if r > 0 { BlanksTwice(e[p + |h|], r); }
  }

  lemma BlanksTwice(x: int, r: nat)
    requires r < 4
    ensures WithBlanks(WithBlanks(x, r), r) == WithBlanks(x, r)
  {
  }

  lemma ListedNames(m: seq<seq<Bank>>, list: seq<nat>, names: seq<int>)
    requires InRange(list, |m|) && |m| == |names|
    ensures Named(names, Listed(m, list))
  {
    ListedNamed(m, list);
  }

  /** The end of the words that bos2et writes, for a buffer said to have `ndim` words. */
  ghost function EventEnd(names: seq<int>, formats: seq<BankFormat>, m: seq<seq<Bank>>, list: seq<nat>, ndim: int): int
    requires |m| == |names| && InRange(list, |m|) && AllKnown(formats, |names|)
  {
    ListedNames(m, list, names);
    Reach(SegsOf(names, HeaderFormats(formats), Listed(m, list)), SpillsOf(formats, Listed(m, list)), ndim, 0)
  }

  /** Every bank that is looked at ends before the end of all. */
  lemma {:induction false} ReachCovers(ds: seq<Segment>, sp: seq<nat>, ndim: int, i: nat, k: nat)
    requires i <= k <= |ds| && |sp| == |ds|
    requires RECHEADLEN + |Segments.Flat(ds[..k])| <= ndim
    ensures Reach(ds, sp, ndim, k) <= Reach(ds, sp, ndim, i)
    ensures k < |ds| ==> BankEnd(ds, sp, ndim, k) <= Reach(ds, sp, ndim, i)
    ensures RECHEADLEN + |Segments.Flat(ds[..k])| <= Reach(ds, sp, ndim, i)
    decreases k - i
  {
    hide Segments.Flat;
    if i < k {
      PartFits(ds[..k], i + 1);
      assert ds[..k][..i + 1] == ds[..i + 1];
      ReachCovers(ds, sp, ndim, i + 1, k);
    } else if i < |ds| {
      EtWriting.FlatAt(ds, i);
    } else {
      assert ds[..i] == ds;
    }
  }

  /** From which word on the buffer is as it was, after `i` banks. */
  ghost predicate SameBehind(e: seq<int>, e0: seq<int>, ds: seq<Segment>, sp: seq<nat>, ndim: int) {
    |sp| == |ds| && |e| == |e0| && forall j :: Reach(ds, sp, ndim, 0) <= j < |e| && 0 <= j ==> e[j] == e0[j]
  }

  /**
   Writes the banks of the listed names into the event buffer (bos2et).  With too little room
   the record has those first banks that fit, but the header of the next has been written by then: no
   word at or behind `ndim` is written exactly if the words that are written end before (`Reach`).
   */
  method Bos2et(b: BosArray, list: seq<nat>, ev: array<int>, ndim: int, formats: seq<BankFormat>, head: int)
    returns (error: int, size: int, ghost k: nat)
    requires b.Valid() && |b.ch| == |b.names| && InRange(list, |b.names|) && AllKnown(formats, |b.names|)
    requires |b.Contents()| == |b.names|
    requires ev != b.w && b.fix + NHW <= b.w.Length
    requires ndim >= RECHEADLEN ==> EventEnd(b.names, formats, b.Contents(), list, ndim) <= ev.Length
    requires head in b.names ==> var n := NameIndex(b.names, head); 0 <= b.idl + 1 + n < b.w.Length && LinkRoom(b, n)
    modifies ev, b`iwk, b`igw, b`ndw, b`jw1, b.w
    ensures b.Valid() && b.Contents() == old(b.Contents()) && |b.Contents()| == |b.names|
    ensures b.iwk >= old(b.iwk) - (if head in b.names then LinkWords(|b.ch[NameIndex(b.names, head)]|) else 0)
    ensures Named(b.names, Listed(b.Contents(), list))
    ensures var fs := Listed(b.Contents(), list);
            var ds := SegsOf(b.names, HeaderFormats(formats), fs);
            if ndim < RECHEADLEN then error == -1 && ev[..] == old(ev[..])
            else
              && Unloaded(ev[..], ds, k, ndim) && size == 4 * (RECHEADLEN + |Segments.Flat(ds[..k])|)
              && (error == 0 <==> k == |ds|) && (error == 0 <==> RECHEADLEN + |Segments.Flat(ds)| <= ndim)
              && (error != 0 ==> error == EBIO_NOETSPACE && HeaderBehind(ev[..], ds, k, Spill(formats[fs[k].n])))
              && SameBehind(ev[..], old(ev[..]), ds, SpillsOf(formats, fs), ndim)
    ensures ndim >= RECHEADLEN && head in b.names ==>
              var n := NameIndex(b.names, head);
              && n < |b.Contents()|
              && (Lookup(b.Contents()[n], 0).Some? && |Lookup(b.Contents()[n], 0).value.data| >= 5 ==>
                    EventOf(ev[..RECHEADLEN], Lookup(b.Contents()[n], 0).value.data))
  {
    hide Sound, Listing, LinkRoom, Segments.Flat, SegWords, Laid, Indexed, Named, SegsOf, HeaderOk, EventOf, BankAt,
         Reach, BankEnd, SpillsOf, HeaderFormats, HeaderPut, SameBehind, HeaderBehind, Lookup, Spill;
    size, k := 0, 0;
    ghost var m := b.Contents();
    CountNames(b.Value(), b.ch);
    ListedNames(m, list, b.names);
    if ndim < RECHEADLEN {
      return -1, 0, 0;
    }
    ghost var e0 := ev[..];
    ghost var fs, fmts := Listed(m, list), HeaderFormats(formats);
    KnownOk(formats, |b.names|);
    ghost var ds, sp := SegsOf(b.names, fmts, fs), SpillsOf(formats, fs);
    assert ds[..0] == [];
    EtWriting.NoWords();
    ReachCovers(ds, sp, ndim, 0, 0);
    PutRecordHeader(b, ev, head);
    ghost var hd := ev[..RECHEADLEN];
    NothingWritten(ev[..], ds);
    SameStart(ev[..], e0, ds, sp, ndim);
    var buf, fmtbuf := Ldump(b, list);
    var start;
    error, start, k := UnloadAll(b, ev, buf, fmtbuf, formats, ndim, hd, fs, e0);
    WrittenSize(ev[..], hd, ds, k, start);
    PartFits(ds, k);
    FinishWritten(ev[..], ev[..][irNWRD := start - RECHEADLEN], hd, ds, k, start);
    CountSet(ev[..], start - RECHEADLEN, e0, ds, sp, ndim);
    if k < |ds| { CountBehind(ev[..], start - RECHEADLEN, ds, k, Spill(formats[fs[k].n])); }
    ev[irNWRD] := start - RECHEADLEN;
    size := start * 4;
  }

  /** The banks in turn, until there is no room. */
  method UnloadAll(b: BosArray, ev: array<int>, buf: seq<int>, fmtbuf: seq<nat>, formats: seq<BankFormat>, ndim: int,
                   ghost hd: seq<int>, ghost fs: seq<Frag>, ghost e0: seq<int>)
    returns (error: int, start: nat, ghost k: nat)
    requires Indexed(b.w[..], b.names, buf, fmtbuf, fs) && Named(b.names, fs) && AllKnown(formats, |b.names|)
    requires ev != b.w
    requires var ds, sp := SegsOf(b.names, HeaderFormats(formats), fs), SpillsOf(formats, fs);
             && Laid(ev[..], hd, ds, 0, RECHEADLEN) && SameBehind(ev[..], e0, ds, sp, ndim)
             && RECHEADLEN <= ndim && Reach(ds, sp, ndim, 0) <= ev.Length
    modifies ev
    ensures k <= |fs| && start <= ndim
    ensures var ds, sp := SegsOf(b.names, HeaderFormats(formats), fs), SpillsOf(formats, fs);
            && Laid(ev[..], hd, ds, k, start) && SameBehind(ev[..], e0, ds, sp, ndim)
            && (if k == |fs| then error == 0
                else
                  && error == EBIO_NOETSPACE && start + |SegWords(ds[k])| > ndim
                  && HeaderBehind(ev[..], ds, k, Spill(formats[fs[k].n])))
  {
    hide Segments.Flat, SegWords, Laid, Indexed, SegsOf, BankAt, Reach, BankEnd, HeaderFormats, HeaderPut, SameBehind,
         HeaderBehind, Spill;
    ghost var ds, sp := SegsOf(b.names, HeaderFormats(formats), fs), SpillsOf(formats, fs);
    start, k, error := RECHEADLEN, 0, 0;
    IndexedSize(b.w[..], b.names, buf, fmtbuf, fs);
    var i := 0;
    while i < |buf|
      invariant 0 <= i == k <= |buf| == |fs| && start <= ndim && Laid(ev[..], hd, ds, i, start)
      invariant SameBehind(ev[..], e0, ds, sp, ndim)
    {
      var ok;
      NextIndexed(b.w[..], b.names, buf, fmtbuf, fs, i);
      WrittenSize(ev[..], hd, ds, i, start);
      ReachCovers(ds, sp, ndim, 0, i);
      BankEnds(ds, sp, ndim, i);
      ghost var e1, start1 := ev[..], start;
      start, ok := UnloadBank(b, ev, start, buf[i], fmtbuf[i], formats, ndim, hd, fs, i);
      BankEndIs(ds, sp, ndim, i, start1, ok);
      StillSame(e1, ev[..], e0, ds, sp, ndim, i);
      if !ok {
        error := EBIO_NOETSPACE;
        PutBehind(e1, ev[..], ds, i, Spill(formats[fs[i].n]));
        break;
      }
      i := i + 1;
      k := i;
    }
  }

  lemma BankEndIs(ds: seq<Segment>, sp: seq<nat>, ndim: int, i: nat, start: int, ok: bool)
    requires i < |ds| && |sp| == |ds| && start == RECHEADLEN + |Segments.Flat(ds[..i])|
    requires (ok <==> start + |SegWords(ds[i])| <= ndim)
    ensures BankEnd(ds, sp, ndim, i) == start + |ds[i].hd| + if ok && ds[i].data != [] then |ds[i].data| else sp[i]
  {
    hide Segments.Flat;
  }

  lemma SameStart(e: seq<int>, e0: seq<int>, ds: seq<Segment>, sp: seq<nat>, ndim: int)
    requires |sp| == |ds| && |e| == |e0| && Reach(ds, sp, ndim, 0) >= RECHEADLEN
    requires forall j :: RECHEADLEN <= j < |e| ==> e[j] == e0[j]
    ensures SameBehind(e, e0, ds, sp, ndim)
  {
    hide Reach;
  }

  /** The count of words in the record header is set at the end. */
  lemma CountSet(e: seq<int>, x: int, e0: seq<int>, ds: seq<Segment>, sp: seq<nat>, ndim: int)
    requires SameBehind(e, e0, ds, sp, ndim) && Reach(ds, sp, ndim, 0) >= RECHEADLEN && |e| >= RECHEADLEN
    ensures SameBehind(e[irNWRD := x], e0, ds, sp, ndim)
  {
    hide Reach;
  }

  lemma CountBehind(e: seq<int>, x: int, ds: seq<Segment>, k: nat, r: nat)
    requires r < 4 && HeaderBehind(e, ds, k, r) && |e| >= RECHEADLEN
    ensures HeaderBehind(e[irNWRD := x], ds, k, r)
  {
    hide Segments.Flat, WithBlanks;
    var p, h := RECHEADLEN + |Segments.Flat(ds[..k])|, ds[k].hd;
    assert e[irNWRD := x][p..p + |h|] == e[p..p + |h|];
  }

  lemma NothingWritten(e: seq<int>, ds: seq<Segment>)
    requires |e| >= RECHEADLEN
    ensures Laid(e, e[..RECHEADLEN], ds, 0, RECHEADLEN)
  {
    assert ds[..0] == [];
  }

  lemma IndexedSize(w: seq<int>, names: seq<int>, buf: seq<int>, fmtbuf: seq<nat>, fs: seq<Frag>)
    requires Indexed(w, names, buf, fmtbuf, fs)
    ensures |buf| == |fmtbuf| == |fs|
  {
  }

  lemma NextIndexed(w: seq<int>, names: seq<int>, buf: seq<int>, fmtbuf: seq<nat>, fs: seq<Frag>, i: nat)
    requires Indexed(w, names, buf, fmtbuf, fs) && i < |fs|
    ensures |buf| == |fmtbuf| == |fs| && IsFragment(w, names, buf[i], fmtbuf[i])
    ensures Frag(fmtbuf[i], BankAt(w, buf[i])) == fs[i]
  {
  }

  lemma WrittenSize(e: seq<int>, hd: seq<int>, ds: seq<Segment>, i: nat, start: int)
    requires Laid(e, hd, ds, i, start)
    ensures i <= |ds| && start == RECHEADLEN + |Segments.Flat(ds[..i])| <= |e| && |hd| == RECHEADLEN
    ensures e[..RECHEADLEN] == hd
  {
    assert e[..RECHEADLEN] == e[..start][..RECHEADLEN];
  }
}
