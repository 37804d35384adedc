/**
 Reading a record of a file into a BOS array (bosRead in bosread.c): its banks are put together
 from their data segments in the gap, as the data of a record bank, which bosins takes apart.
 */
module BosReading {
  import opened Options
  import opened BankLayout
  import opened Directory
  import opened BosArrays
  import opened Creating
  import opened Segments
  import opened Slices
  import opened EtReading
  import opened HeaderTexts
  import opened EventWalking
  import opened EventLoading

  // ---- One bank in the gap -------------------------------------------------------------------------------

  /** Header words of a bank in the gap, but for its length. */
  ghost predicate HeaderLaid(w: seq<int>, start: int, h: seq<int>) {
    && 0 <= start && start + NHW <= |w| && |h| >= 9
    && w[start] == h[idNCOL] && w[start + 1] == h[idNROW] && w[start + 2] == h[idNAME1] && w[start + 3] == h[idNSGM]
    && w[start + 4] == 0
  }

  /**
   The bank at `start` of the gap is being filled: header from `h`, data words of `open` so far;
   `k` data segments have been used and the reader is at the next one.
   */
  ghost predicate RawFilling(w: seq<int>, rec: Record, ds: seq<Segment>, k: nat, i: nat, open: Option<Segment>,
                             start: int, nread: int, h: seq<int>) {
    && RecOk(rec) && Got(rec, ds, k, i, open) && k < |ds| && HeaderLaid(w, start, h)
    && nread == (if open == None then 0 else |open.value.data|)
    && h == (if open == None then ds[k].hd else open.value.hd)
    && start + NHW + nread <= |w|
    && (open != None ==> w[start + NHW..start + NHW + nread] == open.value.data)
  }

  /** Words outside `[lo, hi)` are the same. */
  ghost predicate SameOutside(w: seq<int>, w': seq<int>, lo: int, hi: int) {
    |w'| == |w| && forall j :: 0 <= j < |w| && !(lo <= j < hi) ==> w'[j] == w[j]
  }

  /** GET_DATA for one data segment, into the gap. */
  ghost predicate Copied(w: seq<int>, w': seq<int>, at: int, d: seq<int>) {
    && 0 <= at && at + |d| <= |w| == |w'| && w'[at..at + |d|] == d
    && SameOutside(w, w', at, at + |d|)
  }

  lemma CopiedBehind(w: seq<int>, w': seq<int>, start: int, h: seq<int>, n: nat, d: seq<int>)
    requires HeaderLaid(w, start, h) && Copied(w, w', start + NHW + n, d)
    ensures HeaderLaid(w', start, h) && start + NHW + n + |d| <= |w'| == |w|
    ensures w'[start + NHW..start + NHW + n + |d|] == w[start + NHW..start + NHW + n] + d
  {
    var p := start + NHW;
    assert w'[p..p + n] == w[p..p + n];
    assert w'[p..p + n + |d|] == w'[p..p + n] + w'[p + n..p + n + |d|];
  }

  /** The length word completes the bank. */
  lemma LengthLaid(w: seq<int>, start: int, h: seq<int>, n: nat, d: Segment)
    requires HeaderLaid(w, start, h) && start + NHW + n <= |w| && w[start + NHW..start + NHW + n] == d.data
    requires n == |d.data|
    requires |d.hd| == |h| && d.hd == h[idCODE := 0][idDATA := n]
    ensures w[start + 5 := n][start..start + NHW + n] == Raw(d)
  {
    hide Raw;
    var w2 := w[start + 5 := n];
    assert w2[start + NHW..start + NHW + n] == w[start + NHW..start + NHW + n];
    forall i | start + NHW <= i < start + NHW + n ensures w2[i] == d.data[i - (start + NHW)] {
      assert w2[i] == w2[start + NHW..start + NHW + n][i - (start + NHW)];
    }
    RawWords(w2, start, d);
  }

  lemma RawMoreData(w: seq<int>, w': seq<int>, rec: Record, ds: seq<Segment>, k: nat, i: nat, open: Option<Segment>,
                    start: int, nread: int, h: seq<int>) returns (open': Option<Segment>)
    requires RawFilling(w, rec, ds, k, i, open, start, nread, h)
    requires SegOk(ds[k]) && ds[k].hd[idCODE] != 0 && ds[k].hd[idCODE] != 3
    requires Copied(w, w', start + NHW + nread, ds[k].data)
    ensures RawFilling(w', rec, ds, k + 1, i, open', start, nread + |ds[k].data|, h) && open' != None
  {
    hide Segments.Flat, Got, Close, RecOk, HeaderLaid, Copied, SegOk;
    CopiedBehind(w, w', start, h, nread, ds[k].data);
    assert open != None ==> w[start + NHW..start + NHW + nread] == open.value.data;
    GotNext(rec, ds, k, i, open);
    open' := Some(if open == None then ds[k] else open.value.(data := open.value.data + ds[k].data));
    OpenFits(rec, ds, k + 1, i, open'.value);
    assert open == None ==> w[start + NHW..start + NHW + nread] == [];
  }

  lemma RawLastData(w: seq<int>, w': seq<int>, rec: Record, ds: seq<Segment>, k: nat, i: nat, open: Option<Segment>,
                    start: int, nread: int, h: seq<int>)
    requires RawFilling(w, rec, ds, k, i, open, start, nread, h)
    requires SegOk(ds[k]) && (ds[k].hd[idCODE] == 0 || ds[k].hd[idCODE] == 3)
    requires Copied(w, w', start + NHW + nread, ds[k].data)
    ensures i < |rec.segs| && Got(rec, ds, k + 1, i + 1, None) && |rec.segs[i].data| == nread + |ds[k].data|
    ensures start + NHW + nread + |ds[k].data| <= |w'|
    ensures w'[start + 5 := nread + |ds[k].data|][start..start + NHW + nread + |ds[k].data|] == Raw(rec.segs[i])
  {
    hide Segments.Flat, Got, RecOk, Raw, HeaderLaid, Copied, SegOk;
    BankCompleted(rec, ds, k, i, open);
    CopiedBehind(w, w', start, h, nread, ds[k].data);
    assert open == None ==> w[start + NHW..start + NHW + nread] == [];
    LengthLaid(w', start, h, nread + |ds[k].data|, rec.segs[i]);
  }

  /** Between two banks: `k` data segments used, the first `i` banks in the gap from `p` up to `start`. */
  ghost predicate RawBetween(w: seq<int>, rec: Record, ds: seq<Segment>, k: nat, i: nat, p: int, start: int) {
    && RecOk(rec) && Got(rec, ds, k, i, None)
    && 0 <= p && start == p + |RawAll(rec.segs[..i])| <= |w| && w[p..start] == RawAll(rec.segs[..i])
  }

  lemma RawBankFits(rec: Record, ds: seq<Segment>, k: nat, i: nat, open: Option<Segment>)
    requires RecOk(rec) && Got(rec, ds, k, i, open) && k < |ds|
    ensures SegOk(ds[k]) && i < |rec.segs|
    ensures (if open == None then 0 else |open.value.data|) + |ds[k].data| <= |rec.segs[i].data|
    ensures |RawAll(rec.segs[..i + 1])| == |RawAll(rec.segs[..i])| + NHW + |rec.segs[i].data| <= |RawAll(rec.segs)|
  {
    hide Segments.Flat, Got, RawAll, Raw;
    BankFits(rec, ds, k, i, open);
    RawMore(rec.segs, i);
    RawGrows(rec.segs, i + 1);
  }

  lemma RawBetweenMore(w: seq<int>, w': seq<int>, rec: Record, ds: seq<Segment>, k: nat, k': nat, i: nat, p: int,
                       start: int, start': int)
    requires RawBetween(w, rec, ds, k, i, p, start) && i < |rec.segs| && Got(rec, ds, k', i + 1, None)
    requires SameOutside(w, w', start, start') && start' == start + |Raw(rec.segs[i])| <= |w|
    requires w'[start..start'] == Raw(rec.segs[i])
    ensures RawBetween(w', rec, ds, k', i + 1, p, start')
  {
    hide Got, Raw, RecOk;
    RawMore(rec.segs, i);
    assert w'[p..start] == w[p..start];
    assert w'[p..start'] == w'[p..start] + w'[start..start'];
  }

  /** The header words of a bank, its length aside. */
  method LayHeader(w: array<int>, start: int, dathead: seq<int>)
    requires 0 <= start && start + NHW <= w.Length && |dathead| >= 9
    modifies w
    ensures HeaderLaid(w[..], start, dathead) && SameOutside(old(w[..]), w[..], start, start + NHW)
  {
    w[start + (NHW - 1) - ICOL] := dathead[idNCOL];
    w[start + (NHW - 1) - IROW] := dathead[idNROW];
    w[start + (NHW - 1) - INAM] := dathead[idNAME1];
    w[start + (NHW - 1) - INR] := dathead[idNSGM];
    w[start + (NHW - 1) - INXT] := 0;
  }

  /** The data of the segment that the reader is at; `last` tells whether the bank is complete now. */
  method TakeRaw(r: BlockReader, w: array<int>, start: int, nread0: int, ndim: int, jp: int, dathead: seq<int>,
                 ghost rec: Record, ghost ps: seq<Record>, ghost rest: seq<Record>, ghost q: nat, ghost j: nat,
                 ghost k: nat, ghost i: nat, ghost open: Option<Segment>, ghost h: seq<int>)
    returns (last: bool, nread: int, ghost open': Option<Segment>)
    requires Within(r, ps, rest, q, j, k + 1, jp) && k < |AllSegs(ps)| && dathead == AllSegs(ps)[k].hd
    requires RawFilling(w[..], rec, AllSegs(ps), k, i, open, start, nread0, h)
    requires i < |rec.segs| && |rec.segs[i].data| < ndim && start + NHW + ndim <= w.Length
    modifies w
    ensures i < |rec.segs| && SameOutside(old(w[..]), w[..], start, start + NHW + |rec.segs[i].data|)
    ensures last ==> Got(rec, AllSegs(ps), k + 1, i + 1, None) && nread == |rec.segs[i].data|
                     && 0 <= start && start + NHW + nread <= w.Length
                     && w[start..start + NHW + nread] == Raw(rec.segs[i])
    ensures !last ==> open' != None && RawFilling(w[..], rec, AllSegs(ps), k + 1, i, open', start, nread, h)
  {
    hide Segments.Flat, AllSegs, Got, Assemble, RawFilling, Within, Raw;
    ghost var ds, w1 := AllSegs(ps), w[..];
    WithinAt(r, ps, rest, q, j, k + 1, jp);
    RawFillBounds(w1, rec, ds, k, i, open, start, nread0, h);
    var kp := jp + dathead[idNHEAD];
    var kpl := jp + dathead[idNHEAD] + dathead[idDATA];
    var ncop := if ndim - nread0 < kpl - kp then ndim - nread0 else kpl - kp;
    CopyWords(w, start + NHW + nread0, r.bufin[kp..kp + ncop]);
    assert Copied(w1, w[..], start + NHW + nread0, ds[k].data);
    nread, open' := nread0 + ncop, open;
    last := nread == ndim || dathead[idCODE] == 0 || dathead[idCODE] == 3;
    if last {
      RawLastData(w1, w[..], rec, ds, k, i, open, start, nread0, h);
      w[start + (NHW - 1)] := nread;
    } else {
      open' := RawMoreData(w1, w[..], rec, ds, k, i, open, start, nread0, h);
    }
  }

  lemma RawFillBounds(w: seq<int>, rec: Record, ds: seq<Segment>, k: nat, i: nat, open: Option<Segment>,
                      start: int, nread: int, h: seq<int>)
    requires RawFilling(w, rec, ds, k, i, open, start, nread, h)
    ensures k < |ds| && SegOk(ds[k]) && i < |rec.segs| && 0 <= start && start + NHW <= |w| && 0 <= nread
    ensures nread + |ds[k].data| <= |rec.segs[i].data|
  {
    hide Segments.Flat, Got, RawAll;
    RawBankFits(rec, ds, k, i, open);
  }

  /** One bank, put together from its data segments. */
  method ReadRawBank(r: BlockReader, w: array<int>, start: int, ndim: int, jp: int, dathead0: seq<int>,
                     ghost rec: Record, ghost ps: seq<Record>, ghost rest: seq<Record>, ghost q: nat, ghost j: nat,
                     ghost k: nat, ghost i: nat, ghost p: int)
    returns (nread: int, jp': int, ghost q': nat, ghost j': nat, ghost k': nat)
    requires Coded(ps) && Within(r, ps, rest, q, j, k + 1, jp) && jp > 0
    requires k < |AllSegs(ps)| && SegsOk(AllSegs(ps)) && dathead0 == AllSegs(ps)[k].hd
    requires RawBetween(w[..], rec, AllSegs(ps), k, i, p, start)
    requires i < |rec.segs| && |rec.segs[i].data| < ndim && start + NHW + ndim <= w.Length
    modifies r, w
    ensures nread == |rec.segs[i].data| < ndim && k' > 0
    ensures RawBetween(w[..], rec, AllSegs(ps), k', i + 1, p, start + NHW + nread)
    ensures Within(r, ps, rest, q', j', k', jp') && jp' > 0
    ensures SameOutside(old(w[..]), w[..], start, start + NHW + nread)
  {
    hide Segments.Flat, AllSegs, Within, Got, Assemble, RawBetween, RawFilling, Coded, Raw, RawAll;
    ghost var ds, w0 := AllSegs(ps), w[..];
    var dathead := dathead0;
    ghost var h, open := dathead0, None;
    assert SegOk(ds[k]);
    RawStart(w0, rec, ds, k, i, p, start);
    LayHeader(w, start, dathead);
    RawBegun(w0, w[..], rec, ds, k, i, p, start);
    nread := 0;
    jp', q', j', k' := jp, q, j, k;
    while true
      invariant k' < |ds| && SegOk(ds[k']) && dathead == ds[k'].hd && Within(r, ps, rest, q', j', k' + 1, jp')
      invariant jp' > 0
      invariant RawFilling(w[..], rec, ds, k', i, open, start, nread, h)
      invariant SameOutside(w0, w[..], start, start + NHW + |rec.segs[i].data|)
      decreases |ds| - k'
    {
      var last;
      last, nread, open := TakeRaw(r, w, start, nread, ndim, jp', dathead, rec, ps, rest, q', j', k', i, open, h);
      k' := k' + 1;
      if last {
        RawBetweenMore(w0, w[..], rec, ds, k, k', i, p, start, start + NHW + nread);
        break;
      }
      RawFillBounds(w[..], rec, ds, k', i, open, start, nread, h);
      var error;
      error, jp', dathead, q', j' := GetDataHeader(r, jp', ps, rest, q', j', k');
    }
  }

  lemma RawStart(w: seq<int>, rec: Record, ds: seq<Segment>, k: nat, i: nat, p: int, start: int)
    requires RawBetween(w, rec, ds, k, i, p, start)
    ensures 0 <= start <= |w|
  {
  }

  lemma RawBegun(w: seq<int>, w': seq<int>, rec: Record, ds: seq<Segment>, k: nat, i: nat, p: int, start: int)
    requires RawBetween(w, rec, ds, k, i, p, start) && k < |ds| && HeaderLaid(w', start, ds[k].hd)
    ensures RawFilling(w', rec, ds, k, i, None, start, 0, ds[k].hd)
  {
  }

  // ---- All banks of the record ---------------------------------------------------------------------------

  const MINROOM := 200  // words that bosRead wants free in front of every bank

  /** The length of the format text in a data header (bosread.c:134-137). */
  method FormatText(dathead: seq<int>) returns (nf: nat)
    requires |dathead| >= idFRMT && dathead[idNHEAD] == |dathead|
    ensures nf == TextLength(dathead[idFRMT..])
  {
    hide ByteOf, EndsText;
    var fmt, limit := dathead[idFRMT..], TextLimit(dathead[idNHEAD]);
    nf := 0;
    while !EndsText(Byte(fmt, 0, nf)) && nf < limit
      invariant nf <= limit == 4 * |fmt| && TextEnd(fmt, 0, limit, nf) == TextLength(fmt)
    {
      nf := nf + 1;
    }
  }

  /** The header of the next bank's first data segment says what the bank's own will say. */
  lemma NextHeader(rec: Record, ds: seq<Segment>, k: nat, i: nat)
    requires RecOk(rec) && Got(rec, ds, k, i, None) && k < |ds|
    ensures SegOk(ds[k]) && i < |rec.segs| && (ds[k].hd[idCODE] == 0 || ds[k].hd[idCODE] == 1)
    ensures Declares(rec.segs[i]) <==> TextLength(ds[k].hd[idFRMT..]) > 0 && ds[k].hd[idNCOL] > 0
    ensures ds[k].hd[idNAME1] == Head(rec.segs[i], idNAME1)
    ensures |RawAll(rec.segs[..i + 1])| == |RawAll(rec.segs[..i])| + NHW + |rec.segs[i].data| <= |RawAll(rec.segs)|
  {
    hide Segments.Flat, Got, RawAll, RecOk, TextLength;
    GotNext(rec, ds, k, i, None);
    BankFits(rec, ds, k, i, None);
    RawBankFits(rec, ds, k, i, None);
    assert ds[k].hd[idFRMT..] == rec.segs[i].hd[idFRMT..];
  }

  /** One bank of the record is read into the gap. */
  method ReadLaid(r: BlockReader, b: BosArray, start: int, jp: int, dathead: seq<int>, ghost rec: Record,
                  ghost ps: seq<Record>, ghost rest: seq<Record>, ghost q: nat, ghost j: nat, ghost k: nat,
                  ghost i: nat, ghost rn: nat, ghost rk: nat, ghost ird: int, ghost unit: int, ghost m: seq<seq<Bank>>,
                  ghost names: seq<int>) returns (start': int, jp': int, ghost q': nat, ghost j': nat, ghost k': nat)
    requires Coded(ps) && Within(r, ps, rest, q, j, k + 1, jp) && jp > 0 && RecOk(rec)
    requires Got(rec, AllSegs(ps), k, i, None)
    requires k < |AllSegs(ps)| && SegsOk(AllSegs(ps)) && dathead == AllSegs(ps)[k].hd
    requires Laying(b, rn, rk, ird, unit, m, names, rec.segs, i, start) && b.igp + |RawAll(rec.segs)| + MINROOM <= b.iwk
    modifies r, b.w
    ensures i < |rec.segs| && Laying(b, rn, rk, ird, unit, m, names, rec.segs, i + 1, start')
    ensures Got(rec, AllSegs(ps), k', i + 1, None) && Within(r, ps, rest, q', j', k', jp') && jp' > 0
  {
    hide Sound, Listing, EventLoading.LastBank, Alike, Segments.Flat, AllSegs, Within, Got, Assemble, Raw, RawAll,
         RecOk, Coded;
    ghost var v, ds, p := b.Value(), AllSegs(ps), b.igp;
    NextHeader(rec, ds, k, i);
    assert dathead[idCODE] == 0 || dathead[idCODE] == 1;  // no header is passed over
    var ndim := b.iwk - start - NHW;
    if ndim < MINROOM {
      assert false;
    }
    var nread;
    nread, jp', q', j', k' := ReadRawBank(r, b.w, start, ndim, jp, dathead, rec, ps, rest, q, j, k, i, p);
    if nread >= ndim {
      assert false;
    }
    RawBehind(b.w[..], rec, ds, k', i, p, start, nread);
    LaidMore(b, v, rn, rk, ird, unit, m, rec.segs, i, start);
    start' := start + nread + NHW;
  }

  lemma RawBehind(w: seq<int>, rec: Record, ds: seq<Segment>, k: nat, i: nat, p: int, start: int, nread: nat)
    requires RawBetween(w, rec, ds, k, i + 1, p, start + NHW + nread) && i < |rec.segs| && nread == |rec.segs[i].data|
    requires 0 <= p && start == p + |RawAll(rec.segs[..i])|
    ensures Got(rec, ds, k, i + 1, None) && start + NHW + nread <= |w|
    ensures w[start..start + NHW + nread] == Raw(rec.segs[i])
  {
    hide Got, Raw, RecOk;
    RawMore(rec.segs, i);
    var e := start + NHW + nread;
    SubSlice(w, p, e, start, e);
    assert w[p..e][start - p..e - p] == Raw(rec.segs[i]);
  }

  /** The banks after the first, until no data header is left. */
  method ReadRest(r: BlockReader, b: BosArray, start0: int, jp0: int, ghost rec: Record, ghost ps: seq<Record>,
                  ghost rest: seq<Record>, ghost q0: nat, ghost j0: nat, ghost k0: nat, ghost rn: nat, ghost rk: nat,
                  ghost ird: int, ghost unit: int, ghost m: seq<seq<Bank>>, ghost names: seq<int>) returns (start: int)
    requires Coded(ps) && Within(r, ps, rest, q0, j0, k0, jp0) && jp0 > 0 && RecOk(rec)
    requires Got(rec, AllSegs(ps), k0, 1, None)
    requires SegsOk(AllSegs(ps)) && rec.segs != [] && |Declared(names, rec.segs[1..])| <= b.cap
    requires Laying(b, rn, rk, ird, unit, m, names, rec.segs, 1, start0)
    requires b.igp + |RawAll(rec.segs)| + MINROOM <= b.iwk
    modifies r, b, b.w
    ensures r.Valid() && r.Ready() && r.Rest() == rest
    ensures Laying(b, rn, rk, ird, unit, m, Declared(names, rec.segs[1..]), rec.segs, |rec.segs|, start)
    ensures b.igp == old(b.igp) && b.iwk == old(b.iwk) && b.ndw == old(b.ndw) && b.bits == old(b.bits)
  {
    hide Laying, RawAll, Segments.Flat, AllSegs, Within, Got, Assemble, RecOk, Coded, Declared, Declares;
    hide BlockReader.Valid, BlockReader.Rest, BlockReader.Current;
    start := start0;
    var jp := jp0;
    ghost var q, j, k, i: nat := q0, j0, k0, 1;
    NoneDeclared(names, rec.segs);
    while true
      invariant 1 <= i <= |rec.segs| && Got(rec, AllSegs(ps), k, i, None) && jp > 0 && Within(r, ps, rest, q, j, k, jp)
      invariant Laying(b, rn, rk, ird, unit, m, Declared(names, rec.segs[1..i]), rec.segs, i, start)
      invariant b.igp == old(b.igp) && b.iwk == old(b.iwk) && b.ndw == old(b.ndw) && b.bits == old(b.bits)
      decreases |rec.segs| - i
    {
      var error, dathead;
      error, jp, dathead, q, j := GetDataHeader(r, jp, ps, rest, q, j, k);
      if error == -1 {
        GotAll(rec, AllSegs(ps), k, i, None);
        assert rec.segs[1..i] == rec.segs[1..];
        return;
      }
      NextHeader(rec, AllSegs(ps), k, i);
      var nf := FormatText(dathead);
      DeclaredMore(names, rec.segs, i);
      DeclaredUpTo(names, rec.segs, i + 1);
      DeclareNext(b, nf > 0 && dathead[idNCOL] > 0, dathead[idNAME1], rn, rk, ird, unit, m,
          Declared(names, rec.segs[1..i]), rec.segs, i, start);
      start, jp, q, j, k := ReadLaid(r, b, start, jp, dathead, rec, ps, rest, q, j, k, i, rn, rk, ird, unit, m,
          Declared(names, rec.segs[1..i + 1]));
      i := i + 1;
    }
  }

  // ---- The operation -------------------------------------------------------------------------------------

  /** All banks of the record are read into the gap, behind an empty record bank. */
  method ReadGap(r: BlockReader, b: BosArray, nama: int, unit: int, ghost rec: Record, ghost ps: seq<Record>,
                 ghost rest: seq<Record>) returns (ird: int, start: int, ghost rn: nat, ghost rk: nat, ghost k: nat)
    requires b.Valid() && b.ndw == 0 && b.jw1 != 1 && rec.segs != [] && |LaidNames(b.names, nama, rec.segs)| <= b.cap
    requires Coded(ps) && ps != [] && r.Valid() && r.ip != 0 && r.Current() == ps[0] && r.Rest() == ps[1..] + rest
    requires SegsOk(AllSegs(ps)) && AllSegs(ps) != [] && RecOk(rec) && Got(rec, AllSegs(ps), 0, 0, None)
    requires b.igp + NHW + |RawAll(rec.segs)| + MINROOM <= b.iwk
    requires BitCode(b.bits, nama) != 2 && BitCode(b.bits, nama) != 3
    modifies r, b, b.w
    ensures r.Valid() && r.Ready() && r.Rest() == rest
    ensures |old(b.Contents())| == |old(b.names)| <= k <= |b.names| && old(b.names) <= b.names && |b.ch| == |b.names|
    ensures Laying(b, rn, rk, ird, unit, Padded(old(b.Contents()), k), LaidNames(old(b.names), nama, rec.segs),
        rec.segs, |rec.segs|, start)
    ensures nama in b.names && rn == NameIndex(b.names, nama) < k && start == b.igp + |RawAll(rec.segs)|
    ensures b.igp <= old(b.igp) + NHW && b.iwk == old(b.iwk) && b.ndw == 0 && b.bits == old(b.bits)
  {
    hide Sound, Listing, EventLoading.LastBank, Alike, RawAll, Segments.Flat, Enter, Got, AllSegs, Coded, Laying,
         Declared, Declares, LaidNames, Padded;
    hide BlockReader.Valid, BlockReader.Rest, BlockReader.Current, RecOk, Within, GapAfter, WithoutBank;
    ghost var names0, m0 := b.names, b.Contents();
    GapLess(b.Value(), b.ch, nama, unit);
    OpenedBounds(names0, nama, rec.segs);
    OpenedIs(names0, nama, rec.segs);
    var error, jp, dathead;
    ghost var q, j;
    error, jp, dathead, q, j := GetDataHeader(r, 0, ps, rest, 0, 0, 0);
    NextHeader(rec, AllSegs(ps), 0, 0);
    var nf := FormatText(dathead);
    ird, rn, rk := OpenFirst(b, nf > 0 && dathead[idNCOL] > 0, dathead[idNAME1], nama, unit, rec.segs);
    k := |b.names|;
    ghost var names1 := b.names;
    LayingBounds(b, rn, rk, ird, unit, Padded(m0, k), names1, rec.segs, 0, b.igp);
    start := b.igp;
    ghost var k1;
    start, jp, q, j, k1 := ReadLaid(r, b, start, jp, dathead, rec, ps, rest, q, j, 0, 0, rn, rk, ird, unit,
        Padded(m0, k), names1);
    start := ReadRest(r, b, start, jp, rec, ps, rest, q, j, k1, rn, rk, ird, unit, Padded(m0, k), names1);
    LayingBounds(b, rn, rk, ird, unit, Padded(m0, k), LaidNames(names0, nama, rec.segs), rec.segs, |rec.segs|, start);
    OpenedThen(b, names0, nama, rec.segs, rn, k);
  }

  /**
   Reads the next record of the file into the array (bosRead).  Whatever pieces it was written
   in, every list is the old one overridden by the record's banks.  At the end of the file only
   an old record bank is dropped.  A block without records may mislead it as it may etRead.
   */
  method BosRead(b: BosArray, r: BlockReader, nama: int, unit: int, ghost skip: seq<Record>, ghost ps: seq<Record>,
                 ghost rest: seq<Record>, ghost rec: Record)
    returns (error: int, lost: bool)
    requires r.Valid() && r.Ready() && r.Rest() == skip + ps + rest && Leftover(skip)
    requires (ps == [] && rest != [] ==> Misleads(rest[0]))
    requires b.Valid() && b.ndw == 0
    requires ps != [] ==>
               && Pieces(ps, rec) && RecOk(rec)
               && |EnterAll(LaidNames(b.names, nama, rec.segs), rec.segs)| <= b.cap
               && (forall i :: 0 <= i < |rec.segs| ==> Head(rec.segs[i], idNAME1) != nama)
               && BitCode(b.bits, nama) != 2 && BitCode(b.bits, nama) != 3
               && var m, n := b.Contents(), NameIndex(b.names, nama);
                  RoomFor(b.igp, b.iwk, b.nresr, if n < |m| then |m[n]| + 1 else 1, |RawAll(rec.segs)|)
                  && b.igp + NHW + |RawAll(rec.segs)| + MINROOM <= b.iwk
    modifies r, b, b.w
    ensures b.Valid() && b.bits == old(b.bits)
    ensures ps == [] && rest != [] ==>
              && (lost || error == EBIO_WRONGSEGMCODE) && b.Contents() == old(b.Contents())
              && b.names == old(b.names)
    ensures ps == [] && rest == [] ==>
              && error == EBIO_EOF && !lost && r.Valid() && r.Ready() && r.Rest() == []
              && b.Contents() == WithoutBank(b.names, old(b.Contents()), nama, unit) && b.names == old(b.names)
    ensures ps != [] ==>
              && error == 0 && !lost && r.Valid() && r.Ready() && r.Rest() == rest
              && Arrived(old(b.names), old(b.Contents()), b.names, b.Contents(), nama, unit, rec.segs)
  {
    hide Sound, Listing, EventLoading.LastBank, Alike, RawAll, Segments.Flat, Pieces, Enter, EnterAll, Got, AllSegs,
         Coded, Laying, LaidNames;
    hide BlockReader.Valid, BlockReader.Rest, BlockReader.Current, Leftover, AllSorted, Arrived, RecOk, Padded,
         Declared, Declares;
    Wgarbage(b);
    if ps != [] { FirstPiece(ps, rec); }
    error, lost := ScrollToFirst(r, skip, ps, rest);
    if error < 0 && error != EBIO_WRONGSEGMCODE {
      DropRecord(b, nama, unit);
      return;
    }
    if error != 0 || lost {
      return;
    }
    CountNames(b.Value(), b.ch);
    SortedAll(b.Value(), b.ch);
    BanksThere(rec, ps);
    OpenedBounds(b.names, nama, rec.segs);
    ghost var names0, m0 := b.names, b.Contents();
    var ird, start;
    ghost var rn, rk, k;
    ird, start, rn, rk, k := ReadGap(r, b, nama, unit, rec, ps, rest);
    LoadLaid(b, start, nama, unit, ird, rn, rk, rec.segs, names0, m0, k);
  }

  lemma BanksThere(rec: Record, ps: seq<Record>)
    requires RecOk(rec) && ps != [] && RecsOk(ps)
    ensures rec.segs != [] && AllSegs(ps) != []
  {
    assert RecOk(ps[|ps| - 1]);
  }
}
