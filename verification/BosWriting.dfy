/**
 Writing banks of a BOS array into blocks (boswrite.c, fpack.h), without a flat record in
 between.
 */
module BosWriting {
  import opened Options
  import opened BankLayout
  import opened Chains
  import opened Directory
  import opened NamedArea
  import opened BosArrays
  import opened Linking
  import opened Records
  import opened HeaderTexts
  import opened Segments
  import opened Splitting
  import opened EtWriting
  import opened EventUnloading

  const NO_BANKS := -11

  /** The record header as the buffer has it. */
  lemma HeadSlice(w: BlockWriter, hd: seq<int>, cd: seq<Segment>, tail: seq<int>)
    requires w.Begun(hd, cd, tail)
    ensures 0 <= w.ip && w.ip + RECHEADLEN <= w.buf.Length && w.buf[w.ip..w.ip + RECHEADLEN] == hd
  {
    forall i | 0 <= i < RECHEADLEN ensures 0 <= w.ip && w.ip + i < w.buf.Length && w.buf[w.ip + i] == hd[i] {
      HeadWord(w, hd, cd, tail, i);
    }
  }

  /**
   The block is full in the middle of a record: it is written, and the next one begins with
   header `rechead`, renumbered.
   */
  method Overflow(w: BlockWriter, rechead: seq<int>, ghost rec: Record, ghost ps: seq<Record>, ghost hd: seq<int>,
                  ghost cd: seq<Segment>, ghost i: nat, ghost open: Option<Segment>)
    returns (rechead': seq<int>, ghost ps': seq<Record>)
    requires |hd| == RECHEADLEN && w.Begun(hd[irCODE := Raised(hd[irCODE])], cd, []) && cd != []
    requires PartWay(rec, ps, hd, cd, i, open)
    requires ps != [] ==> w.here == []
    requires |rechead| == RECHEADLEN && SameEvent(hd, rechead)
    requires (rechead[irCODE] == Raised(hd[irCODE]) || rechead[irCODE] == 2)
    requires Placed(w.sent, ps, w.mark) && Marked(hd, w.mark, |ps|) && Marked(rechead, w.mark, |ps|) && w.mark.bos
    modifies w, w.buf
    ensures w.mark == old(w.mark) && Placed(w.sent, ps', w.mark) && Marked(rechead', w.mark, |ps'|)
    ensures |w.file| > old(|w.file|) && w.over == 0 && w.spoiled == (old(w.spoiled) || old(w.over) > 0)
    ensures ps' == ps + [Record(hd[irCODE := Raised(hd[irCODE])], cd)] && w.here == []
    ensures w.Begun(rechead', [], []) && PartWay(rec, ps', rechead', [], i, open) && w.ip == 2 && w.buf[1] == 13
    ensures w.Stream() == old(w.Stream()) + [Record(hd[irCODE := Raised(hd[irCODE])], cd)]
    ensures |rechead'| == RECHEADLEN && SameEvent(rechead, rechead')
  {
    hide PartWay, Stored, Pack, Segments.Flat, BlockWriter.Begun, AllLaid, Alternating, Sized, HereOk, Concat;
    PartWayWidth(rec, ps, hd, cd, i, open);
    PartWayCode(rec, ps, hd, cd, i, open);
    ghost var p := Record(hd[irCODE := Raised(hd[irCODE])], cd);
    BegunRecord(w, p.hd, cd);
    BegunFiled(w, p.hd, cd);
    AddLast(Concat(w.sent), w.here, p);
    PlacedMore(w.sent, ps, w.mark, w.here + [p], p);
    WriteBlock(w, w.here + [p]);
    rechead' := rechead[irNRSG := 100 * w.nphysrec + (w.nsegm - 1)][irNWRD := 0];
    PutHeader(w, rechead');
    BegunCount(w, rechead', [], []);
    NoWords();
    ps' := ps + [p];
    PartWayPiece(rec, ps, hd, cd, i, open, rechead');
  }

  // ---- One bank ------------------------------------------------------------------------------------------

  /** Where the writer is; unlike that of etWrite it takes codes from the buffer alone. */
  ghost predicate Underway(w: BlockWriter, rec: Record, s0: seq<Record>, ps: seq<Record>, bios: seq<int>,
                           hd: seq<int>, cd: seq<Segment>, i: nat, jp: int)
    reads w, w.buf
  {
    && w.Begun(hd, cd, []) && Writing(w, rec, s0, ps, hd, hd, cd, i, None)
    && |bios| == RECHEADLEN && SameEvent(hd, bios) && w.buf.Length == w.n && jp == w.buf[1] - w.over
    && Marked(bios, w.mark, |ps|) && w.mark.bos
    && (cd == [] ==> w.buf[1] + MAXHEAD + 1 <= w.n)
  }

  /** How many blocks are in the file, what has been counted too much, and where the record begins. */
  datatype Books = Books(blocks: nat, over: nat, spoiled: bool, mark: Mark)

  ghost function BooksOf(w: BlockWriter): Books
    reads w
  {
    Books(|w.file|, w.over, w.spoiled, w.mark)
  }

  /**
   Since the books were `was`, no block has been written and `count` words are counted now
   (`stays`); or one has, and if it counted words too many the file has them.
   */
  ghost predicate Since(w: BlockWriter, was: Books, count: int, stays: bool)
    reads w, w.buf
  {
    if stays then BooksOf(w) == was && w.buf.Length >= 2 && w.buf[1] == count
    else |w.file| > was.blocks && w.over == 0 && w.spoiled == (was.spoiled || was.over > 0) && w.mark == was.mark
  }

  /** The data header that PUT_DATA_HEADER makes: the bank's, with no words counted yet. */
  ghost predicate Uncounted(h: seq<int>, d: Segment) {
    |h| == |d.hd| >= 9 && h[idDATA] == 0 && h[idDATA := |d.data|] == d.hd
  }

  lemma UncountedFirst(rec: Record, i: nat, h: seq<int>)
    requires Whole(rec) && i < |rec.segs| && Uncounted(h, rec.segs[i])
    ensures HeaderNow(rec.segs[i], h, 0, 0) && Opened(rec.segs[i], None, 0) && |h| <= MAXHEAD && h[idNPREV] == 0
    ensures h[idCODE] == 0
  {
    assert SegOk(rec.segs[i]);
  }

  /** There is no space for a data header: the record goes on in the next block. */
  method HeaderInNext(w: BlockWriter, bios: seq<int>, ghost rec: Record, ghost s0: seq<Record>, ghost ps: seq<Record>,
                      ghost hd: seq<int>, ghost cd: seq<Segment>, ghost i: nat)
    returns (bios': seq<int>, ghost ps': seq<Record>, ghost hd': seq<int>)
    requires w.Begun(hd, cd, []) && Writing(w, rec, s0, ps, hd, hd, cd, i, None) && cd != [] && |bios| == RECHEADLEN
    requires SameEvent(hd, bios) && Marked(bios, w.mark, |ps|) && w.mark.bos
    modifies w, w.buf
    ensures w.mark == old(w.mark) && Marked(bios', w.mark, |ps'|)
    ensures |w.file| > old(|w.file|) && w.over == 0 && w.spoiled == (old(w.spoiled) || old(w.over) > 0)
    ensures w.Begun(hd', [], []) && Writing(w, rec, s0, ps', hd', hd', [], i, None) && w.ip == 2 && w.buf.Length == w.n
    ensures w.buf[1] == 13
    ensures |bios'| == RECHEADLEN && SameEvent(hd', bios')
  {
    hide PartWay, BlockWriter.Begun, BlockWriter.Stream, Raised, Segments.Flat;
    HeadWord(w, hd, cd, [], irCODE);
    var isgc := Raised(w.buf[w.ip + irCODE]);
    SetHead(w, irCODE, isgc, hd, cd, []);
    RaisedPositive(rec, ps, hd, cd, i);
    ghost var s1 := w.Stream();
    var rechead;
    rechead, ps' := Overflow(w, bios[irCODE := 2], rec, ps, hd, cd, i, None);
    hd' := rechead;
    AddLast(s0, ps, Record(hd[irCODE := Raised(hd[irCODE])], cd));
    bios' := bios[irNRSG := rechead[irNRSG]];
    BegunCount(w, hd', [], []);
    PartWayWidth(rec, ps', hd', [], i, None);
  }

  /** PUT_DATA_HEADER with the header `dathead`. */
  method PutDataHeader(w: BlockWriter, bios: seq<int>, jp0: int, dathead: seq<int>, ghost rec: Record,
                       ghost s0: seq<Record>, ghost ps: seq<Record>, ghost hd: seq<int>, ghost cd: seq<Segment>,
                       ghost i: nat)
    returns (bios': seq<int>, jp: int, ghost ps': seq<Record>, ghost hd': seq<int>, ghost cd': seq<Segment>)
    requires Underway(w, rec, s0, ps, bios, hd, cd, i, jp0) && i < |rec.segs| && Uncounted(dathead, rec.segs[i])
    modifies w, w.buf
    ensures w.Begun(hd', cd', dathead) && InBank(w, rec, s0, ps', hd', hd', cd', i, None, dathead, 0, 0)
    ensures |bios'| == RECHEADLEN && SameEvent(hd', bios') && Marked(bios', w.mark, |ps'|) && w.mark.bos
    ensures w.buf.Length == w.n && w.buf[1] < w.n
    ensures jp == w.ip + RECHEADLEN + |Segments.Flat(cd')| == w.buf[1] - w.over - |dathead|
    ensures w.buf.Length >= 2
    ensures Since(w, old(BooksOf(w)), old(w.buf[1]) + |dathead|, old(w.buf[1]) + |dathead| < w.n)
  {
    hide PartWay, HeaderNow, Opened, BlockWriter.Begun, BlockWriter.Stream, Segments.Flat, Whole, Uncounted, SegOk;
    PartWayWidth(rec, ps, hd, cd, i, None);
    BegunCount(w, hd, cd, []);
    BegunFiled(w, hd, cd);
    UncountedFirst(rec, i, dathead);
    UncountedLength(dathead, rec.segs[i]);
    bios', jp, ps', hd', cd' := bios, jp0, ps, hd, cd;
    if w.buf[1] + |dathead| >= w.buf[0] {
      bios', ps', hd' := HeaderInNext(w, bios, rec, s0, ps, hd, cd, i);
      cd', jp := [], w.ip + RECHEADLEN;
      NoWords();
    }
    BegunCount(w, hd', cd', []);
    Extend(w, jp, dathead, hd', cd', []);
    assert [] + dathead == dathead;
    ghost var hd2 := hd'[irNWRD := hd'[irNWRD] + |dathead|];
    PartWayHead(rec, ps', hd', hd2, cd', i, None);
    hd' := hd2;
    BegunCount(w, hd', cd', dathead);
  }

  lemma UncountedLength(h: seq<int>, d: Segment)
    requires Uncounted(h, d)
    ensures |h| == |d.hd| >= 9
  {
  }

  /** The code that the buffer gets is not that of a complete segment. */
  lemma RaisedPositive(rec: Record, ps: seq<Record>, hd: seq<int>, cd: seq<Segment>, i: nat)
    requires PartWay(rec, ps, hd, cd, i, None)
    ensures |hd| == RECHEADLEN && Raised(hd[irCODE]) > 0
  {
  }

  lemma SelfHead(w: BlockWriter, rec: Record, s0: seq<Record>, ps: seq<Record>, rechead: seq<int>, hd: seq<int>,
                 cd: seq<Segment>, i: nat, open: Option<Segment>, h: seq<int>, n: nat, code: int)
    requires InBank(w, rec, s0, ps, rechead, hd, cd, i, open, h, n, code)
    ensures InBank(w, rec, s0, ps, hd, hd, cd, i, open, h, n, code) && |hd| == RECHEADLEN && SegsOk(rec.segs)
  {
    PartWayWidth(rec, ps, hd, cd, i, open);
  }

  /** The count of previous words comes from the data header in the buffer. */
  lemma PrevWords(b: Segment, h: seq<int>, n: nat, m: nat, code: int)
    requires HeaderNow(b, h, n, code) && |b.hd| >= 9 && b.hd[idNPREV] == 0 && n <= m <= |b.data|
    ensures |h| >= 9
    ensures var t := h[idDATA := m - n] + b.data[n..m]; |t| == |h| + m - n && t[idNPREV] + t[idDATA] == m
  {
  }

  /** Data are left: codes are raised, and both headers are written again in the next block. */
  method SplitData(w: BlockWriter, jp: int, lenh: int, ghost rec: Record, ghost s0: seq<Record>, ghost ps: seq<Record>,
                   ghost hd: seq<int>, ghost cd: seq<Segment>, ghost i: nat, ghost open: Option<Segment>,
                   ghost h: seq<int>, ghost n: nat, ghost code: int, ghost m: nat, ghost tail: seq<int>)
    returns (bios: seq<int>, ghost ps': seq<Record>, ghost hd': seq<int>, ghost open': Option<Segment>,
             ghost h': seq<int>, ghost code': int)
    requires InBank(w, rec, s0, ps, hd, hd, cd, i, open, h, n, code) && rec.segs[i].hd[idNPREV] == 0
    requires n < m < |rec.segs[i].data| && 9 <= lenh == |h| <= MAXHEAD
    requires tail == h[idDATA := m - n] + rec.segs[i].data[n..m]
    requires w.Begun(hd, cd, tail) && jp == w.ip + RECHEADLEN + |Segments.Flat(cd)| && w.mark.bos
    modifies w, w.buf
    ensures w.mark == old(w.mark) && Marked(bios, w.mark, |ps'|)
    ensures |w.file| > old(|w.file|) && w.over == 0 && w.spoiled == (old(w.spoiled) || old(w.over) > 0)
    ensures InBank(w, rec, s0, ps', hd', hd', [], i, open', h', m, code')
    ensures w.Begun(hd', [], h') && w.ip == 2 && w.buf[1] == 13 + lenh < w.n && |h'| == lenh
    ensures |bios| == RECHEADLEN && SameEvent(hd', bios)
  {
    hide PartWay, Opened, HeaderNow, Part, Raised, BlockWriter.Begun, Segments.Flat, Placed;
    ghost var b := rec.segs[i];
    code' := Raised(code);
    ghost var d := Part(b, h, n, m, code');
    PartTail(b, h, n, m, code, code');
    PartWayWidth(rec, ps, hd, cd, i, open);
    PrevWords(b, h, n, m, code);
    TailWord(w, hd, cd, tail, jp, idNPREV);
    TailWord(w, hd, cd, tail, jp, idDATA);
    var jp8 := w.buf[jp + idNPREV] + w.buf[jp + idDATA];
    HeadSlice(w, hd, cd, tail);
    var dathead;
    bios, dathead := CloseCodes(w, jp, lenh, jp8, w.buf[w.ip..w.ip + RECHEADLEN], hd, cd, tail);
    assert (d.hd + d.data)[..lenh] == d.hd;
    open' := PartWayPart(rec, ps, hd, cd, i, open, h, n, m, code);
    BegunPart(w, hd[irCODE := Raised(hd[irCODE])], cd, d, d.hd + d.data);
    var rechead;
    rechead, ps' := Overflow(w, bios, rec, ps, hd, cd + [d], i, open');
    bios := bios[irNRSG := rechead[irNRSG]];
    h' := dathead;
    hd' := HeaderAgain(w, dathead, rec, ps', rechead, i, open');
  }

  /** The data header is put behind the record header of the next block. */
  method HeaderAgain(w: BlockWriter, dathead: seq<int>, ghost rec: Record, ghost ps: seq<Record>,
                     ghost rechead: seq<int>, ghost i: nat, ghost open: Option<Segment>) returns (ghost hd: seq<int>)
    requires w.Begun(rechead, [], []) && PartWay(rec, ps, rechead, [], i, open)
    requires w.buf.Length >= 2 && w.ip == 2 && w.buf[1] == 13 && w.over == 0 && |dathead| <= MAXHEAD
    modifies w.buf
    ensures w.Begun(hd, [], dathead) && PartWay(rec, ps, hd, [], i, open)
    ensures w.buf.Length >= 2 && w.buf[1] == 13 + |dathead| < w.n
    ensures |rechead| == RECHEADLEN && hd == rechead[irNWRD := rechead[irNWRD] + |dathead|]
  {
    hide PartWay, BlockWriter.Begun;
    BegunCount(w, rechead, [], []);
    PartWayWidth(rec, ps, rechead, [], i, open);
    Extend(w, w.buf[1], dathead, rechead, [], []);
    hd := rechead[irNWRD := rechead[irNWRD] + |dathead|];
    assert [] + dathead == dathead;
    PartWayHead(rec, ps, rechead, hd, [], i, open);
    BegunCount(w, hd, [], dathead);
  }

  /** PUT_DATA for the bank at `ind`, in as many data segments as it takes. */
  method PutBankData(w: BlockWriter, src: array<int>, ind: int, nwords: int, jp0: int, lenh: int, bios0: seq<int>,
                     ghost rec: Record, ghost s0: seq<Record>, ghost ps: seq<Record>, ghost hd: seq<int>,
                     ghost cd: seq<Segment>, ghost i: nat, ghost h0: seq<int>)
    returns (bios: seq<int>, jp: int, ghost ps': seq<Record>, ghost hd': seq<int>, ghost cd': seq<Segment>)
    requires src != w.buf && i < |rec.segs| && nwords == |rec.segs[i].data| && |rec.segs[i].hd| >= 9
    requires rec.segs[i].hd[idNPREV] == 0
    requires 0 <= ind && ind + 1 + nwords <= src.Length && src[ind + 1..ind + 1 + nwords] == rec.segs[i].data
    requires w.Begun(hd, cd, h0) && InBank(w, rec, s0, ps, hd, hd, cd, i, None, h0, 0, 0)
    requires 9 <= lenh == |h0| <= MAXHEAD
    requires w.buf.Length == w.n && w.buf[1] < w.n
    requires jp0 == w.ip + RECHEADLEN + |Segments.Flat(cd)| == w.buf[1] - w.over - lenh
    requires |bios0| == RECHEADLEN && SameEvent(hd, bios0) && Marked(bios0, w.mark, |ps|) && w.mark.bos
    modifies w, w.buf
    ensures Underway(w, rec, s0, ps', bios, hd', cd', i + 1, jp) && cd' != []
    ensures w.buf.Length >= 2
    ensures Since(w, old(BooksOf(w)), old(w.buf[1]) + nwords, old(w.buf[1]) + nwords <= w.n)
  {
    hide PartWay, HeaderNow, Opened, BlockWriter.Begun, Raised, Segments.Flat;
    ghost var b := rec.segs[i];
    BegunCount(w, hd, cd, h0);
    var nis := 0;
    ghost var h, open, code := h0, None, 0;
    bios, jp, ps', hd', cd' := bios0, jp0, ps, hd, cd;
    while true
      invariant w.Begun(hd', cd', h) && InBank(w, rec, s0, ps', hd', hd', cd', i, open, h, nis, code)
      invariant 0 <= nis <= nwords && |h| == lenh && w.buf.Length == w.n
      invariant w.buf[1] < w.n && jp == w.ip + RECHEADLEN + |Segments.Flat(cd')| == w.buf[1] - w.over - lenh
      invariant |bios| == RECHEADLEN && SameEvent(hd', bios) && Marked(bios, w.mark, |ps'|) && w.mark == old(w.mark)
      invariant nis == 0 ==> Since(w, old(BooksOf(w)), old(w.buf[1]), true)
      invariant nis > 0 ==> old(w.buf[1]) + nwords > w.n && Since(w, old(BooksOf(w)), 0, false)
      decreases nwords - nis
    {
      var ncop;
      ncop, hd' := PutPart(w, src, ind, nwords, nis, jp, lenh, rec, s0, ps', hd', cd', i, open, h, code);
      ghost var n: nat, tail := nis, h[idDATA := ncop] + b.data[nis..nis + ncop];
      nis := nis + ncop;
      if nis >= nwords {
        BegunCount(w, hd', cd', tail);
        cd' := FinishBank(w, jp, rec, s0, ps', hd', hd', cd', i, open, h, n, code, tail);
        BegunFiled(w, hd', cd');
        jp := jp + lenh + ncop;
        break;
      }
      bios, ps', hd', open, h, code := SplitData(w, jp, lenh, rec, s0, ps', hd', cd', i, open, h, n, code, nis, tail);
      cd' := [];
      jp := w.ip + RECHEADLEN;
      NoWords();
    }
  }

  /** As many data as possible. */
  method PutPart(w: BlockWriter, src: array<int>, ind: int, nwords: int, nis: nat, jp: int, lenh: int,
                 ghost rec: Record, ghost s0: seq<Record>, ghost ps: seq<Record>, ghost hd: seq<int>,
                 ghost cd: seq<Segment>, ghost i: nat, ghost open: Option<Segment>, ghost h: seq<int>, ghost code: int)
    returns (ncop: int, ghost hd': seq<int>)
    requires src != w.buf && w.Begun(hd, cd, h) && InBank(w, rec, s0, ps, hd, hd, cd, i, open, h, nis, code)
    requires nwords == |rec.segs[i].data| && nis <= nwords && 9 <= lenh == |h|
    requires 0 <= ind && ind + 1 + nwords <= src.Length && src[ind + 1..ind + 1 + nwords] == rec.segs[i].data
    requires w.buf.Length == w.n > 1 && w.buf[1] < w.n
    requires jp == w.ip + RECHEADLEN + |Segments.Flat(cd)| == w.buf[1] - w.over - lenh
    modifies w.buf
    ensures w.buf.Length == w.n > 1 && SameEvent(hd, hd') && w.buf[1] == old(w.buf[1]) + ncop
    ensures 0 <= ncop == if nwords - nis < w.n - old(w.buf[1]) then nwords - nis else w.n - old(w.buf[1])
    ensures w.Begun(hd', cd, h[idDATA := ncop] + rec.segs[i].data[nis..nis + ncop])
    ensures InBank(w, rec, s0, ps, hd', hd', cd, i, open, h, nis, code)
  {
    hide PartWay, HeaderNow, Opened, BlockWriter.Begun, Segments.Flat, Marked, Placed;
    BegunBlock(w, hd, cd, h);
    ncop := if nwords - nis < w.buf[0] - w.buf[1] then nwords - nis else w.buf[0] - w.buf[1];
    PartWayWidth(rec, ps, hd, cd, i, open);
    hd' := PutWords(w, src[..], ind + 1 + nis, jp + lenh, jp, ncop, hd, rec, s0, ps, hd, cd, i, open, h, nis, code,
        rec.segs[i].data[nis..nis + ncop], ind + 1);
    SelfHead(w, rec, s0, ps, hd, hd', cd, i, open, h, nis, code);
  }

  lemma BegunBlock(w: BlockWriter, hd: seq<int>, cd: seq<Segment>, tail: seq<int>)
    requires w.Begun(hd, cd, tail)
    ensures w.buf.Length == w.n && w.buf[0] == w.n
  {
  }

  // ---- The operation ---------------------------------------------------------------------------------------

  lemma HeaderUncounted(w: seq<int>, names: seq<int>, fmts: seq<seq<int>>, x: int, n: nat)
    requires IsFragment(w, names, x, n) && FormatsOk(fmts, |names|)
    ensures var h := [idFRMT + |fmts[n]|, w[x - INAM], BLANK, w[x - INR], w[x - ICOL], w[x - IROW], 0, 0, 0] + fmts[n];
            var d := SegOf(names, fmts, Frag(n, BankAt(w, x)));
            && Uncounted(h, d) && |d.hd| == |h| <= MAXHEAD && d.hd[idNPREV] == 0
            && |d.data| == w[x] && d.data == w[x + 1..x + 1 + w[x]]
  {
    var h := [idFRMT + |fmts[n]|, w[x - INAM], BLANK, w[x - INR], w[x - ICOL], w[x - IROW], 0, 0, 0] + fmts[n];
    var d := SegOf(names, fmts, Frag(n, BankAt(w, x)));
    assert h[idDATA := |d.data|] == d.hd;
  }

  /** The texts of all formats have room. */
  predicate AllFit(formats: seq<BankFormat>, n: nat) {
    |formats| == n && forall i :: 0 <= i < n ==> FormatFits(formats[i])
  }

  lemma FitOk(formats: seq<BankFormat>, n: nat)
    requires AllFit(formats, n)
    ensures FormatsOk(HeaderFormats(formats), n)
  {
  }

  /** One bank of the array becomes data segments. */
  method PutOne(w: BlockWriter, b: BosArray, ind: int, nami: nat, formats: seq<BankFormat>, bios0: seq<int>, jp0: int,
                ghost rec: Record, ghost s0: seq<Record>, ghost ps: seq<Record>, ghost hd: seq<int>,
                ghost cd: seq<Segment>, ghost i: nat)
    returns (bios: seq<int>, jp: int, ghost ps': seq<Record>, ghost hd': seq<int>, ghost cd': seq<Segment>)
    requires b.w != w.buf && Underway(w, rec, s0, ps, bios0, hd, cd, i, jp0) && i < |rec.segs|
    requires IsFragment(b.w[..], b.names, ind, nami) && AllFit(formats, |b.names|)
    requires rec.segs[i] == SegOf(b.names, HeaderFormats(formats), Frag(nami, BankAt(b.w[..], ind)))
    modifies w, w.buf
    ensures Underway(w, rec, s0, ps', bios, hd', cd', i + 1, jp) && cd' != []
    ensures w.buf.Length >= 2
    ensures Since(w, old(BooksOf(w)), old(w.buf[1]) + |rec.segs[i].hd| + |rec.segs[i].data|,
                  BankStays(w.n, old(w.buf[1]), rec.segs[i]))
  {
    hide Underway, InBank, SegOf, Uncounted, BankAt, BlockWriter.Begun, TextWords;
    FitOk(formats, |b.names|);
    HeaderUncounted(b.w[..], b.names, HeaderFormats(formats), ind, nami);
    var fmt := FormatHeader(formats[nami]);
    var dathead := [idFRMT + |fmt|, b.w[ind - INAM], BLANK, b.w[ind - INR], b.w[ind - ICOL], b.w[ind - IROW], 0, 0,
        0] + fmt;
    bios, jp, ps', hd', cd' := PutDataHeader(w, bios0, jp0, dathead, rec, s0, ps, hd, cd, i);
    assert b.w[ind + 1..ind + 1 + b.w[ind]] == rec.segs[i].data;
    bios, jp, ps', hd', cd' := PutBankData(w, b.w, ind, b.w[ind], jp, |dathead|, bios, rec, s0, ps', hd', cd', i,
        dathead);
  }

  /** A bank goes into the block of which `c` words are counted: its header with a word left, and all data. */
  predicate BankStays(n: int, c: int, d: Segment) {
    c + |d.hd| < n && c + |d.hd| + |d.data| <= n
  }

  /** So do the first `i` banks behind a record header, `c` words being counted with it. */
  predicate AllStay(n: int, c: int, ds: seq<Segment>, i: nat)
    requires i <= |ds|
  {
    c - RECHEADLEN + 81 <= n && forall j :: 0 <= j < i ==> BankStays(n, c + |Segments.Flat(ds[..j])|, ds[j])
  }

  lemma StaysMore(n: int, c: int, ds: seq<Segment>, i: nat)
    requires i < |ds|
    ensures AllStay(n, c, ds, i + 1) <==> AllStay(n, c, ds, i) && BankStays(n, c + |Segments.Flat(ds[..i])|, ds[i])
    ensures |Segments.Flat(ds[..i + 1])| == |Segments.Flat(ds[..i])| + |ds[i].hd| + |ds[i].data|
  {
    hide Segments.Flat, BankStays;
    FlatAt(ds, i);
  }

  /** The record that is written: the banks of the listed names, with the given event words. */
  ghost function RecordOf(names: seq<int>, fmts: seq<seq<int>>, fs: seq<Frag>, event: seq<int>): Record
    requires Named(names, fs) && |fmts| == |names| && |event| == RECHEADLEN
  {
    var ds := SegsOf(names, fmts, fs);
    Record(event[irCODE := 0][irNWRD := |Segments.Flat(ds)|], ds)
  }

  lemma RecordWhole(names: seq<int>, fmts: seq<seq<int>>, fs: seq<Frag>, event: seq<int>)
    requires Named(names, fs) && FormatsOk(fmts, |names|) && |event| == RECHEADLEN && fs != []
    ensures var rec := RecordOf(names, fmts, fs, event);
            && Whole(rec) && RecOk(rec) && |rec.segs| == |fs|
            && (forall i :: 0 <= i < |fs| ==> rec.segs[i] == SegOf(names, fmts, fs[i]))
            && SameEvent(event, rec.hd)
  {
    hide SegOf, Segments.Flat;
    var ds := SegsOf(names, fmts, fs);
    forall i | 0 <= i < |ds| ensures SegOk(ds[i]) && ds[i].hd[idCODE] == 0 && ds[i].hd[idNPREV] == 0 {
      SegFits(names, fmts, fs[i]);
    }
  }

  /** Where the next record begins, and the word that its first segment gets. */
  ghost function MarkFor(w: BlockWriter): Mark
    requires w.buf.Length >= 2
    reads w, w.buf
  {
    var full := w.buf[1] + 81 > w.n;
    var block := |w.file| + if full then 2 else 1;
    Mark(block, 100 * block + (if full then 0 else w.nsegm), true)
  }

  /** The mark is for the proof alone. */
  ghost method SetMark(w: BlockWriter)
    requires w.Valid() && w.ip >= 2
    modifies w`mark
    ensures w.Valid() && w.Stream() == old(w.Stream()) && w.buf.Length >= 2 && w.mark == MarkFor(w) == old(MarkFor(w))
  {
    hide Pack, Alternating, Sized, HereOk, Concat, AllLaid;
    w.mark := MarkFor(w);
  }

  /** PUT_RECORD_HEADER. */
  method PutRecordStart(w: BlockWriter, event: seq<int>, ghost rec: Record) returns (bios: seq<int>, jp: int)
    requires w.Valid() && w.ip >= 2 && |event| == RECHEADLEN && Whole(rec) && SameEvent(event, rec.hd)
    requires w.buf.Length >= 2 && w.mark == MarkFor(w)
    modifies w, w.buf
    ensures Underway(w, rec, old(w.Stream()), [], bios, bios, [], 0, jp)
    ensures w.buf.Length >= 2
    ensures Since(w, old(BooksOf(w)), old(w.buf[1]) + RECHEADLEN, old(w.buf[1]) + 81 <= w.n)
  {
    hide Pack, Segments.Flat, PartWay, BlockWriter.Begun, Whole, AllLaid, Alternating, Sized, HereOk, Stored, Concat;
    MakeRoom(w);
    w.nsegm := w.nsegm + 1;
    bios := event[irPTRN := SWAP][irFORG := EtWriting.LOCAL * 16][irNRSG := 100 * w.nphysrec + (w.nsegm - 1)]
            [irNPHYS := 0][irCODE := 0][irNWRD := 0];
    PartWayStart(rec, bios);
    PutHeader(w, bios);
    NoWords();
    BegunCount(w, bios, [], []);
    jp := w.ip + RECHEADLEN;
  }

  /** Banks `i`, `i + 1` .. of the record are those of the n-th name. */
  ghost predicate NextAre(fs: seq<Frag>, i: nat, n: nat, l: seq<Bank>) {
    i + |l| <= |fs| && forall k :: 0 <= k < |l| ==> fs[i + k] == Frag(n, l[k])
  }

  /** The first banks of the record are those listed. */
  ghost predicate MadeOf(rec: Record, names: seq<int>, fmts: seq<seq<int>>, fs: seq<Frag>) {
    && FormatsOk(fmts, |names|) && Named(names, fs) && |fs| <= |rec.segs|
    && forall i :: 0 <= i < |fs| ==> rec.segs[i] == SegOf(names, fmts, fs[i])
  }

  /** Nothing has been put behind the record header, or at least one bank. */
  ghost predicate Begins(bios0: seq<int>, ps: seq<Record>, hd: seq<int>, cd: seq<Segment>, i: nat) {
    if i == 0 then ps == [] && hd == bios0 && cd == [] else cd != []
  }

  /** All banks of one name. */
  method PutChain(w: BlockWriter, b: BosArray, n: nat, formats: seq<BankFormat>, bios0: seq<int>, jp0: int,
                  icount0: nat, ghost fs: seq<Frag>, ghost was: Books, ghost c: int, ghost h0: seq<int>,
                  ghost rec: Record, ghost s0: seq<Record>, ghost ps: seq<Record>, ghost hd: seq<int>,
                  ghost cd: seq<Segment>, ghost i: nat)
    returns (bios: seq<int>, jp: int, icount: nat, ghost ps': seq<Record>, ghost hd': seq<int>, ghost cd': seq<Segment>)
    requires b.Valid() && n < |b.ch| && n < |b.Contents()| && b.w != w.buf && AllFit(formats, |b.names|)
    requires Underway(w, rec, s0, ps, bios0, hd, cd, i, jp0) && MadeOf(rec, b.names, HeaderFormats(formats), fs)
    requires NextAre(fs, i, n, b.Contents()[n])
    requires Since(w, was, c + |Segments.Flat(rec.segs[..i])|, AllStay(w.n, c, rec.segs, i))
    requires Begins(h0, ps, hd, cd, i)
    requires icount0 == 0 <==> i == 0
    modifies w, w.buf
    ensures var k := i + |b.Contents()[n]|;
            && k <= |rec.segs| && Underway(w, rec, s0, ps', bios, hd', cd', k, jp) && Begins(h0, ps', hd', cd', k)
            && Since(w, was, c + |Segments.Flat(rec.segs[..k])|, AllStay(w.n, c, rec.segs, k))
            && (icount == 0 <==> k == 0)
  {
    hide Sound, Listing, Underway, SegOf, BankAt, IsFragment, Since, AllStay, BankStays, Segments.Flat, AllFit,
         HeaderFormats;
    ghost var v, ch, l, k := b.Value(), b.ch, b.Contents()[n], 0;
    ChainStart(v, ch, n);
    bios, jp, icount, ps', hd', cd' := bios0, jp0, icount0, ps, hd, cd;
    var ind := b.w[b.base + n];
    while ind != 0
      invariant 0 <= k <= |ch[n]| == |l| && ind == At(ch[n], k)
      invariant Underway(w, rec, s0, ps', bios, hd', cd', i + k, jp) && Begins(h0, ps', hd', cd', i + k)
      invariant Since(w, was, c + |Segments.Flat(rec.segs[..i + k])|, AllStay(w.n, c, rec.segs, i + k))
      invariant (icount == 0 <==> i + k == 0)
      decreases |ch[n]| - k
    {
      ChainListed(v, ch, n, k);
      assert fs[i + k] == Frag(n, l[k]);
      FragmentLength(b.w[..], b.names, ind, n);
      icount := icount + NHW + b.w[ind];
      ghost var now, at := BooksOf(w), CountedIn(w);
      SinceIs(w, was, c + |Segments.Flat(rec.segs[..i + k])|, AllStay(w.n, c, rec.segs, i + k));
      bios, jp, ps', hd', cd' := PutOne(w, b, ind, n, formats, bios, jp, rec, s0, ps', hd', cd', i + k);
      SinceStep(w, was, now, c, at, rec.segs, i + k);
      ind := b.w[ind - INXT];
      k := k + 1;
    }
    if k < |ch[n]| { ChainListed(v, ch, n, k); }
  }

  lemma {:induction false} ListedPrefix(m: seq<seq<Bank>>, list: seq<nat>, i: nat)
    requires InRange(list, |m|) && i <= |list|
    ensures InRange(list[..i], |m|) && Listed(m, list[..i]) <= Listed(m, list)
  {
    if i == |list| {
      assert list[..i] == list;
    } else {
      var c := list[..|list| - 1];
      ListedPrefix(m, c, i);
      assert c[..i] == list[..i];
    }
  }

  lemma ListedPart(m: seq<seq<Bank>>, list: seq<nat>, i: nat)
    requires InRange(list, |m|) && i < |list|
    ensures InRange(list[..i], |m|) && InRange(list[..i + 1], |m|) && list[i] < |m|
    ensures NextAre(Listed(m, list), |Listed(m, list[..i])|, list[i], m[list[i]])
    ensures |Listed(m, list[..i + 1])| == |Listed(m, list[..i])| + |m[list[i]]| <= |Listed(m, list)|
  {
    hide Listed;
    ListedMore(m, list, i);
    ListedPrefix(m, list, i + 1);
    var fs, a, o := Listed(m, list), Listed(m, list[..i]), OfName(list[i], m[list[i]]);
    var c := Listed(m, list[..i + 1]);
    forall k | 0 <= k < |o| ensures fs[|a| + k] == Frag(list[i], m[list[i]][k]) {
      assert c[|a| + k] == o[k];
    }
  }

  /** The banks of all listed names. */
  method PutBanks(w: BlockWriter, b: BosArray, list: seq<nat>, formats: seq<BankFormat>, bios0: seq<int>, jp0: int,
                  ghost was: Books, ghost c: int, ghost rec: Record, ghost s0: seq<Record>)
    returns (jp: int, icount: nat, ghost ps: seq<Record>, ghost hd: seq<int>, ghost cd: seq<Segment>)
    requires b.Valid() && InRange(list, |b.names|) && |b.Contents()| == |b.names| == |b.ch| && b.w != w.buf
    requires AllFit(formats, |b.names|)
    requires MadeOf(rec, b.names, HeaderFormats(formats), Listed(b.Contents(), list))
    requires Underway(w, rec, s0, [], bios0, bios0, [], 0, jp0)
    requires Since(w, was, c, AllStay(w.n, c, rec.segs, 0))
    modifies w, w.buf
    ensures var k := |Listed(b.Contents(), list)|;
            && k <= |rec.segs| && w.Begun(hd, cd, []) && Writing(w, rec, s0, ps, hd, hd, cd, k, None)
            && Begins(bios0, ps, hd, cd, k)
            && Since(w, was, c + |Segments.Flat(rec.segs[..k])|, AllStay(w.n, c, rec.segs, k))
            && (icount == 0 <==> k == 0)
    ensures w.buf.Length >= 2 && jp == w.buf[1] - w.over
  {
    hide Sound, Listing, Underway, NextAre, MadeOf, Listed, BlockWriter.Begun, Writing, Since, AllStay, Segments.Flat,
         AllFit, HeaderFormats, Begins;
    ghost var m, fs := b.Contents(), Listed(b.Contents(), list);
    var bios := bios0;
    jp, icount := jp0, 0;
    ps, hd, cd := [], bios, [];
    ListedNone(m, list);
    NoneYet(bios0, c, rec.segs);
    var ils := 0;
    while ils < |list|
      invariant 0 <= ils <= |list| && InRange(list[..ils], |m|) && |Listed(m, list[..ils])| <= |rec.segs|
      invariant Underway(w, rec, s0, ps, bios, hd, cd, |Listed(m, list[..ils])|, jp)
      invariant Begins(bios0, ps, hd, cd, |Listed(m, list[..ils])|) && (icount == 0 <==> |Listed(m, list[..ils])| == 0)
      invariant Since(w, was, c + |Segments.Flat(rec.segs[..|Listed(m, list[..ils])|])|,
          AllStay(w.n, c, rec.segs, |Listed(m, list[..ils])|))
    {
      ListedPart(m, list, ils);
      bios, jp, icount, ps, hd, cd := PutChain(w, b, list[ils], formats, bios, jp, icount, fs, was, c, bios0,
                                               rec, s0, ps, hd, cd, |Listed(m, list[..ils])|);
      ils := ils + 1;
    }
    assert list[..ils] == list;
    AllPut(w, rec, s0, ps, bios, hd, cd, |fs|, jp);
  }

  lemma NoneYet(bios0: seq<int>, c: int, ds: seq<Segment>)
    ensures Begins(bios0, [], bios0, [], 0) && c + |Segments.Flat(ds[..0])| == c
  {
    NoWords();
  }

  lemma ListedNone(m: seq<seq<Bank>>, list: seq<nat>)
    ensures InRange(list[..0], |m|) && Listed(m, list[..0]) == []
  {
  }

  lemma AllPut(w: BlockWriter, rec: Record, s0: seq<Record>, ps: seq<Record>, bios: seq<int>, hd: seq<int>,
               cd: seq<Segment>, k: nat, jp: int)
    requires Underway(w, rec, s0, ps, bios, hd, cd, k, jp)
    ensures w.Begun(hd, cd, []) && Writing(w, rec, s0, ps, hd, hd, cd, k, None) && w.buf.Length >= 2
    ensures jp == w.buf[1] - w.over
  {
    BegunCount(w, hd, cd, []);
  }

  lemma FragmentLength(w: seq<int>, names: seq<int>, x: int, n: nat)
    requires IsFragment(w, names, x, n)
    ensures 0 <= x < |w| && w[x] >= 0
  {
  }

  ghost function CountedIn(w: BlockWriter): int
    reads w, w.buf
  {
    if w.buf.Length >= 2 then w.buf[1] else 0
  }

  lemma SinceIs(w: BlockWriter, was: Books, count: int, stays: bool)
    requires Since(w, was, count, stays)
    ensures if stays then BooksOf(w) == was && CountedIn(w) == count
            else
              && BooksOf(w).blocks > was.blocks && BooksOf(w).over == 0
              && BooksOf(w).spoiled == (was.spoiled || was.over > 0) && BooksOf(w).mark == was.mark
  {
  }

  lemma SinceStep(w: BlockWriter, was: Books, now: Books, c: int, at: int, ds: seq<Segment>, i: nat)
    requires i < |ds|
    requires if AllStay(w.n, c, ds, i) then now == was && at == c + |Segments.Flat(ds[..i])|
             else now.blocks > was.blocks && now.over == 0 && now.spoiled == (was.spoiled || was.over > 0)
                  && now.mark == was.mark
    requires Since(w, now, at + |ds[i].hd| + |ds[i].data|, BankStays(w.n, at, ds[i]))
    ensures Since(w, was, c + |Segments.Flat(ds[..i + 1])|, AllStay(w.n, c, ds, i + 1))
  {
    hide Segments.Flat;
    StaysMore(w.n, c, ds, i);
  }

  /** Run, event and trigger words from the HEAD bank, if there is one; else from system words. */
  method EventWords(b: BosArray, head: int) returns (event: seq<int>)
    requires b.Valid() && |b.ch| == |b.names| && b.fix + NHW <= b.w.Length
    requires head in b.names ==> var n := NameIndex(b.names, head); 0 <= b.idl + 1 + n < b.w.Length && LinkRoom(b, n)
    modifies b`iwk, b`igw, b`ndw, b`jw1, b.w
    ensures b.Valid() && b.Contents() == old(b.Contents()) && |event| == RECHEADLEN
    ensures event[3] == 0x454e_5552 && event[4] == 0x544e_4556  // RUNE, VENT
    ensures head in b.names ==>
              var n := NameIndex(b.names, head);
              && n < |b.Contents()|
              && (Lookup(b.Contents()[n], 0).Some? && |Lookup(b.Contents()[n], 0).value.data| >= 5 ==>
                    EventOf(event, Lookup(b.Contents()[n], 0).value.data))
  {
    hide Sound, Listing, SameBanks, Answer, LinkRoom, Lookup;
    ghost var ch := b.ch;
    var ind := Nlink(b, head, 0);
    WordsThere(b.Value(), ch);
    if head in b.names { AnswerMeans(b.Value(), ch, NameIndex(b.names, head), 0, ind); }
    event := [0, 0, 0, RUNE, VENT, b.w[ind + 2], b.w[ind + 3], 0, b.w[ind + 5], 0, 0];
  }

  lemma WordsThere(v: Snapshot, ch: seq<seq<int>>)
    requires Sound(v, ch) && v.fix + NHW <= |v.a.w|
    ensures 5 < |v.a.w|
  {
    SettleFix(v, ch);
  }

  lemma SettleFix(v: Snapshot, ch: seq<seq<int>>)
    requires Sound(v, ch)
    ensures 0 < v.fix
  {
  }

  /** Words that are counted in the present block before a record header is put. */
  ghost function Counted(w: BlockWriter): int
    requires w.Valid()
    reads w, w.buf
  {
    if w.ip == 0 then 2 else w.buf[1]
  }

  /** Some record, for a list without banks. */
  ghost function AnyRecord(event: seq<int>): Record
    requires |event| == RECHEADLEN
  {
    Record(event[irCODE := 0][irNWRD := 9], [Segment([9, 0, 0, 0, 0, 0, 0, 0, 0], [])])
  }

  lemma AnyWhole(event: seq<int>)
    requires |event| == RECHEADLEN
    ensures Whole(AnyRecord(event)) && SameEvent(event, AnyRecord(event).hd)
  {
    var d := Segment([9, 0, 0, 0, 0, 0, 0, 0, 0], []);
    assert Segments.Flat([d]) == Segments.Flat([]) + SegWords(d);
  }

  /** The record header stays counted, although there is no record. */
  method Abandon(w: BlockWriter, ghost hd: seq<int>)
    requires w.Begun(hd, [], [])
    modifies w`over
    ensures w.Valid() && w.Stream() == old(w.Stream()) && w.over == old(w.over) + RECHEADLEN
  {
    hide AllLaid, Alternating, Sized, Stored, HereOk;
    NoWords();
    assert w.buf[2..w.ip] == w.buf[2..w.buf[1] - w.over][..|Pack(w.here)|];
    assert Image(w.here, hd, [], [])[..|Pack(w.here)|] == Pack(w.here);
    w.over := w.over + RECHEADLEN;
  }

  /**
   Writes the banks of the listed names as a record (bosWrite).  What comes out are pieces of the
   record with the same bank headers and data as the one that bos2et makes, behind everything
   written before.  With no bank in the list there is an error, and a record header stays counted
   in the block; if so, the next record puts that right, if and only if it ends in the same block:
   else a block goes to the file that counts words too many.
   */
  method BosWrite(w: BlockWriter, b: BosArray, list: seq<nat>, formats: seq<BankFormat>, head: int)
    returns (error: int, ghost ps: seq<Record>, ghost event: seq<int>)
    requires w.Valid() && b.w != w.buf && b.Valid() && |b.ch| == |b.names| && b.fix + NHW <= b.w.Length
    requires InRange(list, |b.names|) && AllFit(formats, |b.names|)
    requires head in b.names ==> var n := NameIndex(b.names, head); 0 <= b.idl + 1 + n < b.w.Length && LinkRoom(b, n)
    requires |b.Contents()| == |b.names|
    modifies w, w.buf, b`iwk, b`igw, b`ndw, b`jw1, b.w
    ensures w.Valid() && b.Valid() && b.Contents() == old(b.Contents())
    ensures |event| == RECHEADLEN && Named(b.names, Listed(b.Contents(), list))
    ensures Wrote(w, b.names, HeaderFormats(formats), Listed(b.Contents(), list), event, old(BooksOf(w)),
        old(Counted(w)),
                  old(w.Stream()), error, ps)
    ensures error == 0 ==>
              var full := old(Counted(w)) + 81 > w.n;
              var block := old(|w.file|) + if full then 2 else 1;
              && w.mark == Mark(block, 100 * block + (if full then 0 else if old(w.ip) == 0 then 1 else old(w.nsegm)),
                  true)
              && Stands(w.sent, w.here, ps, w.mark)
    ensures head in b.names ==>
              var n := NameIndex(b.names, head);
              && n < |b.Contents()|
              && (Lookup(b.Contents()[n], 0).Some? && |Lookup(b.Contents()[n], 0).value.data| >= 5 ==>
                    EventOf(event, Lookup(b.Contents()[n], 0).value.data))
  {
    hide Sound, Listing, Listed, LinkRoom, Whole, Pieces, Lookup, EventOf, Named, Pack, Concat, AllLaid, Alternating,
         Sized, HereOk, RecordOf, AllStay;
    ListedNames(b.Contents(), list, b.names);
    if w.ip == 0 {
      StartBlock(w);
    }
    var words := EventWords(b, head);
    event := words;
    error, ps := PutListed(w, b, list, formats, words);
  }

  /** The record: its header, the banks, and the end or the error. */
  method PutListed(w: BlockWriter, b: BosArray, list: seq<nat>, formats: seq<BankFormat>, event: seq<int>)
    returns (error: int, ghost ps: seq<Record>)
    requires w.Valid() && w.ip >= 2 && b.w != w.buf && b.Valid() && InRange(list, |b.names|)
    requires AllFit(formats, |b.names|)
    requires |b.Contents()| == |b.names| == |b.ch| && |event| == RECHEADLEN
    requires Named(b.names, Listed(b.Contents(), list))
    modifies w, w.buf
    ensures w.Valid() && w.buf.Length >= 2
    ensures Wrote(w, b.names, HeaderFormats(formats), Listed(b.Contents(), list), event, old(BooksOf(w)),
        old(w.buf[1]), old(w.Stream()), error, ps)
    ensures error == 0 ==> w.mark == old(MarkFor(w)) && Stands(w.sent, w.here, ps, w.mark)
  {
    hide Sound, Listing, Underway, Listed, Named, BlockWriter.Begun, BlockWriter.Valid, BlockWriter.Stream, Writing,
         Whole, Pieces, SegOf, Pack, Since, AllStay, RecordOf;
    ghost var s0 := w.Stream();
    SetMark(w);
    ghost var books, c := BooksOf(w), CountedIn(w) + RECHEADLEN;
    ghost var fs, fmts := Listed(b.Contents(), list), HeaderFormats(formats);
    ghost var rec := WrittenAs(b.names, fmts, fs, event);
    FitOk(formats, |b.names|);
    WrittenWhole(b.names, fmts, fs, event);
    var bios, jp := PutRecordStart(w, event, rec);
    StartStays(w.n, c, rec.segs);
    var icount;
    ghost var hd, cd;
    jp, icount, ps, hd, cd := PutBanks(w, b, list, formats, bios, jp, books, c, rec, s0);
    SinceIs(w, books, c + |Segments.Flat(rec.segs[..|fs|])|, AllStay(w.n, c, rec.segs, |fs|));
    if icount == 0 {
      NothingWritten(w, rec, s0, ps, hd, cd);
      Abandon(w, hd);
      error := NO_BANKS;
    } else {
      ps := EndRecord(w, jp, rec, s0, ps, hd, hd, cd);
      error := 0;
    }
  }

  /** What has become of the list. */
  ghost predicate Wrote(w: BlockWriter, names: seq<int>, fmts: seq<seq<int>>, fs: seq<Frag>, event: seq<int>,
                        was: Books, c: int, s0: seq<Record>, error: int, ps: seq<Record>)
    requires Named(names, fs) && |fmts| == |names| && |event| == RECHEADLEN
    reads w
  {
    var fits := c + 81 <= w.n;
    if fs == [] then
      && error == NO_BANKS && ps == [] && w.Stream() == s0
      && w.over == RECHEADLEN + (if fits then was.over else 0) && w.spoiled == (was.spoiled || (was.over > 0 && !fits))
    else
      var rec := RecordOf(names, fmts, fs, event);
      && error == 0 && Whole(rec) && Pieces(ps, rec) && w.Stream() == s0 + ps && w.here != [] && w.over == 0
      && (w.spoiled <==> was.spoiled || (was.over > 0 && !AllStay(w.n, c + RECHEADLEN, rec.segs, |rec.segs|)))
  }

  /** The record of the listed banks, or any if there are none. */
  ghost function WrittenAs(names: seq<int>, fmts: seq<seq<int>>, fs: seq<Frag>, event: seq<int>): Record
    requires Named(names, fs) && |fmts| == |names| && |event| == RECHEADLEN
  {
    if fs == [] then AnyRecord(event) else RecordOf(names, fmts, fs, event)
  }

  lemma WrittenWhole(names: seq<int>, fmts: seq<seq<int>>, fs: seq<Frag>, event: seq<int>)
    requires Named(names, fs) && FormatsOk(fmts, |names|) && |event| == RECHEADLEN
    ensures var rec := WrittenAs(names, fmts, fs, event);
            && Whole(rec) && SameEvent(event, rec.hd) && MadeOf(rec, names, fmts, fs)
            && (fs != [] ==> |rec.segs| == |fs|)
  {
    hide SegOf, Whole, RecordOf;
    if fs == [] { AnyWhole(event); } else { RecordWhole(names, fmts, fs, event); }
  }

  lemma StartStays(n: int, c: int, ds: seq<Segment>)
    ensures AllStay(n, c, ds, 0) <==> c - RECHEADLEN + 81 <= n
  {
  }

  lemma NothingWritten(w: BlockWriter, rec: Record, s0: seq<Record>, ps: seq<Record>, hd: seq<int>, cd: seq<Segment>)
    requires Writing(w, rec, s0, ps, hd, hd, cd, 0, None) && ps == []
    ensures w.Stream() == s0
  {
    assert s0 + [] == s0;
  }

  /** In the first block, behind nothing but a record header that was left counted. */
  lemma HeaderOver(w: BlockWriter)
    requires w.Valid() && w.Stream() == [] && w.over == RECHEADLEN
    ensures Counted(w) == 2 + RECHEADLEN
  {
    hide AllLaid, Alternating, Sized, Concat;
  }

  lemma NothingElse(w: BlockWriter, ps: seq<Record>)
    requires w.Valid() && w.here != [] && w.Stream() == [] + ps
    ensures w.Stream() + Flushed(w) == ps
  {
    hide AllLaid, Alternating, Sized, Concat, Pack;
    assert w.Stream() + [] == ps;
  }

  lemma InOrder(w: BlockWriter)
    requires w.Valid() && w.here == []
    ensures (AllLaid(w.n, w.file, w.sent) <==> !w.spoiled) && w.Stream() == Concat(w.sent)
  {
    hide AllLaid, Alternating, Sized, Concat, Pack;
    assert Concat(w.sent) + [] == Concat(w.sent);
  }

  /** The record is in the file; its blocks are in order under the condition of `WriteAfterNothing`. */
  ghost predicate InFile(w: BlockWriter, names: seq<int>, fmts: seq<seq<int>>, fs: seq<Frag>, event: seq<int>,
                         ps: seq<Record>)
    reads w
  {
    && Named(names, fs) && |fmts| == |names| && |event| == RECHEADLEN && w.here == [] && Concat(w.sent) == ps
    && var rec := RecordOf(names, fmts, fs, event);
       && Pieces(ps, rec)
       && (AllLaid(w.n, w.file, w.sent) <==> AllStay(w.n, 2 + 2 * RECHEADLEN, rec.segs, |rec.segs|))
  }

  /**
   A list without a bank, then one with banks, then a flush: the blocks of the file are in order
   if and only if the record would end in the first block with one more record header in front.
   */
  method WriteAfterNothing(n: int, b: BosArray, none: seq<nat>, list: seq<nat>, formats: seq<BankFormat>, head: int)
    returns (w: BlockWriter, ghost event: seq<int>, ghost ps: seq<Record>)
    requires n >= 83 && b.Valid() && |b.ch| == |b.names| == |b.Contents()| && b.fix + NHW <= b.w.Length
    requires head !in b.names
    requires InRange(none, |b.names|) && InRange(list, |b.names|) && AllFit(formats, |b.names|)
    requires Listed(b.Contents(), none) == [] && Listed(b.Contents(), list) != []
    modifies b`iwk, b`igw, b`ndw, b`jw1, b.w
    ensures b.Valid() && b.Contents() == old(b.Contents()) && w.n == n
    ensures InFile(w, b.names, HeaderFormats(formats), Listed(b.Contents(), list), event, ps)
  {
    hide Sound, Listing, Listed, LinkRoom, Whole, Pieces, Lookup, EventOf, Named, AllStay, RecordOf, BlockWriter.Valid,
         Concat, HeaderFormats;
    var error;
    w := new BlockWriter(n);
    error, ps, event := BosWrite(w, b, none, formats, head);
    HeaderOver(w);
    error, ps, event := BosWrite(w, b, list, formats, head);
    NothingElse(w, ps);
    error := EtFlush(w);
    InOrder(w);
  }
}
