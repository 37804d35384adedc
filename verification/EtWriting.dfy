/**
 Writing flat records into blocks (etwrite.c, fpack.h).

 A file is a sequence of blocks of `n` words: block length, used words, then record segments.
 */
module EtWriting {
  import opened Options
  import opened Segments
  import opened Splitting
  import opened Slices

  const SWAP := 0x04030201
  const LOCAL := 4  // DEC format, as on Linux

  /** Of the record segments of a block only the first continues a record, and only the last is continued. */
  ghost predicate BlockOk(rs: seq<Record>) {
    forall j :: 0 <= j < |rs| ==>
      && |rs[j].hd| == RECHEADLEN
      && (rs[j].hd[irCODE] == 2 || rs[j].hd[irCODE] == 3 ==> j == 0)
      && (rs[j].hd[irCODE] == 1 || rs[j].hd[irCODE] == 2 ==> j == |rs| - 1)
  }

  /** In a block that is not full all records end. */
  ghost predicate HereOk(rs: seq<Record>) {
    BlockOk(rs) && forall j :: 0 <= j < |rs| ==> rs[j].hd[irCODE] != 1 && rs[j].hd[irCODE] != 2
  }

  lemma BlockMore(here: seq<Record>, p: Record)
    requires HereOk(here) && |p.hd| == RECHEADLEN && (p.hd[irCODE] == 2 || p.hd[irCODE] == 3 ==> here == [])
    ensures BlockOk(here + [p])
    ensures p.hd[irCODE] != 1 && p.hd[irCODE] != 2 ==> HereOk(here + [p])
  {
    var a := here + [p];
    forall j | 0 <= j < |a|
      ensures |a[j].hd| == RECHEADLEN && (a[j].hd[irCODE] == 2 || a[j].hd[irCODE] == 3 ==> j == 0)
      ensures a[j].hd[irCODE] == 1 || a[j].hd[irCODE] == 2 ==> j == |a| - 1
    {
      if j < |here| { assert a[j] == here[j]; }
    }
  }

  /** Block `blk` of `n` words holds the record segments `rs`; words behind them are left over. */
  ghost predicate Renders(n: int, blk: seq<int>, rs: seq<Record>) {
    && |blk| == n && n >= 2 && blk[0] == n && 2 <= blk[1] <= n
    && blk[2..blk[1]] == Pack(rs) && RecsOk(rs) && rs != [] && BlockOk(rs)
  }

  /** The words where a record header would be in a block without records: they are left over. */
  function Leavings(blk: seq<int>): (r: Record)
    requires |blk| >= 2 + RECHEADLEN
    ensures |r.hd| == RECHEADLEN && r.segs == []
  {
    Record(blk[2..2 + RECHEADLEN], [])
  }

  /** A block without records; what a reader finds in it is kept as a segment without banks. */
  ghost predicate Hollow(n: int, blk: seq<int>, rs: seq<Record>) {
    |blk| == n && n >= 83 && blk[0] == n && blk[1] == 2 && rs == [Leavings(blk)]
  }

  ghost predicate Laid(n: int, blk: seq<int>, rs: seq<Record>) {
    Renders(n, blk, rs) || Hollow(n, blk, rs)
  }

  ghost predicate AllLaid(n: int, file: seq<seq<int>>, sent: seq<seq<Record>>) {
    |file| == |sent| && forall i :: 0 <= i < |file| ==> Laid(n, file[i], sent[i])
  }

  ghost predicate Sized(n: int, file: seq<seq<int>>) {
    forall k :: 0 <= k < |file| ==> |file[k]| == n
  }

  lemma FileMore(n: int, file: seq<seq<int>>, sent: seq<seq<Record>>, blk: seq<int>, rs: seq<Record>)
    requires |file| == |sent|
    ensures AllLaid(n, file + [blk], sent + [rs]) <==> AllLaid(n, file, sent) && Laid(n, blk, rs)
  {
    hide Laid;
    var f, b := file + [blk], sent + [rs];
    if AllLaid(n, f, b) {
      assert Laid(n, f[|file|], b[|file|]);
      forall i | 0 <= i < |file| ensures Laid(n, file[i], sent[i]) { assert Laid(n, f[i], b[i]); }
    }
  }

  /** A block without records has the words of the last block but one. */
  ghost predicate Alternating(file: seq<seq<int>>) {
    forall k, j :: 0 <= k < |file| && j == k + 2 < |file| && |file[k]| >= 2 && |file[j]| >= 2 && file[j][1] == 2 ==>
      file[j][2..] == file[k][2..]
  }

  lemma HollowLacks(n: int, blk: seq<int>, rs: seq<Record>)
    requires Hollow(n, blk, rs)
    ensures !RecsOk(rs)
  {
    assert !RecOk(rs[0]);
  }

  ghost function Concat(bs: seq<seq<Record>>): seq<Record> {
    if bs == [] then [] else Concat(bs[..|bs| - 1]) + bs[|bs| - 1]
  }

  lemma ConcatAdd(bs: seq<seq<Record>>, b: seq<Record>)
    ensures Concat(bs + [b]) == Concat(bs) + b
  {
    assert (bs + [b])[..|bs|] == bs;
  }

  /** The words of a block in the making: finished segments, then header, data segments and a rest. */
  ghost function Image(here: seq<Record>, hd: seq<int>, cd: seq<Segment>, tail: seq<int>): seq<int> {
    Pack(here) + hd + Flat(cd) + tail
  }

  /** `s` with `t` written over it from `at` on. */
  function Overwritten(s: seq<int>, at: int, t: seq<int>): seq<int>
    requires 0 <= at <= at + |t| <= |s|
  {
    s[..at] + t + s[at + |t|..]
  }

  /** For a record that is split: the block in which it begins, a header word of its first segment, and the writer. */
  datatype Mark = Mark(block: nat, nrsg: int, bos: bool)

  /** Header words that the writer sets in the `j`-th record segment. */
  ghost predicate Marked(h: seq<int>, m: Mark, j: nat) {
    && |h| == RECHEADLEN && h[irPTRN] == 0x0403_0201 && h[irFORG] == 64
    && h[irNRSG] == (if j == 0 then m.nrsg else 100 * (m.block + j) - (if m.bos then 0 else 1))
    && h[irNPHYS] == (if m.bos then 0 else j)
  }

  /** A record segment lies in block `k` of the file, or of the buffer behind it. */
  ghost predicate InBlock(sent: seq<seq<Record>>, here: seq<Record>, k: int, p: Record) {
    if 0 <= k < |sent| then p in sent[k] else k == |sent| && p in here
  }

  /** The segments of the record lie in consecutive blocks of the file. */
  ghost predicate Placed(sent: seq<seq<Record>>, ps: seq<Record>, m: Mark) {
    && m.block > 0 && |sent| + 1 == m.block + |ps|
    && forall j :: 0 <= j < |ps| ==> Marked(ps[j].hd, m, j) && InBlock(sent, [], m.block - 1 + j, ps[j])
  }

  /** The last of them is in the buffer. */
  ghost predicate Stands(sent: seq<seq<Record>>, here: seq<Record>, ps: seq<Record>, m: Mark) {
    && m.block > 0 && |sent| + 2 == m.block + |ps|
    && forall j :: 0 <= j < |ps| ==> Marked(ps[j].hd, m, j) && InBlock(sent, here, m.block - 1 + j, ps[j])
  }

  lemma PlacedMore(sent: seq<seq<Record>>, ps: seq<Record>, m: Mark, rs: seq<Record>, p: Record)
    requires Placed(sent, ps, m) && Marked(p.hd, m, |ps|) && p in rs
    ensures Placed(sent + [rs], ps + [p], m)
  {
    hide Marked;
    var a := ps + [p];
    forall j | 0 <= j < |a| ensures Marked(a[j].hd, m, j) && InBlock(sent + [rs], [], m.block - 1 + j, a[j]) {
      if j < |ps| { assert a[j] == ps[j]; }
    }
  }

  lemma PlacedLast(sent: seq<seq<Record>>, ps: seq<Record>, m: Mark, here: seq<Record>, p: Record)
    requires Placed(sent, ps, m) && Marked(p.hd, m, |ps|) && p in here
    ensures Stands(sent, here, ps + [p], m)
  {
    hide Marked;
    var a := ps + [p];
    forall j | 0 <= j < |a| ensures Marked(a[j].hd, m, j) && InBlock(sent, here, m.block - 1 + j, a[j]) {
      if j < |ps| { assert a[j] == ps[j]; }
    }
  }

  /** Code and word count do not matter. */
  lemma MarkedStill(h: seq<int>, m: Mark, j: nat, v: int)
    requires Marked(h, m, j)
    ensures |h| == RECHEADLEN && Marked(h[irCODE := v], m, j) && Marked(h[irNWRD := v], m, j)
  {
  }

  class BlockWriter {
    const n: int          // words of a block
    const buf: array<int> // the block in the making; bufout[1] counts its used words
    var spare: seq<int>   // the words of the other buffer; the two are used in turn

    var ip: int           // where the next record segment starts; zero before the first
    var nphysrec: int
    var nsegm: int
    var file: seq<seq<int>>

    ghost var sent: seq<seq<Record>>  // record segments of the blocks of the file
    ghost var here: seq<Record>       // record segments finished in the buffer
    ghost var over: nat               // words that bufout[1] counts beyond those of record segments
    ghost var spoiled: bool           // a block has gone to the file with such words
    ghost var mark: Mark              // of the last record that was split

    ghost predicate Filed()
      reads this
    {
      && buf.Length == n && n >= 83 && |file| == |sent| && (spoiled <==> !AllLaid(n, file, sent)) && RecsOk(here)
      && Sized(n, file) && |spare| == n && (file != [] ==> spare == file[|file| - 1]) && Alternating(file)
      && nphysrec == (if ip == 0 then 0 else |file| + 1) && nsegm >= 0
    }

    /** Between two records. */
    ghost predicate Valid()
      reads this, buf
    {
      && Filed() && HereOk(here)
      && (if ip == 0 then here == [] && file == [] && over == 0
          else buf[0] == n && buf[1] == ip + over <= n && 2 <= ip && buf[2..ip] == Pack(here))
      && (here == [] && over == 0 && |file| >= 2 ==> buf[2..] == file[|file| - 2][2..])
    }

    /** All record segments written so far. */
    ghost function Stream(): seq<Record>
      reads this
    {
      Concat(sent) + here
    }

    /** A record segment has been begun: header `hd`, data segments `cd`, then the words `tail`. */
    ghost predicate Begun(hd: seq<int>, cd: seq<Segment>, tail: seq<int>)
      reads this, buf
    {
      && Filed() && HereOk(here) && |hd| == RECHEADLEN && SegsOk(cd)
      && ip == 2 + |Pack(here)| && buf[0] == n
      && buf[1] == 2 + |Image(here, hd, cd, tail)| + over <= n
      && buf[2..buf[1] - over] == Image(here, hd, cd, tail)
      && hd[irNWRD] == |Flat(cd)| + |tail|
    }

    constructor (n: int)
      requires n >= 83
      ensures Valid() && Stream() == [] && sent == [] && here == [] && over == 0 && !spoiled && this.n == n && ip == 0
      ensures file == [] && fresh(buf)
    {
      this.n := n;
      buf := new int[n];
      var other := new int[n];
      spare := other[..];
      ip, nphysrec, nsegm, file := 0, 0, 0, [];
      sent, here := [], [];
      over, spoiled := 0, false;
      mark := Mark(0, 0, false);
    }
  }

  // ---- Writing words ------------------------------------------------------------------------------

  /** `bcopy` of words into the buffer. */
  method CopyIn(buf: array<int>, at: int, t: seq<int>)
    requires 0 <= at <= at + |t| <= buf.Length
    modifies buf
    ensures buf[..] == Overwritten(old(buf[..]), at, t)
  {
    var i := 0;
    while i < |t|
      invariant 0 <= i <= |t|
      invariant forall j :: 0 <= j < buf.Length ==> buf[j] == if at <= j < at + i then t[j - at] else old(buf[..])[j]
    {
      buf[at + i] := t[i];
      i := i + 1;
    }
  }

  /** The buffer has record segments `rs`, and counts `over` words too many. */
  ghost predicate Stored(n: int, blk: seq<int>, rs: seq<Record>, over: nat) {
    && |blk| == n && n >= 83 && blk[0] == n && 2 + |Pack(rs)| + over == blk[1] <= n
    && blk[2..blk[1] - over] == Pack(rs) && RecsOk(rs) && BlockOk(rs)
  }

  /** Such a block is in order if and only if it has record segments and nothing is counted too many. */
  lemma StoredLaid(n: int, blk: seq<int>, rs: seq<Record>, over: nat)
    requires Stored(n, blk, rs, over)
    ensures |blk| == n && n >= 83 && blk[0] == n && (blk[1] > 2 <==> rs != [] || over > 0)
    ensures Renders(n, blk, rs) <==> rs != [] && over == 0
    ensures rs != [] || over > 0 ==> (Laid(n, blk, rs) <==> over == 0)
  {
    if rs != [] { assert RecOk(rs[|rs| - 1]); }
  }

  /** A block goes to the file (WRITE_BUF_TO_DISK); the next one is begun (START_NEW_PHYSREC). */
  method WriteBlock(w: BlockWriter, ghost rs: seq<Record>)
    requires w.Filed() && w.ip != 0 && Stored(w.n, w.buf[..], rs, w.over) && (rs != [] || w.over > 0)
    modifies w, w.buf
    ensures w.mark == old(w.mark)
    ensures w.Valid() && w.here == [] && w.ip == 2 && w.over == 0 && w.Stream() == Concat(old(w.sent)) + rs
    ensures w.nphysrec == old(w.nphysrec) + 1 && w.nsegm == 1
    ensures w.file == old(w.file) + [old(w.buf[..])] && w.sent == old(w.sent) + [rs]
    ensures w.spoiled == (old(w.spoiled) || old(w.over) > 0)
  {
    hide Stored, Laid, Pack;
    ConcatAdd(w.sent, rs);
    StoredLaid(w.n, w.buf[..], rs, w.over);
    WriteAs(w, rs);
    assert w.Stream() == Concat(w.sent);
  }

  /** The same for a block of which it is known what a reader finds in it. */
  method WriteAs(w: BlockWriter, ghost rs: seq<Record>)
    requires w.Filed() && w.ip != 0 && w.buf[..][0] == w.n
    requires w.buf[1] == 2 && |w.file| >= 2 ==> w.buf[2..] == w.file[|w.file| - 2][2..]
    modifies w, w.buf
    ensures w.mark == old(w.mark)
    ensures w.Valid() && w.here == [] && w.ip == 2 && w.over == 0
    ensures w.nphysrec == old(w.nphysrec) + 1 && w.nsegm == 1
    ensures w.file == old(w.file) + [old(w.buf[..])] && w.sent == old(w.sent) + [rs]
    ensures w.spoiled == (old(w.spoiled) || !Laid(w.n, old(w.buf[..]), rs))
  {
    hide AllLaid, Laid, Pack;
    FileMore(w.n, w.file, w.sent, w.buf[..], rs);
    w.spoiled := w.spoiled || !Laid(w.n, w.buf[..], rs);
    w.file := w.file + [w.buf[..]];
    w.sent := w.sent + [rs];
    w.here := [];
    StartBlock(w);
  }

  lemma FilledUsed(n: int, blk: seq<int>, rs: seq<Record>)
    requires Renders(n, blk, rs)
    ensures |blk| == n && n >= 2 && blk[1] > 2
  {
    assert RecOk(rs[|rs| - 1]);
  }

  lemma HereStored(w: BlockWriter)
    requires w.Valid() && w.ip != 0
    ensures Stored(w.n, w.buf[..], w.here, w.over) && w.Filed()
  {
    assert w.buf[..][2..w.ip] == w.buf[2..w.ip];
  }

  /** START_NEW_PHYSREC. */
  method StartBlock(w: BlockWriter)
    requires w.buf.Length == w.n && w.n >= 83 && |w.file| == |w.sent| && (w.spoiled <==> !AllLaid(w.n, w.file, w.sent))
    requires w.here == [] && Alternating(w.file) && Sized(w.n, w.file) && |w.spare| == w.n && w.nphysrec == |w.file|
    requires w.file != [] ==> w.buf[..] == w.file[|w.file| - 1]
    requires |w.file| >= 2 ==> w.spare == w.file[|w.file| - 2]
    modifies w`ip, w`nphysrec, w`nsegm, w`spare, w`over, w.buf
    ensures w.Valid() && w.ip == 2 && w.over == 0 && w.nphysrec == old(w.nphysrec) + 1 && w.nsegm == 1
    ensures w.spare == old(w.buf[..]) && w.buf[2..] == old(w.spare)[2..]
  {
    hide AllLaid;
    var words := w.buf[..];
    CopyIn(w.buf, 0, w.spare);
    w.spare := words;
    w.buf[0] := w.n;
    w.buf[1] := 2;
    w.ip, w.over := 2, 0;
    w.nphysrec := w.nphysrec + 1;
    w.nsegm := 1;
  }

  lemma OverwrittenAt(s: seq<int>, at: int, t: seq<int>, lo: int)
    requires 0 <= lo <= at <= at + |t| <= |s|
    ensures |Overwritten(s, at, t)| == |s|
    ensures Overwritten(s, at, t)[lo..at + |t|] == s[lo..at] + t
    ensures forall i :: 0 <= i < at ==> Overwritten(s, at, t)[i] == s[i]
  {
  }

  /** The header of a record segment is put into the buffer. */
  method PutHeader(w: BlockWriter, hd: seq<int>)
    requires w.Valid() && w.ip >= 2 && w.buf[1] + RECHEADLEN <= w.n && |hd| == RECHEADLEN && hd[irNWRD] == 0
    modifies w.buf
    ensures w.Begun(hd, [], [])
  {
    ghost var b0 := w.buf[..];
    CopyIn(w.buf, w.ip, hd);
    OverwrittenAt(b0, w.ip, hd, 2);
    w.buf[1] := w.buf[1] + RECHEADLEN;
    assert w.buf[2..w.ip + RECHEADLEN] == Pack(w.here) + hd;
    assert Image(w.here, hd, [], []) == Pack(w.here) + hd;
  }

  lemma ImageTail(here: seq<Record>, hd: seq<int>, cd: seq<Segment>, tail: seq<int>, t: seq<int>)
    ensures Image(here, hd, cd, tail + t) == Image(here, hd, cd, tail) + t
  {
    assert Pack(here) + hd + Flat(cd) + (tail + t) == Pack(here) + hd + Flat(cd) + tail + t;
  }

  lemma ImageHead(here: seq<Record>, hd: seq<int>, cd: seq<Segment>, tail: seq<int>, i: int, v: int)
    requires 0 <= i < |hd|
    ensures |Image(here, hd, cd, tail)| == |Pack(here)| + |hd| + |Flat(cd)| + |tail|
    ensures Image(here, hd[i := v], cd, tail) == Image(here, hd, cd, tail)[|Pack(here)| + i := v]
    ensures Image(here, hd, cd, tail)[|Pack(here)| + i] == hd[i]
  {
  }

  lemma ImageRest(here: seq<Record>, hd: seq<int>, cd: seq<Segment>, tail: seq<int>, i: int, v: int)
    requires 0 <= i < |tail|
    ensures |Image(here, hd, cd, tail)| == |Pack(here)| + |hd| + |Flat(cd)| + |tail|
    ensures Image(here, hd, cd, tail[i := v]) == Image(here, hd, cd, tail)[|Pack(here)| + |hd| + |Flat(cd)| + i := v]
    ensures Image(here, hd, cd, tail)[|Pack(here)| + |hd| + |Flat(cd)| + i] == tail[i]
  {
  }

  /** A word of the record segment header, other than its count, is set in the buffer. */
  method SetHead(w: BlockWriter, i: int, v: int, ghost hd: seq<int>, ghost cd: seq<Segment>, ghost tail: seq<int>)
    requires w.Begun(hd, cd, tail) && 0 <= i < RECHEADLEN && i != irNWRD
    modifies w.buf
    ensures w.Begun(hd[i := v], cd, tail) && w.buf.Length == w.n >= 2 && w.buf[1] == old(w.buf[1])
  {
    hide Image;
    ImageHead(w.here, hd, cd, tail, i, v);
    ghost var b0 := w.buf[..];
    w.buf[w.ip + i] := v;
    assert w.buf[2..w.buf[1] - w.over] == b0[2..b0[1] - w.over][w.ip + i - 2 := v];
  }

  /** A word of the data header in the making is set in the buffer. */
  method SetTail(w: BlockWriter, jp: int, i: int, v: int, ghost hd: seq<int>, ghost cd: seq<Segment>,
                 ghost tail: seq<int>)
    requires w.Begun(hd, cd, tail) && 0 <= i < |tail| && jp == w.ip + RECHEADLEN + |Flat(cd)|
    modifies w.buf
    ensures w.Begun(hd, cd, tail[i := v]) && w.buf.Length == w.n >= 2 && w.buf[1] == old(w.buf[1])
  {
    hide Image;
    ImageRest(w.here, hd, cd, tail, i, v);
    ghost var b0 := w.buf[..];
    w.buf[jp + i] := v;
    assert w.buf[2..w.buf[1] - w.over] == b0[2..b0[1] - w.over][jp + i - 2 := v];
  }

  /** Words are copied behind what the segment holds; both word counts go up. */
  method Extend(w: BlockWriter, kp: int, t: seq<int>, ghost hd: seq<int>, ghost cd: seq<Segment>, ghost tail: seq<int>)
    requires w.Begun(hd, cd, tail) && kp == w.buf[1] - w.over && w.buf[1] + |t| <= w.n
    modifies w.buf
    ensures w.Begun(hd[irNWRD := hd[irNWRD] + |t|], cd, tail + t)
  {
    hide Image;
    ghost var b0 := w.buf[..];
    ImageHead(w.here, hd, cd, tail, irNWRD, hd[irNWRD] + |t|);
    CopyIn(w.buf, kp, t);
    OverwrittenAt(b0, kp, t, 2);
    ghost var b1 := w.buf[..];
    w.buf[1] := w.buf[1] + |t|;
    w.buf[w.ip + irNWRD] := w.buf[w.ip + irNWRD] + |t|;
    ExtendWords(b0, b1, w.buf[..], w.here, hd, cd, tail, t, w.ip, w.over);
  }

  lemma ExtendWords(b0: seq<int>, b1: seq<int>, b2: seq<int>, here: seq<Record>, hd: seq<int>, cd: seq<Segment>,
                    tail: seq<int>, t: seq<int>, ip: int, over: nat)
    requires |b0| >= 2 && 2 <= b0[1] - over <= b0[1] + |t| <= |b0| == |b1|
    requires b0[2..b0[1] - over] == Image(here, hd, cd, tail)
    requires b1[2..b0[1] - over + |t|] == b0[2..b0[1] - over] + t && b1[1] == b0[1] && |hd| == RECHEADLEN
    requires ip == 2 + |Pack(here)|
    requires ip + irNWRD < b0[1] - over
    requires b2 == b1[1 := b0[1] + |t|][ip + irNWRD := b1[ip + irNWRD] + |t|]
    ensures |b2| == |b0| && b2[1] == b0[1] + |t| && b2[0] == b1[0]
    ensures b2[2..b2[1] - over] == Image(here, hd[irNWRD := hd[irNWRD] + |t|], cd, tail + t)
    ensures |Image(here, hd[irNWRD := hd[irNWRD] + |t|], cd, tail + t)| == b0[1] - over + |t| - 2
  {
    hide Image;
    ImageTail(here, hd, cd, tail, t);
    ImageHead(here, hd, cd, tail + t, irNWRD, hd[irNWRD] + |t|);
    ImageHead(here, hd, cd, tail, irNWRD, hd[irNWRD] + |t|);
    var e := b0[1] - over + |t|;
    assert b1[ip + irNWRD] == b1[2..e][ip + irNWRD - 2] == hd[irNWRD];
    assert b2[2..e] == b1[2..e][ip + irNWRD - 2 := hd[irNWRD] + |t|];
  }

  // ---- Closing segments -----------------------------------------------------------------------------

  lemma BegunSegment(w: BlockWriter, hd: seq<int>, cd: seq<Segment>, d: Segment)
    requires w.Begun(hd, cd, SegWords(d)) && SegOk(d)
    ensures w.Begun(hd, cd + [d], [])
  {
    FlatAdd(cd, d);
    assert Image(w.here, hd, cd + [d], []) == Image(w.here, hd, cd, SegWords(d));
  }

  lemma BegunRecord(w: BlockWriter, hd: seq<int>, cd: seq<Segment>)
    requires w.Begun(hd, cd, []) && cd != [] && |hd| == RECHEADLEN
    requires (hd[irCODE] == 2 || hd[irCODE] == 3 ==> w.here == [])
    ensures RecOk(Record(hd, cd)) && w.buf[2..w.buf[1] - w.over] == Pack(w.here + [Record(hd, cd)])
    ensures RecsOk(w.here + [Record(hd, cd)])
    ensures Stored(w.n, w.buf[..], w.here + [Record(hd, cd)], w.over)
    ensures hd[irCODE] != 1 && hd[irCODE] != 2 ==> HereOk(w.here + [Record(hd, cd)])
  {
    hide HereOk, BlockOk, Flat;
    BlockMore(w.here, Record(hd, cd));
    PackAdd(w.here, Record(hd, cd));
    assert Image(w.here, hd, cd, []) == Pack(w.here) + RecWords(Record(hd, cd));
    assert w.buf[..][2..w.buf[1] - w.over] == w.buf[2..w.buf[1] - w.over];
  }

  /** The data segment in the making, once its header has its final words. */
  lemma BegunPart(w: BlockWriter, hd: seq<int>, cd: seq<Segment>, d: Segment, tail: seq<int>)
    requires w.Begun(hd, cd, tail) && SegOk(d) && tail == d.hd + d.data
    ensures w.Begun(hd, cd + [d], [])
  {
    BegunSegment(w, hd, cd, d);
  }

  // ---- What stays the same while a record is written ------------------------------------------------------

  datatype Course = Course(sent: seq<seq<Record>>, here: seq<Record>, mark: Mark, nsegm: int, ip: int)

  ghost function CourseOf(w: BlockWriter): Course
    reads w
  {
    Course(w.sent, w.here, w.mark, w.nsegm, w.ip)
  }

  /** What was in the file is there still, and what was in the buffer is, or has come to the file. */
  ghost predicate Later(sent: seq<seq<Record>>, here: seq<Record>, sent': seq<seq<Record>>, here': seq<Record>) {
    && sent <= sent'
    && forall p :: p in here ==> InBlock(sent', here', |sent|, p)
  }

  /** Other segments are where they were; with a new block (`more`) the segments of blocks are counted anew. */
  ghost predicate Onward(c: Course, c': Course, more: bool) {
    && c'.mark == c.mark && Later(c.sent, c.here, c'.sent, c'.here)
    && if more then c'.nsegm == 0 else c'.nsegm == c.nsegm && c'.ip == c.ip
  }

  lemma InLater(sent: seq<seq<Record>>, here: seq<Record>, sent': seq<seq<Record>>, here': seq<Record>, k: int,
                p: Record)
    requires Later(sent, here, sent', here') && InBlock(sent, here, k, p)
    ensures InBlock(sent', here', k, p)
  {
  }

  lemma StillOnward(c: Course)
    ensures Onward(c, c, false)
  {
  }

  lemma OnwardTwice(a: Course, b: Course, c: Course, m: bool, n: bool)
    requires Onward(a, b, m) && Onward(b, c, n)
    ensures Onward(a, c, m || n)
  {
    forall p | p in a.here ensures InBlock(c.sent, c.here, |a.sent|, p) {
      InLater(b.sent, b.here, c.sent, c.here, |a.sent|, p);
    }
  }

  /**
   The block is full in the middle of a record: it is written, and the next one begins with
   the record's header.
   */
  method NextBlock(w: BlockWriter, rechead: seq<int>, ghost rec: Record, ghost ps: seq<Record>, ghost hd: seq<int>,
                   ghost cd: seq<Segment>, ghost i: nat, ghost open: Option<Segment>)
    returns (rechead': seq<int>, ghost ps': seq<Record>)
    requires |hd| == RECHEADLEN && w.Begun(hd[irCODE := Raised(hd[irCODE])], cd, []) && cd != []
    requires PartWay(rec, ps, hd, cd, i, open)
    requires ps != [] ==> w.here == []
    requires |rechead| == RECHEADLEN && SameEvent(hd, rechead) && rechead[irCODE] == Raised(hd[irCODE]) && w.over == 0
    requires Placed(w.sent, ps, w.mark) && Marked(hd, w.mark, |ps|) && Marked(rechead, w.mark, |ps|) && !w.mark.bos
    modifies w, w.buf
    ensures w.over == 0 && w.spoiled == old(w.spoiled) && Onward(old(CourseOf(w)), CourseOf(w), true)
    ensures w.mark == old(w.mark)
    ensures Placed(w.sent, ps', w.mark) && Marked(rechead', w.mark, |ps'|)
    ensures ps' == ps + [Record(hd[irCODE := Raised(hd[irCODE])], cd)] && w.here == []
    ensures w.Begun(rechead', [], []) && PartWay(rec, ps', rechead', [], i, open) && w.ip == 2 && w.buf[1] == 13
    ensures w.Stream() == old(w.Stream()) + [Record(hd[irCODE := Raised(hd[irCODE])], cd)]
  {
    hide PartWay, Stored, Pack, Flat, BlockWriter.Begun, AllLaid, Alternating, Sized, HereOk, Concat;
    PartWayWidth(rec, ps, hd, cd, i, open);
    PartWayCode(rec, ps, hd, cd, i, open);
    ghost var p := Record(hd[irCODE := Raised(hd[irCODE])], cd);
    BegunRecord(w, p.hd, cd);
    BegunFiled(w, p.hd, cd);
    AddLast(Concat(w.sent), w.here, p);
    PlacedMore(w.sent, ps, w.mark, w.here + [p], p);
    WriteBlock(w, w.here + [p]);
    w.nsegm := w.nsegm - 1;
    rechead' := rechead[irNRSG := 100 * w.nphysrec + (w.nsegm - 1)][irNPHYS := rechead[irNPHYS] + 1][irNWRD := 0];
    PutHeader(w, rechead');
    BegunCount(w, rechead', [], []);
    NoWords();
    ps' := ps + [p];
    PartWayPiece(rec, ps, hd, cd, i, open, rechead');
  }

  lemma PartWayWidth(rec: Record, ps: seq<Record>, hd: seq<int>, cd: seq<Segment>, i: nat, open: Option<Segment>)
    requires PartWay(rec, ps, hd, cd, i, open)
    ensures |hd| == RECHEADLEN && i <= |rec.segs| && SegsOk(rec.segs) && Whole(rec)
  {
  }

  /** A first record segment has code 0 as yet, and ends its block with code 1. */
  lemma PartWayCode(rec: Record, ps: seq<Record>, hd: seq<int>, cd: seq<Segment>, i: nat, open: Option<Segment>)
    requires PartWay(rec, ps, hd, cd, i, open)
    ensures |hd| == RECHEADLEN && (ps == [] <==> hd[irCODE] == 0) && 0 <= hd[irCODE] <= 2
    ensures ps == [] ==> Raised(hd[irCODE]) == 1
  {
  }

  // ---- One bank ------------------------------------------------------------------------------------------

  /** Where the writer is: a record begun in the buffer, and what is already written of it. */
  ghost predicate Writing(w: BlockWriter, rec: Record, s0: seq<Record>, ps: seq<Record>, rechead: seq<int>,
                          hd: seq<int>, cd: seq<Segment>, i: nat, open: Option<Segment>)
    reads w, w.buf
  {
    && PartWay(rec, ps, hd, cd, i, open) && |rechead| == RECHEADLEN && SameEvent(hd, rechead)
    && Placed(w.sent, ps, w.mark) && Marked(hd, w.mark, |ps|) && Marked(rechead, w.mark, |ps|)
    && rechead[irCODE] == hd[irCODE] && w.Stream() == s0 + ps && (ps != [] ==> w.here == [])
  }

  lemma HeadWord(w: BlockWriter, hd: seq<int>, cd: seq<Segment>, tail: seq<int>, i: int)
    requires w.Begun(hd, cd, tail) && 0 <= i < RECHEADLEN
    ensures |hd| == RECHEADLEN && 0 <= w.ip && w.ip + i < w.n == w.buf.Length && w.buf[w.ip + i] == hd[i]
  {
    hide Image;
    ImageHead(w.here, hd, cd, tail, i, 0);
    assert w.buf[2..w.buf[1] - w.over][w.ip + i - 2] == w.buf[w.ip + i];
  }

  lemma TailWords(w: BlockWriter, hd: seq<int>, cd: seq<Segment>, tail: seq<int>, jp: int)
    requires w.Begun(hd, cd, tail) && jp == w.ip + RECHEADLEN + |Flat(cd)|
    ensures 2 <= jp && jp + |tail| == w.buf[1] - w.over <= w.n && w.buf[jp..jp + |tail|] == tail
  {
    assert w.buf[2..w.buf[1] - w.over][jp - 2..] == tail;
    assert w.buf[2..w.buf[1] - w.over][jp - 2..] == w.buf[jp..w.buf[1] - w.over];
  }

  /** Between two data segments of a bank. */
  ghost predicate InBank(w: BlockWriter, rec: Record, s0: seq<Record>, ps: seq<Record>, rechead: seq<int>,
                         hd: seq<int>, cd: seq<Segment>, i: nat, open: Option<Segment>, h: seq<int>, n: nat, code: int)
    reads w, w.buf
  {
    && i < |rec.segs| && n <= |rec.segs[i].data| && (n > 0 ==> ps != [] && cd == [])
    && Writing(w, rec, s0, ps, rechead, hd, cd, i, open)
    && HeaderNow(rec.segs[i], h, n, code) && Opened(rec.segs[i], open, n)
  }

  lemma TailWord(w: BlockWriter, hd: seq<int>, cd: seq<Segment>, tail: seq<int>, jp: int, i: int)
    requires w.Begun(hd, cd, tail) && jp == w.ip + RECHEADLEN + |Flat(cd)| && 0 <= i < |tail|
    ensures 0 <= jp && jp + i < w.n == w.buf.Length && w.buf[jp + i] == tail[i]
  {
    TailWords(w, hd, cd, tail, jp);
    assert w.buf[jp..jp + |tail|][i] == w.buf[jp + i];
  }

  /** Header with word count, then data: with its code set, a data segment. */
  lemma PartTail(b: Segment, h: seq<int>, n: nat, m: nat, code: int, code': int)
    requires HeaderNow(b, h, n, code) && n <= m <= |b.data|
    ensures |h| == |b.hd| >= 9
    ensures var t := h[idDATA := m - n] + b.data[n..m];
            && t[idCODE] == code && |t| == |h| + m - n
            && t[idCODE := code'] == Part(b, h, n, m, code').hd + Part(b, h, n, m, code').data
            && (code' == code ==> t == Part(b, h, n, m, code').hd + Part(b, h, n, m, code').data)
    ensures Part(b, h, n, m, code').hd[idNPREV := m][idDATA := 0] == h[idCODE := code'][idNPREV := m][idDATA := 0]
    ensures |Part(b, h, n, m, code').hd| == |h|
  {
    var t := h[idDATA := m - n] + b.data[n..m];
    assert code' == code ==> t[idCODE := code'] == t;
  }

  /** All data are copied: the data segment is the last of its bank. */
  method FinishBank(w: BlockWriter, jpb: int, ghost rec: Record, ghost s0: seq<Record>, ghost ps: seq<Record>,
                    ghost rechead: seq<int>, ghost hd: seq<int>, ghost cd: seq<Segment>, ghost i: nat,
                    ghost open: Option<Segment>, ghost h: seq<int>, ghost n: nat, ghost code: int, ghost tail: seq<int>)
    returns (ghost cd': seq<Segment>)
    requires InBank(w, rec, s0, ps, rechead, hd, cd, i, open, h, n, code)
    requires |h| >= 9 && tail == h[idDATA := |rec.segs[i].data| - n] + rec.segs[i].data[n..|rec.segs[i].data|]
    requires w.Begun(hd, cd, tail) && jpb == w.ip + RECHEADLEN + |Flat(cd)|
    modifies w.buf
    ensures w.buf.Length == w.n >= 2 && w.buf[1] == old(w.buf[1])
    ensures w.Begun(hd, cd', []) && cd' != [] && Writing(w, rec, s0, ps, rechead, hd, cd', i + 1, None)
  {
    hide PartWay, Opened, HeaderNow, Part, BlockWriter.Begun;
    ghost var b := rec.segs[i];
    ghost var code' := if code != 0 then 3 else 0;
    ghost var d := Part(b, h, n, |b.data|, code');
    PartTail(b, h, n, |b.data|, code, code');
    PartWayRest(rec, ps, hd, cd, i, open, h, n, code);
    TailWord(w, hd, cd, tail, jpb, idCODE);
    BegunCount(w, hd, cd, tail);
    if w.buf[jpb + idCODE] != 0 {
      SetTail(w, jpb, idCODE, 3, hd, cd, tail);
    }
    BegunPart(w, hd, cd, d, d.hd + d.data);
    cd' := cd + [d];
  }

  /** Both headers get their codes and the data header is saved with its count of previous words. */
  method CloseCodes(w: BlockWriter, jpb: int, lenh: int, prev: int, rechead: seq<int>, ghost hd: seq<int>,
                    ghost cd: seq<Segment>, ghost tail: seq<int>)
    returns (rechead': seq<int>, dathead: seq<int>)
    requires w.Begun(hd, cd, tail) && jpb == w.ip + RECHEADLEN + |Flat(cd)| && 9 <= lenh <= |tail|
    requires |rechead| == RECHEADLEN
    modifies w.buf
    ensures |hd| == RECHEADLEN
    ensures w.Begun(hd[irCODE := Raised(hd[irCODE])], cd, tail[idCODE := Raised(tail[idCODE])])
    ensures rechead' == rechead[irCODE := Raised(hd[irCODE])]
    ensures dathead == tail[idCODE := Raised(tail[idCODE])][..lenh][idNPREV := prev][idDATA := 0]
  {
    hide Image, Raised, BlockWriter.Begun;
    TailWord(w, hd, cd, tail, jpb, idCODE);
    SetTail(w, jpb, idCODE, Raised(w.buf[jpb + idCODE]), hd, cd, tail);
    ghost var tail1 := tail[idCODE := Raised(tail[idCODE])];
    HeadWord(w, hd, cd, tail1, irCODE);
    rechead' := rechead[irCODE := Raised(w.buf[w.ip + irCODE])];
    SetHead(w, irCODE, Raised(w.buf[w.ip + irCODE]), hd, cd, tail1);
    TailWords(w, hd[irCODE := Raised(hd[irCODE])], cd, tail1, jpb);
    dathead := w.buf[jpb..jpb + lenh];
    ArraySlice(w.buf, jpb, jpb + |tail1|, jpb, jpb + lenh);
    assert tail1[0..lenh] == tail1[..lenh];
    dathead := dathead[idNPREV := prev][idDATA := 0];
  }

  /** Data are left: both headers are written again in the next block. */
  method SplitBank(w: BlockWriter, jpb: int, lenh: int, prev: int, rechead: seq<int>,
                   ghost rec: Record, ghost s0: seq<Record>, ghost ps: seq<Record>,
                   ghost hd: seq<int>, ghost cd: seq<Segment>, ghost i: nat,
                   ghost open: Option<Segment>, ghost h: seq<int>, ghost n: nat, ghost code: int, ghost tail: seq<int>)
    returns (rechead': seq<int>, ghost ps': seq<Record>, ghost hd': seq<int>, ghost open': Option<Segment>,
             ghost h': seq<int>, ghost code': int)
    requires InBank(w, rec, s0, ps, rechead, hd, cd, i, open, h, n, code)
    requires n < prev < |rec.segs[i].data| && 9 <= lenh == |h| <= MAXHEAD
    requires tail == h[idDATA := prev - n] + rec.segs[i].data[n..prev]
    requires w.over == 0 && w.Begun(hd, cd, tail) && jpb == w.ip + RECHEADLEN + |Flat(cd)| && !w.mark.bos
    modifies w, w.buf
    ensures Onward(old(CourseOf(w)), CourseOf(w), true) && |ps'| > |ps| && w.mark == old(w.mark)
    ensures InBank(w, rec, s0, ps', rechead', hd', [], i, open', h', prev, code')
    ensures w.over == 0 && w.spoiled == old(w.spoiled)
    ensures w.Begun(hd', [], h') && w.ip == 2 && w.buf[1] == 13 + lenh < w.n && |h'| == lenh
  {
    hide PartWay, Opened, HeaderNow, Part, Raised, BlockWriter.Begun;
    ghost var b := rec.segs[i];
    code' := Raised(code);
    ghost var d := Part(b, h, n, prev, code');
    PartTail(b, h, n, prev, code, code');
    PartWayWidth(rec, ps, hd, cd, i, open);
    var rec1, dathead := CloseCodes(w, jpb, lenh, prev, rechead, hd, cd, tail);
    assert (d.hd + d.data)[..lenh] == d.hd;
    open' := PartWayPart(rec, ps, hd, cd, i, open, h, n, prev, code);
    BegunPart(w, hd[irCODE := Raised(hd[irCODE])], cd, d, d.hd + d.data);
    rechead', ps' := NextBlock(w, rec1, rec, ps, hd, cd + [d], i, open');
    h' := dathead;
    BegunCount(w, rechead', [], []);
    PartWayWidth(rec, ps', rechead', [], i, open');
    Extend(w, w.buf[1], dathead, rechead', [], []);
    hd' := rechead'[irNWRD := rechead'[irNWRD] + |dathead|];
    assert [] + dathead == dathead;
    PartWayHead(rec, ps', rechead', hd', [], i, open');
    BegunCount(w, hd', [], dathead);
  }

  lemma BegunCount(w: BlockWriter, hd: seq<int>, cd: seq<Segment>, tail: seq<int>)
    requires w.Begun(hd, cd, tail)
    ensures w.n >= 83 && w.buf.Length == w.n && w.buf[1] == w.ip + RECHEADLEN + |Flat(cd)| + |tail| + w.over <= w.n
  {
  }

  /**
   Puts the data of the `i`-th bank of the record behind its header, in as many data segments as
   it takes.
   */
  method PutData(w: BlockWriter, ev: seq<int>, jp: int, lenh: int, lenb0: int, rechead: seq<int>,
                 ghost rec: Record, ghost s0: seq<Record>, ghost ps: seq<Record>,
                 ghost hd: seq<int>, ghost cd: seq<Segment>, ghost i: nat)
    returns (rechead': seq<int>, ghost ps': seq<Record>, ghost hd': seq<int>, ghost cd': seq<Segment>)
    requires i < |rec.segs| && lenh == |rec.segs[i].hd| && lenb0 == |rec.segs[i].data|
    requires 0 <= jp && jp + lenh + lenb0 <= |ev| && ev[jp + lenh..jp + lenh + lenb0] == rec.segs[i].data
    requires w.Begun(hd, cd, rec.segs[i].hd) && InBank(w, rec, s0, ps, rechead, hd, cd, i, None, rec.segs[i].hd, 0, 0)
    requires w.buf[1] < w.n && w.over == 0 && !w.mark.bos
    modifies w, w.buf
    ensures w.over == 0 && w.spoiled == old(w.spoiled)
    ensures |ps'| >= |ps| && Onward(old(CourseOf(w)), CourseOf(w), |ps'| > |ps|) && w.mark == old(w.mark)
    ensures w.Begun(hd', cd', []) && cd' != [] && Writing(w, rec, s0, ps', rechead', hd', cd', i + 1, None)
  {
    hide PartWay, HeaderNow, Opened, BlockWriter.Begun, Onward, Placed, Marked;
    ghost var c0 := CourseOf(w);
    StillOnward(c0);
    ghost var b := rec.segs[i];
    PartWayWidth(rec, ps, hd, cd, i, None);
    assert SegOk(b);
    BegunCount(w, hd, cd, b.hd);
    var ifree, lenb, kp := w.buf[1], lenb0, jp + lenh;
    var jpb := ifree - lenh;
    ghost var h, open, n: nat, code := b.hd, None, 0, 0;
    rechead', ps', hd', cd' := rechead, ps, hd, cd;
    while true
      invariant w.Begun(hd', cd', h) && InBank(w, rec, s0, ps', rechead', hd', cd', i, open, h, n, code)
      invariant n <= lenb0 && lenb == lenb0 - n && kp == jp + lenh + n && |h| == lenh
      invariant w.buf.Length == w.n && ifree == w.buf[1] < w.n && jpb == ifree - lenh
      invariant jpb == w.ip + RECHEADLEN + |Flat(cd')|
      invariant w.over == 0 && w.spoiled == old(w.spoiled) && |ps'| >= |ps| && Onward(c0, CourseOf(w), |ps'| > |ps|)
      invariant w.mark == old(w.mark)
      decreases lenb
    {
      ghost var c1, k := CourseOf(w), |ps'|;
      var ncop := if lenb < w.n - ifree then lenb else w.n - ifree;
      hd' := PutWords(w, ev, kp, ifree, jpb, ncop, rechead', rec, s0, ps', hd', cd', i, open, h, n, code,
          b.data[n..n + ncop], jp + lenh);
      kp, ifree, lenb := kp + ncop, ifree + ncop, lenb - ncop;
      if lenb == 0 {
        cd' := FinishBank(w, jpb, rec, s0, ps', rechead', hd', cd', i, open, h, n, code,
            h[idDATA := ncop] + b.data[n..n + ncop]);
        break;
      }
      var prev := kp - (jp + lenh);
      rechead', ps', hd', open, h, code := SplitBank(w, jpb, lenh, prev, rechead', rec, s0, ps', hd', cd', i, open, h,
          n, code, h[idDATA := ncop] + b.data[n..n + ncop]);
      OnwardTwice(c0, c1, CourseOf(w), k > |ps|, true);
      cd' := [];
      n := prev;
      ifree := w.buf[1];
      jpb := w.ip + RECHEADLEN;
    }
  }

  /** Copies as many data as possible and counts them in the data header. */
  method PutWords(w: BlockWriter, ev: seq<int>, kp: int, ifree: int, jpb: int, ncop: nat, ghost rechead: seq<int>,
                  ghost rec: Record, ghost s0: seq<Record>, ghost ps: seq<Record>, ghost hd: seq<int>,
                  ghost cd: seq<Segment>, ghost i: nat, ghost open: Option<Segment>, ghost h: seq<int>, ghost n: nat,
                  ghost code: int, ghost x: seq<int>, ghost k0: int) returns (ghost hd': seq<int>)
    requires w.Begun(hd, cd, h) && InBank(w, rec, s0, ps, rechead, hd, cd, i, open, h, n, code) && |h| >= 9
    requires w.buf.Length == w.n && ifree == w.buf[1] - w.over && w.buf[1] + ncop <= w.n
    requires jpb == w.ip + RECHEADLEN + |Flat(cd)|
    requires n + ncop <= |rec.segs[i].data| && x == rec.segs[i].data[n..n + ncop]
    requires 0 <= k0 && kp == k0 + n && k0 + |rec.segs[i].data| <= |ev|
    requires ev[k0..k0 + |rec.segs[i].data|] == rec.segs[i].data
    modifies w.buf
    ensures w.Begun(hd', cd, h[idDATA := ncop] + x)
    ensures InBank(w, rec, s0, ps, rechead, hd', cd, i, open, h, n, code) && w.buf[1] == old(w.buf[1]) + ncop
  {
    hide PartWay, HeaderNow, Opened, BlockWriter.Begun, Flat, Concat;
    PartWayWidth(rec, ps, hd, cd, i, open);
    BegunCount(w, hd, cd, h);
    SubSlice(ev, k0, k0 + |rec.segs[i].data|, kp, kp + ncop);
    Extend(w, ifree, ev[kp..kp + ncop], hd, cd, h);
    hd' := hd[irNWRD := hd[irNWRD] + ncop];
    PartWayHead(rec, ps, hd, hd', cd, i, open);
    SetTail(w, jpb, idDATA, ncop, hd', cd, h + x);
    assert (h + x)[idDATA := ncop] == h[idDATA := ncop] + x;
    BegunCount(w, hd', cd, h[idDATA := ncop] + x);
  }

  // ---- The operation -------------------------------------------------------------------------------------

  /** The event buffer holds record `rec`: header, then the words of its banks. */
  ghost predicate Holds(ev: seq<int>, rec: Record) {
    Whole(rec) && |ev| >= RECHEADLEN + |Flat(rec.segs)| && ev[..RECHEADLEN + |Flat(rec.segs)|] == RecWords(rec)
  }

  /** The words of the `i`-th bank in a sequence of banks. */
  lemma {:induction false} FlatAt(ds: seq<Segment>, i: nat)
    requires i < |ds|
    ensures |Flat(ds[..i])| + |SegWords(ds[i])| <= |Flat(ds)|
    ensures Flat(ds)[|Flat(ds[..i])|..|Flat(ds[..i])| + |SegWords(ds[i])|] == SegWords(ds[i])
    ensures |Flat(ds[..i + 1])| == |Flat(ds[..i])| + |SegWords(ds[i])|
  {
    assert ds[..i + 1][..i] == ds[..i];
    assert ds[..i + 1] + ds[i + 1..] == ds;
    FlatConcat(ds[..i + 1], ds[i + 1..]);
  }

  /** Where the event buffer has the `i`-th bank. */
  lemma BankInEvent(ev: seq<int>, rec: Record, i: nat, jp: int)
    requires Holds(ev, rec) && i < |rec.segs| && jp == RECHEADLEN + |Flat(rec.segs[..i])|
    ensures var b := rec.segs[i];
            && SegOk(b)
            && jp + |b.hd| + |b.data| == RECHEADLEN + |Flat(rec.segs[..i + 1])| <= RECHEADLEN + |Flat(rec.segs)| <= |ev|
            && ev[jp..jp + |b.hd|] == b.hd && ev[jp + |b.hd|..jp + |b.hd| + |b.data|] == b.data
            && ev[jp] == |b.hd| && ev[jp + idDATA] == |b.data|
  {
    hide Flat, SegWords;
    var b := rec.segs[i];
    assert SegOk(b);
    FlatAt(rec.segs, i);
    var n := RECHEADLEN + |Flat(rec.segs)|;
    assert RecWords(rec)[RECHEADLEN..n] == Flat(rec.segs);
    assert ev[0..n] == ev[..n];
    SubSlice(ev, 0, n, RECHEADLEN, n);
    SubSlice(ev, RECHEADLEN, n, jp, jp + |SegWords(b)|);
    SegmentWords(ev, jp, b);
  }

  lemma EventHeader(ev: seq<int>, rec: Record)
    requires Holds(ev, rec)
    ensures |ev| >= RECHEADLEN && ev[..RECHEADLEN] == rec.hd && ev[irNWRD] == |Flat(rec.segs)| && ev[irCODE] == 0
    ensures RecOk(rec) && rec.segs != []
  {
    var e := ev[..RECHEADLEN + |Flat(rec.segs)|];
    assert e[..RECHEADLEN] == rec.hd && ev[..RECHEADLEN] == e[..RECHEADLEN];
  }

  /** The whole record fits: it goes into the buffer as it is. */
  method PutWhole(w: BlockWriter, ev: seq<int>, lrlen: int, ghost rec: Record)
    requires w.Valid() && w.over == 0 && w.ip >= 2 && Holds(ev, rec) && lrlen == RECHEADLEN + |Flat(rec.segs)|
    requires w.ip + lrlen <= w.n
    modifies w, w.buf
    ensures w.Valid() && w.Stream() == old(w.Stream()) + [rec] && w.file == old(w.file) && w.ip > 2 && w.over == 0
    ensures w.spoiled == old(w.spoiled) && w.sent == old(w.sent) && w.here == old(w.here) + [rec]
    ensures w.nsegm == old(w.nsegm) && w.buf[1] > old(w.buf[1]) && w.mark == old(w.mark)
  {
    hide Flat, Holds, Pack;
    ghost var b0 := w.buf[..];
    HeldWords(ev, rec);
    CopyIn(w.buf, w.ip, ev[..lrlen]);
    OverwrittenAt(b0, w.ip, ev[..lrlen], 2);
    ghost var b1 := w.buf[..];
    assert b1[0] == b0[0] && b1[1] == b0[1];
    w.ip := w.buf[1] + lrlen;
    w.buf[1] := w.ip;
    PackAdd(w.here, rec);
    BlockMore(w.here, rec);
    w.here := w.here + [rec];
    assert w.buf[2..w.ip] == b1[2..w.ip] == b0[2..b0[1]] + ev[..lrlen];
  }

  lemma HeldWords(ev: seq<int>, rec: Record)
    requires Holds(ev, rec)
    ensures RecOk(rec) && rec.hd[irCODE] == 0 && |RecWords(rec)| == RECHEADLEN + |Flat(rec.segs)| <= |ev|
    ensures ev[..RECHEADLEN + |Flat(rec.segs)|] == RecWords(rec)
  {
  }

  /** Without space for a data header and a word the record goes on in the next block. */
  method RoomForHeader(w: BlockWriter, lenh: int, rechead: seq<int>, ghost rec: Record, ghost s0: seq<Record>,
                       ghost ps: seq<Record>, ghost hd: seq<int>, ghost cd: seq<Segment>, ghost i: nat)
    returns (rechead': seq<int>, ghost ps': seq<Record>, ghost hd': seq<int>, ghost cd': seq<Segment>)
    requires w.Begun(hd, cd, []) && Writing(w, rec, s0, ps, rechead, hd, cd, i, None)
    requires w.over == 0 && (cd == [] ==> w.buf[1] + MAXHEAD + 1 <= w.n) && !w.mark.bos && lenh <= MAXHEAD
    modifies w, w.buf
    ensures |ps'| >= |ps| && Onward(old(CourseOf(w)), CourseOf(w), |ps'| > |ps|) && w.mark == old(w.mark)
    ensures w.Begun(hd', cd', []) && Writing(w, rec, s0, ps', rechead', hd', cd', i, None)
    ensures w.over == 0 && w.spoiled == old(w.spoiled) && w.buf.Length == w.n && w.buf[1] + lenh + 1 <= w.n
  {
    hide PartWay, BlockWriter.Begun, Raised, Flat, Onward, Placed, Marked;
    StillOnward(CourseOf(w));
    BegunCount(w, hd, cd, []);
    PartWayWidth(rec, ps, hd, cd, i, None);
    rechead', ps', hd', cd' := rechead, ps, hd, cd;
    if w.buf[1] + lenh + 1 > w.n {
      HeadWord(w, hd, cd, [], irCODE);
      var code := Raised(w.buf[w.ip + irCODE]);
      MarkedStill(rechead, w.mark, |ps|, code);
      SetHead(w, irCODE, code, hd, cd, []);
      rechead', ps' := NextBlock(w, rechead[irCODE := code], rec, ps, hd, cd, i, None);
      BegunCount(w, rechead', [], []);
      PartWayWidth(rec, ps', rechead', [], i, None);
      hd', cd' := rechead', [];
    }
  }

  /** The header of a bank is put behind what the record segment has. */
  method PutHead(w: BlockWriter, h: seq<int>, ghost rechead: seq<int>, ghost rec: Record, ghost s0: seq<Record>,
                 ghost ps: seq<Record>, ghost hd: seq<int>, ghost cd: seq<Segment>, ghost i: nat)
    returns (ghost hd': seq<int>)
    requires i < |rec.segs| && h == rec.segs[i].hd && w.over == 0
    requires w.Begun(hd, cd, []) && Writing(w, rec, s0, ps, rechead, hd, cd, i, None)
    requires w.buf.Length == w.n && w.buf[1] + |h| + 1 <= w.n
    modifies w.buf
    ensures w.Begun(hd', cd, h) && InBank(w, rec, s0, ps, rechead, hd', cd, i, None, h, 0, 0)
    ensures w.buf.Length == w.n && w.buf[1] < w.n
  {
    hide PartWay, HeaderNow, Opened, BlockWriter.Begun, Flat, Placed, Marked, Concat;
    BegunCount(w, hd, cd, []);
    PartWayWidth(rec, ps, hd, cd, i, None);
    Extend(w, w.buf[1], h, hd, cd, []);
    assert [] + h == h;
    hd' := hd[irNWRD := hd[irNWRD] + |h|];
    PartWayHead(rec, ps, hd, hd', cd, i, None);
    MarkedStill(hd, w.mark, |ps|, hd[irNWRD] + |h|);
    BegunCount(w, hd', cd, h);
    HeaderFirst(rec, i);
  }

  /** One round of the loop on banks. */
  method PutBank(w: BlockWriter, ev: seq<int>, jp: int, rechead: seq<int>, ghost rec: Record, ghost s0: seq<Record>,
                 ghost ps: seq<Record>, ghost hd: seq<int>, ghost cd: seq<Segment>, ghost i: nat)
    returns (rechead': seq<int>, jp': int, ghost ps': seq<Record>, ghost hd': seq<int>, ghost cd': seq<Segment>)
    requires Holds(ev, rec) && i < |rec.segs| && jp == RECHEADLEN + |Flat(rec.segs[..i])|
    requires w.Begun(hd, cd, []) && Writing(w, rec, s0, ps, rechead, hd, cd, i, None)
    requires w.over == 0 && (cd == [] ==> w.buf[1] + MAXHEAD + 1 <= w.n) && !w.mark.bos
    modifies w, w.buf
    ensures |ps'| >= |ps| && Onward(old(CourseOf(w)), CourseOf(w), |ps'| > |ps|) && w.mark == old(w.mark)
    ensures w.Begun(hd', cd', []) && cd' != [] && Writing(w, rec, s0, ps', rechead', hd', cd', i + 1, None)
    ensures w.over == 0 && w.spoiled == old(w.spoiled)
    ensures jp' == RECHEADLEN + |Flat(rec.segs[..i + 1])|
  {
    hide PartWay, HeaderNow, Opened, BlockWriter.Begun, Raised, Flat, Holds, Onward, Placed, Marked, InBank;
    ghost var b, c0 := rec.segs[i], CourseOf(w);
    BankInEvent(ev, rec, i, jp);
    PartWayWidth(rec, ps, hd, cd, i, None);
    var lenh, lenb := ev[jp], ev[jp + idDATA];
    rechead', ps', hd', cd' := RoomForHeader(w, lenh, rechead, rec, s0, ps, hd, cd, i);
    ghost var c1, k := CourseOf(w), |ps'|;
    hd' := PutHead(w, ev[jp..jp + lenh], rechead', rec, s0, ps', hd', cd', i);
    rechead', ps', hd', cd' := PutData(w, ev, jp, lenh, lenb, rechead', rec, s0, ps', hd', cd', i);
    OnwardTwice(c0, c1, CourseOf(w), k > |ps|, |ps'| > k);
    jp' := jp + ev[jp] + ev[jp + idDATA];
  }

  lemma HeaderFirst(rec: Record, i: nat)
    requires Whole(rec) && i < |rec.segs|
    ensures HeaderNow(rec.segs[i], rec.segs[i].hd, 0, 0) && Opened(rec.segs[i], None, 0)
  {
    assert SegOk(rec.segs[i]);
  }

  lemma UsedBlock(w: BlockWriter)
    requires w.Valid() && w.ip >= 2 && w.buf[1] > 2
    ensures w.here != [] || w.over > 0
  {
  }

  /** A block without room for a record with its first header goes out. */
  method MakeRoom(w: BlockWriter)
    requires w.Valid() && w.ip >= 2
    modifies w, w.buf
    ensures w.Valid() && w.ip >= 2 && w.Stream() == old(w.Stream()) && w.buf.Length >= 2 && w.buf[1] + 81 <= w.n
    ensures w.mark == old(w.mark) && Later(old(w.sent), old(w.here), w.sent, w.here)
    ensures if old(w.buf[1]) + 81 <= w.n
            then w.file == old(w.file) && w.buf[1] == old(w.buf[1]) && w.ip == old(w.ip) && w.nsegm == old(w.nsegm)
                 && w.over == old(w.over) && w.spoiled == old(w.spoiled)
            else |w.file| == old(|w.file|) + 1 && w.nsegm == 0
                 && w.over == 0 && w.spoiled == (old(w.spoiled) || old(w.over) > 0)
  {
    hide Pack, Alternating, Sized, HereOk, Stored, Concat, AllLaid;
    if w.buf[1] + 81 > w.buf[0] {
      HereStored(w);
      UsedBlock(w);
      WriteBlock(w, w.here);
      w.nsegm := w.nsegm - 1;
    }
  }

  /** A split record is begun, in a new block if the header might not fit into this one. */
  method BeginRecord(w: BlockWriter, ev: seq<int>, ghost rec: Record) returns (rechead: seq<int>)
    requires w.Valid() && w.over == 0 && w.ip >= 2 && Holds(ev, rec)
    modifies w, w.buf
    ensures w.Begun(rechead, [], []) && Writing(w, rec, old(w.Stream()), [], rechead, rechead, [], 0, None)
    ensures w.over == 0 && w.spoiled == old(w.spoiled) && !w.mark.bos
    ensures w.buf.Length == w.n && w.buf[1] + MAXHEAD + 1 <= w.n
    ensures Later(old(w.sent), old(w.here), w.sent, w.here) && w.mark.block == |w.file| + 1
    ensures w.mark.nrsg == 100 * w.mark.block + w.nsegm - 1
    ensures if old(w.buf[1]) + 81 > w.n then |w.file| == old(|w.file|) + 1 && w.nsegm == 1
            else w.file == old(w.file) && w.nsegm == old(w.nsegm) + 1 && w.ip == old(w.ip)
  {
    hide Pack, Flat, PartWay, Holds, BlockWriter.Begun, AllLaid, Alternating, Sized, HereOk, Stored, Concat, Later;
    EventHeader(ev, rec);
    MakeRoom(w);
    w.nsegm := w.nsegm + 1;
    rechead := ev[..RECHEADLEN][irPTRN := SWAP][irFORG := LOCAL * 16]
               [irNRSG := 100 * w.nphysrec + (w.nsegm - 1)][irNPHYS := 0][irNWRD := 0];
    w.mark := Mark(w.nphysrec, rechead[irNRSG], false);
    HeldStart(ev, rec, rechead);
    PutHeader(w, rechead);
    NoWords();
    BegunCount(w, rechead, [], []);
  }

  /** The record is complete: counts and pointers are those of its end. */
  method CloseBuffer(w: BlockWriter, kp: int, ghost rs: seq<Record>)
    requires w.Filed() && w.ip != 0 && HereOk(rs) && rs != [] && Stored(w.n, w.buf[..], rs, w.over)
    requires kp == w.buf[1] - w.over
    modifies w`ip, w`over, w`here, w.buf
    ensures w.Valid() && w.here == rs && w.over == 0 && w.ip == kp && w.buf[1] == kp
  {
    hide AllLaid, Alternating, BlockOk, Sized;
    ghost var b0 := w.buf[..];
    w.buf[1], w.ip := kp, kp;
    w.over, w.here := 0, rs;
    assert w.buf[2..kp] == b0[2..kp];
  }

  /** The last segment of the record gets its code; the record is complete. */
  method EndRecord(w: BlockWriter, kp: int, ghost rec: Record, ghost s0: seq<Record>, ghost ps: seq<Record>,
                   ghost rechead: seq<int>, ghost hd: seq<int>, ghost cd: seq<Segment>) returns (ghost ps': seq<Record>)
    requires w.Begun(hd, cd, []) && cd != [] && Writing(w, rec, s0, ps, rechead, hd, cd, |rec.segs|, None)
    requires kp == w.buf[1] - w.over
    modifies w, w.buf
    ensures w.over == 0 && w.spoiled == old(w.spoiled) && w.file == old(w.file)
    ensures w.Valid() && w.here != [] && Pieces(ps', rec) && w.Stream() == s0 + ps' && |ps'| == |ps| + 1
    ensures Stands(w.sent, w.here, ps', w.mark) && Later(old(w.sent), old(w.here), w.sent, w.here)
    ensures w.mark == old(w.mark) && w.nsegm == old(w.nsegm) && w.sent == old(w.sent) && w.buf[1] == kp
  {
    hide Pack, Flat, PartWay, Pieces, BlockWriter.Begun, BlockWriter.Filed, BlockWriter.Valid, Stored;
    ghost var here0 := w.here;
    assert w.Stream() == Concat(w.sent) + here0 == s0 + ps;
    PartWayWidth(rec, ps, hd, cd, |rec.segs|, None);
    PartWayCode(rec, ps, hd, cd, |rec.segs|, None);
    HeadWord(w, hd, cd, [], irCODE);
    BegunCount(w, hd, cd, []);
    ghost var hd2 := hd[irCODE := if hd[irCODE] != 0 then 3 else 0];
    assert hd[irCODE] == 0 ==> hd2 == hd;
    if w.buf[w.ip + irCODE] != 0 {
      SetHead(w, irCODE, 3, hd, cd, []);
    }
    BegunNwrd(w, hd2, cd);
    BegunCount(w, hd2, cd, []);
    PartWayEnd(rec, ps, hd, cd, hd2);
    BegunRecord(w, hd2, cd);
    BegunFiled(w, hd2, cd);
    PlacedLast(w.sent, ps, w.mark, w.here + [Record(hd2, cd)], Record(hd2, cd));
    CloseBuffer(w, kp, w.here + [Record(hd2, cd)]);
    ps' := ps + [Record(hd2, cd)];
    AddLast(Concat(w.sent), here0, Record(hd2, cd));
    AddLast(s0, ps, Record(hd2, cd));
  }

  /** Few segments have been begun in the block, or it is full. */
  ghost predicate Few(w: BlockWriter)
    requires w.Valid()
    reads w, w.buf
  {
    w.ip == 0 || w.nsegm <= 1 || w.buf[1] + 81 > w.n
  }

  /**
   Writes the record in the event buffer (etWrite): as it is if the block has room for it, else
   split.  What comes out are pieces of the record, behind everything written before; if it is split they
   lie in consecutive blocks, from the present one on or from the next, and their headers say so.
   */
  method EtWrite(w: BlockWriter, ev: seq<int>, ghost rec: Record) returns (error: int, ghost ps: seq<Record>)
    requires w.Valid() && w.over == 0 && Holds(ev, rec)
    modifies w, w.buf
    ensures w.Valid() && error == 0 && w.here != [] && w.over == 0 && w.spoiled == old(w.spoiled)
    ensures Pieces(ps, rec) && w.Stream() == old(w.Stream()) + ps
    ensures Later(old(w.sent), old(w.here), w.sent, w.here) && (old(Few(w)) ==> Few(w))
    ensures w.n - (if old(w.ip) == 0 then 2 else old(w.ip)) > RECHEADLEN + |Flat(rec.segs)| ==>
              ps == [rec] && w.file == old(w.file) && InBlock(w.sent, w.here, |w.sent|, rec)
    ensures w.n - (if old(w.ip) == 0 then 2 else old(w.ip)) <= RECHEADLEN + |Flat(rec.segs)| ==>
              BeganAt(w.mark, w.n, old(|w.file|), old(w.ip), old(w.nsegm)) && Stands(w.sent, w.here, ps, w.mark)
  {
    hide Pack, Flat, PartWay, Pieces, Holds, BlockWriter.Begun, Whole, AllLaid, Alternating, Stands, BeganAt;
    EventHeader(ev, rec);
    ghost var nsegm0 := w.nsegm;
    var lrlen := ev[irNWRD] + RECHEADLEN;
    if w.ip == 0 {
      StartBlock(w);
      BeganFirst(w.n, w.nsegm, nsegm0);
    }
    error := 0;
    if w.buf[0] - w.buf[1] > lrlen {
      PutWhole(w, ev, lrlen, rec);
      HeldWhole(ev, rec);
      ps := [rec];
    } else {
      ps := PutSplit(w, ev, lrlen, rec);
    }
  }

  /** Where a split record begins, with `blocks` in the file and `ip` words in the block. */
  ghost predicate BeganAt(m: Mark, n: int, blocks: nat, ip: int, nsegm: int) {
    var full := ip + 81 > n;
    && m == Mark(blocks + (if full then 2 else 1), m.nrsg, false)
    && m.nrsg == 100 * m.block + if full then 0 else if ip == 0 then 1 else nsegm
  }

  lemma BeganFirst(n: int, nsegm: int, nsegm0: int)
    requires n >= 83 && nsegm == 1
    ensures forall m :: BeganAt(m, n, 0, 2, nsegm) <==> BeganAt(m, n, 0, 0, nsegm0)
  {
  }

  lemma LaterTwice(s0: seq<seq<Record>>, h0: seq<Record>, s1: seq<seq<Record>>, h1: seq<Record>, s2: seq<seq<Record>>,
                   h2: seq<Record>)
    requires Later(s0, h0, s1, h1) && Later(s1, h1, s2, h2)
    ensures Later(s0, h0, s2, h2)
  {
    forall p | p in h0 ensures InBlock(s2, h2, |s0|, p) {
      InLater(s1, h1, s2, h2, |s0|, p);
    }
  }

  /** A record that ends in the block in which it began fills it. */
  lemma OneSegment(w: BlockWriter, rec: Record, hd: seq<int>, cd: seq<Segment>)
    requires w.Begun(hd, cd, []) && PartWay(rec, [], hd, cd, |rec.segs|, None)
    ensures w.buf.Length == w.n && w.buf[1] == w.ip + RECHEADLEN + |Flat(rec.segs)| + w.over
  {
    BegunCount(w, hd, cd, []);
    assert rec.segs[..|rec.segs|] == rec.segs;
  }

  /** The record does not fit: header, banks, and the end. */
  method PutSplit(w: BlockWriter, ev: seq<int>, lrlen: int, ghost rec: Record) returns (ghost ps: seq<Record>)
    requires w.Valid() && w.over == 0 && w.ip >= 2 && Holds(ev, rec)
    requires lrlen == RECHEADLEN + |Flat(rec.segs)| && w.n - w.ip <= lrlen
    modifies w, w.buf
    ensures w.Valid() && w.here != [] && w.over == 0 && w.spoiled == old(w.spoiled)
    ensures Pieces(ps, rec) && w.Stream() == old(w.Stream()) + ps
    ensures Later(old(w.sent), old(w.here), w.sent, w.here) && (old(Few(w)) ==> Few(w))
    ensures BeganAt(w.mark, w.n, old(|w.file|), old(w.ip), old(w.nsegm)) && Stands(w.sent, w.here, ps, w.mark)
  {
    hide Pack, Flat, PartWay, Pieces, Holds, BlockWriter.Begun, Whole, AllLaid, Alternating, Stands, Onward, Later,
         HereOk, Sized;
    ghost var s0, c0 := w.Stream(), CourseOf(w);
    EventHeader(ev, rec);
    var rechead := BeginRecord(w, ev, rec);
    ghost var c1 := CourseOf(w);
    StillOnward(c1);
    var jp := RECHEADLEN;
    ghost var hd, cd, i: nat := rechead, [], 0;
    ps := [];
    NoWords();
    assert rec.segs[..0] == [];
    while true
      invariant i < |rec.segs| && jp == RECHEADLEN + |Flat(rec.segs[..i])| && w.buf.Length == w.n
      invariant w.Begun(hd, cd, []) && Writing(w, rec, s0, ps, rechead, hd, cd, i, None)
      invariant cd == [] ==> w.buf[1] + MAXHEAD + 1 <= w.n
      invariant w.over == 0 && w.spoiled == old(w.spoiled)
      invariant Onward(c1, CourseOf(w), |ps| > 0) && w.mark == c1.mark && !w.mark.bos
      decreases |rec.segs| - i
    {
      ghost var c2, k := CourseOf(w), |ps|;
      rechead, jp, ps, hd, cd := PutBank(w, ev, jp, rechead, rec, s0, ps, hd, cd, i);
      OnwardTwice(c1, c2, CourseOf(w), k > 0, |ps| > k);
      i := i + 1;
      PartWayWidth(rec, ps, hd, cd, i, None);
      BegunFiled(w, hd, cd);
      MoreBanks(ev, rec, i);
      if jp >= lrlen {
        break;
      }
    }
    OnwardParts(c1, CourseOf(w), |ps| > 0);
    if ps == [] { OneSegment(w, rec, hd, cd); }
    ghost var c3 := CourseOf(w);
    ps := EndRecord(w, w.buf[1], rec, s0, ps, rechead, hd, cd);
    LaterTwice(c0.sent, c0.here, c1.sent, c1.here, c3.sent, c3.here);
    LaterTwice(c0.sent, c0.here, c3.sent, c3.here, w.sent, w.here);
  }

  lemma OnwardParts(c: Course, c': Course, more: bool)
    requires Onward(c, c', more)
    ensures Later(c.sent, c.here, c'.sent, c'.here)
    ensures if more then c'.nsegm == 0 else c'.nsegm == c.nsegm && c'.ip == c.ip
  {
  }

  lemma AddLast(a: seq<Record>, b: seq<Record>, r: Record)
    ensures a + (b + [r]) == (a + b) + [r]
  {
  }

  lemma NoWords()
    ensures Flat([]) == []
  {
  }

  lemma BegunNwrd(w: BlockWriter, hd: seq<int>, cd: seq<Segment>)
    requires w.Begun(hd, cd, [])
    ensures |hd| == RECHEADLEN && hd[irNWRD] == |Flat(cd)|
  {
  }

  lemma BegunFiled(w: BlockWriter, hd: seq<int>, cd: seq<Segment>)
    requires w.Begun(hd, cd, [])
    ensures w.Filed() && w.buf.Length == w.n && w.buf[0] == w.n && 2 < w.buf[1] - w.over <= w.n && w.ip >= 2
  {
  }

  lemma HeldWhole(ev: seq<int>, rec: Record)
    requires Holds(ev, rec)
    ensures Pieces([rec], rec)
  {
    WholePiece(rec);
  }

  lemma HeldStart(ev: seq<int>, rec: Record, rechead: seq<int>)
    requires Holds(ev, rec) && |rechead| == RECHEADLEN && SameEvent(ev[..RECHEADLEN], rechead)
    requires rechead[irCODE] == ev[irCODE]
    ensures PartWay(rec, [], rechead, [], 0, None)
  {
    EventHeader(ev, rec);
    PartWayStart(rec, rechead);
  }

  lemma MoreBanks(ev: seq<int>, rec: Record, i: nat)
    requires Holds(ev, rec) && 0 < i <= |rec.segs|
    ensures RECHEADLEN + |Flat(rec.segs[..i])| < RECHEADLEN + |Flat(rec.segs)| <==> i < |rec.segs|
  {
    if i < |rec.segs| {
      FlatAt(rec.segs, i);
      assert SegOk(rec.segs[i]);
    } else {
      assert rec.segs[..i] == rec.segs;
    }
  }

  /** What a flush puts into the file besides the record segments in the buffer. */
  ghost function Flushed(w: BlockWriter): seq<Record>
    requires w.Valid()
    reads w, w.buf
  {
    if w.ip == 0 || w.here != [] || w.over > 0 then [] else [Leavings(w.buf[..])]
  }

  /**
   Writes what the buffer holds, once there is a buffer (etFlush): when nothing has been put into it, a
   block without records, with the words of the last block but one.
   */
  method EtFlush(w: BlockWriter) returns (error: int)
    requires w.Valid()
    modifies w, w.buf
    ensures w.Valid() && error == 0 && w.here == [] && w.over == 0
    ensures w.Stream() == old(w.Stream()) + old(Flushed(w))
    ensures old(w.ip) == 0 ==>
              && w.ip == 0 && w.file == old(w.file) && w.sent == old(w.sent)
              && w.spoiled == old(w.spoiled)
    ensures old(w.ip) != 0 ==> w.ip != 0 && w.file == old(w.file) + [old(w.buf[..])] && w.nsegm == 0
    ensures old(w.ip) != 0 ==> w.sent == old(w.sent) + [old(w.here) + old(Flushed(w))]
    ensures w.spoiled == (old(w.spoiled) || old(w.over) > 0)
  {
    hide Pack, AllLaid, Alternating, Sized, Laid, Stored, HereOk, Concat;
    error := 0;
    if w.ip != 0 {
      ghost var rs := w.here + Flushed(w);
      FlushLaid(w, rs);
      ConcatAdd(w.sent, rs);
      Assoc(Concat(w.sent), w.here, Flushed(w));
      WriteAs(w, rs);
      w.nsegm := w.nsegm - 1;
      assert w.Stream() == Concat(w.sent);
    } else {
      assert w.Stream() + [] == w.Stream();
    }
  }

  lemma FlushLaid(w: BlockWriter, rs: seq<Record>)
    requires w.Valid() && w.ip != 0 && rs == w.here + Flushed(w)
    ensures Laid(w.n, w.buf[..], rs) <==> w.over == 0
    ensures w.buf[1] == 2 ==> w.here == [] && w.over == 0
  {
    HereStored(w);
    StoredLaid(w.n, w.buf[..], w.here, w.over);
    if Flushed(w) == [] { assert rs == w.here; } else { assert rs == [Leavings(w.buf[..])]; }
  }
}
