/**
 Reading records back from blocks (etread.c, fpack.h): whatever was split is put together again.
 */
module EtReading {
  import opened Options
  import opened Segments
  import opened Slices
  import opened EtWriting
  import opened Splitting

  const EBIO_EOF := -1
  const EBIO_NOETSPACE := -977
  const EBIO_NOTCONTCODE := -995
  const EBIO_WRONGSEGMCODE := -996

  lemma {:induction false} ConcatFirst(bs: seq<seq<Record>>)
    requires bs != []
    ensures Concat(bs) == bs[0] + Concat(bs[1..])
  {
    if |bs| == 1 {
      assert bs[..0] == [] && bs[1..] == [];
    } else {
      var c, l := bs[..|bs| - 1], bs[|bs| - 1];
      ConcatFirst(c);
      assert c[1..] == bs[1..][..|bs| - 2] && bs[1..][|bs| - 2] == l;
      Assoc(bs[0], Concat(c[1..]), l);
    }
  }

  ghost predicate Followable(c: Record) {
    RecOk(c) || (|c.hd| == RECHEADLEN && c.hd[irNWRD] >= -RECHEADLEN)
  }

  class BlockReader {
    const n: int
    const file: seq<seq<int>>
    ghost const blocks: seq<seq<Record>>  // record segments of the blocks of the file

    var next: nat        // blocks read so far
    var bufin: seq<int>  // the last of them
    var ip: int          // where the current record segment starts; zero before the first
    ghost var pos: nat   // its number in the block

    ghost predicate Valid()
      reads this
    {
      && AllLaid(n, file, blocks) && next <= |file|
      && (if ip == 0 then next == 0
          else
            && 0 < next && bufin == file[next - 1] && pos < |blocks[next - 1]|
            && ip == 2 + |Pack(blocks[next - 1][..pos])|)
    }

    /** The record segment that is being read. */
    ghost function Current(): Record
      requires Valid() && ip != 0
      reads this
    {
      blocks[next - 1][pos]
    }

    /** The record segments behind it. */
    ghost function Rest(): seq<Record>
      requires Valid()
      reads this
    {
      if ip == 0 then Concat(blocks) else blocks[next - 1][pos + 1..] + Concat(blocks[next..])
    }

    /** The words that are taken for the present record header do not lead out of the buffer. */
    ghost predicate Ready()
      requires Valid()
      reads this
    {
      ip == 0 || Followable(Current())
    }

    constructor (n: int, file: seq<seq<int>>, ghost blocks: seq<seq<Record>>)
      requires AllLaid(n, file, blocks)
      ensures Valid() && Ready() && Rest() == Concat(blocks) && this.n == n && this.file == file
      ensures this.blocks == blocks
    {
      this.n, this.file, this.blocks := n, file, blocks;
      next, ip, bufin := 0, 0, [];
      pos := 0;
    }
  }

  lemma PackedAt(rs: seq<Record>, i: nat)
    requires RecsOk(rs) && i < |rs|
    ensures var a, e := |Pack(rs[..i])|, |Pack(rs[..i + 1])|;
            && e == a + |RecWords(rs[i])| <= |Pack(rs)| && Pack(rs)[a..e] == RecWords(rs[i])
            && (e == |Pack(rs)| <==> i == |rs| - 1)
  {
    hide RecWords, RecOk;
    assert rs[..i + 1][..i] == rs[..i];
    assert rs[..i + 1] + rs[i + 1..] == rs;
    PackConcat(rs[..i + 1], rs[i + 1..]);
    MorePacked(rs[i + 1..]);
  }

  /** Where the `i`-th record segment of a block lies. */
  lemma SegmentAt(n: int, blk: seq<int>, rs: seq<Record>, i: nat, ip: int)
    requires Renders(n, blk, rs) && i < |rs| && ip == 2 + |Pack(rs[..i])|
    ensures RecOk(rs[i]) && 2 <= ip
    ensures ip + RECHEADLEN + |Flat(rs[i].segs)| == 2 + |Pack(rs[..i + 1])| <= blk[1] <= |blk|
    ensures blk[ip..ip + RECHEADLEN] == rs[i].hd
    ensures blk[ip + RECHEADLEN..ip + RECHEADLEN + |Flat(rs[i].segs)|] == Flat(rs[i].segs)
    ensures ip + RECHEADLEN + |Flat(rs[i].segs)| == blk[1] <==> i == |rs| - 1
  {
    hide Flat, Pack, BlockOk, SegsOk;
    PackedAt(rs, i);
    assert RecOk(rs[i]);
    var e := ip + |RecWords(rs[i])|;
    SubSlice(blk, 2, blk[1], ip, e);
    assert blk[ip..ip + RECHEADLEN] == blk[ip..e][..RECHEADLEN];
    assert blk[ip + RECHEADLEN..e] == blk[ip..e][RECHEADLEN..];
  }

  lemma MorePacked(rs: seq<Record>)
    requires RecsOk(rs)
    ensures rs != [] <==> |Pack(rs)| > 0
  {
  }

  /** What the buffer has of the current record segment. */
  lemma CurrentAt(r: BlockReader)
    requires r.Valid() && r.ip != 0 && RecOk(r.Current())
    ensures var c := r.Current();
            && 2 <= r.ip && r.ip + RECHEADLEN + |Flat(c.segs)| <= r.bufin[1] <= |r.bufin|
            && r.bufin[r.ip..r.ip + RECHEADLEN] == c.hd
            && r.bufin[r.ip + RECHEADLEN..r.ip + RECHEADLEN + |Flat(c.segs)|] == Flat(c.segs)
            && r.bufin[r.ip + irNWRD] == |Flat(c.segs)| && r.bufin[r.ip + irCODE] == c.hd[irCODE]
            && (r.ip + RECHEADLEN + |Flat(c.segs)| == r.bufin[1] <==> r.pos == |r.blocks[r.next - 1]| - 1)
            && r.ip + RECHEADLEN + |Flat(c.segs)| == 2 + |Pack(r.blocks[r.next - 1][..r.pos + 1])|
    ensures Renders(r.n, r.bufin, r.blocks[r.next - 1]) && r.bufin[1] > 2
  {
    hide Pack, Flat, Renders;
    BlockRenders(r);
    SegmentAt(r.n, r.bufin, r.blocks[r.next - 1], r.pos, r.ip);
    FilledUsed(r.n, r.bufin, r.blocks[r.next - 1]);
    assert r.bufin[r.ip..r.ip + RECHEADLEN][irNWRD] == r.bufin[r.ip + irNWRD];
    assert r.bufin[r.ip..r.ip + RECHEADLEN][irCODE] == r.bufin[r.ip + irCODE];
  }

  lemma BlockRenders(r: BlockReader)
    requires r.Valid() && r.ip != 0 && RecOk(r.Current())
    ensures Renders(r.n, r.bufin, r.blocks[r.next - 1])
  {
    hide Renders, Pack;
    assert Laid(r.n, r.bufin, r.blocks[r.next - 1]);
  }

  lemma FilledAt(n: int, blk: seq<int>, rs: seq<Record>, i: nat)
    requires Renders(n, blk, rs) && i < |rs|
    ensures RecOk(rs[i])
  {
  }

  /** In a block without records the reader stands on leavings. */
  lemma OnLeavings(r: BlockReader)
    requires r.Valid() && r.ip != 0 && !RecOk(r.Current())
    ensures r.ip == 2 && |r.bufin| >= 83 && r.bufin[1] == 2 && r.Current() == Leavings(r.bufin)
    ensures r.pos + 1 == |r.blocks[r.next - 1]|
    ensures r.bufin[r.ip + irCODE] == r.Current().hd[irCODE] && r.bufin[r.ip + irNWRD] == r.Current().hd[irNWRD]
    ensures r.Current().segs == []
  {
    hide RecOk, Pack;
    var b := r.blocks[r.next - 1];
    assert Laid(r.n, r.bufin, b);
    if Renders(r.n, r.bufin, b) { FilledAt(r.n, r.bufin, b, r.pos); }
    NothingPacked(b);
  }

  /** Header words of what the reader is at. */
  lemma HeaderAt(r: BlockReader)
    requires r.Valid() && r.ip != 0
    ensures 2 <= r.ip && r.ip + RECHEADLEN <= |r.bufin| && |r.Current().hd| == RECHEADLEN
    ensures r.bufin[r.ip + irCODE] == r.Current().hd[irCODE] && r.bufin[r.ip + irNWRD] == r.Current().hd[irNWRD]
    ensures RecOk(r.Current()) <==> r.bufin[1] != 2
  {
    hide Pack, Flat, Renders;
    if RecOk(r.Current()) { CurrentAt(r); } else { OnLeavings(r); }
  }

  /** The next record segment of the buffer. */
  method StepOn(r: BlockReader)
    requires r.Valid() && r.ip != 0 && RecOk(r.Current()) && r.pos + 1 < |r.blocks[r.next - 1]|
    modifies r
    ensures r.Valid() && r.ip != 0 && old(r.Rest()) == [r.Current()] + r.Rest()
  {
    hide Pack, Flat, Laid, Renders;
    CurrentAt(r);
    r.ip := r.ip + r.bufin[r.ip + irNWRD] + RECHEADLEN;
    r.pos := r.pos + 1;
  }

  /** The next block is read, if there is one; its first record segment is the current one. */
  method ReadBlock(r: BlockReader) returns (error: int)
    requires r.Valid() && (r.ip != 0 ==> r.pos + 1 == |r.blocks[r.next - 1]|)
    modifies r
    ensures error == 0 <==> old(r.Rest()) != []
    ensures if error == 0 then r.Valid() && r.ip != 0 && old(r.Rest()) == [r.Current()] + r.Rest()
            else
              && error == EBIO_EOF && r.Valid() && r.Rest() == [] && r.ip == old(r.ip)
              && (r.ip != 0 ==> r.Current() == old(r.Current()))
  {
    hide Pack, Laid, Concat;
    RestOfBlocks(r);
    if r.next == |r.file| {
      return EBIO_EOF;
    }
    NextBlockOf(r.n, r.file, r.blocks, r.next);
    r.bufin := r.file[r.next];
    r.next := r.next + 1;
    r.ip := 2;
    r.pos := 0;
    error := 0;
  }

  /** At the end of a block, what is left is what the further blocks hold. */
  lemma RestOfBlocks(r: BlockReader)
    requires r.Valid() && (r.ip != 0 ==> r.pos + 1 == |r.blocks[r.next - 1]|)
    ensures r.Rest() == Concat(r.blocks[r.next..]) && (r.next == |r.file| ==> r.Rest() == [])
  {
    hide Laid, Pack;
    assert r.ip == 0 ==> r.blocks[0..] == r.blocks;
    assert r.next == |r.file| ==> r.blocks[r.next..] == [];
  }

  lemma NextBlockOf(n: int, file: seq<seq<int>>, blocks: seq<seq<Record>>, k: nat)
    requires AllLaid(n, file, blocks) && k < |file|
    ensures blocks[k] != [] && Pack(blocks[k][..0]) == []
    ensures Concat(blocks[k..]) == [blocks[k][0]] + (blocks[k][1..] + Concat(blocks[k + 1..]))
  {
    hide Concat, Pack;
    ConcatFirst(blocks[k..]);
    assert Laid(n, file[k], blocks[k]);
    assert blocks[k..][1..] == blocks[k + 1..];
    FirstAdd(blocks[k], Concat(blocks[k + 1..]));
    NothingPacked(blocks[k]);
  }

  lemma FirstAdd(b: seq<Record>, c: seq<Record>)
    requires b != []
    ensures b + c == [b[0]] + (b[1..] + c)
  {
  }

  lemma NothingPacked(rs: seq<Record>)
    ensures Pack(rs[..0]) == []
  {
  }

  /** The next record segment, wherever it is. */
  method Scroll(r: BlockReader) returns (error: int)
    requires r.Valid() && r.Ready()
    modifies r
    ensures error == 0 <==> old(r.Rest()) != []
    ensures if error == 0 then r.Valid() && r.ip != 0 && old(r.Rest()) == [r.Current()] + r.Rest()
            else error == EBIO_EOF && r.Valid() && r.Ready() && r.Rest() == []
  {
    hide Pack, Flat, RecOk, Renders, Laid;
    if r.ip != 0 {
      HeaderAt(r);
      if RecOk(r.Current()) { CurrentAt(r); } else { OnLeavings(r); }
    }
    if r.ip != 0 && r.ip + r.bufin[r.ip + irNWRD] + RECHEADLEN < r.bufin[1] {
      StepOn(r);
      error := 0;
    } else {
      error := ReadBlock(r);
    }
  }

  // ---- Data segments ------------------------------------------------------------------------------

  /**
   The reader is at data segment `j` of the `q`-th piece of a record; `all` are the record's data
   segments and `k` of them, the present one included, have been passed.
   */
  ghost predicate Within(r: BlockReader, ps: seq<Record>, rest: seq<Record>, q: nat, j: nat, k: nat, jp: int)
    reads r
  {
    && RecsOk(ps) && q < |ps| && j < |ps[q].segs| && r.Valid() && r.ip != 0
    && r.Current() == ps[q] && r.Rest() == ps[q + 1..] + rest
    && jp == r.ip + RECHEADLEN + |Flat(ps[q].segs[..j])|
    && k == |AllSegs(ps[..q])| + j + 1
  }

  /** Data segment `k - 1` of the record is the `j`-th of the `q`-th piece. */
  lemma {:induction false} SegmentOf(ps: seq<Record>, q: nat, j: nat)
    requires RecsOk(ps) && q < |ps| && j < |ps[q].segs|
    ensures |AllSegs(ps[..q])| + j < |AllSegs(ps)|
    ensures AllSegs(ps)[|AllSegs(ps[..q])| + j] == ps[q].segs[j]
    ensures |AllSegs(ps[..q])| + j + 1 == |AllSegs(ps)| <==> q == |ps| - 1 && j == |ps[q].segs| - 1
    ensures |AllSegs(ps[..q + 1])| == |AllSegs(ps[..q])| + |ps[q].segs|
  {
    hide RecOk;
    AllSegsConcat(ps[..q + 1], ps[q + 1..]);
    assert ps[..q + 1] + ps[q + 1..] == ps;
    assert ps[..q + 1][..q] == ps[..q] && ps[..q + 1][q] == ps[q];
    SegsThere(ps[q + 1..]);
  }

  lemma SegsThere(ps: seq<Record>)
    requires RecsOk(ps)
    ensures ps == [] <==> AllSegs(ps) == []
  {
    if ps != [] { assert RecOk(ps[|ps| - 1]); }
  }

  lemma {:induction false} AllSegsConcat(a: seq<Record>, b: seq<Record>)
    ensures AllSegs(a + b) == AllSegs(a) + AllSegs(b)
  {
    if b == [] {
      assert a + b == a;
    } else {
      var c, p := b[..|b| - 1], b[|b| - 1];
      SumLast(a, b);
      AllSegsConcat(a, c);
      Assoc(AllSegs(a), AllSegs(c), p.segs);
    }
  }

  /** What the buffer has of the data segment that the reader is at. */
  lemma WithinAt(r: BlockReader, ps: seq<Record>, rest: seq<Record>, q: nat, j: nat, k: nat, jp: int)
    requires Within(r, ps, rest, q, j, k, jp)
    ensures var d := ps[q].segs[j];
            && SegOk(d) && 2 <= jp && jp + |d.hd| + |d.data| <= |r.bufin|
            && r.bufin[jp..jp + |d.hd|] == d.hd && r.bufin[jp + |d.hd|..jp + |d.hd| + |d.data|] == d.data
            && r.bufin[jp] == |d.hd| && r.bufin[jp + idDATA] == |d.data|
            && k - 1 < |AllSegs(ps)| && AllSegs(ps)[k - 1] == d
            && jp + |d.hd| + |d.data| == r.ip + RECHEADLEN + |Flat(ps[q].segs[..j + 1])|
            && (r.ip + RECHEADLEN + |Flat(ps[q].segs)| == jp + |d.hd| + |d.data| <==> j + 1 == |ps[q].segs|)
  {
    hide Pack, Flat, AllSegs, Renders, Concat, SegWords;
    CurrentAt(r);
    SegmentOf(ps, q, j);
    var c, d := ps[q], ps[q].segs[j];
    assert SegOk(d);
    FlatAt(c.segs, j);
    FlatEnd(c.segs, j);
    var lo, f := r.ip + RECHEADLEN, |SegWords(d)|;
    SubSlice(r.bufin, lo, lo + |Flat(c.segs)|, jp, jp + f);
    SegmentWords(r.bufin, jp, d);
  }

  lemma FlatEnd(ds: seq<Segment>, j: nat)
    requires SegsOk(ds) && j < |ds|
    ensures |Flat(ds)| == |Flat(ds[..j + 1])| <==> j + 1 == |ds|
  {
    if j + 1 < |ds| {
      FlatAt(ds, j + 1);
      assert SegOk(ds[j + 1]);
    } else {
      assert ds[..j + 1] == ds;
    }
  }

  /** Pieces of a record: codes 0, or 1, 2 .. 2, 3. */
  ghost predicate Coded(ps: seq<Record>) {
    RecsOk(ps) && ps != [] && forall i :: 0 <= i < |ps| ==> ps[i].hd[irCODE] == CodeAt(i, |ps|)
  }

  lemma AtFirst(r: BlockReader, ps: seq<Record>, rest: seq<Record>)
    requires RecsOk(ps) && ps != [] && r.Valid() && r.ip != 0 && r.Current() == ps[0] && r.Rest() == ps[1..] + rest
    ensures Within(r, ps, rest, 0, 0, 1, r.ip + RECHEADLEN)
  {
    assert RecOk(ps[0]);
    assert ps[..0] == [] && ps[0].segs[..0] == [];
  }

  lemma HeadAndTail(c: Record, t: seq<Record>, ps: seq<Record>, rest: seq<Record>)
    requires ps != [] && [c] + t == ps + rest
    ensures c == ps[0] && t == ps[1..] + rest
  {
    var x := [c] + t;
    assert x[0] == ps[0] && x[1..] == t;
    assert (ps + rest)[1..] == ps[1..] + rest;
  }

  lemma AtNextPiece(r: BlockReader, ps: seq<Record>, rest: seq<Record>, q: nat, j: nat, k: nat)
    requires RecsOk(ps) && q + 1 < |ps| && j + 1 == |ps[q].segs| && k == |AllSegs(ps[..q])| + j + 1
    requires r.Valid() && r.ip != 0 && [r.Current()] + r.Rest() == ps[q + 1..] + rest
    ensures Within(r, ps, rest, q + 1, 0, k + 1, r.ip + RECHEADLEN)
  {
    hide Pack, AllSegs, Renders, Concat;
    assert RecOk(ps[q + 1]);
    SegmentOf(ps, q, j);
    assert ps[q + 1].segs[..0] == [];
    HeadAndTail(r.Current(), r.Rest(), ps[q + 1..], rest);
    assert ps[q + 1..][1..] == ps[q + 2..];
  }

  /** The next piece of the record, in this block or in the next. */
  method NextPiece(r: BlockReader, nextip: int, ghost ps: seq<Record>, ghost rest: seq<Record>,
                   ghost q: nat, ghost j: nat, ghost k: nat, ghost jp: int) returns (jp': int)
    requires Coded(ps) && Within(r, ps, rest, q, j, k, jp) && q + 1 < |ps| && j + 1 == |ps[q].segs|
    requires nextip == r.ip + RECHEADLEN + |Flat(ps[q].segs)|
    modifies r
    ensures Within(r, ps, rest, q + 1, 0, k + 1, jp') && jp' > 0
  {
    hide Pack, Flat, AllSegs, Concat, Renders;
    WithinAt(r, ps, rest, q, j, k, jp);
    CurrentAt(r);
    if nextip == r.bufin[1] {
      var error := ReadBlock(r);
    } else {
      StepOn(r);
    }
    AtNextPiece(r, ps, rest, q, j, k);
    CurrentAt(r);
    assert ps[q + 1].hd[irCODE] == CodeAt(q + 1, |ps|);
    if r.bufin[r.ip + irCODE] == 0 || r.bufin[r.ip + irCODE] == 1 {
      assert false;
    }
    jp' := r.ip + RECHEADLEN;
  }

  /**
   The next data header (GET_DATA_HEADER): behind the present data segment, or in the next piece
   of the record; `error == -1` when the record is finished.
   */
  method GetDataHeader(r: BlockReader, jp: int, ghost ps: seq<Record>, ghost rest: seq<Record>,
                       ghost q: nat, ghost j: nat, ghost k: nat)
    returns (error: int, jp': int, dathead: seq<int>, ghost q': nat, ghost j': nat)
    requires Coded(ps)
    requires if jp == 0 then k == 0 && r.Valid() && r.ip != 0 && r.Current() == ps[0] && r.Rest() == ps[1..] + rest
             else Within(r, ps, rest, q, j, k, jp)
    modifies r
    ensures k <= |AllSegs(ps)| && (error == -1 <==> k == |AllSegs(ps)|)
    ensures error == -1 ==> r.Valid() && r.Ready() && r.Rest() == rest
    ensures error != -1 ==>
              && error == 0 && jp' > 0 && Within(r, ps, rest, q', j', k + 1, jp')
              && dathead == AllSegs(ps)[k].hd
  {
    hide Flat, AllSegs, Within, BlockReader.Valid, BlockReader.Rest, BlockReader.Current;
    error, jp', q', j', dathead := 0, jp, q, j, [];
    if jp == 0 {
      AtFirst(r, ps, rest);
      q', j' := 0, 0;
      CurrentAt(r);
      jp' := r.ip + RECHEADLEN;
    } else {
      error, jp', q', j' := NextHeader(r, jp, ps, rest, q, j, k);
      if error != 0 {
        return;
      }
    }
    WithinAt(r, ps, rest, q', j', k + 1, jp');
    dathead := r.bufin[jp'..jp' + r.bufin[jp']];
  }

  /** Behind a data segment: the next one, or the next piece, or the end of the record. */
  method NextHeader(r: BlockReader, jp: int, ghost ps: seq<Record>, ghost rest: seq<Record>, ghost q: nat, ghost j: nat,
                    ghost k: nat) returns (error: int, jp': int, ghost q': nat, ghost j': nat)
    requires Coded(ps) && Within(r, ps, rest, q, j, k, jp)
    modifies r
    ensures k <= |AllSegs(ps)| && (error == -1 <==> k == |AllSegs(ps)|)
    ensures error == -1 ==> r.Valid() && r.Ready() && r.Rest() == rest
    ensures error != -1 ==> error == 0 && jp' > 0 && Within(r, ps, rest, q', j', k + 1, jp')
  {
    hide Flat, AllSegs, Within, BlockReader.Valid, BlockReader.Rest, BlockReader.Current;
    error, jp', q', j' := 0, jp, q, j;
    WithinAt(r, ps, rest, q, j, k, jp);
    WithinBounds(r, ps, rest, q, j, k, jp);
    CurrentAt(r);
    var nextjp, nextip := jp + r.bufin[jp + 0] + r.bufin[jp + idDATA], r.ip + r.bufin[r.ip + irNWRD] + RECHEADLEN;
    if nextip == nextjp {
      CodeOf(ps, q);
      if r.bufin[r.ip + irCODE] == 0 || r.bufin[r.ip + irCODE] == 3 {
        error := -1;
        Goes(r);
        assert ps[q + 1..] + rest == rest;
        return;
      }
      jp' := NextPiece(r, nextip, ps, rest, q, j, k, jp);
      q', j' := q + 1, 0;
    } else {
      WithinStep(r, ps, rest, q, j, k, jp);
      jp' := nextjp;
      j' := j + 1;
    }
  }

  lemma CodeOf(ps: seq<Record>, q: nat)
    requires Coded(ps) && q < |ps|
    ensures |ps[q].hd| == RECHEADLEN && ps[q].hd[irCODE] == CodeAt(q, |ps|)
  {
  }

  lemma WithinBounds(r: BlockReader, ps: seq<Record>, rest: seq<Record>, q: nat, j: nat, k: nat, jp: int)
    requires Within(r, ps, rest, q, j, k, jp)
    ensures q < |ps| && j < |ps[q].segs| && r.Valid() && r.ip != 0 && r.Current() == ps[q]
    ensures r.Rest() == ps[q + 1..] + rest
    ensures k == |AllSegs(ps)| <==> q == |ps| - 1 && j == |ps[q].segs| - 1
    ensures k <= |AllSegs(ps)|
  {
    hide Pack, Flat, AllSegs, Concat;
    SegmentOf(ps, q, j);
  }

  lemma WithinStep(r: BlockReader, ps: seq<Record>, rest: seq<Record>, q: nat, j: nat, k: nat, jp: int)
    requires Within(r, ps, rest, q, j, k, jp) && j + 1 < |ps[q].segs|
    ensures Within(r, ps, rest, q, j + 1, k + 1, jp + |ps[q].segs[j].hd| + |ps[q].segs[j].data|)
  {
    hide Pack, Flat, AllSegs, Concat;
    WithinAt(r, ps, rest, q, j, k, jp);
  }

  // ---- One bank -----------------------------------------------------------------------------------

  /**
   The bank at `start` of the event buffer is being filled: header `h`, data words of `open` so
   far; `k` data segments have been used and the reader is at the next one.
   */
  ghost predicate Filling(ev: seq<int>, rec: Record, ds: seq<Segment>, k: nat, i: nat, open: Option<Segment>,
                          start: int, nread: int, h: seq<int>) {
    && RecOk(rec) && Got(rec, ds, k, i, open) && k < |ds|
    && start == RECHEADLEN + |Flat(rec.segs[..i])| && |ev| > RECHEADLEN + |Flat(rec.segs)|
    && nread == (if open == None then 0 else |open.value.data|) && |h| >= 9
    && h == (if open == None then ds[k].hd else open.value.hd)
    && start + |h| + nread <= |ev|
    && ev[start..start + |h|] == h[idCODE := 0]
    && (open != None ==> ev[start + |h|..start + |h| + nread] == open.value.data)
  }

  /** The words that bank `i` will take fit into the event buffer. */
  lemma BankFits(rec: Record, ds: seq<Segment>, k: nat, i: nat, open: Option<Segment>)
    requires RecOk(rec) && Got(rec, ds, k, i, open) && k < |ds|
    ensures SegOk(ds[k]) && i < |rec.segs| && SegOk(rec.segs[i])
    ensures var m := (if open == None then 0 else |open.value.data|) + |ds[k].data|;
            |ds[k].hd| == |rec.segs[i].hd| && m <= |rec.segs[i].data|
    ensures open == None ==> SameHeader(ds[k].hd, rec.segs[i].hd)
    ensures RECHEADLEN + |Flat(rec.segs[..i])| + |rec.segs[i].hd| + |rec.segs[i].data|
            == RECHEADLEN + |Flat(rec.segs[..i + 1])| <= RECHEADLEN + |Flat(rec.segs)|
  {
    hide Flat, Got;
    GotNext(rec, ds, k, i, open);
    var data := if open == None then ds[k].data else open.value.data + ds[k].data;
    if ds[k].hd[idCODE] == 1 || ds[k].hd[idCODE] == 2 {
      OpenFits(rec, ds, k + 1, i, if open == None then ds[k] else open.value.(data := data));
    }
    assert SegOk(rec.segs[i]);
    FlatAt(rec.segs, i);
  }

  /** GET_DATA for one data segment. */
  method GetData(r: BlockReader, ev: array<int>, at: int, kp: int, ncop: int)
    requires 0 <= at <= at + ncop <= ev.Length && 0 <= kp <= kp + ncop <= |r.bufin| && 0 <= ncop
    modifies ev
    ensures ev[..] == Overwritten(old(ev[..]), at, r.bufin[kp..kp + ncop])
  {
    CopyIn(ev, at, r.bufin[kp..kp + ncop]);
  }

  /** After the data of a segment that is not the last of its bank. */
  lemma FillMore(ev: seq<int>, ev': seq<int>, rec: Record, ds: seq<Segment>, k: nat, i: nat, open: Option<Segment>,
                 start: int, nread: int, h: seq<int>) returns (open': Option<Segment>)
    requires Filling(ev, rec, ds, k, i, open, start, nread, h)
    requires SegOk(ds[k]) && ds[k].hd[idCODE] != 0 && ds[k].hd[idCODE] != 3
    requires 0 <= start && start + |h| + nread + |ds[k].data| <= |ev|
    requires ev' == Overwritten(ev, start + |h| + nread, ds[k].data)
    ensures Filling(ev', rec, ds, k + 1, i, open', start, nread + |ds[k].data|, h) && open' != None
  {
    hide Flat, Got, Close, RecOk, Overwritten, SegOk;
    assert open != None ==> ev[start + |h|..start + |h| + nread] == open.value.data;
    GotNext(rec, ds, k, i, open);
    open' := Some(if open == None then ds[k] else open.value.(data := open.value.data + ds[k].data));
    OpenFits(rec, ds, k + 1, i, open'.value);
    PutBehind(ev, ev', start, |h|, nread, ds[k].data);
    if open == None { assert ev[start + |h|..start + |h| + nread] + ds[k].data == ds[k].data; }
  }

  /** Words are put behind a header and what is already there of its data. */
  lemma PutBehind(ev: seq<int>, ev': seq<int>, start: int, h: nat, nread: int, t: seq<int>)
    requires 0 <= start && 0 <= nread && start + h + nread + |t| <= |ev| && ev' == Overwritten(ev, start + h + nread, t)
    ensures |ev'| == |ev| && ev'[..start] == ev[..start] && ev'[start..start + h] == ev[start..start + h]
    ensures ev'[start + h..start + h + nread + |t|] == ev[start + h..start + h + nread] + t
  {
    assert ev'[start + h..start + h + nread] == ev[start + h..start + h + nread];
  }

  /** After the data of the last segment of a bank. */
  lemma FillLast(ev: seq<int>, ev': seq<int>, rec: Record, ds: seq<Segment>, k: nat, i: nat, open: Option<Segment>,
                 start: int, nread: int, h: seq<int>)
    requires Filling(ev, rec, ds, k, i, open, start, nread, h)
    requires SegOk(ds[k]) && (ds[k].hd[idCODE] == 0 || ds[k].hd[idCODE] == 3)
    requires 0 <= start && start + |h| + nread + |ds[k].data| <= |ev|
    requires ev' == Overwritten(ev, start + |h| + nread, ds[k].data)[start + idDATA := nread + |ds[k].data|]
    ensures i < |rec.segs| && Got(rec, ds, k + 1, i + 1, None)
    ensures start + |h| + nread + |ds[k].data| == RECHEADLEN + |Flat(rec.segs[..i + 1])| < |ev|
    ensures |ev'| == |ev| && ev'[start..start + |h| + nread + |ds[k].data|] == SegWords(rec.segs[i])
    ensures ev'[..start] == ev[..start]
  {
    hide Flat, Got, RecOk, Overwritten, SegOk;
    BankCompleted(rec, ds, k, i, open);
    BankFits(rec, ds, k, i, open);
    var o := if open == None then [] else open.value.data;
    assert open == None ==> ev[start + |h|..start + |h| + nread] == [];
    FillWords(ev, ev', start, h[idCODE := 0], o, ds[k].data, nread + |ds[k].data|);
  }

  /** What the last data segment completes. */
  lemma BankCompleted(rec: Record, ds: seq<Segment>, k: nat, i: nat, open: Option<Segment>)
    requires RecOk(rec) && Got(rec, ds, k, i, open) && k < |ds| && SegOk(ds[k])
    requires (ds[k].hd[idCODE] == 0 || ds[k].hd[idCODE] == 3)
    ensures i < |rec.segs| && Got(rec, ds, k + 1, i + 1, None)
    ensures var h, o := (if open == None then ds[k].hd else open.value.hd),
        (if open == None then [] else open.value.data);
            |h| >= 9 && rec.segs[i].hd == h[idCODE := 0][idDATA := |o| + |ds[k].data|]
                && rec.segs[i].data == o + ds[k].data
  {
    hide Got, RecOk;
    GotNext(rec, ds, k, i, open);
  }

  lemma FillWords(ev: seq<int>, ev': seq<int>, start: int, h: seq<int>, o: seq<int>, d: seq<int>, nr: int)
    requires 0 <= start && 9 <= |h| && start + |h| + |o| + |d| <= |ev| && nr == |o| + |d|
    requires ev[start..start + |h|] == h && ev[start + |h|..start + |h| + |o|] == o
    requires ev' == Overwritten(ev, start + |h| + |o|, d)[start + idDATA := nr]
    ensures |ev'| == |ev| && ev'[..start] == ev[..start]
    ensures ev'[start..start + |h| + nr] == h[idDATA := nr] + (o + d)
  {
    var e := Overwritten(ev, start + |h| + |o|, d);
    assert e[start..start + |h| + nr] == h + (o + d) by {
      assert e[start..start + |h|] == h;
      assert e[start + |h|..start + |h| + |o|] == o;
      assert e[start + |h| + |o|..start + |h| + nr] == d;
    }
    assert ev'[start..start + |h| + nr] == e[start..start + |h| + nr][idDATA := nr];
  }

  /** Between two banks: `k` data segments used, the first `i` banks in the event buffer up to `start`. */
  ghost predicate Between(ev: seq<int>, rec: Record, ds: seq<Segment>, k: nat, i: nat, start: int) {
    && RecOk(rec) && Got(rec, ds, k, i, None)
    && start == RECHEADLEN + |Flat(rec.segs[..i])| && |ev| > RECHEADLEN + |Flat(rec.segs)|
    && start <= |ev| && ev[RECHEADLEN..start] == Flat(rec.segs[..i])
  }

  /** The header of a bank's first data segment goes into the event buffer. */
  lemma FillStart(ev: seq<int>, ev': seq<int>, rec: Record, ds: seq<Segment>, k: nat, i: nat, start: int)
    requires Between(ev, rec, ds, k, i, start) && k < |ds| && SegOk(ds[k])
    ensures start + |ds[k].hd| <= |ev| && RECHEADLEN <= start && (ds[k].hd[idCODE] == 0 || ds[k].hd[idCODE] == 1)
    ensures ev' == Overwritten(ev, start, ds[k].hd)[start + idCODE := 0] ==>
              Filling(ev', rec, ds, k, i, None, start, 0, ds[k].hd) && ev'[..start] == ev[..start]
  {
    hide Flat, Got, RecOk;
    GotNext(rec, ds, k, i, None);
    BankFits(rec, ds, k, i, None);
    var h := ds[k].hd;
    var e := Overwritten(ev, start, h);
    assert e[start..start + |h|] == h;
    assert e[start + idCODE := 0][start..start + |h|] == e[start..start + |h|][idCODE := 0];
  }

  lemma BetweenMore(ev: seq<int>, ev': seq<int>, rec: Record, ds: seq<Segment>, k: nat, i: nat, start: int, start': int,
                    k': nat)
    requires Between(ev, rec, ds, k, i, start) && i < |rec.segs| && Got(rec, ds, k', i + 1, None)
    requires |ev'| == |ev| && ev'[..start] == ev[..start] && start' == RECHEADLEN + |Flat(rec.segs[..i + 1])| <= |ev|
    requires start <= start' && ev'[start..start'] == SegWords(rec.segs[i])
    ensures Between(ev', rec, ds, k', i + 1, start')
  {
    hide Got, SegWords;
    assert rec.segs[..i + 1] == rec.segs[..i] + [rec.segs[i]];
    FlatAdd(rec.segs[..i], rec.segs[i]);
    assert ev'[RECHEADLEN..start] == ev'[..start][RECHEADLEN..];
    assert ev[RECHEADLEN..start] == ev[..start][RECHEADLEN..];
    assert ev'[RECHEADLEN..start'] == ev'[RECHEADLEN..start] + ev'[start..start'];
  }

  /** The header of a bank's first data segment is copied; its code becomes that of a complete bank. */
  method BeginBank(ev: array<int>, start: int, dathead: seq<int>, ghost rec: Record, ghost ds: seq<Segment>,
                   ghost k: nat, ghost i: nat)
    requires Between(ev[..], rec, ds, k, i, start) && k < |ds| && SegOk(ds[k]) && dathead == ds[k].hd
    modifies ev
    ensures Filling(ev[..], rec, ds, k, i, None, start, 0, dathead) && 0 <= start <= ev.Length
    ensures ev[..][..start] == old(ev[..])[..start]
  {
    hide Flat, Got, Assemble, Overwritten, Between, Filling;
    ghost var e0 := ev[..];
    FillStart(e0, e0, rec, ds, k, i, start);
    CopyIn(ev, start, dathead);
    OverwrittenAt(e0, start, dathead, 0);
    ev[start + idCODE] := 0;
    FillStart(e0, ev[..], rec, ds, k, i, start);
  }

  /** The data of the segment that the reader is at; `last` tells whether the bank is complete now. */
  method TakeData(r: BlockReader, ev: array<int>, start: int, nread0: int, ndim: int, jp: int, dathead: seq<int>,
                  ghost rec: Record, ghost ps: seq<Record>, ghost rest: seq<Record>, ghost q: nat, ghost j: nat,
                  ghost k: nat, ghost i: nat, ghost open: Option<Segment>, ghost h: seq<int>)
    returns (last: bool, nread: int, ghost open': Option<Segment>)
    requires Within(r, ps, rest, q, j, k + 1, jp) && ndim == ev.Length && k < |AllSegs(ps)|
    requires dathead == AllSegs(ps)[k].hd
    requires Filling(ev[..], rec, AllSegs(ps), k, i, open, start, nread0, h)
    modifies ev
    ensures 0 <= start <= ev.Length && ev[..][..start] == old(ev[..])[..start]
    ensures |dathead| > 0
    ensures last ==> i < |rec.segs| && Got(rec, AllSegs(ps), k + 1, i + 1, None)
                     && start <= start + dathead[idNHEAD] + nread == RECHEADLEN + |Flat(rec.segs[..i + 1])| < ndim
                     && ev[start..start + dathead[idNHEAD] + nread] == SegWords(rec.segs[i])
    ensures !last ==> open' != None && Filling(ev[..], rec, AllSegs(ps), k + 1, i, open', start, nread, h)
  {
    hide Flat, AllSegs, Got, Assemble, Overwritten, Filling, Within;
    ghost var ds, e1 := AllSegs(ps), ev[..];
    WithinAt(r, ps, rest, q, j, k + 1, jp);
    FillBounds(e1, rec, ds, k, i, open, start, nread0, h);
    var kp := jp + dathead[idNHEAD];
    var ncop := jp + dathead[idNHEAD] + dathead[idDATA] - kp;
    GetData(r, ev, start + dathead[idNHEAD] + nread0, kp, ncop);
    OverwrittenAt(e1, start + dathead[idNHEAD] + nread0, ds[k].data, 0);
    nread, open' := nread0 + ncop, open;
    last := nread == ndim || dathead[idCODE] == 0 || dathead[idCODE] == 3;
    if last {
      ev[start + idDATA] := nread;
      FillLast(e1, ev[..], rec, ds, k, i, open, start, nread0, h);
    } else {
      open' := FillMore(e1, ev[..], rec, ds, k, i, open, start, nread0, h);
    }
    assert ev[..][..start] == e1[..start];
  }

  /** One bank of a split record, put together from its data segments. */
  method ReadBank(r: BlockReader, ev: array<int>, start: int, ndim: int, jp: int, dathead0: seq<int>, ghost rec: Record,
                  ghost ps: seq<Record>, ghost rest: seq<Record>, ghost q: nat, ghost j: nat, ghost k: nat,
                  ghost i: nat)
    returns (start': int, jp': int, ghost q': nat, ghost j': nat, ghost k': nat)
    requires Coded(ps) && Within(r, ps, rest, q, j, k + 1, jp) && ndim == ev.Length && jp > 0
    requires k < |AllSegs(ps)| && SegsOk(AllSegs(ps)) && dathead0 == AllSegs(ps)[k].hd
    requires Between(ev[..], rec, AllSegs(ps), k, i, start)
    modifies r, ev
    ensures i < |rec.segs| && Between(ev[..], rec, AllSegs(ps), k', i + 1, start') && start' < ndim && k' > 0
    ensures Within(r, ps, rest, q', j', k', jp') && jp' > 0
    ensures RECHEADLEN <= ev.Length && ev[..RECHEADLEN] == old(ev[..RECHEADLEN])
  {
    hide Flat, AllSegs, Within, Got, Assemble, Overwritten, Between, Filling, Coded;
    ghost var ds, e0 := AllSegs(ps), ev[..];
    BetweenBounds(e0, rec, ds, k, i, start);
    var dathead := dathead0;
    ghost var h, open := dathead0, None;
    assert SegOk(ds[k]);
    BeginBank(ev, start, dathead, rec, ds, k, i);
    var nread := 0;
    jp', q', j', k' := jp, q, j, k;
    while true
      invariant k' < |ds| && SegOk(ds[k']) && dathead == ds[k'].hd && Within(r, ps, rest, q', j', k' + 1, jp')
      invariant jp' > 0
      invariant Filling(ev[..], rec, ds, k', i, open, start, nread, h) && ev[..][..start] == e0[..start]
      decreases |ds| - k'
    {
      var last;
      last, nread, open := TakeData(r, ev, start, nread, ndim, jp', dathead, rec, ps, rest, q', j', k', i, open, h);
      k' := k' + 1;
      if last {
        start' := start + dathead[idNHEAD] + nread;
        BetweenMore(e0, ev[..], rec, ds, k, i, start, start', k');
        break;
      }
      FillBounds(ev[..], rec, ds, k', i, open, start, nread, h);
      var error;
      error, jp', dathead, q', j' := GetDataHeader(r, jp', ps, rest, q', j', k');
    }
    assert ev[..RECHEADLEN] == ev[..][..start][..RECHEADLEN] && e0[..RECHEADLEN] == e0[..start][..RECHEADLEN];
  }

  lemma BetweenBounds(ev: seq<int>, rec: Record, ds: seq<Segment>, k: nat, i: nat, start: int)
    requires Between(ev, rec, ds, k, i, start)
    ensures RECHEADLEN <= start < |ev|
  {
    FlatGrows(rec.segs, i);
  }

  lemma FillBounds(ev: seq<int>, rec: Record, ds: seq<Segment>, k: nat, i: nat, open: Option<Segment>,
                   start: int, nread: int, h: seq<int>)
    requires Filling(ev, rec, ds, k, i, open, start, nread, h)
    ensures k < |ds| && SegOk(ds[k]) && |h| == |ds[k].hd| && RECHEADLEN <= start && 0 <= nread
    ensures start + |h| + nread + |ds[k].data| < |ev|
  {
    hide Flat, Got, RecOk;
    BankFits(rec, ds, k, i, open);
    GotNext(rec, ds, k, i, open);
  }

  // ---- The operation ------------------------------------------------------------------------------------

  function CTruncHundred(x: int): int {
    if x >= 0 then x / 100 * 100 else -((-x) / 100 * 100)
  }

  /** The event buffer holds record `rec`: its banks word for word, codes and numbers normalised. */
  ghost predicate Delivered(ev: seq<int>, size: int, rec: Record) {
    && size == RECHEADLEN + |Flat(rec.segs)| && RECHEADLEN <= size <= |ev|
    && ev[RECHEADLEN..size] == Flat(rec.segs)
    && SameEvent(rec.hd, ev[..RECHEADLEN]) && ev[irNWRD] == |Flat(rec.segs)|
    && ev[irCODE] == 0 && ev[irNPHYS] == 0 && ev[irNRSG] % 100 == 0
  }

  /**
   Of header `h` of its first segment a record that is delivered has the pattern word, and the number of the
   block in full hundreds, nearer to zero; `forg` is its format word.
   */
  ghost predicate HeadFrom(e: seq<int>, h: seq<int>, forg: int) {
    && |e| >= 11 && |h| == 11 && e[0] == h[0] && e[1] == forg && e[2] % 100 == 0
    && if h[2] >= 0 then 0 <= h[2] - e[2] < 100 else 0 <= e[2] - h[2] < 100
  }

  /** A reader that is looking for the beginning of a record goes past such a segment. */
  ghost predicate PassedBy(c: Record) {
    |c.hd| == RECHEADLEN && (c.hd[irCODE] == 2 || c.hd[irCODE] == 3) && Followable(c)
  }

  /** Segments of records that began earlier. */
  ghost predicate Leftover(skip: seq<Record>) {
    forall i :: 0 <= i < |skip| ==> PassedBy(skip[i])
  }

  /** Leavings that a reader does not go past. */
  ghost predicate Misleads(c: Record) {
    c.segs == [] && |c.hd| == RECHEADLEN && !PassedBy(c)
  }

  /** The buffer has no room for the first segment. */
  ghost predicate TooSmall(ndim: nat, ps: seq<Record>) {
    ps != [] && RECHEADLEN + |Flat(ps[0].segs)| > ndim
  }

  /** The buffer has room for the record, and a word more for a split one. */
  ghost predicate Enough(ndim: nat, ps: seq<Record>, rec: Record) {
    RECHEADLEN + |Flat(rec.segs)| < ndim + if |ps| == 1 then 1 else 0
  }

  lemma RoomEnough(ndim: nat, ps: seq<Record>, rec: Record)
    requires Pieces(ps, rec) && RecOk(rec) && ndim > RECHEADLEN + |Flat(rec.segs)|
    ensures Enough(ndim, ps, rec) && !TooSmall(ndim, ps)
  {
    hide Flat;
    FirstPiece(ps, rec);
  }

  /** Behind the first segment are those that continue the record. */
  lemma PiecesLeft(ps: seq<Record>, rec: Record)
    requires Pieces(ps, rec) && RecOk(rec)
    ensures ps != [] && Leftover(ps[1..])
  {
    hide Flat;
    FirstPiece(ps, rec);
    forall i | 0 <= i < |ps[1..]| ensures PassedBy(ps[1..][i]) {
      assert ps[1..][i] == ps[i + 1] && RecOk(ps[i + 1]);
    }
  }

  /** What the first piece says about the record. */
  lemma FirstPiece(ps: seq<Record>, rec: Record)
    requires Pieces(ps, rec) && RecOk(rec)
    ensures RecsOk(ps) && ps != [] && RecOk(ps[0]) && SameEvent(rec.hd, ps[0].hd)
    ensures |Flat(ps[0].segs)| <= |Flat(rec.segs)|
    ensures ps[0].hd[irCODE] == 0 || ps[0].hd[irCODE] == 1
    ensures ps[0].hd[irCODE] == 0 ==> |ps| == 1 && ps[0].segs == rec.segs
    ensures ps[0].hd[irCODE] == 1 ==> |ps| > 1
    ensures Coded(ps) && SegsOk(AllSegs(ps)) && Got(rec, AllSegs(ps), 0, 0, None)
  {
    hide Flat;
    assert RecOk(ps[0]);
    assert ps[0].hd[irCODE] == CodeAt(0, |ps|);
    assert rec.segs[..0] == [] && AllSegs(ps)[..0] == [];
    if |ps| == 1 { AllSegsAdd([], ps[0]); assert [] + [ps[0]] == ps; }
  }

  lemma NextScrolled(c: Record, t: seq<Record>, left: seq<Record>, ps: seq<Record>, rest: seq<Record>)
    requires [c] + t == left + ps + rest
    ensures left == [] && ps != [] ==> c == ps[0] && t == ps[1..] + rest
    ensures left == [] && ps == [] ==> rest != [] && c == rest[0]
    ensures left != [] ==> c == left[0] && t == left[1..] + ps + rest
  {
    assert [] + ps + rest == ps + rest && [] + rest == rest;
    if left == [] {
      if ps != [] {
        HeadAndTail(c, t, ps, rest);
      } else {
        assert ([c] + t)[0] == c;
      }
    } else {
      assert left + ps + rest == left + (ps + rest);
      HeadAndTail(c, t, left, ps + rest);
      assert left[1..] + (ps + rest) == left[1..] + ps + rest;
    }
  }

  lemma LeftoverFirst(left: seq<Record>)
    requires Leftover(left) && left != []
    ensures PassedBy(left[0]) && Leftover(left[1..])
  {
  }

  /**
   Scrolls to a record segment that begins a record.  In a block without records it may be misled:
   it meets a wrong code, or takes what is left over there for the beginning of a record
   (`lost`); what follows then is not modelled.
   */
  method ScrollToFirst(r: BlockReader, ghost skip: seq<Record>, ghost ps: seq<Record>, ghost rest: seq<Record>)
    returns (error: int, lost: bool)
    requires r.Valid() && r.Ready() && r.Rest() == skip + ps + rest && Leftover(skip)
    requires ps == [] && rest != [] ==> Misleads(rest[0])
    requires ps != [] ==> RecOk(ps[0]) && (ps[0].hd[irCODE] == 0 || ps[0].hd[irCODE] == 1)
    modifies r
    ensures ps != [] ==>
              && error == 0 && !lost && r.Valid() && r.ip != 0 && r.Current() == ps[0]
              && r.Rest() == ps[1..] + rest
    ensures ps == [] && rest == [] ==> error == EBIO_EOF && !lost && r.Valid() && r.Ready() && r.Rest() == []
    ensures ps == [] && rest != [] ==> lost || error == EBIO_WRONGSEGMCODE
    ensures lost ==> error == 0
  {
    hide Pack, Flat, RecOk, Leftover, Followable, BlockReader.Valid, BlockReader.Rest, BlockReader.Current;
    ghost var left := skip;
    lost := false;
    while true
      invariant r.Valid() && r.Ready() && r.Rest() == left + ps + rest && Leftover(left) && !lost
      decreases |left|
    {
      error := Scroll(r);
      if error != 0 {
        return;
      }
      HeaderAt(r);
      NextScrolled(r.Current(), r.Rest(), left, ps, rest);
      NoBanks(r.Current());
      if left != [] { LeftoverFirst(left); }
      var code := r.bufin[r.ip + irCODE];
      if code < 0 || code > 3 {
        return EBIO_WRONGSEGMCODE, false;
      }
      if code == 0 || code == 1 || (r.bufin[1] == 2 && r.bufin[r.ip + irNWRD] < -RECHEADLEN) {
        lost := r.bufin[1] == 2;
        return;
      }
      Goes(r);
      left := left[1..];
    }
  }

  lemma NoBanks(c: Record)
    ensures c.segs == [] ==> !RecOk(c)
    ensures Misleads(c) ==>
              && |c.hd| == RECHEADLEN && c.segs == []
              && (0 <= c.hd[irCODE] <= 3 ==> c.hd[irCODE] <= 1 || c.hd[irNWRD] < -RECHEADLEN)
    ensures PassedBy(c) ==> |c.hd| == RECHEADLEN && 2 <= c.hd[irCODE] <= 3 && (RecOk(c) || c.hd[irNWRD] >= -RECHEADLEN)
  {
  }

  lemma Goes(r: BlockReader)
    requires r.Valid() && r.ip != 0
    requires RecOk(r.Current()) || (|r.Current().hd| == RECHEADLEN && r.Current().hd[irNWRD] >= -RECHEADLEN)
    ensures r.Ready()
  {
  }

  /** The banks of a split record, until no data header is left. */
  method ReadBanks(r: BlockReader, ev: array<int>, ndim: int, ghost rec: Record, ghost ps: seq<Record>,
                   ghost rest: seq<Record>) returns (start: int)
    requires Coded(ps) && r.Valid() && r.ip != 0 && r.Current() == ps[0] && r.Rest() == ps[1..] + rest
    requires ndim == ev.Length
    requires SegsOk(AllSegs(ps)) && Between(ev[..], rec, AllSegs(ps), 0, 0, RECHEADLEN)
    modifies r, ev
    ensures r.Valid() && r.Ready() && r.Rest() == rest
    ensures RECHEADLEN <= start == RECHEADLEN + |Flat(rec.segs)| < ev.Length && ev[RECHEADLEN..start] == Flat(rec.segs)
    ensures ev[..RECHEADLEN] == old(ev[..RECHEADLEN])
  {
    hide Flat, AllSegs, Within, Got, Assemble, Between, Concat, Pack, Renders;
    BetweenBounds(ev[..], rec, AllSegs(ps), 0, 0, RECHEADLEN);
    start := RECHEADLEN;
    var jp := 0;
    ghost var q, j, k, i: nat := 0, 0, 0, 0;
    while true
      invariant Between(ev[..], rec, AllSegs(ps), k, i, start) && RECHEADLEN <= start < ndim == ev.Length
      invariant if jp == 0 then k == 0 && r.Valid() && r.ip != 0 && r.Current() == ps[0] && r.Rest() == ps[1..] + rest
                else jp > 0 && Within(r, ps, rest, q, j, k, jp)
      invariant ev[..RECHEADLEN] == old(ev[..RECHEADLEN]) && i <= |rec.segs|
      decreases |rec.segs| - i
    {
      var error, dathead;
      error, jp, dathead, q, j := GetDataHeader(r, jp, ps, rest, q, j, k);
      if error == -1 {
        BetweenEnd(ev[..], rec, AllSegs(ps), k, i, start);
        assert ev[RECHEADLEN..start] == ev[..][RECHEADLEN..start];
        return;
      }
      start, jp, q, j, k := ReadBank(r, ev, start, ndim, jp, dathead, rec, ps, rest, q, j, k, i);
      i := i + 1;
      BetweenBounds(ev[..], rec, AllSegs(ps), k, i, start);
    }
  }

  lemma BetweenEnd(ev: seq<int>, rec: Record, ds: seq<Segment>, k: nat, i: nat, start: int)
    requires Between(ev, rec, ds, k, i, start) && k == |ds|
    ensures i == |rec.segs| && RECHEADLEN <= start == RECHEADLEN + |Flat(rec.segs)| < |ev|
    ensures ev[RECHEADLEN..start] == Flat(rec.segs)
  {
    hide Flat;
    GotAll(rec, ds, k, i, None);
    assert rec.segs[..i] == rec.segs;
  }

  /** Header words are set as for a complete record. */
  method FinishRecord(ev: array<int>, start: int, ghost rec: Record)
    requires RECHEADLEN <= start == RECHEADLEN + |Flat(rec.segs)| <= ev.Length
    requires ev[RECHEADLEN..start] == Flat(rec.segs)
    requires SameEvent(rec.hd, ev[..RECHEADLEN])
    modifies ev
    ensures Delivered(ev[..], start, rec) && HeadFrom(ev[..], old(ev[..RECHEADLEN]), old(ev[irFORG]))
  {
    hide Flat;
    ghost var e0 := ev[..];
    ev[irNWRD] := start - RECHEADLEN;
    ev[irNPHYS] := 0;
    ev[irCODE] := 0;
    ev[irNRSG] := CTruncHundred(ev[irNRSG]);
    assert ev[..][RECHEADLEN..start] == e0[RECHEADLEN..start] == Flat(rec.segs);
  }

  /**
   Reads the next record into the event buffer (etRead).  Whatever pieces it was written in, the
   buffer has the record's banks; segments of earlier records are skipped, and so are blocks
   without records, unless they mislead the reader.  A buffer that has no room for the first segment
   is left alone, and the next call goes on with the next record.
   */
  method EtRead(r: BlockReader, ev: array<int>, ghost skip: seq<Record>, ghost ps: seq<Record>, ghost rest: seq<Record>,
                ghost rec: Record) returns (error: int, size: int, lost: bool)
    requires r.Valid() && r.Ready() && r.Rest() == skip + ps + rest && Leftover(skip)
    requires (ps == [] && rest != [] ==> Misleads(rest[0]))
    requires ps != [] ==> Pieces(ps, rec) && RecOk(rec) && (Enough(ev.Length, ps, rec) || TooSmall(ev.Length, ps))
    modifies r, ev
    ensures ps == [] && rest == [] ==> error == EBIO_EOF && !lost && r.Valid() && r.Ready() && r.Rest() == []
    ensures ps == [] && rest != [] ==> lost || error == EBIO_WRONGSEGMCODE
    ensures ps != [] && !TooSmall(ev.Length, ps) ==>
              && error == 0 && !lost && r.Valid() && r.Ready() && r.Rest() == rest
              && Delivered(ev[..], size, rec) && |ps[0].hd| == 11 && HeadFrom(ev[..], ps[0].hd, ps[0].hd[1])
    ensures ps != [] && TooSmall(ev.Length, ps) ==>
              && error == EBIO_NOETSPACE && !lost && ev[..] == old(ev[..])
              && r.Valid() && r.Ready() && r.Rest() == ps[1..] + rest && Leftover(ps[1..])
  {
    hide Flat, Pieces, AllSegs, Coded, Leftover, Between, Got, Delivered, BlockReader.Valid, BlockReader.Rest,
         BlockReader.Current;
    size := 0;
    if ps != [] {
      FirstPiece(ps, rec);
    }
    error, lost := ScrollToFirst(r, skip, ps, rest);
    if error != 0 || lost {
      return;
    }
    var ndim := ev.Length;
    CurrentAt(r);
    if r.bufin[r.ip + irNWRD] + RECHEADLEN > ndim {
      Goes(r);
      PiecesLeft(ps, rec);
      return EBIO_NOETSPACE, 0, false;
    }
    size := TakeRecord(r, ev, rec, ps, rest);
    FinishRecord(ev, size, rec);
    error := 0;
  }

  /** The header and the banks of a record, whole or piece by piece. */
  method TakeRecord(r: BlockReader, ev: array<int>, ghost rec: Record, ghost ps: seq<Record>, ghost rest: seq<Record>)
    returns (start: int)
    requires Pieces(ps, rec) && RecOk(rec) && Enough(ev.Length, ps, rec)
    requires r.Valid() && r.ip != 0 && |ps| > 0 && r.Current() == ps[0] && r.Rest() == ps[1..] + rest
    modifies r, ev
    ensures r.Valid() && r.Ready() && r.Rest() == rest
    ensures RECHEADLEN <= start == RECHEADLEN + |Flat(rec.segs)| <= ev.Length && ev[RECHEADLEN..start] == Flat(rec.segs)
    ensures SameEvent(rec.hd, ev[..RECHEADLEN]) && ev[..RECHEADLEN] == ps[0].hd
  {
    hide Flat, Pieces, AllSegs, Coded, Between, Got, RecOk, SameEvent, Overwritten, BlockReader.Valid, BlockReader.Rest;
    hide BlockReader.Current, BlockReader.Ready, SegsOk;
    FirstPiece(ps, rec);
    CurrentAt(r);
    var rechead := r.bufin[r.ip..r.ip + RECHEADLEN];
    CopyIn(ev, 0, rechead);
    CopiedHead(ev[..], old(ev[..]), rechead);
    start := RECHEADLEN;
    if rechead[irCODE] == 1 {
      StartBetween(ev[..], rec, AllSegs(ps));
      start := ReadBanks(r, ev, ev.Length, rec, ps, rest);
    } else {
      ghost var e1 := ev[..];
      var nwrd := rechead[irNWRD];
      CopyIn(ev, start, r.bufin[r.ip + RECHEADLEN..r.ip + RECHEADLEN + nwrd]);
      CopiedWords(ev[..], e1, start, rechead, Flat(rec.segs));
      start := start + nwrd;
      Goes(r);
      assert ps[1..] + rest == rest;
    }
  }

  lemma CopiedHead(ev: seq<int>, e0: seq<int>, h: seq<int>)
    requires |h| <= |e0| && ev == Overwritten(e0, 0, h)
    ensures |ev| == |e0| && ev[..|h|] == h
  {
  }

  /** A record behind its header. */
  lemma CopiedWords(ev: seq<int>, e0: seq<int>, at: nat, h: seq<int>, t: seq<int>)
    requires |h| == at && at + |t| <= |e0| && e0[..at] == h && ev == Overwritten(e0, at, t)
    ensures |ev| == |e0| && ev[..at] == h && ev[at..at + |t|] == t
  {
  }

  lemma StartBetween(ev: seq<int>, rec: Record, ds: seq<Segment>)
    requires RecOk(rec) && Got(rec, ds, 0, 0, None) && |ev| > RECHEADLEN + |Flat(rec.segs)|
    ensures Between(ev, rec, ds, 0, 0, RECHEADLEN)
  {
    assert rec.segs[..0] == [] && ev[RECHEADLEN..RECHEADLEN] == [];
  }
}
