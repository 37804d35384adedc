/**
 The second reader of FPACK files (ddgetlogrec.c): it works on whole record segments and takes a
 record from the blocks without looking for its banks one by one.
 */
module DdReading {
  import opened Options
  import opened Segments
  import opened Slices
  import opened EtWriting
  import opened EtReading

  class DdReader {
    const n: int
    const file: seq<seq<int>>
    ghost const blocks: seq<seq<Record>>

    var next: nat        // blocks read so far
    var bufin: seq<int>  // the last of them
    var ip: int          // where the next record segment starts; zero before the first
    ghost var pos: nat   // its number in the block

    ghost predicate Valid()
      reads this
    {
      && AllLaid(n, file, blocks) && next <= |file|
      && (if ip == 0 then next == 0
          else
            && 0 < next && bufin == file[next - 1] && pos <= |blocks[next - 1]|
            && (if Hollow(n, bufin, blocks[next - 1]) then ip == 2 && pos == 1
                else ip == 2 + |Pack(blocks[next - 1][..pos])|))
    }

    /** The record segments to come. */
    ghost function Rest(): seq<Record>
      requires Valid()
      reads this
    {
      if ip == 0 then Concat(blocks) else blocks[next - 1][pos..] + Concat(blocks[next..])
    }

    constructor (n: int, file: seq<seq<int>>, ghost blocks: seq<seq<Record>>)
      requires AllLaid(n, file, blocks)
      ensures Valid() && Rest() == Concat(blocks) && this.n == n && this.file == file && this.blocks == blocks
    {
      this.n, this.file, this.blocks := n, file, blocks;
      next, ip, bufin := 0, 0, [];
      pos := 0;
    }
  }

  // ---- The search for the beginning of a record --------------------------------------------------

  /** All that the search looks at: the block in the buffer, the place in it, and how many have been read. */
  datatype Search = Search(blk: seq<int>, ip: int, next: nat)

  function SearchOf(r: DdReader): Search
    reads r
  {
    Search(r.bufin, r.ip, r.next)
  }

  function WordOf(blk: seq<int>, i: int): int {
    if 0 <= i < |blk| then blk[i] else 0
  }

  /** A round of the search goes on, or is the last. */
  datatype Round = Again(at: Search) | Ended(error: int, at: Search)

  /** The segment code decides whether the search is over. */
  function Looked(s: Search): Round {
    LookedAt(WordOf(s.blk, s.ip + irCODE), s)
  }

  function LookedAt(code: int, s: Search): Round {
    if code < 0 || code > 3 then Ended(EBIO_WRONGSEGMCODE, s)
    else if code == 0 || code == 1 then Ended(0, s)
    else Again(s)
  }

  /** There is a segment at `ip`, which is then looked at without moving on. */
  predicate Inside(s: Search) {
    s.ip != 0 && s.ip < WordOf(s.blk, 1)
  }

  /** One round of the loop (ddgetlogrec.c:95-141). */
  function OneRound(file: seq<seq<int>>, s: Search): Round {
    if Inside(s) then Looked(s)
    else if s.next >= |file| then Ended(EBIO_EOF, s.(ip := WordOf(s.blk, 1)))
    else Looked(Search(file[s.next], 2, s.next + 1))
  }

  /** What `n` rounds have led to. */
  function Rounds(file: seq<seq<int>>, s: Search, n: nat): Round
    decreases n
  {
    if n == 0 then Again(s)
    else
      match OneRound(file, s)
      case Again(t) => Rounds(file, t, n - 1)
      case Ended(error, t) => Ended(error, t)
  }

  ghost predicate Ends(file: seq<seq<int>>, s: Search) {
    exists n: nat :: Rounds(file, s, n).Ended?
  }

  predicate Continues(blk: seq<int>, ip: int) {
    WordOf(blk, ip + irCODE) == 2 || WordOf(blk, ip + irCODE) == 3
  }

  /** The reader stands on a segment that continues a record. */
  predicate Stuck(s: Search) {
    Inside(s) && Continues(s.blk, s.ip)
  }

  /** Behind blocks without records that are passed comes one that begins with such a segment. */
  predicate HangsFrom(file: seq<seq<int>>, k: nat)
    decreases |file| - k
  {
    k < |file| && Continues(file[k], 2) && (2 < WordOf(file[k], 1) || HangsFrom(file, k + 1))
  }

  lemma {:induction false} StuckStays(file: seq<seq<int>>, s: Search, n: nat)
    requires Stuck(s)
    ensures Rounds(file, s, n) == Again(s)
  {
    if n > 0 { StuckStays(file, s, n - 1); }
  }

  lemma NextRound(file: seq<seq<int>>, s: Search)
    ensures Ends(file, s) <==> OneRound(file, s).Ended? || Ends(file, OneRound(file, s).at)
  {
    var o := OneRound(file, s);
    if Ends(file, s) {
      var n: nat :| Rounds(file, s, n).Ended?;
      if o.Again? { assert Rounds(file, o.at, n - 1).Ended?; }
    }
    if o.Ended? { assert Rounds(file, s, 1).Ended?; }
    if o.Again? && Ends(file, o.at) {
      var n: nat :| Rounds(file, o.at, n).Ended?;
      assert Rounds(file, s, n + 1) == Rounds(file, o.at, n);
    }
  }

  /**
   The search ends if and only if the reader does not stand on a segment that continues a record, and
   does not come to such a segment at the beginning of a block.
   */
  lemma {:induction false} SearchEnds(file: seq<seq<int>>, s: Search)
    ensures Ends(file, s) <==> !Stuck(s) && (Inside(s) || !HangsFrom(file, s.next))
    decreases |file| - s.next
  {
    NextRound(file, s);
    if Stuck(s) {
      forall n: nat ensures Rounds(file, s, n).Again? { StuckStays(file, s, n); }
    } else if !Inside(s) && s.next < |file| {
      SearchEnds(file, Search(file[s.next], 2, s.next + 1));
    }
  }

  // ---- The reader in its block -------------------------------------------------------------------

  /** The next record segment `c` lies at `ip`; `t` are those behind it. */
  ghost predicate Facing(r: DdReader, c: Record, t: seq<Record>)
    reads r
  {
    && r.Valid() && r.ip != 0 && r.pos < |r.blocks[r.next - 1]| && RecOk(c)
    && r.blocks[r.next - 1][r.pos] == c
    && r.blocks[r.next - 1][r.pos + 1..] + Concat(r.blocks[r.next..]) == t
  }

  lemma FacingRest(r: DdReader, c: Record, t: seq<Record>)
    requires r.Valid() && r.ip != 0 && r.pos < |r.blocks[r.next - 1]| && r.Rest() == [c] + t && RecOk(c)
    ensures Facing(r, c, t)
  {
    hide Concat, RecOk, Laid, Hollow, Pack;
    FirstOfSum(r.blocks[r.next - 1], r.pos, Concat(r.blocks[r.next..]), c, t);
  }

  lemma RestFacing(r: DdReader, c: Record, t: seq<Record>)
    requires Facing(r, c, t)
    ensures r.Valid() && r.ip != 0 && r.Rest() == [c] + t
  {
    hide Concat, RecOk, Laid, Hollow, Pack;
    var b := r.blocks[r.next - 1];
    assert b[r.pos..] == [c] + b[r.pos + 1..];
    Assoc([c], b[r.pos + 1..], Concat(r.blocks[r.next..]));
  }

  lemma FirstOfSum(b: seq<Record>, p: nat, u: seq<Record>, c: Record, t: seq<Record>)
    requires p < |b| && b[p..] + u == [c] + t
    ensures b[p] == c && b[p + 1..] + u == t
  {
    var x := b[p..] + u;
    assert x[0] == b[p] && x[0] == c;
    assert x[1..] == b[p + 1..] + u;
    assert ([c] + t)[1..] == t;
  }

  /** A block with a segment that has banks holds record segments. */
  lemma BlockFilled(r: DdReader)
    requires r.Valid() && r.ip != 0 && !Hollow(r.n, r.bufin, r.blocks[r.next - 1])
    ensures Renders(r.n, r.bufin, r.blocks[r.next - 1])
  {
    hide Renders, Hollow, Pack;
    assert Laid(r.n, r.bufin, r.blocks[r.next - 1]);
  }

  lemma FacingFilled(r: DdReader, c: Record, t: seq<Record>)
    requires Facing(r, c, t)
    ensures Renders(r.n, r.bufin, r.blocks[r.next - 1]) && r.ip == 2 + |Pack(r.blocks[r.next - 1][..r.pos])|
    ensures !Hollow(r.n, r.bufin, r.blocks[r.next - 1])
  {
    hide Renders, Pack, Concat;
    BlockFilled(r);
  }

  /** What the buffer has of the segment. */
  lemma FacingAt(r: DdReader, c: Record, t: seq<Record>)
    requires Facing(r, c, t)
    ensures RecOk(c) && 2 <= r.ip && r.ip + RECHEADLEN + |Flat(c.segs)| <= r.bufin[1] <= |r.bufin|
    ensures r.bufin[r.ip..r.ip + RECHEADLEN] == c.hd
    ensures r.bufin[r.ip + RECHEADLEN..r.ip + RECHEADLEN + |Flat(c.segs)|] == Flat(c.segs)
    ensures r.bufin[r.ip + irNWRD] == |Flat(c.segs)| && r.bufin[r.ip + irCODE] == c.hd[irCODE]
    ensures r.ip + RECHEADLEN + |Flat(c.segs)| == 2 + |Pack(r.blocks[r.next - 1][..r.pos + 1])|
    ensures c.hd[irCODE] == 1 || c.hd[irCODE] == 2 ==>
              && r.pos == |r.blocks[r.next - 1]| - 1 && r.ip + RECHEADLEN + |Flat(c.segs)| == r.bufin[1]
              && Concat(r.blocks[r.next..]) == t
    ensures r.next <= |r.file| && r.Valid()
  {
    hide Pack, Flat, Laid, Concat;
    FacingFilled(r, c, t);
    SegmentAt(r.n, r.bufin, r.blocks[r.next - 1], r.pos, r.ip);
    assert r.bufin[r.ip..r.ip + RECHEADLEN][irNWRD] == r.bufin[r.ip + irNWRD];
    assert r.bufin[r.ip..r.ip + RECHEADLEN][irCODE] == r.bufin[r.ip + irCODE];
    if r.pos == |r.blocks[r.next - 1]| - 1 {
      assert r.blocks[r.next - 1][r.pos + 1..] == [];
      assert [] + Concat(r.blocks[r.next..]) == Concat(r.blocks[r.next..]);
    }
  }

  /** The segment has been used. */
  method Pass(r: DdReader, len: int, ghost c: Record, ghost t: seq<Record>)
    requires Facing(r, c, t) && len == RECHEADLEN + |Flat(c.segs)|
    modifies r`ip, r`pos
    ensures r.Valid() && r.ip != 0 && r.Rest() == t
  {
    hide Pack, Flat, AllLaid, Hollow, Renders, Concat;
    FacingFilled(r, c, t);
    FacingAt(r, c, t);
    r.ip := r.ip + len;
    r.pos := r.pos + 1;
  }

  /**
   The next block is read; its first record segment is the next, or it is one without records, of
   which only its leavings are seen.
   */
  method NextBlock(r: DdReader, ghost t: seq<Record>) returns (error: int)
    requires r.Valid() && Concat(r.blocks[r.next..]) == t
    modifies r
    ensures r.Valid() && (error == 0 <==> t != []) && (error != 0 ==> error == EBIO_EOF && old(r.next) == |r.file|)
    ensures error == 0 ==> old(r.next) < |r.file| && SearchOf(r) == Search(r.file[old(r.next)], 2, old(r.next) + 1)
    ensures error == 0 && RecOk(t[0]) ==> Facing(r, t[0], t[1..]) && r.pos == 0
    ensures error == 0 && !RecOk(t[0]) ==> OnHollow(r, t[0], t[1..])
    ensures error != 0 ==>
              && r.Rest() == old(r.Rest()) && r.ip == old(r.ip) && r.pos == old(r.pos)
              && r.next == old(r.next) && r.bufin == old(r.bufin)
  {
    hide Pack, Renders, Concat, Hollow, RecOk;
    if r.next == |r.file| {
      NoMore(r.blocks, r.next);
      return EBIO_EOF;
    }
    NextBlockOf(r.n, r.file, r.blocks, r.next);
    r.bufin := r.file[r.next];
    r.next := r.next + 1;
    r.ip := 2;
    ghost var b, u := r.blocks[r.next - 1], Concat(r.blocks[r.next..]);
    r.pos := if Hollow(r.n, r.bufin, b) then 1 else 0;
    error := 0;
    HeadOf(b[0], b[1..] + u, t);
    KindOfBlock(r.n, r.bufin, b);
    assert b[..0] == [];
  }

  /** The reader has read a block without records. */
  ghost predicate OnHollow(r: DdReader, c: Record, t: seq<Record>)
    reads r
  {
    && r.Valid() && r.ip == 2 && |r.bufin| >= 83 && r.bufin[1] == 2 && c == Leavings(r.bufin) && r.Rest() == t
  }

  lemma KindOfBlock(n: int, blk: seq<int>, rs: seq<Record>)
    requires Laid(n, blk, rs)
    ensures rs != [] && (Hollow(n, blk, rs) <==> !RecOk(rs[0]))
    ensures Hollow(n, blk, rs) ==> |rs| == 1 && |blk| == n >= 83 && blk[1] == 2 && rs[0] == Leavings(blk)
  {
    if Hollow(n, blk, rs) { HollowLacks(n, blk, rs); } else { FilledAt(n, blk, rs, 0); }
  }

  lemma NoMore(blocks: seq<seq<Record>>, k: nat)
    requires k == |blocks|
    ensures Concat(blocks[k..]) == []
  {
  }

  lemma HeadOf(c: Record, u: seq<Record>, t: seq<Record>)
    requires t == [c] + u
    ensures t[0] == c && t[1..] == u
  {
  }

  /** Whether there is another record segment in the block. */
  lemma BlockUsed(r: DdReader, t: seq<Record>)
    requires r.Valid() && r.Rest() == t
    ensures r.ip != 0 ==> |r.bufin| >= 2 && (r.ip < r.bufin[1] <==> r.pos < |r.blocks[r.next - 1]|)
    ensures r.ip != 0 && r.pos < |r.blocks[r.next - 1]| ==> t != [] && Facing(r, t[0], t[1..])
    ensures !(r.ip != 0 && r.ip < r.bufin[1]) ==> Concat(r.blocks[r.next..]) == t
  {
    hide Concat, Laid, Pack;
    if r.ip == 0 {
      assert r.blocks[0..] == r.blocks;
    } else {
      var b := r.blocks[r.next - 1];
      if Hollow(r.n, r.bufin, b) {
        assert b[r.pos..] == [];
        assert [] + Concat(r.blocks[r.next..]) == Concat(r.blocks[r.next..]);
      } else {
        BlockFilled(r);
        BlockFacing(r, t);
      }
    }
  }

  lemma BlockFacing(r: DdReader, t: seq<Record>)
    requires r.Valid() && r.Rest() == t && r.ip != 0 && Renders(r.n, r.bufin, r.blocks[r.next - 1])
    requires r.ip == 2 + |Pack(r.blocks[r.next - 1][..r.pos])|
    ensures |r.bufin| >= 2 && (r.ip < r.bufin[1] <==> r.pos < |r.blocks[r.next - 1]|)
    ensures r.pos < |r.blocks[r.next - 1]| ==> t != [] && Facing(r, t[0], t[1..])
    ensures r.pos == |r.blocks[r.next - 1]| ==> Concat(r.blocks[r.next..]) == t
  {
    hide Concat, Laid, Pack;
    var b := r.blocks[r.next - 1];
    if r.pos < |b| {
      SegmentAt(r.n, r.bufin, b, r.pos, r.ip);
      assert t[0] == b[r.pos] && t == [t[0]] + t[1..];
      FacingRest(r, t[0], t[1..]);
    } else {
      assert b[..r.pos] == b && b[r.pos..] == [];
      assert [] + Concat(r.blocks[r.next..]) == Concat(r.blocks[r.next..]);
    }
  }

  /** Leavings that the search goes past. */
  ghost predicate Skipped(c: Record) {
    c.segs == [] && |c.hd| == RECHEADLEN && (c.hd[irCODE] == 2 || c.hd[irCODE] == 3)
  }

  ghost predicate AllSkipped(skip: seq<Record>) {
    forall i :: 0 <= i < |skip| ==> Skipped(skip[i])
  }

  /** A segment that continues a record. */
  ghost predicate Blocks(c: Record) {
    RecOk(c) && (c.hd[irCODE] == 2 || c.hd[irCODE] == 3)
  }

  /** Leavings that mislead the search. */
  ghost predicate Deceives(c: Record) {
    c.segs == [] && |c.hd| == RECHEADLEN && c.hd[irCODE] != 2 && c.hd[irCODE] != 3
  }

  lemma WhatIs(c: Record)
    ensures c.segs == [] ==> !RecOk(c)
    ensures RecOk(c) ==> |c.hd| == RECHEADLEN && !Skipped(c) && !Deceives(c)
  {
  }

  lemma SkippedFirst(left: seq<Record>)
    requires AllSkipped(left) && left != []
    ensures Skipped(left[0]) && AllSkipped(left[1..])
  {
  }

  lemma InFront(left: seq<Record>, ps: seq<Record>, rest: seq<Record>, t: seq<Record>)
    requires t == left + ps + rest
    ensures left == [] && ps == [] ==> t == rest
    ensures left == [] && ps != [] ==> t != [] && t[0] == ps[0] && t[1..] == ps[1..] + rest
    ensures left != [] ==> t != [] && t[0] == left[0] && t[1..] == left[1..] + ps + rest
  {
    if left != [] {
      assert left == [left[0]] + left[1..];
      assert t == [left[0]] + (left[1..] + ps + rest);
    } else if ps != [] {
      assert ps == [ps[0]] + ps[1..] && t == ps + rest;
      assert t == [ps[0]] + (ps[1..] + rest);
    }
  }

  /** What a round looks at. */
  lemma OnSegment(r: DdReader, c: Record, t: seq<Record>)
    requires Facing(r, c, t) || OnHollow(r, c, t)
    ensures r.Valid() && 2 <= r.ip && r.ip + irCODE < |r.bufin| && |c.hd| == RECHEADLEN && |r.bufin| >= 2
    ensures r.bufin[r.ip + irCODE] == c.hd[irCODE] && (Facing(r, c, t) <==> r.ip < r.bufin[1])
    ensures if r.ip < r.bufin[1] then RecOk(c) && r.bufin[1] > 2 else c.segs == [] && r.bufin[1] == 2 && r.Rest() == t
    ensures Looked(SearchOf(r)) == LookedAt(c.hd[irCODE], SearchOf(r)) && WordOf(r.bufin, 1) == r.bufin[1]
  {
    hide Flat, Pack, Concat, Renders, Hollow, DdReader.Valid, DdReader.Rest;
    if Facing(r, c, t) { FacingAt(r, c, t); }
  }

  /**
   The search (ddgetlogrec.c:95-141).  `forever` is set where it would not end; `lost` where leavings are
   taken for the beginning of a record, which is not followed further.
   */
  method Find(r: DdReader, ghost skip: seq<Record>, ghost ps: seq<Record>, ghost rest: seq<Record>)
    returns (error: int, forever: bool, lost: bool)
    requires r.Valid() && r.Rest() == skip + ps + rest && AllSkipped(skip)
    requires ps == [] && rest != [] ==> Blocks(rest[0]) || Deceives(rest[0])
    requires ps != [] ==> RecOk(ps[0]) && (ps[0].hd[irCODE] == 0 || ps[0].hd[irCODE] == 1)
    modifies r
    ensures forever <==> !Ends(r.file, old(SearchOf(r)))
    ensures ps != [] ==> error == 0 && !forever && !lost && Facing(r, ps[0], ps[1..] + rest)
    ensures ps == [] && rest == [] ==> error == EBIO_EOF && !forever && !lost && r.Valid() && r.Rest() == []
    ensures ps == [] && rest != [] ==>
              && (forever <==> Blocks(rest[0]))
              && (Deceives(rest[0]) ==> lost || error == EBIO_WRONGSEGMCODE)
    ensures forever ==> Stuck(SearchOf(r)) && !lost && error == 0
    ensures lost ==> error == 0
  {
    hide Concat, Pack, Renders, Hollow, RecOk, Facing, OnHollow, DdReader.Valid, DdReader.Rest, Rounds, Ends,
         AllSkipped, Skipped;
    ghost var left := skip;
    error, forever, lost := 0, false, false;
    while true
      invariant r.Valid() && r.Rest() == left + ps + rest && AllSkipped(left) && !forever && !lost
      invariant Ends(r.file, old(SearchOf(r))) <==> Ends(r.file, SearchOf(r))
      decreases |left|
    {
      ghost var t, was := left + ps + rest, SearchOf(r);
      BlockUsed(r, t);
      NextRound(r.file, was);
      InFront(left, ps, rest, t);
      if t != [] { WhatIs(t[0]); }
      if r.ip != 0 && r.ip < r.bufin[1] {
        FacingAt(r, t[0], t[1..]);
      } else {
        error := NextBlock(r, t);
        if error != 0 {
          return;
        }
      }
      OnSegment(r, t[0], t[1..]);
      if left != [] { SkippedFirst(left); }
      var code := r.bufin[r.ip + irCODE];
      if code < 0 || code > 3 {
        return EBIO_WRONGSEGMCODE, false, false;
      }
      if code == 0 || code == 1 {
        lost := r.bufin[1] == 2;
        return;
      }
      if r.ip < r.bufin[1] {
        SearchEnds(r.file, SearchOf(r));
        forever := true;
        return;
      }
      left := left[1..];
    }
  }

  // ---- The record as far as it has been put together --------------------------------------------------------

  /** No bank is in more than two data segments. */
  ghost predicate NoMiddle(ds: seq<Segment>) {
    forall j :: 0 <= j < |ds| ==> |ds[j].hd| >= 9 && ds[j].hd[idCODE] != 2
  }

  /** An incomplete bank in the record: its count is right; its code is 1, or 0 once it has been continued. */
  ghost function Joint(o: Segment, merged: bool): Segment
    requires |o.hd| >= 9
  {
    Segment(o.hd[idCODE := if merged then 0 else 1][idDATA := |o.data|], o.data)
  }

  ghost function Banks(rec: Record, i: nat, open: Option<Segment>, merged: bool): seq<Segment>
    requires i <= |rec.segs| && (open.Some? ==> |open.value.hd| >= 9)
  {
    rec.segs[..i] + if open == None then [] else [Joint(open.value, merged)]
  }

  /**
   `k` data segments are in the record buffer `w`, as banks `bs`: complete ones, and possibly an
   incomplete one, which has been continued once if `merged`.
   */
  ghost predicate Joined(w: seq<int>, rec: Record, ds: seq<Segment>, k: nat, i: nat, open: Option<Segment>,
                         merged: bool, bs: seq<Segment>) {
    && RecOk(rec) && Got(rec, ds, k, i, open) && (open.Some? ==> |open.value.hd| >= 9) && i <= |rec.segs|
    && bs == Banks(rec, i, open, merged) && bs != [] && SegsOk(bs)
    && |w| == RECHEADLEN + |Flat(bs)| && w[RECHEADLEN..] == Flat(bs)
    && (if merged then open != None && !NoMiddle(ds[..k]) else NoMiddle(ds[..k]))
  }

  /** The last data header is searched for, from bank `m` on. */
  method LastHeader(w: seq<int>, from: int, ghost bs: seq<Segment>, ghost m: nat) returns (ildh: int)
    requires SegsOk(bs) && m < |bs| && |w| == RECHEADLEN + |Flat(bs)| && w[RECHEADLEN..] == Flat(bs)
    requires from == RECHEADLEN + |Flat(bs[..m])|
    ensures ildh == RECHEADLEN + |Flat(bs[..|bs| - 1])|
  {
    hide Flat;
    ildh := from;
    var ii := from;
    ghost var j := m;
    HeaderAt(w, bs, m);
    while ii < |w|
      invariant m <= j <= |bs| && ii == RECHEADLEN + |Flat(bs[..j])| && (j == |bs| <==> ii >= |w|)
      invariant j == m || ildh == RECHEADLEN + |Flat(bs[..j - 1])|
      decreases |bs| - j
    {
      HeaderAt(w, bs, j);
      ildh := ii;
      ii := ii + w[ildh] + w[ildh + idDATA];
      j := j + 1;
      if j < |bs| { HeaderAt(w, bs, j); } else { assert bs[..j] == bs; }
    }
  }

  /** Where bank `j` of the record buffer lies. */
  lemma HeaderAt(w: seq<int>, bs: seq<Segment>, j: nat)
    requires SegsOk(bs) && j < |bs| && |w| == RECHEADLEN + |Flat(bs)| && w[RECHEADLEN..] == Flat(bs)
    ensures var p := RECHEADLEN + |Flat(bs[..j])|;
            && SegOk(bs[j]) && p + |bs[j].hd| + |bs[j].data| == RECHEADLEN + |Flat(bs[..j + 1])| <= |w|
            && w[p..p + |bs[j].hd|] == bs[j].hd && w[p + |bs[j].hd|..p + |bs[j].hd| + |bs[j].data|] == bs[j].data
            && w[p] == |bs[j].hd| && w[p + idDATA] == |bs[j].data|
  {
    hide Flat, SegWords;
    FlatAt(bs, j);
    assert SegOk(bs[j]);
    var p, f := RECHEADLEN + |Flat(bs[..j])|, |SegWords(bs[j])|;
    assert w[RECHEADLEN..|w|] == w[RECHEADLEN..];
    SubSlice(w, RECHEADLEN, |w|, p, p + f);
    SegmentWords(w, p, bs[j]);
  }

  // ---- One more piece -----------------------------------------------------------------------------------------

  lemma CompleteNext(rec: Record, ds: seq<Segment>, k: nat, i: nat)
    requires RecOk(rec) && Got(rec, ds, k, i, None) && k < |ds| && |ds[k].hd| >= 9 && ds[k].hd[idCODE] != 2
    requires ds[k].hd[idCODE] != 3
    ensures SegOk(ds[k]) && (ds[k].hd[idCODE] == 0 || ds[k].hd[idCODE] == 1)
    ensures ds[k].hd[idCODE] == 0 ==> i < |rec.segs| && Got(rec, ds, k + 1, i + 1, None) && rec.segs[i] == ds[k]
    ensures ds[k].hd[idCODE] == 1 ==> Got(rec, ds, k + 1, i, Some(ds[k])) && Joint(ds[k], false) == ds[k]
  {
    hide Got, RecOk;
    GotNext(rec, ds, k, i, None);
  }

  /** Complete banks, and possibly the first part of one more at the end. */
  lemma {:induction false} Stretch(rec: Record, ds: seq<Segment>, k: nat, i: nat, e: nat)
    returns (i': nat, open': Option<Segment>)
    requires RecOk(rec) && Got(rec, ds, k, i, None) && k <= e <= |ds| && i <= |rec.segs|
    requires forall j :: k <= j < e ==> |ds[j].hd| >= 9 && ds[j].hd[idCODE] != 2 && ds[j].hd[idCODE] != 3
                                        && (ds[j].hd[idCODE] == 1 ==> j == e - 1)
    ensures Got(rec, ds, e, i', open') && (open'.Some? ==> |open'.value.hd| >= 9) && i' <= |rec.segs|
    ensures Banks(rec, i', open', false) == rec.segs[..i] + ds[k..e]
    decreases e - k
  {
    hide Got, RecOk, Joint;
    if k == e {
      i', open' := i, None;
    } else {
      CompleteNext(rec, ds, k, i);
      if ds[k].hd[idCODE] == 1 {
        i', open' := i, Some(ds[k]);
        assert ds[k..e] == [ds[k]];
      } else {
        i', open' := Stretch(rec, ds, k + 1, i + 1, e);
        assert rec.segs[..i + 1] == rec.segs[..i] + [ds[k]];
        assert ds[k..e] == [ds[k]] + ds[k + 1..e];
        Assoc(rec.segs[..i], [ds[k]], ds[k + 1..e]);
      }
    }
  }

  /** The next data segment continues the incomplete bank. */
  lemma ContinuedNext(rec: Record, ds: seq<Segment>, k: nat, i: nat, o: Segment)
    requires RecOk(rec) && Got(rec, ds, k, i, Some(o)) && k < |ds| && |o.hd| >= 9
    ensures SegOk(ds[k]) && ds[k].hd[idNPREV] == |o.data| && |ds[k].hd| == |o.hd|
    ensures var o' := o.(data := o.data + ds[k].data);
            && (ds[k].hd[idCODE] == 2 || ds[k].hd[idCODE] == 3)
            && (ds[k].hd[idCODE] == 2 ==> Got(rec, ds, k + 1, i, Some(o')))
            && (ds[k].hd[idCODE] == 3 ==>
                  && i < |rec.segs| && Got(rec, ds, k + 1, i + 1, None)
                  && rec.segs[i] == Joint(o', true))
  {
    hide RecOk;
    GotNext(rec, ds, k, i, Some(o));
    AssemblePrefix(ds, k + 1);
    assert ds[..k + 1][..k] == ds[..k];
  }

  /** The words of the continued bank, with the rest of its piece behind it. */
  lemma MergedWords(w: seq<int>, w': seq<int>, bs: seq<Segment>, ildh: int, d: Segment, t: seq<Segment>, m: Segment)
    requires SegsOk(bs) && bs != [] && |w| == RECHEADLEN + |Flat(bs)| && w[RECHEADLEN..] == Flat(bs)
    requires ildh == RECHEADLEN + |Flat(bs[..|bs| - 1])| && ildh + 9 <= |w|
    requires w' == (w + (d.data + Flat(t)))[ildh + idDATA := w[ildh + idDATA] + |d.data|][ildh + idCODE := 0]
    requires var l := bs[|bs| - 1]; m == Segment(l.hd[idCODE := 0][idDATA := |l.data| + |d.data|], l.data + d.data)
    ensures SegOk(m) && |w'| == RECHEADLEN + |Flat(bs[..|bs| - 1] + [m] + t)|
    ensures w'[RECHEADLEN..] == Flat(bs[..|bs| - 1] + [m] + t) && w'[..RECHEADLEN] == w[..RECHEADLEN]
  {
    hide Flat, SegsOk;
    var c, l := bs[..|bs| - 1], bs[|bs| - 1];
    LastWords(w, bs);
    WithMerged(c, m, t);
    var r, f, x := w[..RECHEADLEN], Flat(c), d.data + Flat(t);
    PatchHeader(r, f, l.hd, l.data, x, |l.data| + |d.data|);
    Regrouped(f, m.hd, l.data, d.data, Flat(t));
    FrontAndRest(r, Flat(c + [m] + t));
  }

  /** The words of the record buffer, the last bank apart. */
  lemma LastWords(w: seq<int>, bs: seq<Segment>)
    requires SegsOk(bs) && bs != [] && |w| == RECHEADLEN + |Flat(bs)| && w[RECHEADLEN..] == Flat(bs)
    ensures var l := bs[|bs| - 1];
            && SegOk(l) && w == w[..RECHEADLEN] + (Flat(bs[..|bs| - 1]) + (l.hd + l.data))
            && w[RECHEADLEN + |Flat(bs[..|bs| - 1])| + idDATA] == |l.data|
  {
    hide Flat;
    HeaderAt(w, bs, |bs| - 1);
    var c, l := bs[..|bs| - 1], bs[|bs| - 1];
    assert bs == c + [l];
    FlatAdd(c, l);
    assert w == w[..RECHEADLEN] + w[RECHEADLEN..];
  }

  lemma WithMerged(c: seq<Segment>, m: Segment, t: seq<Segment>)
    ensures Flat(c + [m] + t) == (Flat(c) + (m.hd + m.data)) + Flat(t)
  {
    hide Flat;
    FlatAdd(c, m);
    FlatConcat(c + [m], t);
  }

  lemma Regrouped(f: seq<int>, h: seq<int>, l: seq<int>, d: seq<int>, t: seq<int>)
    ensures f + (h + (l + (d + t))) == (f + (h + (l + d))) + t
  {
    var x := f + (h + (l + (d + t)));
    var y := (f + (h + (l + d))) + t;
    assert |x| == |y| && forall i :: 0 <= i < |x| ==> x[i] == y[i];
  }

  lemma FrontAndRest(r: seq<int>, g: seq<int>)
    ensures (r + g)[|r|..] == g && (r + g)[..|r|] == r && |r + g| == |r| + |g|
  {
  }

  /** Two words of a header are changed and words are added at the end. */
  lemma PatchHeader(r: seq<int>, f: seq<int>, h: seq<int>, d: seq<int>, x: seq<int>, v: int)
    requires |h| >= 9
    ensures var p := |r| + |f|;
            ((r + (f + (h + d))) + x)[p + idDATA := v][p + idCODE := 0]
            == r + (f + (h[idCODE := 0][idDATA := v] + (d + x)))
  {
    var p := |r| + |f|;
    var a := r + f;
    Assoc(r, f, h + d);
    Assoc(a, h + d, x);
    Assoc(h, d, x);
    var b := h + (d + x);
    assert ((r + (f + (h + d))) + x) == a + b;
    SetBehind(a, b, idDATA, v);
    SetBehind(a, b[idDATA := v], idCODE, 0);
    SetInFront(h, d + x, idDATA, v);
    SetInFront(h[idDATA := v], d + x, idCODE, 0);
    assert h[idDATA := v][idCODE := 0] == h[idCODE := 0][idDATA := v];
    Assoc(r, f, h[idCODE := 0][idDATA := v] + (d + x));
  }

  lemma SetBehind(a: seq<int>, b: seq<int>, i: nat, v: int)
    requires i < |b|
    ensures (a + b)[|a| + i := v] == a + b[i := v]
  {
  }

  lemma SetInFront(a: seq<int>, b: seq<int>, i: nat, v: int)
    requires i < |a|
    ensures (a + b)[i := v] == a[i := v] + b
  {
  }

  /** The codes of the data segments `k .. e` of a record that are one piece of it. */
  ghost predicate IsPiece(ds: seq<Segment>, k: nat, e: nat, ss: seq<Segment>) {
    k < e <= |ds| && ds[k..e] == ss && Tidy(ss) && SegsOk(ss)
  }

  lemma PieceCodes(ds: seq<Segment>, k: nat, e: nat, ss: seq<Segment>)
    requires IsPiece(ds, k, e, ss)
    ensures ss != [] && ss[0] == ds[k] && SegOk(ds[k]) && ss[1..] == ds[k + 1..e] && SegsOk(ss[1..]) && SegsOk(ss)
    ensures k < e <= |ds|
    ensures forall j :: k <= j < e ==>
              && |ds[j].hd| >= 9 && (j > k ==> ds[j].hd[idCODE] != 2 && ds[j].hd[idCODE] != 3)
              && (ds[j].hd[idCODE] == 1 || ds[j].hd[idCODE] == 2 ==> j == e - 1)
  {
    forall j | k <= j < e
      ensures |ds[j].hd| >= 9 && (j > k ==> ds[j].hd[idCODE] != 2 && ds[j].hd[idCODE] != 3)
      ensures ds[j].hd[idCODE] == 1 || ds[j].hd[idCODE] == 2 ==> j == e - 1
    {
      assert ds[j] == ss[j - k];
    }
  }

  lemma NoMiddleMore(ds: seq<Segment>, k: nat, e: nat)
    requires k <= e <= |ds| && NoMiddle(ds[..k]) && forall j :: k <= j < e ==> |ds[j].hd| >= 9 && ds[j].hd[idCODE] != 2
    ensures NoMiddle(ds[..e])
  {
    forall j | 0 <= j < e ensures |ds[..e][j].hd| >= 9 && ds[..e][j].hd[idCODE] != 2 {
      if j < k { assert ds[..k][j] == ds[j]; }
    }
  }

  lemma SegsOkSum(a: seq<Segment>, b: seq<Segment>)
    requires SegsOk(a) && SegsOk(b)
    ensures SegsOk(a + b)
  {
  }

  /** A piece that begins with a bank of its own. */
  lemma JoinPlain(w: seq<int>, rec: Record, ds: seq<Segment>, k: nat, i: nat, bs: seq<Segment>,
                  e: nat, ss: seq<Segment>)
    returns (i': nat, open': Option<Segment>)
    requires Joined(w, rec, ds, k, i, None, false, bs) && IsPiece(ds, k, e, ss)
    ensures Joined(w + Flat(ss), rec, ds, e, i', open', false, bs + ss)
  {
    hide Flat, Got, RecOk, Tidy, SegOk, Joint;
    PieceCodes(ds, k, e, ss);
    CompleteFirst(rec, ds, k, i);
    i', open' := Stretch(rec, ds, k, i, e);
    NoMiddleMore(ds, k, e);
    FlatConcat(bs, ss);
    SegsOkSum(bs, ss);
    assert rec.segs[..i] + [] == rec.segs[..i];
    assert (w + Flat(ss))[RECHEADLEN..] == w[RECHEADLEN..] + Flat(ss);
  }

  lemma CompleteFirst(rec: Record, ds: seq<Segment>, k: nat, i: nat)
    requires RecOk(rec) && Got(rec, ds, k, i, None) && k < |ds|
    ensures i <= |rec.segs| && SegOk(ds[k]) && ds[k].hd[idCODE] != 2 && ds[k].hd[idCODE] != 3
  {
    GotNext(rec, ds, k, i, None);
  }

  /** A piece that begins with the next words of the incomplete bank. */
  lemma JoinMerged(w: seq<int>, w': seq<int>, rec: Record, ds: seq<Segment>, k: nat, i: nat, o: Segment,
                   bs: seq<Segment>, ildh: int, e: nat, ss: seq<Segment>)
    returns (i': nat, open': Option<Segment>, merged': bool, bs': seq<Segment>)
    requires Joined(w, rec, ds, k, i, Some(o), false, bs) && IsPiece(ds, k, e, ss) && bs != [] && ss != []
    requires ildh == RECHEADLEN + |Flat(bs[..|bs| - 1])| && ildh + 9 <= |w|
    requires w' == (w + (ss[0].data + Flat(ss[1..])))[ildh + idDATA := w[ildh + idDATA] + |ss[0].data|]
                                                      [ildh + idCODE := 0]
    ensures Joined(w', rec, ds, e, i', open', merged', bs') && w'[..RECHEADLEN] == w[..RECHEADLEN]
    ensures |bs| - 1 < |bs'| && bs'[..|bs| - 1] == bs[..|bs| - 1]
  {
    hide Flat, Got, RecOk, Tidy, SegOk, Segments.Assemble;
    PieceCodes(ds, k, e, ss);
    ContinuedNext(rec, ds, k, i, o);
    var o' := o.(data := o.data + ss[0].data);
    var m, c := Joint(o', true), bs[..|bs| - 1];
    assert bs == rec.segs[..i] + [Joint(o, false)] && c == rec.segs[..i];
    MergedWords(w, w', bs, ildh, ss[0], ss[1..], m);
    bs' := c + [m] + ss[1..];
    SegsOkSum(c + [m], ss[1..]);
    if ds[k].hd[idCODE] == 2 {
      i', open', merged' := i, Some(o'), true;
      assert ss[1..] == [] && bs' == c + [m];
      assert ds[..e][k] == ds[k];
    } else {
      merged' := false;
      assert rec.segs[..i + 1] == c + [m];
      i', open' := Stretch(rec, ds, k + 1, i + 1, e);
      NoMiddleMore(ds, k, e);
    }
  }

  /** What the checks of ddGetLogRec see of the incomplete bank. */
  lemma JointWords(w: seq<int>, rec: Record, ds: seq<Segment>, k: nat, i: nat, o: Segment, merged: bool,
                   bs: seq<Segment>, ildh: int)
    requires Joined(w, rec, ds, k, i, Some(o), merged, bs) && bs != [] && ildh == RECHEADLEN + |Flat(bs[..|bs| - 1])|
    requires k < |ds|
    ensures 0 <= ildh && ildh + 9 <= |w| && w[ildh + idCODE] == (if merged then 0 else 1)
    ensures w[ildh + idDATA] == |o.data|
    ensures SegOk(ds[k]) && ds[k].hd[idNPREV] == |o.data| && (ds[k].hd[idCODE] == 2 || ds[k].hd[idCODE] == 3)
  {
    hide Flat, Got, RecOk;
    ContinuedNext(rec, ds, k, i, o);
    HeaderAt(w, bs, |bs| - 1);
    var l := bs[|bs| - 1];
    assert l == Joint(o, merged);
    assert w[ildh + idCODE] == w[ildh..ildh + |l.hd|][idCODE];
  }

  // ---- The operation ----------------------------------------------------------------------------------------

  const DDFORG := 24  // what the record header gets as format code

  /** Where the pieces of the record are among its data segments. */
  lemma PieceAt(ps: seq<Record>, rec: Record, q: nat)
    requires Pieces(ps, rec) && q < |ps|
    ensures SegsOk(AllSegs(ps)) && RecOk(ps[q]) && ps[q].hd[irCODE] == CodeAt(q, |ps|)
    ensures |AllSegs(ps[..q + 1])| == |AllSegs(ps[..q])| + |ps[q].segs|
    ensures IsPiece(AllSegs(ps), |AllSegs(ps[..q])|, |AllSegs(ps[..q + 1])|, ps[q].segs)
    ensures q == |ps| - 1 <==> |AllSegs(ps[..q + 1])| == |AllSegs(ps)|
  {
    hide Flat, Assemble;
    SegmentOf(ps, q, 0);
    SegmentOf(ps, q, |ps[q].segs| - 1);
    var a, b := |AllSegs(ps[..q])|, |AllSegs(ps[..q + 1])|;
    forall j | 0 <= j < |ps[q].segs| ensures AllSegs(ps)[a + j] == ps[q].segs[j] { SegmentOf(ps, q, j); }
    assert AllSegs(ps)[a..b] == ps[q].segs;
  }

  /** The data segments of the first piece as banks. */
  lemma FirstBanks(rec: Record, ps: seq<Record>, w: seq<int>) returns (i: nat, open: Option<Segment>)
    requires Pieces(ps, rec) && RecOk(rec) && ps != [] && |ps[0].hd| == RECHEADLEN && w == ps[0].hd + Flat(ps[0].segs)
    ensures ps[0].segs != [] && SegsOk(ps[0].segs) && w[..RECHEADLEN] == ps[0].hd && w[RECHEADLEN..] == Flat(ps[0].segs)
    ensures Joined(w, rec, AllSegs(ps), |ps[0].segs|, i, open, false, ps[0].segs)
  {
    hide Flat, AllSegs, Got, Assemble, Pieces, Joint;
    FirstPiece(ps, rec);
    PieceAt(ps, rec, 0);
    var ds, ss := AllSegs(ps), ps[0].segs;
    NoSegs(ps);
    PieceCodes(ds, 0, |ss|, ss);
    CompleteFirst(rec, ds, 0, 0);
    i, open := Stretch(rec, ds, 0, 0, |ss|);
    assert rec.segs[..0] + ds[0..|ss|] == ss;
    NoMiddleMore(ds, 0, |ss|);
  }

  /** The first piece: the record buffer is a copy of it. */
  method TakeFirst(r: DdReader, ghost rec: Record, ghost ps: seq<Record>, ghost t: seq<Record>)
    returns (w: seq<int>, ildh: int, ghost i: nat, ghost open: Option<Segment>)
    requires Pieces(ps, rec) && RecOk(rec) && Facing(r, ps[0], t)
    ensures Joined(w, rec, AllSegs(ps), |ps[0].segs|, i, open, false, ps[0].segs)
    ensures ildh == RECHEADLEN + |Flat(ps[0].segs[..|ps[0].segs| - 1])| && ps[0].segs != [] && |w| >= RECHEADLEN
    ensures w[..RECHEADLEN] == ps[0].hd
  {
    hide Flat, AllSegs, Got, Assemble, Pieces, Joint, Joined;
    FirstPiece(ps, rec);
    FacingAt(r, ps[0], t);
    ghost var ss := ps[0].segs;
    var len := r.bufin[r.ip + irNWRD] + RECHEADLEN;
    w := r.bufin[r.ip..r.ip + len];
    assert w == r.bufin[r.ip..r.ip + RECHEADLEN] + r.bufin[r.ip + RECHEADLEN..r.ip + len];
    i, open := FirstBanks(rec, ps, w);
    assert ss[..0] == [];
    NoWords();
    ildh := LastHeader(w, RECHEADLEN, ss, 0);
  }

  lemma NoSegs(ps: seq<Record>)
    ensures AllSegs(ps[..0]) == [] && NoMiddle(AllSegs(ps)[..0])
  {
  }

  /** The next piece is joined to the record buffer, if it can be. */
  method JoinNext(r: DdReader, w: seq<int>, ildh: int, ghost rec: Record, ghost ps: seq<Record>, ghost t: seq<Record>,
                  ghost q: nat, ghost i: nat, ghost open: Option<Segment>, ghost merged: bool, ghost bs: seq<Segment>)
    returns (error: int, w': seq<int>, ildh': int, ghost i': nat, ghost open': Option<Segment>, ghost merged': bool,
             ghost bs': seq<Segment>)
    requires Pieces(ps, rec) && RecOk(rec) && q < |ps| && Facing(r, ps[q], t) && r.ip == 2
    requires Joined(w, rec, AllSegs(ps), |AllSegs(ps[..q])|, i, open, merged, bs)
    requires bs != [] && ildh == RECHEADLEN + |Flat(bs[..|bs| - 1])|
    ensures error == 0 <==> !merged
    ensures error != 0 ==> error == EBIO_NOTCONTCODE
    ensures error == 0 ==>
              && Joined(w', rec, AllSegs(ps), |AllSegs(ps[..q + 1])|, i', open', merged', bs')
              && bs' != [] && ildh' == RECHEADLEN + |Flat(bs'[..|bs'| - 1])| && |w| >= RECHEADLEN && |w'| >= RECHEADLEN
              && w'[..RECHEADLEN] == w[..RECHEADLEN]
  {
    hide Flat, AllSegs, Got, Assemble, Pieces, Joint, RecOk, Joined, Facing, IsPiece, SegsOk, Banks, NoMiddle,
         DdReader.Valid, SegOk, Overwritten;
    ghost var ds, ss, k, e := AllSegs(ps), ps[q].segs, |AllSegs(ps[..q])|, |AllSegs(ps[..q + 1])|;
    PieceAt(ps, rec, q);
    PieceCodes(ds, k, e, ss);
    FacingAt(r, ps[q], t);
    JoinedBounds(w, rec, ds, k, i, open, merged, bs);
    FirstWords(r.bufin, r.ip + RECHEADLEN, ss);
    var jp := r.ip + RECHEADLEN;
    var kp := jp + r.bufin[jp];
    error, w', ildh', i', open', merged', bs' := 0, w, ildh, i, open, merged, bs;
    OpenOrNot(w, rec, ds, k, i, open, merged, bs);
    if r.bufin[jp + idCODE] > 1 {
      var len := r.bufin[r.ip + irNWRD] - r.bufin[jp];
      JointWords(w, rec, ds, k, i, open.value, merged, bs, ildh);
      if w[ildh + idCODE] != 1 && w[ildh + idCODE] != 2 {
        return EBIO_NOTCONTCODE, w, ildh, i, open, merged, bs;
      }
      if w[ildh + idDATA] != r.bufin[jp + idNPREV] {
        assert false;
      }
      w' := (w + r.bufin[kp..kp + len])[ildh + idDATA := w[ildh + idDATA] + r.bufin[jp + idDATA]][ildh + idCODE := 0];
      i', open', merged', bs' := JoinMerged(w, w', rec, ds, k, i, open.value, bs, ildh, e, ss);
    } else {
      var len := r.bufin[r.ip + irNWRD];
      w' := w + r.bufin[jp..jp + len];
      i', open' := JoinPlain(w, rec, ds, k, i, bs, e, ss);
      bs' := bs + ss;
      assert bs'[..|bs| - 1] == bs[..|bs| - 1];
    }
    JoinedBounds(w', rec, ds, e, i', open', merged', bs');
    ildh' := LastHeader(w', ildh, bs', |bs| - 1);
  }

  lemma JoinedBounds(w: seq<int>, rec: Record, ds: seq<Segment>, k: nat, i: nat, open: Option<Segment>, merged: bool,
                     bs: seq<Segment>)
    requires Joined(w, rec, ds, k, i, open, merged, bs)
    ensures SegsOk(bs) && bs != [] && |w| == RECHEADLEN + |Flat(bs)| && w[RECHEADLEN..] == Flat(bs)
  {
  }

  /** The code of the next data segment tells whether a bank is incomplete. */
  lemma OpenOrNot(w: seq<int>, rec: Record, ds: seq<Segment>, k: nat, i: nat, open: Option<Segment>, merged: bool,
                  bs: seq<Segment>)
    requires Joined(w, rec, ds, k, i, open, merged, bs) && k < |ds|
    ensures |ds[k].hd| >= 9 && (open == None <==> ds[k].hd[idCODE] <= 1) && (open == None ==> !merged)
  {
    hide Flat, Got;
    GotNext(rec, ds, k, i, open);
  }

  /** The first bank of a piece in the block, and the words behind its header. */
  lemma FirstWords(blk: seq<int>, jp: int, ss: seq<Segment>)
    requires SegsOk(ss) && ss != [] && 0 <= jp && jp + |Flat(ss)| <= |blk| && blk[jp..jp + |Flat(ss)|] == Flat(ss)
    ensures SegOk(ss[0]) && jp + 9 <= |blk| && blk[jp] == |ss[0].hd| <= |Flat(ss)|
    ensures blk[jp + idCODE] == ss[0].hd[idCODE] && blk[jp + idNPREV] == ss[0].hd[idNPREV]
    ensures blk[jp + idDATA] == |ss[0].data|
    ensures blk[jp + |ss[0].hd|..jp + |Flat(ss)|] == ss[0].data + Flat(ss[1..])
  {
    hide Flat;
    FlatHead(ss);
    var d, x := ss[0], ss[0].data + Flat(ss[1..]);
    assert SegOk(d);
    HeadWords(blk, jp, d.hd, x);
  }

  lemma FlatHead(ss: seq<Segment>)
    requires ss != []
    ensures Flat(ss) == ss[0].hd + (ss[0].data + Flat(ss[1..]))
  {
    hide Flat;
    var d, t := ss[0], ss[1..];
    assert ss == [d] + t;
    FlatConcat([d], t);
    FlatAdd([], d);
    NoWords();
    assert [] + [d] == [d] && [] + SegWords(d) == SegWords(d);
    Assoc(d.hd, d.data, Flat(t));
  }

  lemma HeadWords(blk: seq<int>, jp: int, h: seq<int>, x: seq<int>)
    requires |h| >= 9 && 0 <= jp && jp + |h| + |x| <= |blk| && blk[jp..jp + |h| + |x|] == h + x
    ensures blk[jp] == h[0] && blk[jp + idCODE] == h[idCODE] && blk[jp + idNPREV] == h[idNPREV]
    ensures blk[jp + idDATA] == h[idDATA]
    ensures blk[jp + |h|..jp + |h| + |x|] == x
  {
    var y := blk[jp..jp + |h| + |x|];
    assert y[0] == blk[jp] && y[idCODE] == blk[jp + idCODE] && y[idNPREV] == blk[jp + idNPREV]
        && y[idDATA] == blk[jp + idDATA];
    SubSlice(blk, jp, jp + |h| + |x|, jp + |h|, jp + |h| + |x|);
    assert (h + x)[|h|..|h| + |x|] == x;
  }

  /** Reads on until the last piece, joining. */
  method JoinAll(r: DdReader, w0: seq<int>, ildh0: int, ghost rec: Record, ghost ps: seq<Record>,
                 ghost rest: seq<Record>, ghost i0: nat, ghost open0: Option<Segment>) returns (error: int, w: seq<int>)
    requires |ps| >= 2 && ps[0].segs != [] && ildh0 == RECHEADLEN + |Flat(ps[0].segs[..|ps[0].segs| - 1])|
    requires |w0| >= RECHEADLEN && w0[..RECHEADLEN] == ps[0].hd && Facing(r, ps[0], ps[1..] + rest)
    requires Joined(w0, rec, AllSegs(ps), |ps[0].segs|, i0, open0, false, ps[0].segs)
    requires Pieces(ps, rec) && RecOk(rec)
    modifies r
    ensures error == 0 <==> NoMiddle(AllSegs(ps))
    ensures error != 0 ==>
              && error == EBIO_NOTCONTCODE && r.Valid() && r.Rest() != [] && Blocks(r.Rest()[0])
              && Stuck(SearchOf(r))
    ensures error == 0 ==>
              && r.Valid() && r.Rest() == rest && |w| == RECHEADLEN + |Flat(rec.segs)|
              && w[RECHEADLEN..] == Flat(rec.segs)
              && w[..RECHEADLEN] == ps[0].hd[irNWRD := |Flat(rec.segs)|]
  {
    hide Flat, AllSegs, Got, Assemble, Pieces, Joint, RecOk, Joined, Facing, Banks, NoMiddle, IsPiece, SegsOk,
         DdReader.Valid, DdReader.Rest;
    hide Blocks, Stuck, SearchOf;
    var ildh := ildh0;
    ghost var q, i, open, merged, bs := 0, i0, open0, false, ps[0].segs;
    PieceAt(ps, rec, 0);
    NoSegs(ps);
    FacingAt(r, ps[0], ps[1..] + rest);
    w, error := w0, 0;
    var code := r.bufin[r.ip + irCODE];
    assert ps[0 + 1..] == ps[1..];
    while code != 3
      invariant q < |ps| && Facing(r, ps[q], ps[q + 1..] + rest) && code == CodeAt(q, |ps|)
      invariant Joined(w, rec, AllSegs(ps), |AllSegs(ps[..q + 1])|, i, open, merged, bs)
      invariant bs != [] && ildh == RECHEADLEN + |Flat(bs[..|bs| - 1])|
      invariant |w| >= RECHEADLEN && (q == 0 ==> w[..RECHEADLEN] == ps[0].hd)
      invariant q > 0 ==> w[..RECHEADLEN] == ps[0].hd[irNWRD := |w| - RECHEADLEN]
      decreases |ps| - q
    {
      error, code, w, ildh, i, open, merged, bs := JoinOn(r, w, ildh, rec, ps, rest, q, i, open, merged, bs);
      if error != 0 {
        return;
      }
      q := q + 1;
    }
    PieceAt(ps, rec, q);
    FacingAt(r, ps[q], ps[q + 1..] + rest);
    JoinedAll(w, rec, AllSegs(ps), i, open, merged, bs);
    assert ps[q + 1..] + rest == rest;
    Pass(r, r.bufin[r.ip + irNWRD] + RECHEADLEN, ps[q], rest);
  }

  /** The next piece is read and joined. */
  method JoinOn(r: DdReader, w0: seq<int>, ildh0: int, ghost rec: Record, ghost ps: seq<Record>,
                ghost rest: seq<Record>, ghost q: nat, ghost i0: nat, ghost open0: Option<Segment>, ghost merged0: bool,
                ghost bs0: seq<Segment>)
    returns (error: int, code: int, w: seq<int>, ildh: int, ghost i: nat, ghost open: Option<Segment>,
             ghost merged: bool, ghost bs: seq<Segment>)
    requires q + 1 < |ps| && bs0 != [] && ildh0 == RECHEADLEN + |Flat(bs0[..|bs0| - 1])|
    requires |w0| >= RECHEADLEN == |ps[0].hd|
    requires (w0[..RECHEADLEN] == ps[0].hd || w0[..RECHEADLEN] == ps[0].hd[irNWRD := |w0| - RECHEADLEN])
    requires Facing(r, ps[q], ps[q + 1..] + rest)
    requires Joined(w0, rec, AllSegs(ps), |AllSegs(ps[..q + 1])|, i0, open0, merged0, bs0)
    requires Pieces(ps, rec) && RecOk(rec)
    modifies r
    ensures error != 0 ==>
              && error == EBIO_NOTCONTCODE && !NoMiddle(AllSegs(ps)) && r.Valid() && r.Rest() != []
              && Blocks(r.Rest()[0])
              && Stuck(SearchOf(r))
    ensures error == 0 ==>
              && Facing(r, ps[q + 1], ps[q + 2..] + rest) && code == CodeAt(q + 1, |ps|)
              && Joined(w, rec, AllSegs(ps), |AllSegs(ps[..q + 2])|, i, open, merged, bs)
              && bs != [] && ildh == RECHEADLEN + |Flat(bs[..|bs| - 1])|
              && |w| >= RECHEADLEN && w[..RECHEADLEN] == ps[0].hd[irNWRD := |w| - RECHEADLEN]
  {
    hide Flat, AllSegs, Got, Assemble, Pieces, Joint, RecOk, Joined, Facing, Banks, NoMiddle, IsPiece, SegsOk,
         DdReader.Valid, DdReader.Rest;
    hide Blocks, Stuck;
    PieceAt(ps, rec, 0);
    PieceAt(ps, rec, q);
    FacingAt(r, ps[q], ps[q + 1..] + rest);
    NextPieceThere(ps, rest, q);
    error := NextBlock(r, ps[q + 1..] + rest);
    PieceAt(ps, rec, q + 1);
    FacingAt(r, ps[q + 1], ps[q + 2..] + rest);
    code := r.bufin[2 + irCODE];
    error, w, ildh, i, open, merged,
        bs := JoinNext(r, w0, ildh0, rec, ps, ps[q + 2..] + rest, q + 1, i0, open0, merged0, bs0);
    if error != 0 {
      MergedMiddle(w0, rec, AllSegs(ps), |AllSegs(ps[..q + 1])|, i0, open0, merged0, bs0);
      LeftStuck(r, ps, ps[q + 2..] + rest, q + 1);
      return;
    }
    SetCount(w, ps[0].hd, w0, |w0| - RECHEADLEN);
    JoinedHeader(w, w[irNWRD := |w| - RECHEADLEN], rec, AllSegs(ps), |AllSegs(ps[..q + 2])|, i, open, merged, bs);
    w := w[irNWRD := |w| - RECHEADLEN];
  }

  /** A piece other than the first has been read last. */
  lemma LeftStuck(r: DdReader, ps: seq<Record>, t: seq<Record>, q: nat)
    requires 0 < q < |ps| && Facing(r, ps[q], t) && |ps[q].hd| == RECHEADLEN && ps[q].hd[irCODE] == CodeAt(q, |ps|)
    ensures r.Valid() && r.Rest() != [] && Blocks(r.Rest()[0]) && Stuck(SearchOf(r))
  {
    hide Flat, Pack, Concat, Facing, DdReader.Valid, DdReader.Rest;
    RestFacing(r, ps[q], t);
    FacingAt(r, ps[q], t);
  }

  lemma NextPieceThere(ps: seq<Record>, rest: seq<Record>, q: nat)
    requires q + 1 < |ps|
    ensures var t := ps[q + 1..] + rest; t != [] && t[0] == ps[q + 1] && t[1..] == ps[q + 2..] + rest
  {
    assert ps[q + 1..][1..] == ps[q + 2..];
  }

  lemma MergedMiddle(w: seq<int>, rec: Record, ds: seq<Segment>, k: nat, i: nat, open: Option<Segment>, merged: bool,
                     bs: seq<Segment>)
    requires Joined(w, rec, ds, k, i, open, merged, bs) && merged
    ensures !NoMiddle(ds)
  {
    hide Flat;
    GotCount(rec, ds, k, i, open);
    var j :| 0 <= j < k && !(|ds[..k][j].hd| >= 9 && ds[..k][j].hd[idCODE] != 2);
    assert ds[..k][j] == ds[j];
  }

  lemma SetCount(w: seq<int>, h: seq<int>, w1: seq<int>, v: int)
    requires |w| >= RECHEADLEN && |w1| >= RECHEADLEN && |h| == RECHEADLEN && w[..RECHEADLEN] == w1[..RECHEADLEN]
    requires w1[..RECHEADLEN] == h || w1[..RECHEADLEN] == h[irNWRD := v]
    ensures w[irNWRD := |w| - RECHEADLEN][..RECHEADLEN] == h[irNWRD := |w| - RECHEADLEN]
  {
    assert w[irNWRD := |w| - RECHEADLEN][..RECHEADLEN] == w[..RECHEADLEN][irNWRD := |w| - RECHEADLEN];
  }

  lemma JoinedHeader(w: seq<int>, w': seq<int>, rec: Record, ds: seq<Segment>, k: nat, i: nat, open: Option<Segment>,
                     merged: bool, bs: seq<Segment>)
    requires Joined(w, rec, ds, k, i, open, merged, bs) && |w| >= RECHEADLEN && w' == w[irNWRD := |w| - RECHEADLEN]
    ensures Joined(w', rec, ds, k, i, open, merged, bs)
  {
    hide Flat, Got, RecOk;
    assert w'[RECHEADLEN..] == w[RECHEADLEN..];
  }

  /** All data segments are joined: the banks are those of the record. */
  lemma JoinedAll(w: seq<int>, rec: Record, ds: seq<Segment>, i: nat, open: Option<Segment>, merged: bool,
                  bs: seq<Segment>)
    requires Joined(w, rec, ds, |ds|, i, open, merged, bs)
    ensures NoMiddle(ds) && bs == rec.segs && |w| == RECHEADLEN + |Flat(rec.segs)| && w[RECHEADLEN..] == Flat(rec.segs)
  {
    hide Flat;
    GotAll(rec, ds, |ds|, i, open);
    assert ds[..|ds|] == ds && rec.segs[..i] == rec.segs && rec.segs + [] == rec.segs;
  }

  /** The record header is cleaned. */
  function Cleaned(w: seq<int>): seq<int>
    requires |w| >= RECHEADLEN
  {
    w[irFORG := DDFORG][irNRSG := CTruncHundred(w[irNRSG])][irNPHYS := 0][irCODE := 0]
  }

  lemma CleanedDelivers(w: seq<int>, rec: Record, h: seq<int>)
    requires RecOk(rec) && |w| == RECHEADLEN + |Flat(rec.segs)| && w[RECHEADLEN..] == Flat(rec.segs)
    requires |h| == RECHEADLEN && SameEvent(rec.hd, h) && w[..RECHEADLEN] == h[irNWRD := |Flat(rec.segs)|]
    ensures Delivered(Cleaned(w), |w|, rec) && |Cleaned(w)| == |w| && HeadFrom(Cleaned(w), h, 24)
  {
    hide Flat, RecOk;
    var u := Cleaned(w);
    assert u[RECHEADLEN..] == w[RECHEADLEN..] && u[RECHEADLEN..|w|] == u[RECHEADLEN..];
    assert forall i :: 0 <= i < RECHEADLEN ==> w[i] == w[..RECHEADLEN][i];
  }

  /**
   Takes the next record from the file (ddGetLogRec).  It is the record that etRead delivers, if and
   only if no bank is in more than two data segments; otherwise there is an error, and the reader stands on
   a segment that continues a record.  With the reader there the call does not return.
   */
  method DdGetLogRec(r: DdReader, ghost skip: seq<Record>, ghost ps: seq<Record>, ghost rest: seq<Record>,
                     ghost rec: Record) returns (error: int, forever: bool, lost: bool, bufp: seq<int>, evlen: int)
    requires r.Valid() && r.Rest() == skip + ps + rest && AllSkipped(skip)
    requires ps == [] && rest != [] ==> Blocks(rest[0]) || Deceives(rest[0])
    requires ps != [] ==> Pieces(ps, rec) && RecOk(rec)
    modifies r
    ensures forever <==> !Ends(r.file, old(SearchOf(r)))
    ensures ps == [] && rest == [] ==> error == EBIO_EOF && !forever && !lost && r.Valid() && r.Rest() == []
    ensures ps == [] && rest != [] ==>
              && (forever <==> Blocks(rest[0]))
              && (Deceives(rest[0]) ==> lost || error == EBIO_WRONGSEGMCODE)
    ensures (forever ==> Stuck(SearchOf(r)) && error == 0) && (lost ==> error == 0)
    ensures ps != [] ==>
              && !forever && !lost && SegsOk(AllSegs(ps)) && (error == 0 <==> |ps| == 1 || NoMiddle(AllSegs(ps)))
              && (error != 0 ==>
                    && error == EBIO_NOTCONTCODE && r.Valid() && r.Rest() != [] && Blocks(r.Rest()[0])
                    && Stuck(SearchOf(r)))
    ensures ps != [] && error == 0 ==> r.Valid() && r.Rest() == rest && Delivered(bufp, evlen, rec) && evlen == |bufp|
    ensures ps != [] && error == 0 ==> HeadFrom(bufp, ps[0].hd, 24)
  {
    hide Flat, AllSegs, Pieces, Joined, RecOk, NoMiddle, Delivered, Facing, Cleaned, SameEvent, DdReader.Valid,
         DdReader.Rest;
    hide Ends, Stuck, AllSkipped, Blocks, Deceives;
    bufp, evlen := [], 0;
    if ps != [] { FirstPiece(ps, rec); }
    error, forever, lost := Find(r, skip, ps, rest);
    if error != 0 || forever || lost {
      return;
    }
    PieceAt(ps, rec, 0);
    FacingAt(r, ps[0], ps[1..] + rest);
    if r.bufin[r.ip + irCODE] == 1 {
      SplitLength(ps);
      var w, ildh;
      ghost var i, open;
      w, ildh, i, open := TakeFirst(r, rec, ps, ps[1..] + rest);
      error, bufp := JoinAll(r, w, ildh, rec, ps, rest, i, open);
      if error != 0 {
        return;
      }
      CleanedDelivers(bufp, rec, ps[0].hd);
    } else {
      var len := r.bufin[r.ip + irNWRD] + RECHEADLEN;
      bufp := r.bufin[r.ip..r.ip + len];
      WholeWords(bufp, r.bufin, r.ip, ps[0]);
      assert ps[1..] + rest == rest;
      Pass(r, len, ps[0], rest);
      CleanedDelivers(bufp, rec, ps[0].hd);
    }
    bufp := Cleaned(bufp);
    evlen := |bufp|;
  }

  lemma SplitLength(ps: seq<Record>)
    requires ps != [] && |ps[0].hd| == RECHEADLEN && ps[0].hd[irCODE] == 1 && ps[0].hd[irCODE] == CodeAt(0, |ps|)
    ensures |ps| >= 2
  {
  }

  lemma WholeWords(w: seq<int>, blk: seq<int>, ip: int, c: Record)
    requires RecOk(c) && 0 <= ip && ip + RECHEADLEN + |Flat(c.segs)| <= |blk|
    requires w == blk[ip..ip + RECHEADLEN + |Flat(c.segs)|]
    requires blk[ip..ip + RECHEADLEN] == c.hd && blk[ip + RECHEADLEN..ip + RECHEADLEN + |Flat(c.segs)|] == Flat(c.segs)
    ensures |w| == RECHEADLEN + |Flat(c.segs)| && w[RECHEADLEN..] == Flat(c.segs) && |c.hd| == RECHEADLEN
    ensures w[..RECHEADLEN] == c.hd[irNWRD := |Flat(c.segs)|]
  {
    hide Flat;
    assert w[..RECHEADLEN] == c.hd;
    assert c.hd[irNWRD := |Flat(c.segs)|] == c.hd;
  }
}
