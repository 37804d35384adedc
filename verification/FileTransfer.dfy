/**
 What is written to a file is read back: etWrite and etFlush in any order, then etRead until the
 end of the file.
 */
module FileTransfer {
  import opened Segments
  import opened EtWriting
  import opened EtReading
  import opened DdReading
  import Slices

  /** A call of etWrite with an event buffer, or of etFlush. */
  datatype Step = Write(ev: seq<int>) | Flush

  /** The event buffers that are written. */
  function Events(steps: seq<Step>): (evs: seq<seq<int>>)
    ensures |evs| <= |steps|
  {
    if steps == [] then []
    else
      var l := steps[|steps| - 1];
      Events(steps[..|steps| - 1]) + if l.Write? then [l.ev] else []
  }

  ghost predicate AllHeld(evs: seq<seq<int>>, recs: seq<Record>) {
    |evs| == |recs| && forall i :: 0 <= i < |evs| ==> Holds(evs[i], recs[i])
  }

  /** A flush behind a flush, once something has been written. */
  predicate EmptyFlush(steps: seq<Step>, i: int) {
    0 < i < |steps| && steps[i].Flush? && steps[i - 1].Flush? && Events(steps[..i]) != []
  }

  predicate NoEmptyFlush(steps: seq<Step>) {
    forall i :: 0 <= i < |steps| ==> !EmptyFlush(steps, i)
  }

  lemma EventsMore(steps: seq<Step>, i: nat)
    requires i < |steps|
    ensures Events(steps[..i + 1]) == Events(steps[..i]) + if steps[i].Write? then [steps[i].ev] else []
  {
    assert steps[..i + 1][..i] == steps[..i];
  }

  lemma {:induction false} EventsUpTo(steps: seq<Step>, i: nat)
    requires i <= |steps|
    ensures Events(steps[..i]) <= Events(steps)
    decreases |steps| - i
  {
    if i == |steps| {
      assert steps[..i] == steps;
    } else {
      EventsMore(steps, i);
      EventsUpTo(steps, i + 1);
    }
  }

  // ---- The stream of record segments --------------------------------------------------------------------

  /** `pss[i]` are the pieces in which record `recs[i]` is in the file. */
  ghost predicate Written(pss: seq<seq<Record>>, recs: seq<Record>) {
    |pss| == |recs| && forall i :: 0 <= i < |recs| ==> Pieces(pss[i], recs[i])
  }

  lemma WrittenMore(pss: seq<seq<Record>>, recs: seq<Record>, rec: Record, ps: seq<Record>)
    requires Written(pss, recs) && Pieces(ps, rec)
    ensures Written(pss + [ps], recs + [rec])
  {
    hide Pieces;
  }

  /** Records in their pieces, with what blocks without records leave before, between and behind them. */
  ghost function Woven(gaps: seq<seq<Record>>, pss: seq<seq<Record>>): seq<Record>
    requires |gaps| == |pss| + 1
  {
    if pss == [] then gaps[0] else gaps[0] + pss[0] + Woven(gaps[1..], pss[1..])
  }

  lemma {:induction false} WovenGap(gaps: seq<seq<Record>>, pss: seq<seq<Record>>, c: seq<Record>)
    requires |gaps| == |pss| + 1
    ensures Woven(gaps[|pss| := gaps[|pss|] + c], pss) == Woven(gaps, pss) + c
  {
    if pss == [] {
    } else {
      assert gaps[|pss| := gaps[|pss|] + c][1..] == gaps[1..][|pss| - 1 := gaps[|pss|] + c];
      WovenGap(gaps[1..], pss[1..], c);
      Slices.Assoc(gaps[0] + pss[0], Woven(gaps[1..], pss[1..]), c);
    }
  }

  lemma {:induction false} WovenRecord(gaps: seq<seq<Record>>, pss: seq<seq<Record>>, ps: seq<Record>)
    requires |gaps| == |pss| + 1
    ensures Woven(gaps + [[]], pss + [ps]) == Woven(gaps, pss) + ps
  {
    if pss == [] {
      assert (gaps + [[]])[1..] == [[]] && (pss + [ps])[1..] == [];
      assert gaps[0] + ps + [] == gaps[0] + ps;
    } else {
      assert (gaps + [[]])[1..] == gaps[1..] + [[]] && (pss + [ps])[1..] == pss[1..] + [ps];
      WovenRecord(gaps[1..], pss[1..], ps);
      Slices.Assoc(gaps[0] + pss[0], Woven(gaps[1..], pss[1..]), ps);
    }
  }

  /** What blocks without records leave. */
  ghost predicate AllLeavings(gap: seq<Record>) {
    forall i :: 0 <= i < |gap| ==> gap[i].segs == [] && |gap[i].hd| == RECHEADLEN
  }

  ghost predicate Gaps(gaps: seq<seq<Record>>) {
    forall k :: 0 <= k < |gaps| ==> AllLeavings(gaps[k])
  }

  /** The stream has none of certain segments. */
  ghost predicate Free(s: seq<Record>, bad: Record -> bool) {
    forall i :: 0 <= i < |s| ==> !bad(s[i])
  }

  /** Nothing in the stream misleads a reader. */
  ghost predicate Clear(s: seq<Record>) {
    Free(s, Misleads)
  }

  /** Every segment of the stream has banks. */
  ghost predicate Solid(s: seq<Record>) {
    forall i :: 0 <= i < |s| ==> s[i].segs != []
  }

  lemma FreeSum(a: seq<Record>, b: seq<Record>, bad: Record -> bool)
    ensures Free(a + b, bad) <==> Free(a, bad) && Free(b, bad)
  {
    var s := a + b;
    if Free(s, bad) {
      forall i | 0 <= i < |a| ensures !bad(a[i]) { assert s[i] == a[i]; }
      forall i | 0 <= i < |b| ensures !bad(b[i]) { assert s[|a| + i] == b[i]; }
    }
  }

  lemma SolidSum(a: seq<Record>, b: seq<Record>)
    ensures Solid(a + b) <==> Solid(a) && Solid(b)
  {
    var s := a + b;
    if Solid(s) {
      forall i | 0 <= i < |a| ensures a[i].segs != [] { assert s[i] == a[i]; }
      forall i | 0 <= i < |b| ensures b[i].segs != [] { assert s[|a| + i] == b[i]; }
    }
  }

  lemma PiecesAre(ps: seq<Record>, rec: Record)
    requires Pieces(ps, rec)
    ensures ps != [] && RecsOk(ps) && Solid(ps) && Clear(ps)
  {
    forall i | 0 <= i < |ps| ensures ps[i].segs != [] { assert RecOk(ps[i]); }
  }

  /** In a gap, leftover words are those that a reader goes past, up to the first that mislead it. */
  lemma GapSplit(gap: seq<Record>) returns (j: nat)
    requires AllLeavings(gap)
    ensures j <= |gap| && Leftover(gap[..j]) && (j < |gap| ==> Misleads(gap[j])) && (j == |gap| <==> Clear(gap))
  {
    j := 0;
    while j < |gap| && !Misleads(gap[j])
      invariant j <= |gap| && forall i :: 0 <= i < j ==> PassedBy(gap[i]) && !Misleads(gap[i])
    {
      j := j + 1;
    }
  }

  // ---- The blocks ---------------------------------------------------------------------------------------------

  /** A block that was written without a record segment. */
  predicate NothingIn(blk: seq<int>) {
    |blk| >= 2 && blk[1] == 2
  }

  /** Whether a reader goes past a block. */
  ghost predicate GoesPast(blk: seq<int>) {
    |blk| >= 2 + RECHEADLEN && (NothingIn(blk) ==> PassedBy(Leavings(blk)))
  }

  /** What a block without records leaves is not of a certain kind. */
  ghost predicate Harmless(blk: seq<int>, bad: Record -> bool) {
    |blk| >= 2 + RECHEADLEN && (NothingIn(blk) ==> !bad(Leavings(blk)))
  }

  lemma BlockFree(n: int, blk: seq<int>, rs: seq<Record>, bad: Record -> bool)
    requires Laid(n, blk, rs) && n >= 83 && forall c :: bad(c) ==> c.segs == []
    ensures |blk| == n && (Free(rs, bad) <==> Harmless(blk, bad)) && (Solid(rs) <==> !NothingIn(blk)) && rs != []
    ensures NothingIn(blk) ==> rs == [Leavings(blk)]
  {
    if Renders(n, blk, rs) {
      FilledUsed(n, blk, rs);
      forall i | 0 <= i < |rs| ensures rs[i].segs != [] { assert RecOk(rs[i]); }
    } else {
      assert rs[0] == Leavings(blk);
    }
  }

  lemma BlockClear(n: int, blk: seq<int>, rs: seq<Record>)
    requires Laid(n, blk, rs) && n >= 83
    ensures |blk| == n && (Clear(rs) <==> GoesPast(blk)) && (Solid(rs) <==> !NothingIn(blk)) && rs != []
    ensures NothingIn(blk) ==> rs == [Leavings(blk)]
  {
    hide Laid;
    BlockFree(n, blk, rs, Misleads);
  }

  lemma {:induction false} FileFree(n: int, file: seq<seq<int>>, blocks: seq<seq<Record>>, bad: Record -> bool)
    requires AllLaid(n, file, blocks) && n >= 83 && forall c :: bad(c) ==> c.segs == []
    ensures Free(Concat(blocks), bad) <==> forall k :: 0 <= k < |file| ==> Harmless(file[k], bad)
    ensures Solid(Concat(blocks)) <==> forall k :: 0 <= k < |file| ==> !NothingIn(file[k])
    ensures forall k :: 0 <= k < |file| ==> |file[k]| == n
  {
    hide Laid, Solid, NothingIn, Free, Harmless;
    if blocks == [] {
      NothingFree(bad);
    } else {
      var c, f, l := blocks[..|blocks| - 1], file[..|file| - 1], |file| - 1;
      FileFree(n, f, c, bad);
      BlockFree(n, file[l], blocks[l], bad);
      FreeSum(Concat(c), blocks[l], bad);
      SolidSum(Concat(c), blocks[l]);
      assert forall k :: 0 <= k < |file| ==> file[k] == if k < l then f[k] else file[l];
    }
  }

  lemma FileClear(n: int, file: seq<seq<int>>, blocks: seq<seq<Record>>)
    requires AllLaid(n, file, blocks) && n >= 83
    ensures Clear(Concat(blocks)) <==> forall k :: 0 <= k < |file| ==> GoesPast(file[k])
    ensures Solid(Concat(blocks)) <==> forall k :: 0 <= k < |file| ==> !NothingIn(file[k])
    ensures forall k :: 0 <= k < |file| ==> |file[k]| == n
  {
    hide Laid, Solid, Free;
    FileFree(n, file, blocks, Misleads);
    forall k | 0 <= k < |file| ensures GoesPast(file[k]) <==> Harmless(file[k], Misleads) {
    }
  }

  lemma NothingFree(bad: Record -> bool)
    ensures Free([], bad) && Solid([])
  {
  }

  /** The words in a block without records are those of the last block but one, header and all. */
  lemma LeavingsAre(n: int, file: seq<seq<int>>, blocks: seq<seq<Record>>, j: nat)
    requires AllLaid(n, file, blocks) && n >= 83 && Alternating(file) && 2 <= j < |file| && NothingIn(file[j])
    ensures blocks[j - 2] != [] && |blocks[j - 2][0].hd| == RECHEADLEN
    ensures Leavings(file[j]).hd == blocks[j - 2][0].hd
    ensures RecOk(blocks[j - 2][0]) ==>
        (GoesPast(file[j]) <==> blocks[j - 2][0].hd[irCODE] == 2 || blocks[j - 2][0].hd[irCODE] == 3)
  {
    hide Pack, Flat;
    var k := j - 2;
    assert Laid(n, file[k], blocks[k]) && Laid(n, file[j], blocks[j]);
    BlockClear(n, file[k], blocks[k]);
    BlockClear(n, file[j], blocks[j]);
    assert file[j][2..] == file[k][2..];
    assert file[j][2..2 + RECHEADLEN] == file[j][2..][..RECHEADLEN] == file[k][2..2 + RECHEADLEN];
    FirstHeader(n, file[k], blocks[k]);
  }

  lemma FirstHeader(n: int, blk: seq<int>, rs: seq<Record>)
    requires Laid(n, blk, rs) && n >= 83
    ensures |blk| == n && rs != [] && blk[2..2 + RECHEADLEN] == rs[0].hd && (RecOk(rs[0]) ==> rs[0].hd[irNWRD] >= 0)
  {
    hide Flat;
    if Renders(n, blk, rs) {
      NothingPacked(rs);
      SegmentAt(n, blk, rs, 0, 2);
    }
  }

  // ---- Where records lie --------------------------------------------------------------------------------------

  /**
   A record lies in the file from block number `block` on, as it was given or in segments with the header words of
   the writer: pattern, format, the number of the segment in the record, and that of the block in hundreds, from
   which one is taken where a record goes on.
   */
  ghost predicate LiesFrom(sent: seq<seq<Record>>, here: seq<Record>, ps: seq<Record>, rec: Record, block: nat) {
    && block > 0 && ps != [] && (forall j :: 0 <= j < |ps| ==> InBlock(sent, here, block - 1 + j, ps[j]))
    && (ps == [rec]
        || forall j :: 0 <= j < |ps| ==>
             && |ps[j].hd| == 11 && ps[j].hd[0] == 0x0403_0201 && ps[j].hd[1] == 64 && ps[j].hd[7] == j
             && if j == 0 then 0 <= ps[j].hd[2] - 100 * block <= 1 else ps[j].hd[2] == 100 * (block + j) - 1)
  }

  lemma LiesStill(sent: seq<seq<Record>>, here: seq<Record>, sent': seq<seq<Record>>, here': seq<Record>,
                  ps: seq<Record>, rec: Record, block: nat)
    requires LiesFrom(sent, here, ps, rec, block) && Later(sent, here, sent', here')
    ensures LiesFrom(sent', here', ps, rec, block)
  {
    hide InBlock, Later;
    forall j | 0 <= j < |ps| ensures InBlock(sent', here', block - 1 + j, ps[j]) {
      InLater(sent, here, sent', here', block - 1 + j, ps[j]);
    }
  }

  /** All records so far. */
  ghost predicate AllLie(sent: seq<seq<Record>>, here: seq<Record>, pss: seq<seq<Record>>, recs: seq<Record>,
                         places: seq<nat>) {
    |pss| == |recs| == |places| && forall i :: 0 <= i < |pss| ==> LiesFrom(sent, here, pss[i], recs[i], places[i])
  }

  lemma AllLieStill(sent: seq<seq<Record>>, here: seq<Record>, sent': seq<seq<Record>>, here': seq<Record>,
                    pss: seq<seq<Record>>, recs: seq<Record>, places: seq<nat>)
    requires AllLie(sent, here, pss, recs, places) && Later(sent, here, sent', here')
    ensures AllLie(sent', here', pss, recs, places)
  {
    hide LiesFrom, Later;
    forall i | 0 <= i < |pss| ensures LiesFrom(sent', here', pss[i], recs[i], places[i]) {
      LiesStill(sent, here, sent', here', pss[i], recs[i], places[i]);
    }
  }

  lemma AllLieMore(sent: seq<seq<Record>>, here: seq<Record>, pss: seq<seq<Record>>, recs: seq<Record>,
                   places: seq<nat>, ps: seq<Record>, rec: Record, block: nat)
    requires AllLie(sent, here, pss, recs, places) && LiesFrom(sent, here, ps, rec, block)
    ensures AllLie(sent, here, pss + [ps], recs + [rec], places + [block])
  {
    hide LiesFrom;
  }

  /** A record that has been split. */
  lemma SplitLies(sent: seq<seq<Record>>, here: seq<Record>, ps: seq<Record>, rec: Record, m: Mark)
    requires Stands(sent, here, ps, m) && !m.bos && 0 <= m.nrsg - 100 * m.block <= 1 && ps != []
    ensures LiesFrom(sent, here, ps, rec, m.block)
  {
    hide InBlock;
  }

  /**
   What a reader makes of the header words: those of the record as it was given, or the pattern, the format and the
   number of the block in hundreds.
   */
  ghost predicate HeaderGiven(e: seq<int>, ps: seq<Record>, rec: Record, block: nat, dd: bool) {
    && |e| >= 11 && |rec.hd| == 11
    && if ps == [rec] then HeadFrom(e, rec.hd, if dd then 24 else rec.hd[1])
       else e[0] == 0x0403_0201 && e[1] == (if dd then 24 else 64) && e[2] == 100 * block
  }

  lemma HeaderIs(e: seq<int>, sent: seq<seq<Record>>, here: seq<Record>, ps: seq<Record>, rec: Record, block: nat,
                 dd: bool)
    requires LiesFrom(sent, here, ps, rec, block) && |ps[0].hd| == 11 && |rec.hd| == 11
    requires HeadFrom(e, ps[0].hd, if dd then 24 else ps[0].hd[1])
    ensures HeaderGiven(e, ps, rec, block, dd)
  {
  }

  // ---- Writing --------------------------------------------------------------------------------------------------

  ghost predicate Wrote(steps: seq<Step>, w: BlockWriter, evs: seq<seq<int>>, s: seq<Record>)
    requires w.Valid()
    reads w, w.buf
  {
    && w.over == 0 && !w.spoiled && (w.ip == 0 <==> evs == []) && Few(w)
    && (w.here != [] <==> steps != [] && steps[|steps| - 1].Write?)
    && (Solid(s) <==> NoEmptyFlush(steps))
  }

  lemma FlushSeen(steps: seq<Step>, i: nat)
    requires i < |steps|
    ensures NoEmptyFlush(steps[..i + 1]) <==> NoEmptyFlush(steps[..i]) && !EmptyFlush(steps, i)
  {
    var a, b := steps[..i + 1], steps[..i];
    assert forall j :: 0 < j < i ==> a[..j] == b[..j];
    assert a[..i] == steps[..i];
    assert forall j :: 0 < j < i ==> (EmptyFlush(a, j) <==> EmptyFlush(b, j));
    assert EmptyFlush(a, i) <==> EmptyFlush(steps, i);
  }

  lemma Begin(w: BlockWriter, steps: seq<Step>)
    requires w.Valid() && w.ip == 0 && w.sent == [] && w.here == [] && w.over == 0 && !w.spoiled
    ensures Wrote(steps[..0], w, Events(steps[..0]), w.Stream()) && w.Stream() == Woven([[]], [])
  {
    NothingFree(Misleads);
    assert w.Stream() == [];
  }

  method WriteStep(w: BlockWriter, ev: seq<int>, ghost rec: Record, ghost steps: seq<Step>, ghost k: nat)
    returns (error: int, ghost ps: seq<Record>, ghost block: nat)
    requires w.Valid() && Holds(ev, rec) && k < |steps| && steps[k] == Write(ev)
    requires Wrote(steps[..k], w, Events(steps[..k]), w.Stream())
    modifies w, w.buf
    ensures Later(old(w.sent), old(w.here), w.sent, w.here) && LiesFrom(w.sent, w.here, ps, rec, block)
    ensures w.Valid() && Pieces(ps, rec) && w.Stream() == old(w.Stream()) + ps
    ensures Wrote(steps[..k + 1], w, Events(steps[..k + 1]), w.Stream())
  {
    hide Holds, Pieces, Solid, AllLaid, Alternating, Pack, Events, Later, Stands, LiesFrom, Segments.Flat, InBlock;
    ghost var whole := w.n - (if w.ip == 0 then 2 else w.ip) > RECHEADLEN + |Segments.Flat(rec.segs)|;
    error, ps := EtWrite(w, ev, rec);
    PiecesAre(ps, rec);
    if whole {
      block := |w.sent| + 1;
      WholeLies(w.sent, w.here, rec);
    } else {
      block := w.mark.block;
      SplitLies(w.sent, w.here, ps, rec, w.mark);
    }
    SolidSum(old(w.Stream()), ps);
    FlushSeen(steps, k);
    EventsMore(steps, k);
    SomeEvent(w);
  }

  lemma WholeLies(sent: seq<seq<Record>>, here: seq<Record>, rec: Record)
    requires InBlock(sent, here, |sent|, rec)
    ensures LiesFrom(sent, here, [rec], rec, |sent| + 1)
  {
  }

  lemma SomeEvent(w: BlockWriter)
    requires w.Valid() && w.here != []
    ensures w.ip != 0
  {
  }

  method FlushStep(w: BlockWriter, ghost steps: seq<Step>, ghost k: nat) returns (ghost c: seq<Record>)
    requires w.Valid() && k < |steps| && steps[k].Flush? && Wrote(steps[..k], w, Events(steps[..k]), w.Stream())
    modifies w, w.buf
    ensures w.Valid() && AllLeavings(c) && w.Stream() == old(w.Stream()) + c
    ensures Later(old(w.sent), old(w.here), w.sent, w.here)
    ensures Wrote(steps[..k + 1], w, Events(steps[..k + 1]), w.Stream())
  {
    hide Solid, AllLaid, Alternating, Pack, Events, BlockWriter.Valid;
    c := Flushed(w);
    FlushSeen(steps, k);
    EventsMore(steps, k);
    FlushedIs(w, steps, k);
    SolidSum(w.Stream(), c);
    var error := EtFlush(w);
    assert steps[..k + 1][|steps[..k + 1]| - 1] == steps[k];
  }

  /** A flush gives a block without records exactly if it follows another flush. */
  lemma FlushedIs(w: BlockWriter, steps: seq<Step>, k: nat)
    requires w.Valid() && k < |steps| && steps[k].Flush? && Wrote(steps[..k], w, Events(steps[..k]), w.Stream())
    ensures AllLeavings(Flushed(w)) && (Solid(Flushed(w)) <==> !EmptyFlush(steps, k))
  {
    hide AllLaid, Alternating, Pack, Events;
    NothingFree(Misleads);
    if k > 0 { assert steps[..k][|steps[..k]| - 1] == steps[k - 1]; }
    if k == 0 { NoEvents(); }
    if Flushed(w) != [] { assert Flushed(w)[0].segs == []; }
  }

  lemma NoEvents()
    ensures Events([]) == []
  {
  }

  lemma AtEnd(w: BlockWriter, steps: seq<Step>)
    requires w.Valid() && steps != [] && steps[|steps| - 1].Flush? && Wrote(steps, w, Events(steps), w.Stream())
    ensures AllLaid(w.n, w.file, w.sent) && Alternating(w.file) && w.Stream() == Concat(w.sent)
    ensures Solid(Concat(w.sent)) <==> NoEmptyFlush(steps)
  {
    assert w.Stream() == Concat(w.sent) + [];
  }

  /** What has been written after some steps. */
  ghost predicate Progress(w: BlockWriter, evs: seq<seq<int>>, gaps: seq<seq<Record>>, pss: seq<seq<Record>>,
                           recs: seq<Record>, places: seq<nat>)
    reads w
  {
    && |evs| <= |recs| && |gaps| == |pss| + 1 && Gaps(gaps) && w.Stream() == Woven(gaps, pss)
    && Written(pss, recs[..|evs|]) && AllLie(w.sent, w.here, pss, recs[..|evs|], places)
  }

  /** The next step is a call of etWrite. */
  method NextWrite(w: BlockWriter, ev: seq<int>, ghost steps: seq<Step>, ghost k: nat, ghost gaps: seq<seq<Record>>,
                   ghost pss: seq<seq<Record>>, ghost recs: seq<Record>, ghost places: seq<nat>)
    returns (ghost gaps': seq<seq<Record>>, ghost pss': seq<seq<Record>>, ghost places': seq<nat>)
    requires w.Valid() && k < |steps| && steps[k] == Write(ev) && AllHeld(Events(steps), recs)
    requires Wrote(steps[..k], w, Events(steps[..k]), w.Stream())
    requires Progress(w, Events(steps[..k]), gaps, pss, recs, places)
    modifies w, w.buf
    ensures w.Valid() && Wrote(steps[..k + 1], w, Events(steps[..k + 1]), w.Stream())
    ensures Progress(w, Events(steps[..k + 1]), gaps', pss', recs, places')
  {
    hide Holds, Pieces, Woven, Solid, AllLaid, Alternating, Wrote, Later, LiesFrom, AllLie, Written, BlockWriter.Valid,
         BlockWriter.Stream, Events;
    ghost var sent, here, e := w.sent, w.here, |Events(steps[..k])|;
    EventsMore(steps, k);
    EventsUpTo(steps, k + 1);
    assert ev == Events(steps)[e];
    var error;
    ghost var ps, block;
    error, ps, block := WriteStep(w, ev, recs[e], steps, k);
    WrittenMore(pss, recs[..e], recs[e], ps);
    WovenRecord(gaps, pss, ps);
    AllLieStill(sent, here, w.sent, w.here, pss, recs[..e], places);
    AllLieMore(w.sent, w.here, pss, recs[..e], places, ps, recs[e], block);
    assert recs[..e + 1] == recs[..e] + [recs[e]];
    gaps', pss', places' := gaps + [[]], pss + [ps], places + [block];
  }

  /** The next step is a call of etFlush. */
  method NextFlush(w: BlockWriter, ghost steps: seq<Step>, ghost k: nat, ghost gaps: seq<seq<Record>>,
                   ghost pss: seq<seq<Record>>, ghost recs: seq<Record>, ghost places: seq<nat>)
    returns (ghost gaps': seq<seq<Record>>)
    requires w.Valid() && k < |steps| && steps[k].Flush?
    requires Wrote(steps[..k], w, Events(steps[..k]), w.Stream())
    requires Progress(w, Events(steps[..k]), gaps, pss, recs, places)
    modifies w, w.buf
    ensures w.Valid() && Wrote(steps[..k + 1], w, Events(steps[..k + 1]), w.Stream())
    ensures Progress(w, Events(steps[..k + 1]), gaps', pss, recs, places)
  {
    hide Woven, Solid, AllLaid, Alternating, Wrote, Later, LiesFrom, AllLie, Written, BlockWriter.Valid,
         BlockWriter.Stream, Events;
    ghost var sent, here, e := w.sent, w.here, |Events(steps[..k])|;
    EventsMore(steps, k);
    ghost var c := FlushStep(w, steps, k);
    AllLieStill(sent, here, w.sent, w.here, pss, recs[..e], places);
    WovenGap(gaps, pss, c);
    gaps' := gaps[|pss| := gaps[|pss|] + c];
  }

  /** Carries out the steps. */
  method WriteSteps(n: int, steps: seq<Step>, ghost recs: seq<Record>)
    returns (file: seq<seq<int>>, ghost blocks: seq<seq<Record>>, ghost gaps: seq<seq<Record>>,
             ghost pss: seq<seq<Record>>, ghost places: seq<nat>)
    requires n >= 83 && AllHeld(Events(steps), recs) && steps != [] && steps[|steps| - 1].Flush?
    ensures AllLie(blocks, [], pss, recs, places)
    ensures AllLaid(n, file, blocks) && Alternating(file) && Written(pss, recs) && |gaps| == |pss| + 1 && Gaps(gaps)
    ensures Concat(blocks) == Woven(gaps, pss)
    ensures Solid(Concat(blocks)) <==> NoEmptyFlush(steps)
  {
    hide Holds, Pieces, Woven, Solid, AllLaid, Alternating, Wrote, BlockWriter.Valid, BlockWriter.Stream, AllLie, Gaps;
    var w := new BlockWriter(n);
    gaps, pss, places := [[]], [], [];
    var k := 0;
    Begin(w, steps);
    NoneLie(w, steps, recs);
    while k < |steps|
      invariant 0 <= k <= |steps| && w.Valid() && fresh(w) && fresh(w.buf) && w.n == n
      invariant Progress(w, Events(steps[..k]), gaps, pss, recs, places)
      invariant Wrote(steps[..k], w, Events(steps[..k]), w.Stream())
    {
      match steps[k] {
        case Write(ev) => gaps, pss, places := NextWrite(w, ev, steps, k, gaps, pss, recs, places);
        case Flush => gaps := NextFlush(w, steps, k, gaps, pss, recs, places);
      }
      k := k + 1;
    }
    assert steps[..k] == steps;
    AtEnd(w, steps);
    NothingHere(w, steps);
    assert recs[..|recs|] == recs;
    file, blocks := w.file, w.sent;
  }

  lemma NothingHere(w: BlockWriter, steps: seq<Step>)
    requires w.Valid() && steps != [] && steps[|steps| - 1].Flush? && Wrote(steps, w, Events(steps), w.Stream())
    ensures w.here == []
  {
  }

  lemma NoneLie(w: BlockWriter, steps: seq<Step>, recs: seq<Record>)
    requires w.Stream() == Woven([[]], [])
    ensures Progress(w, Events(steps[..0]), [[]], [], recs, [])
  {
  }

  // ---- Reading --------------------------------------------------------------------------------------------------

  /** One record into a buffer of `ndim` words; what is returned is cut to the record's size. */
  method ReadOne(r: BlockReader, ndim: nat, ghost gap: seq<Record>, ghost ps: seq<Record>, ghost rest: seq<Record>,
                 ghost rec: Record) returns (event: seq<int>, error: int, lost: bool)
    requires r.Valid() && r.Ready() && r.Rest() == gap + ps + rest && AllLeavings(gap)
    requires Pieces(ps, rec) && RecOk(rec) && ndim > RECHEADLEN + |Flat(rec.segs)|
    modifies r
    ensures error == 0 && !lost <==> Clear(gap)
    ensures Clear(gap) ==> r.Valid() && r.Ready() && r.Rest() == rest && Delivered(event, |event|, rec)
    ensures Clear(gap) ==> ps != [] && |ps[0].hd| == 11 && HeadFrom(event, ps[0].hd, ps[0].hd[1])
    ensures !Clear(gap) ==> lost || error == EBIO_WRONGSEGMCODE
  {
    hide Pieces, Flat, RecOk, Delivered, Clear, Misleads, Leftover, HeadFrom, BlockReader.Valid, BlockReader.Rest,
         BlockReader.Ready, Enough, TooSmall;
    var ev := new int[ndim];
    var size;
    ghost var j := GapSplit(gap);
    GapTail(gap, j, ps, rest);
    PiecesAre(ps, rec);
    RoomEnough(ndim, ps, rec);
    error, size, lost := EtRead(r, ev, gap[..j], if j == |gap| then ps else [], if j == |gap| then rest
        else gap[j..] + ps + rest, rec);
    event := [];
    if error == 0 && !lost {
      CutToSize(ev[..], size, rec);
      event := ev[..size];
    }
  }

  lemma GapTail(gap: seq<Record>, j: nat, ps: seq<Record>, rest: seq<Record>)
    requires j <= |gap|
    ensures j == |gap| ==> gap[..j] == gap
    ensures gap + ps + rest == gap[..j] + [] + (gap[j..] + ps + rest)
    ensures j < |gap| ==> gap[j..] + ps + rest != [] && (gap[j..] + ps + rest)[0] == gap[j]
  {
    assert gap == gap[..j] + gap[j..];
  }

  lemma CutToSize(ev: seq<int>, size: int, rec: Record)
    requires Delivered(ev, size, rec)
    ensures 0 <= size <= |ev| && Delivered(ev[..size], |ev[..size]|, rec)
    ensures forall h, forg :: HeadFrom(ev, h, forg) ==> HeadFrom(ev[..size], h, forg)
  {
    hide Flat;
    assert ev[..size][RECHEADLEN..size] == ev[RECHEADLEN..size];
    assert ev[..size][..RECHEADLEN] == ev[..RECHEADLEN];
  }

  /** What is in front of the next record, the record, and the rest. */
  lemma WovenFirst(gaps: seq<seq<Record>>, pss: seq<seq<Record>>, k: nat)
    requires |gaps| == |pss| + 1 && k < |pss|
    ensures Woven(gaps[k..], pss[k..]) == gaps[k] + pss[k] + Woven(gaps[k + 1..], pss[k + 1..])
  {
    assert gaps[k..][1..] == gaps[k + 1..] && pss[k..][1..] == pss[k + 1..];
  }

  lemma WovenFree(gaps: seq<seq<Record>>, pss: seq<seq<Record>>, k: nat, bad: Record -> bool)
    requires |gaps| == |pss| + 1 && k < |pss|
    ensures Free(Woven(gaps[k..], pss[k..]), bad)
            <==> Free(gaps[k], bad) && Free(pss[k], bad) && Free(Woven(gaps[k + 1..], pss[k + 1..]), bad)
  {
    hide Free;
    WovenFirst(gaps, pss, k);
    FreeSum(gaps[k] + pss[k], Woven(gaps[k + 1..], pss[k + 1..]), bad);
    FreeSum(gaps[k], pss[k], bad);
  }

  lemma WovenClear(gaps: seq<seq<Record>>, pss: seq<seq<Record>>, k: nat)
    requires |gaps| == |pss| + 1 && k < |pss|
    ensures Clear(Woven(gaps[k..], pss[k..]))
        <==> Clear(gaps[k]) && Clear(pss[k]) && Clear(Woven(gaps[k + 1..], pss[k + 1..]))
  {
    hide Free;
    WovenFree(gaps, pss, k, Misleads);
  }

  lemma WovenLast(gaps: seq<seq<Record>>, pss: seq<seq<Record>>, k: nat)
    requires |gaps| == |pss| + 1 && k == |pss|
    ensures Woven(gaps[k..], pss[k..]) == gaps[k]
  {
    assert pss[k..] == [];
  }

  /** Behind the last record. */
  method ReadEnd(r: BlockReader, ghost gap: seq<Record>) returns (error: int, lost: bool)
    requires r.Valid() && r.Ready() && r.Rest() == gap && AllLeavings(gap)
    modifies r
    ensures error == EBIO_EOF && !lost <==> Clear(gap)
    ensures !Clear(gap) ==> lost || error == EBIO_WRONGSEGMCODE
  {
    hide Clear, Misleads, Leftover, BlockReader.Valid, BlockReader.Rest, BlockReader.Ready;
    var ev := new int[0];
    var size;
    ghost var j := GapSplit(gap);
    GapTail(gap, j, [], []);
    assert gap + [] + [] == gap && gap[j..] + [] + [] == gap[j..];
    error, size, lost := EtRead(r, ev, gap[..j], [], gap[j..], Record([], []));
  }

  lemma HeaderWidth(rec: Record)
    requires RecOk(rec)
    ensures |rec.hd| == 11
  {
  }

  /** The records in turn, each into a buffer of its own, until one cannot be read. */
  method ReadFile(n: int, file: seq<seq<int>>, sizes: seq<nat>, ghost blocks: seq<seq<Record>>,
                  ghost gaps: seq<seq<Record>>, ghost pss: seq<seq<Record>>, ghost recs: seq<Record>,
                  ghost places: seq<nat>)
    returns (out: seq<seq<int>>, last: int, lost: bool)
    requires AllLie(blocks, [], pss, recs, places)
    ensures forall i :: 0 <= i < |out| && i < |recs| ==> HeaderGiven(out[i], pss[i], recs[i], places[i], false)
    requires AllLaid(n, file, blocks) && |gaps| == |pss| + 1 && Gaps(gaps) && Concat(blocks) == Woven(gaps, pss)
    requires Written(pss, recs)
    requires |sizes| == |recs|
    requires forall i :: 0 <= i < |recs| ==> RecOk(recs[i]) && sizes[i] > RECHEADLEN + |Flat(recs[i].segs)|
    ensures |out| <= |recs| && forall i :: 0 <= i < |out| ==> Delivered(out[i], |out[i]|, recs[i])
    ensures |out| == |recs| && last == EBIO_EOF && !lost <==> Clear(Concat(blocks))
    ensures !Clear(Concat(blocks)) ==> lost || last == EBIO_WRONGSEGMCODE
  {
    hide Pieces, Laid, Pack, Flat, RecOk, Delivered, Concat, Clear, Woven, BlockReader.Valid, BlockReader.Rest,
         BlockReader.Ready, AllLeavings, LiesFrom, HeadFrom, HeaderGiven;
    var r := new BlockReader(n, file, blocks);
    out := [];
    assert pss[0..] == pss && gaps[0..] == gaps;
    while |out| < |sizes|
      invariant |out| <= |recs| && r.Valid() && fresh(r) && r.Ready() && r.Rest() == Woven(gaps[|out|..], pss[|out|..])
      invariant forall i :: 0 <= i < |out| ==> Delivered(out[i], |out[i]|, recs[i])
      invariant forall i :: 0 <= i < |out| ==> HeaderGiven(out[i], pss[i], recs[i], places[i], false)
      invariant Clear(Concat(blocks)) <==> Clear(Woven(gaps[|out|..], pss[|out|..]))
      decreases |sizes| - |out|
    {
      ghost var k := |out|;
      WovenFirst(gaps, pss, k);
      WovenClear(gaps, pss, k);
      assert Pieces(pss[k], recs[k]);
      PiecesAre(pss[k], recs[k]);
      var ev;
      ev, last, lost := ReadOne(r, sizes[|out|], gaps[k], pss[k], Woven(gaps[k + 1..], pss[k + 1..]), recs[k]);
      if last != 0 || lost {
        return;
      }
      HeaderWidth(recs[k]);
      HeaderIs(ev, blocks, [], pss[k], recs[k], places[k], false);
      out := out + [ev];
    }
    WovenLast(gaps, pss, |out|);
    last, lost := ReadEnd(r, gaps[|out|]);
  }

  /**
   For every sequence of etWrite and etFlush, the last a flush, and every block size: etRead gives
   every record back, in order and into any buffers larger than the records, and then the end of
   the file, if and only if it goes past all blocks that were written without a record.  There
   are such blocks if and only if a flush follows a flush; from the third block of the file on
   they have the words of the last block but one.  Header words say where a record lies: `places` has
   the number of the block in which it begins.
   */
  method RoundTrip(n: int, steps: seq<Step>, sizes: seq<nat>, ghost recs: seq<Record>)
    returns (file: seq<seq<int>>, out: seq<seq<int>>, last: int, lost: bool, ghost blocks: seq<seq<Record>>,
             ghost pss: seq<seq<Record>>, ghost places: seq<nat>)
    requires n >= 83 && AllHeld(Events(steps), recs) && |sizes| == |recs| && steps != [] && steps[|steps| - 1].Flush?
    requires forall i :: 0 <= i < |recs| ==> sizes[i] > RECHEADLEN + |Flat(recs[i].segs)|
    ensures |out| <= |recs| && forall i :: 0 <= i < |out| ==> Delivered(out[i], |out[i]|, recs[i])
    ensures |out| == |recs| && last == EBIO_EOF && !lost <==> forall k :: 0 <= k < |file| ==> GoesPast(file[k])
    ensures AllLaid(n, file, blocks) && Written(pss, recs) && AllLie(blocks, [], pss, recs, places)
    ensures forall i :: 0 <= i < |out| ==> HeaderGiven(out[i], pss[i], recs[i], places[i], false)
    ensures (forall k :: 0 <= k < |file| ==> GoesPast(file[k])) || lost || last == EBIO_WRONGSEGMCODE
    ensures (forall k :: 0 <= k < |file| ==> !NothingIn(file[k])) <==> NoEmptyFlush(steps)
    ensures Alternating(file) && forall k :: 0 <= k < |file| ==> |file[k]| == n
  {
    hide Flat, Delivered, Pieces, Holds, Alternating, GoesPast, NothingIn, Clear, Solid, Events, NoEmptyFlush;
    forall i | 0 <= i < |recs| ensures RecOk(recs[i]) {
      assert Holds(Events(steps)[i], recs[i]);
      EventHeader(Events(steps)[i], recs[i]);
    }
    ghost var gaps;
    file, blocks, gaps, pss, places := WriteSteps(n, steps, recs);
    FileClear(n, file, blocks);
    out, last, lost := ReadFile(n, file, sizes, blocks, gaps, pss, recs, places);
  }
  /** Without empty flushes everything is read back. */
  lemma AlwaysPast(file: seq<seq<int>>)
    requires forall k :: 0 <= k < |file| ==> |file[k]| >= 2 + RECHEADLEN && !NothingIn(file[k])
    ensures forall k :: 0 <= k < |file| ==> GoesPast(file[k])
  {
  }

  /** Nothing has been put into the buffer. */
  lemma Idle(w: BlockWriter)
    requires w.Valid() && w.ip != 0 && w.here == [] && w.over == 0
    ensures NothingIn(w.buf[..])
  {
  }

  lemma Filed(w: BlockWriter)
    requires w.Valid() && !w.spoiled
    ensures AllLaid(w.n, w.file, w.sent) && Alternating(w.file)
  {
    hide AllLaid, Alternating;
  }

  lemma OnlyHere(w: BlockWriter, rec: Record)
    requires w.Valid() && w.file == [] && w.Stream() == [] + [rec]
    ensures w.sent == [] && w.here == [rec]
  {
    NoBlocks();
    assert w.Stream() == w.here && [] + [rec] == [rec];
  }

  lemma ThreeBlocks(n: int, file: seq<seq<int>>, blocks: seq<seq<Record>>, rec: Record, ev: seq<int>)
    requires n >= 83 && Holds(ev, rec) && AllLaid(n, file, blocks) && Alternating(file) && |file| == 3
    requires blocks[0] == [rec] && NothingIn(file[2])
    ensures file[2][2..] == file[0][2..] && Misleads(Leavings(file[2])) && !GoesPast(file[2])
  {
    hide Flat, Pack, Renders;
    EventHeader(ev, rec);
    LeavingsAre(n, file, blocks, 2);
    BlockClear(n, file[0], blocks[0]);
    BlockClear(n, file[2], blocks[2]);
  }

  /** One record and a flush. */
  lemma OneStep(ev: seq<int>)
    ensures Events([Write(ev), Flush]) == [ev] && NoEmptyFlush([Write(ev), Flush])
  {
    var steps := [Write(ev), Flush];
    assert steps[..1] == [Write(ev)] && [Write(ev)][..0] == [];
  }

  /**
   A record that fits into a block, and three flushes: the third block has no record but the
   words of the first, and whoever looks for the end of the file takes them for a record.
   */
  method FlushedAgain(n: int, ev: seq<int>, ghost rec: Record)
    returns (file: seq<seq<int>>, ghost blocks: seq<seq<Record>>)
    requires n >= 83 && Holds(ev, rec) && RECHEADLEN + |Flat(rec.segs)| + 2 < n
    ensures AllLaid(n, file, blocks) && |file| == 3 && blocks[0] == [rec] && NothingIn(file[1]) && NothingIn(file[2])
    ensures file[2][2..] == file[0][2..] && Misleads(Leavings(file[2])) && !GoesPast(file[2])
  {
    hide Flat, Holds, Pieces, Pack, AllLaid, Alternating, Leavings, Misleads, GoesPast, NothingIn, Concat,
         BlockWriter.Valid;
    var w := new BlockWriter(n);
    var error;
    ghost var ps;
    error, ps := EtWrite(w, ev, rec);
    SomeEvent(w);
    OnlyHere(w, rec);
    error := EtFlush(w);
    Idle(w);
    error := EtFlush(w);
    Idle(w);
    error := EtFlush(w);
    Filed(w);
    file, blocks := w.file, w.sent;
    ThreeBlocks(n, file, blocks, rec, ev);
  }

  /** A record without a bank in more than two data segments. */
  ghost predicate Simple(ps: seq<Record>) {
    RecsOk(ps) && (|ps| == 1 || NoMiddle(AllSegs(ps)))
  }

  lemma NoBlocks()
    ensures Concat([]) == []
  {
  }

  /** The segment code that a block without records shows lets the second reader go on. */
  ghost predicate LetsGo(blk: seq<int>) {
    |blk| >= 2 + RECHEADLEN && (NothingIn(blk) ==> blk[2 + irCODE] == 2 || blk[2 + irCODE] == 3)
  }

  /** In a gap the second reader goes past leavings up to the first that deceive it. */
  lemma GapSplitDd(gap: seq<Record>) returns (j: nat)
    requires AllLeavings(gap)
    ensures j <= |gap| && AllSkipped(gap[..j]) && (j < |gap| ==> Deceives(gap[j]))
    ensures (j == |gap| <==> Free(gap, Deceives))
  {
    j := 0;
    while j < |gap| && !Deceives(gap[j])
      invariant j <= |gap| && forall i :: 0 <= i < j ==> Skipped(gap[i]) && !Deceives(gap[i])
    {
      j := j + 1;
    }
  }

  lemma PiecesFree(ps: seq<Record>, rec: Record)
    requires Pieces(ps, rec)
    ensures Free(ps, Deceives) && ps != [] && RecsOk(ps)
  {
    forall i | 0 <= i < |ps| ensures !Deceives(ps[i]) { assert RecOk(ps[i]); }
  }

  /** One record by the second reader; if it is refused, the next call is tried. */
  method ReadOneDd(r: DdReader, ghost gap: seq<Record>, ghost ps: seq<Record>, ghost rest: seq<Record>,
                   ghost rec: Record) returns (event: seq<int>, error: int, forever: bool, lost: bool)
    requires r.Valid() && r.Rest() == gap + ps + rest && AllLeavings(gap) && Pieces(ps, rec) && RecOk(rec)
    modifies r
    ensures error == 0 && !lost <==> Free(gap, Deceives) && Simple(ps)
    ensures error == 0 && !lost ==> r.Valid() && r.Rest() == rest && Delivered(event, |event|, rec)
    ensures error == 0 && !lost ==> ps != [] && |ps[0].hd| == 11 && HeadFrom(event, ps[0].hd, 24)
    ensures error == EBIO_NOTCONTCODE <==> Free(gap, Deceives) && !Simple(ps)
    ensures error == EBIO_NOTCONTCODE ==> forever && !lost
    ensures !Free(gap, Deceives) ==> lost || error == EBIO_WRONGSEGMCODE
  {
    hide Pieces, Flat, RecOk, Delivered, Free, Deceives, Blocks, Stuck, Ends, AllSkipped, NoMiddle, AllSegs,
         DdReader.Valid, DdReader.Rest;
    ghost var j := GapSplitDd(gap);
    GapTail(gap, j, ps, rest);
    PiecesFree(ps, rec);
    var evlen;
    error, forever, lost, event, evlen :=
      DdGetLogRec(r, gap[..j], if j == |gap| then ps else [], if j == |gap| then rest else gap[j..] + ps + rest, rec);
    DeceivesNot(gap, j);
    if error == EBIO_NOTCONTCODE {
      ghost var left := r.Rest();
      assert [] + [] + left == left;
      NoneSkipped();
      var again, b, l, e;
      again, forever, b, e, l := DdGetLogRec(r, [], [], left, rec);
    }
  }

  lemma NoneSkipped()
    ensures AllSkipped([])
  {
  }

  lemma DeceivesNot(gap: seq<Record>, j: nat)
    ensures j < |gap| && Deceives(gap[j]) ==> !Blocks(gap[j])
  {
  }

  /**
   The second reader gives the same records in the same order, up to the first that has a bank in
   more than two data segments, unless a block without records deceives it.  Behind such a record the
   next call does not return (`forever`).
   */
  method ReadFileDd(n: int, file: seq<seq<int>>, count: nat, ghost blocks: seq<seq<Record>>,
                    ghost gaps: seq<seq<Record>>, ghost pss: seq<seq<Record>>, ghost recs: seq<Record>,
                    ghost places: seq<nat>)
    returns (out: seq<seq<int>>, last: int, forever: bool, lost: bool)
    requires AllLie(blocks, [], pss, recs, places)
    requires AllLaid(n, file, blocks) && |gaps| == |pss| + 1 && Gaps(gaps) && Concat(blocks) == Woven(gaps, pss)
    requires Written(pss, recs)
    requires count == |recs| && forall i :: 0 <= i < |recs| ==> RecOk(recs[i])
    ensures |out| <= |recs| && forall i :: 0 <= i < |out| ==> Delivered(out[i], |out[i]|, recs[i]) && Simple(pss[i])
    ensures forall i :: 0 <= i < |out| ==> HeaderGiven(out[i], pss[i], recs[i], places[i], true)
    ensures |out| == |recs| && last == EBIO_EOF && !lost <==>
              Free(Concat(blocks), Deceives) && forall i :: 0 <= i < |pss| ==> Simple(pss[i])
    ensures last == EBIO_NOTCONTCODE ==> |out| < |recs| && !Simple(pss[|out|]) && forever
    ensures last == EBIO_EOF || last == EBIO_NOTCONTCODE || lost || last == EBIO_WRONGSEGMCODE
    ensures lost || last == EBIO_WRONGSEGMCODE ==> !Free(Concat(blocks), Deceives)
  {
    hide Pieces, Laid, Pack, Flat, RecOk, Delivered, Concat, Simple, Free, Woven, AllLeavings, Deceives,
         DdReader.Valid, DdReader.Rest;
    hide Ends, Stuck;
    var r := new DdReader(n, file, blocks);
    out, last := [], 0;
    assert pss[0..] == pss && gaps[0..] == gaps;
    while |out| < count
      invariant |out| <= |recs| && r.Valid() && fresh(r) && r.Rest() == Woven(gaps[|out|..], pss[|out|..])
      invariant forall i :: 0 <= i < |out| ==> Delivered(out[i], |out[i]|, recs[i]) && Simple(pss[i])
      invariant forall i :: 0 <= i < |out| ==> HeaderGiven(out[i], pss[i], recs[i], places[i], true)
      invariant Free(Concat(blocks), Deceives) <==> Free(Woven(gaps[|out|..], pss[|out|..]), Deceives)
      decreases count - |out|
    {
      ghost var k := |out|;
      WovenFirst(gaps, pss, k);
      WovenFree(gaps, pss, k, Deceives);
      assert Pieces(pss[k], recs[k]);
      PiecesFree(pss[k], recs[k]);
      var ev;
      ev, last, forever, lost := ReadOneDd(r, gaps[k], pss[k], Woven(gaps[k + 1..], pss[k + 1..]), recs[k]);
      if last != 0 || lost {
        return;
      }
      HeaderWidth(recs[k]);
      HeaderIs(ev, blocks, [], pss[k], recs[k], places[k], true);
      out := out + [ev];
    }
    WovenLast(gaps, pss, |out|);
    last, forever, lost := ReadEndDd(r, gaps[|out|]);
  }

  /** Behind the last record. */
  method ReadEndDd(r: DdReader, ghost gap: seq<Record>) returns (error: int, forever: bool, lost: bool)
    requires r.Valid() && r.Rest() == gap && AllLeavings(gap)
    modifies r
    ensures error == EBIO_EOF && !lost <==> Free(gap, Deceives)
    ensures !Free(gap, Deceives) ==> lost || error == EBIO_WRONGSEGMCODE
    ensures (Free(gap, Deceives) ==> !lost) && (lost ==> error == 0)
  {
    hide Free, Deceives, Blocks, Stuck, Ends, AllSkipped, DdReader.Valid, DdReader.Rest;
    ghost var j := GapSplitDd(gap);
    GapTail(gap, j, [], []);
    assert gap + [] + [] == gap && gap[j..] + [] + [] == gap[j..];
    var ev, evlen;
    error, forever, lost, ev, evlen := DdGetLogRec(r, gap[..j], [], gap[j..], Record([], []));
    DeceivesNot(gap, j);
  }

  lemma FileLetsGo(n: int, file: seq<seq<int>>, blocks: seq<seq<Record>>)
    requires AllLaid(n, file, blocks) && n >= 83
    ensures Free(Concat(blocks), Deceives) <==> forall k :: 0 <= k < |file| ==> LetsGo(file[k])
  {
    hide Laid, Solid, Free;
    FileFree(n, file, blocks, Deceives);
    forall k | 0 <= k < |file| ensures LetsGo(file[k]) <==> Harmless(file[k], Deceives) {
    }
  }

  /**
   Both readers on one file, for every sequence of etWrite and etFlush, the last a flush: the second gives
   all records and then the end of the file, if and only if no record has a bank in more than two data
   segments and all blocks without records let it go on.  Behind the first record with such a bank, if it
   comes there, the next call does not return.
   */
  method RoundTripDd(n: int, steps: seq<Step>, ghost recs: seq<Record>)
    returns (file: seq<seq<int>>, out: seq<seq<int>>, last: int, forever: bool, lost: bool, ghost pss: seq<seq<Record>>,
             ghost blocks: seq<seq<Record>>, ghost places: seq<nat>)
    requires n >= 83 && AllHeld(Events(steps), recs) && steps != [] && steps[|steps| - 1].Flush?
    ensures Written(pss, recs) && |out| <= |recs| && AllLaid(n, file, blocks) && AllLie(blocks, [], pss, recs, places)
    ensures forall i :: 0 <= i < |out| ==> HeaderGiven(out[i], pss[i], recs[i], places[i], true)
    ensures forall i :: 0 <= i < |out| ==> Delivered(out[i], |out[i]|, recs[i]) && Simple(pss[i])
    ensures |out| == |recs| && last == EBIO_EOF && !lost <==>
              (forall k :: 0 <= k < |file| ==> LetsGo(file[k])) && forall i :: 0 <= i < |pss| ==> Simple(pss[i])
    ensures last == EBIO_NOTCONTCODE ==> |out| < |recs| && !Simple(pss[|out|]) && forever
    ensures last == EBIO_EOF || last == EBIO_NOTCONTCODE || lost || last == EBIO_WRONGSEGMCODE
    ensures lost || last == EBIO_WRONGSEGMCODE ==> exists k :: 0 <= k < |file| && !LetsGo(file[k])
    ensures (forall k :: 0 <= k < |file| ==> !NothingIn(file[k])) <==> NoEmptyFlush(steps)
  {
    hide Flat, Delivered, Pieces, Solid, Woven, Holds, NoEmptyFlush, Events, LetsGo, NothingIn, Free, Simple,
         Alternating;
    forall i | 0 <= i < |recs| ensures RecOk(recs[i]) {
      assert Holds(Events(steps)[i], recs[i]);
      EventHeader(Events(steps)[i], recs[i]);
    }
    ghost var gaps;
    file, blocks, gaps, pss, places := WriteSteps(n, steps, recs);
    FileLetsGo(n, file, blocks);
    FileClear(n, file, blocks);
    out, last, forever, lost := ReadFileDd(n, file, |Events(steps)|, blocks, gaps, pss, recs, places);
  }
}
