/**
 FPACK records (bosio.h, fpack.h): a logical record is a header and a list of banks.  In a file
 it is one record segment, or several when it does not fit into a block; a bank then may be
 split into data segments as well.
 */
module Segments {
  import opened Options
  import opened Slices

  const RECHEADLEN := 11
  const irPTRN := 0    // pattern to recognise byte swapping
  const irFORG := 1    // format code
  const irNRSG := 2    // number of the block times 100, plus number of the segment
  const irNAME1 := 3   // name of the record
  const irNAME2 := 4
  const irNRUN := 5    // run number
  const irNEVNT := 6   // event number
  const irNPHYS := 7   // number of the segment within the record
  const irTRIG := 8    // trigger pattern
  const irCODE := 9    // 0 complete, 1 first, 2 middle, 3 last
  const irNWRD := 10   // words that follow the header
  const idNHEAD := 0   // header words
  const idNAME1 := 1   // name of the bank
  const idNAME2 := 2
  const idNSGM := 3    // its number
  const idNCOL := 4    // columns
  const idNROW := 5    // rows
  const idCODE := 6    // as irCODE
  const idNPREV := 7   // data words in previous segments
  const idDATA := 8    // data words in this segment
  const idFRMT := 9    // first word of the format
  const MAXHEAD := 69  // header words that the record writer reckons with

  /** A bank, or one segment of a bank: header words and data words. */
  datatype Segment = Segment(hd: seq<int>, data: seq<int>)

  /** A record, or one segment of a record. */
  datatype Record = Record(hd: seq<int>, segs: seq<Segment>)

  predicate SegOk(d: Segment) {
    9 <= |d.hd| <= MAXHEAD && d.hd[idNHEAD] == |d.hd| && d.hd[idDATA] == |d.data|
  }

  predicate SegsOk(ds: seq<Segment>) {
    forall i :: 0 <= i < |ds| ==> SegOk(ds[i])
  }

  function SegWords(d: Segment): seq<int> {
    d.hd + d.data
  }

  /** The words of data segments, one after the other. */
  function Flat(ds: seq<Segment>): seq<int> {
    if ds == [] then [] else Flat(ds[..|ds| - 1]) + SegWords(ds[|ds| - 1])
  }

  predicate RecOk(r: Record) {
    && |r.hd| == RECHEADLEN && r.hd[irNWRD] == |Flat(r.segs)|
    && r.segs != [] && SegsOk(r.segs)
  }

  ghost predicate RecsOk(rs: seq<Record>) {
    forall i :: 0 <= i < |rs| ==> RecOk(rs[i])
  }

  function RecWords(r: Record): seq<int> {
    r.hd + Flat(r.segs)
  }

  /** The words of record segments, one after the other. */
  ghost function Pack(rs: seq<Record>): seq<int> {
    if rs == [] then [] else Pack(rs[..|rs| - 1]) + RecWords(rs[|rs| - 1])
  }

  /** Where the header of bank `j` of a flat record is, or the end of the record. */
  function HeadIndex(ds: seq<Segment>, j: nat): (p: int)
    requires j <= |ds|
    ensures p >= RECHEADLEN
  {
    RECHEADLEN + |Flat(ds[..j])|
  }

  lemma FlatAdd(ds: seq<Segment>, d: Segment)
    ensures Flat(ds + [d]) == Flat(ds) + SegWords(d)
  {
    assert (ds + [d])[..|ds|] == ds;
  }

  lemma PackAdd(rs: seq<Record>, r: Record)
    ensures Pack(rs + [r]) == Pack(rs) + RecWords(r)
  {
    assert (rs + [r])[..|rs|] == rs;
  }

  lemma {:induction false} FlatConcat(a: seq<Segment>, b: seq<Segment>)
    ensures Flat(a + b) == Flat(a) + Flat(b)
  {
    hide SegWords;
    if b == [] {
      assert a + b == a;
    } else {
      var c, d := b[..|b| - 1], b[|b| - 1];
      SumLast(a, b);
      FlatConcat(a, c);
      Assoc(Flat(a), Flat(c), SegWords(d));
    }
  }

  lemma {:induction false} PackConcat(a: seq<Record>, b: seq<Record>)
    ensures Pack(a + b) == Pack(a) + Pack(b)
  {
    hide RecWords;
    if b == [] {
      assert a + b == a;
    } else {
      var c, d := b[..|b| - 1], b[|b| - 1];
      SumLast(a, b);
      PackConcat(a, c);
      Assoc(Pack(a), Pack(c), RecWords(d));
    }
  }

  // ---- Putting segments together ------------------------------------------------------------------

  /** Banks that are complete, and the one of which segments are still to come. */
  datatype Assembly = Assembly(done: seq<Segment>, open: Option<Segment>)

  /** A bank whose last segment has arrived: a complete bank of all its words. */
  ghost function Close(o: Segment): Segment
    requires |o.hd| >= 9
  {
    o.(hd := o.hd[idCODE := 0][idDATA := |o.data|])
  }

  /** One more data segment; its code, header length and count of previous words must fit. */
  ghost function Step(a: Assembly, d: Segment): Option<Assembly>
    requires |d.hd| >= 9
  {
    match a.open
    case None =>
      if d.hd[idCODE] == 0 then Some(a.(done := a.done + [d]))
      else if d.hd[idCODE] == 1 then Some(a.(open := Some(d)))
      else None
    case Some(o) =>
      if |d.hd| != |o.hd| || d.hd[idNPREV] != |o.data| then None
      else if d.hd[idCODE] == 2 then Some(a.(open := Some(o.(data := o.data + d.data))))
      else if d.hd[idCODE] == 3 then Some(Assembly(a.done + [Close(o.(data := o.data + d.data))], None))
      else None
  }

  /** The banks that a sequence of data segments makes up. */
  ghost function Assemble(ds: seq<Segment>): Option<Assembly>
    requires SegsOk(ds)
  {
    if ds == [] then Some(Assembly([], None))
    else
      match Assemble(ds[..|ds| - 1])
      case None => None
      case Some(a) => Step(a, ds[|ds| - 1])
  }

  lemma AssembleAdd(ds: seq<Segment>, d: Segment)
    requires SegsOk(ds) && SegOk(d)
    ensures SegsOk(ds + [d])
    ensures Assemble(ds + [d]) == if Assemble(ds) == None then None else Step(Assemble(ds).value, d)
  {
    assert (ds + [d])[..|ds|] == ds;
  }

  /** All data segments of the segments of a record. */
  ghost function AllSegs(ps: seq<Record>): seq<Segment> {
    if ps == [] then [] else AllSegs(ps[..|ps| - 1]) + ps[|ps| - 1].segs
  }

  lemma AllSegsAdd(ps: seq<Record>, p: Record)
    ensures AllSegs(ps + [p]) == AllSegs(ps) + p.segs
  {
    assert (ps + [p])[..|ps|] == ps;
  }

  lemma {:induction false} AllSegsOk(ps: seq<Record>)
    requires RecsOk(ps)
    ensures SegsOk(AllSegs(ps))
  {
    if ps != [] { AllSegsOk(ps[..|ps| - 1]); }
  }

  /** The code of the `i`-th of `n` segments. */
  function CodeAt(i: nat, n: nat): int {
    if n == 1 then 0 else if i == 0 then 1 else if i == n - 1 then 3 else 2
  }

  /** Header words that no operation changes: names, run, event and trigger. */
  ghost predicate SameEvent(h: seq<int>, h': seq<int>) {
    && |h| == RECHEADLEN && |h'| == RECHEADLEN
    && h'[3] == h[3] && h'[4] == h[4] && h'[5] == h[5] && h'[6] == h[6] && h'[8] == h[8]
  }

  /** A record as it is handed over: complete, with complete banks. */
  predicate Whole(r: Record) {
    && RecOk(r) && r.hd[irCODE] == 0
    && (forall i :: 0 <= i < |r.segs| ==> r.segs[i].hd[idCODE] == 0 && r.segs[i].hd[idNPREV] == 0)
  }

  /** Of the data segments of a record segment only the first continues a bank, and only the last is continued. */
  ghost predicate Tidy(ds: seq<Segment>) {
    forall j :: 0 <= j < |ds| ==>
      && |ds[j].hd| >= 9
      && (ds[j].hd[idCODE] == 2 || ds[j].hd[idCODE] == 3 ==> j == 0)
      && (ds[j].hd[idCODE] == 1 || ds[j].hd[idCODE] == 2 ==> j == |ds| - 1)
  }

  /** Record segments that make up record `r`: codes 0 or 1, 2 .. 2, 3, and the same banks. */
  ghost predicate Pieces(ps: seq<Record>, r: Record) {
    && RecsOk(ps) && ps != [] && SameEvent(r.hd, ps[0].hd)
    && (forall i :: 0 <= i < |ps| ==> ps[i].hd[irCODE] == CodeAt(i, |ps|) && Tidy(ps[i].segs))
    && (|ps| == 1 ==> ps[0].segs == r.segs) && |Flat(ps[0].segs)| <= |Flat(r.segs)|
    && SegsOk(AllSegs(ps)) && Assemble(AllSegs(ps)) == Some(Assembly(r.segs, None))
  }

  /** Complete banks make up themselves. */
  lemma {:induction false} AssembleWhole(ds: seq<Segment>)
    requires SegsOk(ds) && forall i :: 0 <= i < |ds| ==> ds[i].hd[idCODE] == 0
    ensures Assemble(ds) == Some(Assembly(ds, None))
  {
    if ds != [] {
      AssembleWhole(ds[..|ds| - 1]);
      assert ds[..|ds| - 1] + [ds[|ds| - 1]] == ds;
    }
  }

  /** A record that is not split is a piece of its own. */
  lemma WholePiece(r: Record)
    requires Whole(r)
    ensures Pieces([r], r)
  {
    AllSegsAdd([], r);
    assert [] + [r] == [r] && [] + r.segs == r.segs;
    AssembleWhole(r.segs);
  }

  /** What has been put together so far is the beginning of what will be. */
  lemma {:induction false} AssemblePrefix(ds: seq<Segment>, k: nat)
    requires SegsOk(ds) && k <= |ds| && Assemble(ds).Some?
    ensures SegsOk(ds[..k]) && Assemble(ds[..k]).Some?
    ensures Assemble(ds[..k]).value.done <= Assemble(ds).value.done
  {
    if k < |ds| {
      var c := ds[..|ds| - 1];
      assert c[..k] == ds[..k];
      AssemblePrefix(c, k);
    } else {
      assert ds[..k] == ds;
    }
  }

  /** The first `k` data segments make up the first `i` banks of `r` and the part `open` of the next. */
  ghost predicate Got(r: Record, ds: seq<Segment>, k: nat, i: nat, open: Option<Segment>) {
    && SegsOk(ds) && k <= |ds| && i <= |r.segs|
    && Assemble(ds) == Some(Assembly(r.segs, None))
    && Assemble(ds[..k]) == Some(Assembly(r.segs[..i], open))
  }

  /** One more data segment: what its code says about the banks of the record. */
  lemma GotNext(r: Record, ds: seq<Segment>, k: nat, i: nat, open: Option<Segment>)
    requires Got(r, ds, k, i, open) && k < |ds| && RecOk(r)
    ensures SegOk(ds[k])
    ensures var d := ds[k];
            var data := if open == None then d.data else open.value.data + d.data;
            var code := d.hd[idCODE];
            && (open == None <==> code == 0 || code == 1) && 0 <= code <= 3
            && (open != None ==> |d.hd| == |open.value.hd|)
            && (if code == 0 || code == 3 then
                  && i < |r.segs| && Got(r, ds, k + 1, i + 1, None)
                  && r.segs[i] == (if open == None then d else Close(open.value.(data := data)))
                else
                  Got(r, ds, k + 1, i, Some(if open == None then d else open.value.(data := data))))
  {
    hide Close;
    assert ds[..k + 1][..k] == ds[..k];
    AssemblePrefix(ds, k + 1);
    assert SegOk(ds[k]);
    var a := Assemble(ds[..k + 1]).value;
    assert Some(a) == Step(Assembly(r.segs[..i], open), ds[k]);
    assert a.done <= r.segs;
    if |a.done| == i + 1 {
      assert a.done[i] == r.segs[i] && a.done == r.segs[..i + 1];
    } else {
      assert a.done == r.segs[..i];
    }
  }

  /** At the end there is nothing open; before it there is a segment to come. */
  lemma GotAll(r: Record, ds: seq<Segment>, k: nat, i: nat, open: Option<Segment>)
    requires Got(r, ds, k, i, open) && k == |ds|
    ensures i == |r.segs| && open == None
  {
    assert ds[..k] == ds;
  }

  /** Headers that differ in code and word count only. */
  ghost predicate SameHeader(h: seq<int>, h': seq<int>) {
    |h'| == |h| && forall j :: 0 <= j < |h| && j != idCODE && j != idDATA ==> h'[j] == h[j]
  }

  /** What is open becomes the next bank: its words are the first of that bank. */
  lemma {:induction false} OpenFits(r: Record, ds: seq<Segment>, k: nat, i: nat, o: Segment)
    requires Got(r, ds, k, i, Some(o)) && RecOk(r)
    ensures k < |ds| && i < |r.segs| && SameHeader(o.hd, r.segs[i].hd) && o.data <= r.segs[i].data
    decreases |ds| - k
  {
    hide Got, RecOk;
    if k >= |ds| {
      GotCount(r, ds, k, i, Some(o));
      GotAll(r, ds, k, i, Some(o));
    } else {
      GotNext(r, ds, k, i, Some(o));
      var o' := o.(data := o.data + ds[k].data);
      if ds[k].hd[idCODE] == 2 {
        OpenFits(r, ds, k + 1, i, o');
      }
    }
  }

  lemma GotCount(r: Record, ds: seq<Segment>, k: nat, i: nat, open: Option<Segment>)
    requires Got(r, ds, k, i, open)
    ensures k <= |ds|
  {
  }

  /** Header and data of a data segment. */
  lemma SegmentWords(w: seq<int>, jp: int, d: Segment)
    requires SegOk(d) && 0 <= jp <= jp + |SegWords(d)| <= |w| && w[jp..jp + |SegWords(d)|] == SegWords(d)
    ensures jp + |SegWords(d)| == jp + |d.hd| + |d.data|
    ensures w[jp..jp + |d.hd|] == d.hd && w[jp + |d.hd|..jp + |d.hd| + |d.data|] == d.data
    ensures w[jp] == |d.hd| && w[jp + idDATA] == |d.data|
  {
    var f := jp + |SegWords(d)|;
    SubSlice(w, jp, f, jp, jp + |d.hd|);
    SubSlice(w, jp, f, jp + |d.hd|, f);
    assert SegWords(d)[0..|d.hd|] == d.hd && SegWords(d)[|d.hd|..f - jp] == d.data;
    assert w[jp] == w[jp..jp + |d.hd|][0] && w[jp + idDATA] == w[jp..jp + |d.hd|][idDATA];
  }
}
