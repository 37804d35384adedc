/**
 How a record becomes record segments (etwrite.c): what holds between two steps of the writer,
 and that the pieces make up the record again.
 */
module Splitting {
  import opened Options
  import opened Segments

  /** The code that a record segment may start with when `k` segments of its record precede it. */
  predicate CodeFits(code: int, k: nat) {
    if k == 0 then code == 0 else if k == 1 then code == 1 || code == 2 else code == 2
  }

  /** The code of a segment that turns out not to be the last. */
  function Raised(code: int): int {
    if code <= 1 then code + 1 else code
  }

  ghost predicate CodesNow(ps: seq<Record>) {
    forall j :: 0 <= j < |ps| ==> |ps[j].hd| == RECHEADLEN && ps[j].hd[irCODE] == if j == 0 then 1 else 2
  }

  /**
   `ps` are the record segments of `rec` in earlier blocks; the current one has header `hd` and
   data segments `cd`.  Together they hold the first `i` banks and the part `open` of the next.
   */
  ghost predicate PartWay(rec: Record, ps: seq<Record>, hd: seq<int>, cd: seq<Segment>, i: nat, open: Option<Segment>) {
    && Whole(rec) && RecsOk(ps) && |hd| == RECHEADLEN && SegsOk(cd) && i <= |rec.segs|
    && CodesNow(ps) && CodeFits(hd[irCODE], |ps|)
    && (forall j :: 0 <= j < |ps| ==> Tidy(ps[j].segs)) && TidyNow(cd, open)
    && SameEvent(rec.hd, hd) && (ps != [] ==> SameEvent(rec.hd, ps[0].hd))
    && SegsOk(AllSegs(ps)) && SegsOk(AllSegs(ps) + cd)
    && Assemble(AllSegs(ps) + cd) == Some(Assembly(rec.segs[..i], open))
    && (ps == [] ==> Early(rec, cd, i, open))
    && (ps != [] ==> |Flat(ps[0].segs)| <= |Flat(rec.segs)|)
  }

  /** Bank codes in the record segment in the making, `open` being continued. */
  ghost predicate TidyNow(cd: seq<Segment>, open: Option<Segment>) {
    && Tidy(cd)
    && (open == None && cd != [] ==> cd[|cd| - 1].hd[idCODE] != 1 && cd[|cd| - 1].hd[idCODE] != 2)
  }

  /** In the first record segment: the first `i` banks, and possibly a part of the next. */
  ghost predicate Early(rec: Record, cd: seq<Segment>, i: nat, open: Option<Segment>) {
    && i <= |rec.segs|
    && (if open == None then cd == rec.segs[..i]
        else
          && i < |rec.segs| && cd != [] && cd[..|cd| - 1] == rec.segs[..i]
          && |SegWords(cd[|cd| - 1])| <= |SegWords(rec.segs[i])|)
  }

  lemma {:induction false} FlatGrows(ds: seq<Segment>, i: nat)
    requires i <= |ds|
    ensures |Flat(ds[..i])| <= |Flat(ds)|
  {
    assert ds[..i] + ds[i..] == ds;
    FlatConcat(ds[..i], ds[i..]);
  }

  lemma EarlyFits(rec: Record, cd: seq<Segment>, i: nat, open: Option<Segment>)
    requires Early(rec, cd, i, open)
    ensures |Flat(cd)| <= |Flat(rec.segs)|
  {
    hide SegWords;
    if open == None {
      FlatGrows(rec.segs, i);
    } else {
      FlatGrows(rec.segs, i + 1);
      assert rec.segs[..i + 1] == rec.segs[..i] + [rec.segs[i]];
      FlatAdd(rec.segs[..i], rec.segs[i]);
    }
  }

  lemma PartWayStart(rec: Record, hd: seq<int>)
    requires Whole(rec) && |hd| == RECHEADLEN && SameEvent(rec.hd, hd) && hd[irCODE] == 0
    ensures PartWay(rec, [], hd, [], 0, None)
  {
    assert AllSegs([]) + [] == [];
  }

  /** Header words other than code and event do not matter. */
  lemma PartWayHead(rec: Record, ps: seq<Record>, hd: seq<int>, hd': seq<int>, cd: seq<Segment>, i: nat,
                    open: Option<Segment>)
    requires PartWay(rec, ps, hd, cd, i, open) && SameEvent(hd, hd') && hd'[irCODE] == hd[irCODE]
    ensures PartWay(rec, ps, hd', cd, i, open)
  {
    hide Assemble, AllSegs, Whole;
  }

  /** The block is full: what it holds of the record is a piece. */
  lemma PartWayPiece(rec: Record, ps: seq<Record>, hd: seq<int>, cd: seq<Segment>, i: nat, open: Option<Segment>,
                     hd2: seq<int>)
    requires PartWay(rec, ps, hd, cd, i, open) && cd != [] && hd[irNWRD] == |Flat(cd)|
    requires SameEvent(hd, hd2) && (hd2[irCODE] == Raised(hd[irCODE]) || hd2[irCODE] == 2)
    ensures PartWay(rec, ps + [Record(hd[irCODE := Raised(hd[irCODE])], cd)], hd2, [], i, open)
    ensures RecOk(Record(hd[irCODE := Raised(hd[irCODE])], cd))
  {
    hide Assemble, Whole, Flat, Early, AllSegs;
    if ps == [] { EarlyFits(rec, cd, i, open); }
    var p := Record(hd[irCODE := Raised(hd[irCODE])], cd);
    var ps' := ps + [p];
    AllSegsAdd(ps, p);
    assert AllSegs(ps') + [] == AllSegs(ps) + cd;
    CodesMore(ps, p);
  }

  lemma CodesMore(ps: seq<Record>, p: Record)
    requires CodesNow(ps) && |p.hd| == RECHEADLEN && p.hd[irCODE] == if ps == [] then 1 else 2
    ensures CodesNow(ps + [p])
  {
    var ps' := ps + [p];
    forall j | 0 <= j < |ps'| ensures |ps'[j].hd| == RECHEADLEN && ps'[j].hd[irCODE] == if j == 0 then 1 else 2 {
      if j < |ps| { assert ps'[j] == ps[j]; }
    }
  }

  /** `open` holds the first `n` data words of bank `b`. */
  ghost predicate Opened(b: Segment, open: Option<Segment>, n: nat) {
    if n == 0 then open == None
    else
      && open.Some? && n <= |b.data| && open.value.data == b.data[..n]
      && |open.value.hd| == |b.hd| >= 9 && open.value.hd[idCODE := 0][idDATA := |b.data|] == b.hd
  }

  /** The header with which the next data segment of bank `b` starts after `n` words in `k` segments. */
  ghost predicate HeaderNow(b: Segment, h: seq<int>, n: nat, code: int) {
    && |b.hd| >= 9 && |h| == |b.hd| && h[idCODE] == code
    && (if n == 0 then code == 0 && h[idDATA := |b.data|] == b.hd
        else (code == 1 || code == 2) && h == b.hd[idCODE := code][idNPREV := n][idDATA := 0])
  }

  lemma TidyMore(done: seq<Segment>, open: Option<Segment>, d: Segment, done': seq<Segment>, open': Option<Segment>,
                 cd: seq<Segment>)
    requires SegOk(d) && Step(Assembly(done, open), d) == Some(Assembly(done', open'))
    requires TidyNow(cd, open) && (open != None ==> cd == [])
    ensures TidyNow(cd + [d], open')
  {
    var a := cd + [d];
    forall j | 0 <= j < |a|
      ensures |a[j].hd| >= 9 && (a[j].hd[idCODE] == 2 || a[j].hd[idCODE] == 3 ==> j == 0)
      ensures a[j].hd[idCODE] == 1 || a[j].hd[idCODE] == 2 ==> j == |a| - 1
    {
      if j < |cd| { assert a[j] == cd[j]; }
    }
  }

  /** One more data segment in the current record segment. */
  lemma PartWayMore(rec: Record, ps: seq<Record>, hd: seq<int>, cd: seq<Segment>, i: nat, open: Option<Segment>,
                    d: Segment, j: nat, open': Option<Segment>)
    requires PartWay(rec, ps, hd, cd, i, open) && SegOk(d) && i <= j <= |rec.segs|
    requires Step(Assembly(rec.segs[..i], open), d) == Some(Assembly(rec.segs[..j], open'))
    requires (ps == [] ==> Early(rec, cd + [d], j, open')) && (open != None ==> cd == [])
    ensures PartWay(rec, ps, hd, cd + [d], j, open')
  {
    hide AllSegs, Step, Whole, CodesNow, Early, Flat, Tidy, TidyNow;
    TidyMore(rec.segs[..i], open, d, rec.segs[..j], open', cd);
    assert AllSegs(ps) + (cd + [d]) == (AllSegs(ps) + cd) + [d];
    AssembleAdd(AllSegs(ps) + cd, d);
  }

  /** The data segment with words `n .. m` of bank `b`. */
  ghost function Part(b: Segment, h: seq<int>, n: nat, m: nat, code: int): Segment
    requires n <= m <= |b.data| && |h| >= 9
  {
    Segment(h[idDATA := m - n][idCODE := code], b.data[n..m])
  }

  lemma StepPart(done: seq<Segment>, b: Segment, open: Option<Segment>, h: seq<int>, n: nat, m: nat, code: int)
    returns (open': Option<Segment>)
    requires SegOk(b) && Opened(b, open, n) && HeaderNow(b, h, n, code) && n < m < |b.data|
    ensures var d := Part(b, h, n, m, Raised(code));
            SegOk(d) && Step(Assembly(done, open), d) == Some(Assembly(done, open'))
    ensures Opened(b, open', m) && HeaderNow(b, h[idCODE := Raised(code)][idNPREV := m][idDATA := 0], m, Raised(code))
  {
    var d := Part(b, h, n, m, Raised(code));
    open' := Some(if n == 0 then d else open.value.(data := b.data[..m]));
    assert n > 0 ==> b.data[..n] + b.data[n..m] == b.data[..m];
    assert h[idCODE := Raised(code)][idNPREV := m][idDATA := 0]
        == b.hd[idCODE := Raised(code)][idNPREV := m][idDATA := 0];
  }

  lemma StepRest(done: seq<Segment>, b: Segment, open: Option<Segment>, h: seq<int>, n: nat, code: int)
    requires SegOk(b) && b.hd[idCODE] == 0 && Opened(b, open, n) && HeaderNow(b, h, n, code) && n <= |b.data|
    ensures var d := Part(b, h, n, |b.data|, if code != 0 then 3 else 0);
            SegOk(d) && Step(Assembly(done, open), d) == Some(Assembly(done + [b], None)) && (n == 0 ==> d == b)
  {
    var d := Part(b, h, n, |b.data|, if code != 0 then 3 else 0);
    if n == 0 {
      assert d == b;
    } else {
      assert b.data[..n] + b.data[n..] == b.data;
      assert d.data == b.data[n..];
    }
  }

  /** Words `n .. m` of the `i`-th bank in a data segment of their own, more being left. */
  lemma PartWayPart(rec: Record, ps: seq<Record>, hd: seq<int>, cd: seq<Segment>, i: nat, open: Option<Segment>,
                    h: seq<int>, n: nat, m: nat, code: int) returns (open': Option<Segment>)
    requires PartWay(rec, ps, hd, cd, i, open) && i < |rec.segs| && Opened(rec.segs[i], open, n)
    requires HeaderNow(rec.segs[i], h, n, code) && n < m < |rec.segs[i].data| && (n > 0 ==> ps != [] && cd == [])
    ensures SegOk(Part(rec.segs[i], h, n, m, Raised(code)))
    ensures PartWay(rec, ps, hd, cd + [Part(rec.segs[i], h, n, m, Raised(code))], i, open')
    ensures Opened(rec.segs[i], open', m)
    ensures HeaderNow(rec.segs[i], h[idCODE := Raised(code)][idNPREV := m][idDATA := 0], m, Raised(code))
  {
    hide AllSegs, Step, Assemble, Raised, Tidy, TidyNow, CodesNow, CodeFits, SameEvent, Flat;
    assert SegOk(rec.segs[i]);
    open' := StepPart(rec.segs[..i], rec.segs[i], open, h, n, m, code);
    PartWayMore(rec, ps, hd, cd, i, open, Part(rec.segs[i], h, n, m, Raised(code)), i, open');
  }

  /** The rest of the `i`-th bank, from word `n` on, in its last data segment. */
  lemma PartWayRest(rec: Record, ps: seq<Record>, hd: seq<int>, cd: seq<Segment>, i: nat, open: Option<Segment>,
                    h: seq<int>, n: nat, code: int)
    requires PartWay(rec, ps, hd, cd, i, open) && i < |rec.segs| && Opened(rec.segs[i], open, n)
    requires HeaderNow(rec.segs[i], h, n, code) && n <= |rec.segs[i].data| && (n > 0 ==> ps != [] && cd == [])
    ensures SegOk(Part(rec.segs[i], h, n, |rec.segs[i].data|, if code != 0 then 3 else 0))
    ensures PartWay(rec, ps, hd, cd + [Part(rec.segs[i], h, n, |rec.segs[i].data|, if code != 0 then 3 else 0)], i + 1,
        None)
  {
    hide AllSegs, Step, Assemble;
    var b := rec.segs[i];
    assert SegOk(b);
    StepRest(rec.segs[..i], b, open, h, n, code);
    assert rec.segs[..i + 1] == rec.segs[..i] + [b];
    PartWayMore(rec, ps, hd, cd, i, open, Part(b, h, n, |b.data|, if code != 0 then 3 else 0), i + 1, None);
  }

  /** All banks are written: the pieces are those of the record. */
  lemma PartWayEnd(rec: Record, ps: seq<Record>, hd: seq<int>, cd: seq<Segment>, hd2: seq<int>)
    requires PartWay(rec, ps, hd, cd, |rec.segs|, None) && cd != []
    requires hd2 == hd[irCODE := if hd[irCODE] != 0 then 3 else 0] && hd2[irNWRD] == |Flat(cd)|
    ensures RecOk(Record(hd2, cd)) && Pieces(ps + [Record(hd2, cd)], rec)
  {
    hide Assemble, Flat;
    assert rec.segs[..|rec.segs|] == rec.segs;
    var p := Record(hd2, cd);
    var ps' := ps + [p];
    AllSegsAdd(ps, p);
    assert rec.segs[..|rec.segs|] == rec.segs;
    forall j | 0 <= j < |ps'| ensures ps'[j].hd[irCODE] == CodeAt(j, |ps'|) {
      if j < |ps| { assert ps'[j] == ps[j]; }
    }
    if ps == [] { assert ps' == [p]; }
  }
}
