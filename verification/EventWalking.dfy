/**
 How et2bos walks through a flat record (et2bos.c:62-106): in every bank it puts a NUL behind the
 format text, in the event buffer itself, before it copies the data.
 */
module EventWalking {
  import opened Segments
  import opened Slices
  import opened HeaderTexts
  import EtWriting

  function WordAt(e: seq<int>, i: int): int {
    if 0 <= i < |e| then e[i] else 0
  }

  /** Bytes of the format by the number of header words. */
  function TextLimit(nhead: int): nat {
    if nhead > idFRMT then 4 * (nhead - idFRMT) else 0
  }

  /** The buffer after the format text of the bank at `ind` has been ended. */
  function Scanned(e: seq<int>, ind: int): (r: seq<int>)
    ensures |r| == |e|
  {
    Cut(e, ind + idFRMT, TextEnd(e, ind + idFRMT, TextLimit(WordAt(e, ind)), 0))
  }

  datatype Walk = Walk(ev: seq<int>, ind: int)

  /** Buffer and position after `n` rounds. */
  function Walked(e: seq<int>, n: nat): (r: Walk)
    ensures |r.ev| == |e|
  {
    if n == 0 then Walk(e, RECHEADLEN)
    else
      var was := Walked(e, n - 1);
      var g := Scanned(was.ev, was.ind);
      Walk(g, was.ind + WordAt(g, was.ind) + WordAt(g, was.ind + idDATA))
  }

  function FormatOf(d: Segment): seq<int> {
    if |d.hd| >= idFRMT then d.hd[idFRMT..] else []
  }

  /** A bank without data behind whose format text there is no room for the NUL. */
  predicate Overruns(d: Segment) {
    !Stops(FormatOf(d)) && d.data == []
  }

  /** Such a bank is at most the last. */
  predicate Careful(ds: seq<Segment>) {
    forall i :: 0 <= i < |ds| - 1 ==> !Overruns(ds[i])
  }

  /** A bank as it is copied. */
  function Clip(d: Segment): (c: Segment)
    ensures c.hd == d.hd && |c.data| == |d.data|
  {
    d.(data := Clipped(FormatOf(d), d.data))
  }

  function ClipAll(ds: seq<Segment>): (cs: seq<Segment>)
    ensures |cs| == |ds| && forall i :: 0 <= i < |ds| ==> cs[i] == Clip(ds[i])
  {
    seq(|ds|, i requires 0 <= i < |ds| => Clip(ds[i]))
  }

  /** From the header of bank `i` on, `e` is the record. */
  ghost predicate Ahead(e: seq<int>, e0: seq<int>, rec: Record, i: nat) {
    && EtWriting.Holds(e0, rec) && i <= |rec.segs| && |e| == |e0|
    && forall j :: HeadIndex(rec.segs, i) <= j < RECHEADLEN + |Flat(rec.segs)| ==> e[j] == e0[j]
  }

  /** What the buffer has of bank `i` before its round. */
  lemma BankAhead(e: seq<int>, e0: seq<int>, rec: Record, i: nat)
    requires Ahead(e, e0, rec, i) && i < |rec.segs|
    ensures var d, p := rec.segs[i], HeadIndex(rec.segs, i);
            && SegOk(d) && HeadIndex(rec.segs, i + 1) == p + |d.hd| + |d.data| <= RECHEADLEN + |Flat(rec.segs)| <= |e|
            && e[p..p + |d.hd|] == d.hd && e[p + |d.hd|..p + |d.hd| + |d.data|] == d.data
  {
    hide Flat;
    var d, p := rec.segs[i], HeadIndex(rec.segs, i);
    EtWriting.BankInEvent(e0, rec, i, p);
    assert e[p..p + |d.hd|] == e0[p..p + |d.hd|];
    assert e[p + |d.hd|..p + |d.hd| + |d.data|] == e0[p + |d.hd|..p + |d.hd| + |d.data|];
  }

  /** One bank: the NUL comes to lie in its format, in its first data word, or behind it. */
  lemma ScanBank(e: seq<int>, p: int, d: Segment)
    requires SegOk(d) && 0 <= p && p + |d.hd| + |d.data| <= |e|
    requires e[p..p + |d.hd|] == d.hd && e[p + |d.hd|..p + |d.hd| + |d.data|] == d.data
    ensures TextEnd(e, p + idFRMT, TextLimit(WordAt(e, p)), 0) == TextLength(FormatOf(d))
    ensures var g := Scanned(e, p);
            && (forall j :: 0 <= j < |e| && (j < p + idFRMT || p + |d.hd| + |d.data| < j) ==> g[j] == e[j])
            && (forall j :: p <= j < p + idFRMT ==> g[j] == d.hd[j - p])
            && g[p + |d.hd|..p + |d.hd| + |d.data|] == Clip(d).data
            && (p + |d.hd| + |d.data| < |e| ==>
                  g[p + |d.hd| + |d.data|] == if Overruns(d) then WithoutByte(e[p + |d.hd| + |d.data|], 0)
                      else e[p + |d.hd| + |d.data|])
  {
    hide WithoutByte, TextEnd;
    var fmt, at := FormatOf(d), p + idFRMT;
    assert e[p] == e[p..p + |d.hd|][0];
    SubSlice(e, p, p + |d.hd|, at, p + |d.hd|);
    assert d.hd[idFRMT..|d.hd|] == fmt;
    TextEndSame(e, at, fmt, 0);
    var g, n := Scanned(e, p), TextLength(fmt);
    assert g == Cut(e, at, n);
    forall j | p <= j < p + idFRMT ensures g[j] == d.hd[j - p] {
      assert e[j] == e[p..p + |d.hd|][j - p];
    }
    var q := p + |d.hd|;
    if Stops(fmt) {
      assert g[q..q + |d.data|] == e[q..q + |d.data|];
    } else if d.data != [] {
      assert e[q] == e[q..q + |d.data|][0];
      assert g[q..q + |d.data|] == e[q..q + |d.data|][0 := WithoutByte(d.data[0], 0)];
    }
  }

  /** The header length of a bank at `p` has become zero. */
  ghost predicate HeadLost(g: seq<int>, p: int, d: Segment) {
    0 <= p && p + idFRMT <= |g| && g[p] == 0 && g[p + idDATA] == |d.data|
  }

  lemma OneRound(e: seq<int>, n: nat)
    ensures var was := Walked(e, n);
            var g := Scanned(was.ev, was.ind);
            Walked(e, n + 1) == Walk(g, was.ind + WordAt(g, was.ind) + WordAt(g, was.ind + idDATA))
  {
    hide Scanned, WordAt;
  }

  /** In a round on a lost header the walk goes on by the data words alone. */
  lemma LostRound(g: seq<int>, p: int, d: Segment)
    requires HeadLost(g, p, d)
    ensures var h := Scanned(g, p); p + WordAt(h, p) + WordAt(h, p + idDATA) == p + |d.data|
  {
  }

  /** The round of bank `i`: what is ahead afterwards. */
  lemma Round(e: seq<int>, e0: seq<int>, rec: Record, i: nat)
    requires Ahead(e, e0, rec, i) && i < |rec.segs|
    ensures var d, p, g := rec.segs[i], HeadIndex(rec.segs, i), Scanned(e, HeadIndex(rec.segs, i));
            && SegOk(d) && p + |d.hd| + |d.data| == HeadIndex(rec.segs, i + 1) <= |e|
            && p + WordAt(g, p) + WordAt(g, p + idDATA) == HeadIndex(rec.segs, i + 1)
            && (i + 1 == |rec.segs| || !Overruns(d) ==> Ahead(g, e0, rec, i + 1))
            && (i + 1 < |rec.segs| && Overruns(d) ==> HeadLost(g, HeadIndex(rec.segs, i + 1), rec.segs[i + 1]))
  {
    hide Flat, EtWriting.Holds, Scanned, Clip, FormatOf, Stops, TextEnd, TextLength, TextLimit;
    var d, p, g := rec.segs[i], HeadIndex(rec.segs, i), Scanned(e, HeadIndex(rec.segs, i));
    BankAhead(e, e0, rec, i);
    ScanBank(e, p, d);
    if i + 1 < |rec.segs| {
      EtWriting.BankInEvent(e0, rec, i + 1, HeadIndex(rec.segs, i + 1));
      NextHead(e, g, e0, rec, i + 1);
    } else {
      assert rec.segs[..i + 1] == rec.segs;
    }
  }

  /** The words of a bank ahead, with or without a NUL at its first. */
  lemma NextHead(e: seq<int>, g: seq<int>, e0: seq<int>, rec: Record, i: nat)
    requires 0 < i < |rec.segs| && Ahead(e, e0, rec, i - 1) && |g| == |e| && SegOk(rec.segs[i])
    requires var q := HeadIndex(rec.segs, i);
             && HeadIndex(rec.segs, i - 1) <= q && q + |rec.segs[i].hd| <= RECHEADLEN + |Flat(rec.segs)| <= |e0|
             && e0[q..q + |rec.segs[i].hd|] == rec.segs[i].hd
             && forall j :: q < j < |g| ==> g[j] == e[j]
    ensures var q := HeadIndex(rec.segs, i);
            && (g[q] == e[q] ==> Ahead(g, e0, rec, i))
            && (g[q] == WithoutByte(e[q], 0) ==> HeadLost(g, q, rec.segs[i]))
  {
    hide Flat, EtWriting.Holds;
    var q, d := HeadIndex(rec.segs, i), rec.segs[i];
    assert e[q] == e0[q..q + |d.hd|][0] && e[q + idDATA] == e0[q..q + |d.hd|][idDATA];
  }

  /** As long as no bank overruns, the walk is at the next header. */
  lemma {:induction false} WalkKeeps(e0: seq<int>, rec: Record, i: nat)
    requires EtWriting.Holds(e0, rec) && i <= |rec.segs|
    requires forall j :: 0 <= j < i && j + 1 < |rec.segs| ==> !Overruns(rec.segs[j])
    ensures Walked(e0, i).ind == HeadIndex(rec.segs, i) && Ahead(Walked(e0, i).ev, e0, rec, i)
  {
    hide Flat, EtWriting.Holds, Scanned;
    if i == 0 {
      assert rec.segs[..0] == [];
      EtWriting.NoWords();
    } else {
      WalkKeeps(e0, rec, i - 1);
      Round(Walked(e0, i - 1).ev, e0, rec, i - 1);
    }
  }

  /**
   The walk comes to every bank of the record and to its end, if and only if no bank but the last
   is without data and without room for the NUL.
   */
  lemma OnTrack(e0: seq<int>, rec: Record)
    requires EtWriting.Holds(e0, rec)
    ensures (forall i :: 0 <= i <= |rec.segs| ==> Walked(e0, i).ind == HeadIndex(rec.segs, i)) <==> Careful(rec.segs)
  {
    hide Flat, EtWriting.Holds, Scanned, Overruns;
    if Careful(rec.segs) {
      forall i | 0 <= i <= |rec.segs| ensures Walked(e0, i).ind == HeadIndex(rec.segs, i) { WalkKeeps(e0, rec, i); }
    } else {
      var k := FirstOverrun(rec.segs);
      OffTrack(e0, rec, k);
    }
  }

  lemma FirstOverrun(ds: seq<Segment>) returns (k: nat)
    requires !Careful(ds)
    ensures k + 1 < |ds| && Overruns(ds[k]) && forall j :: 0 <= j < k ==> !Overruns(ds[j])
  {
    k := 0;
    while !Overruns(ds[k])
      invariant k + 1 < |ds| && forall j :: 0 <= j < k ==> !Overruns(ds[j])
      decreases |ds| - k
    {
      if k + 2 == |ds| { assert Careful(ds); }
      k := k + 1;
    }
  }

  /** Behind a bank that overruns the header length is zero, and the walk loses the record. */
  lemma OffTrack(e0: seq<int>, rec: Record, k: nat)
    requires EtWriting.Holds(e0, rec) && k + 1 < |rec.segs| && Overruns(rec.segs[k])
    requires forall j :: 0 <= j < k ==> !Overruns(rec.segs[j])
    ensures Walked(e0, k + 2).ind == HeadIndex(rec.segs, k + 1) + |rec.segs[k + 1].data| < HeadIndex(rec.segs, k + 2)
  {
    hide Flat, EtWriting.Holds, Overruns, Walked, Scanned, HeadLost, Ahead;
    WalkKeeps(e0, rec, k);
    Round(Walked(e0, k).ev, e0, rec, k);
    OneRound(e0, k);
    OneRound(e0, k + 1);
    LostRound(Walked(e0, k + 1).ev, HeadIndex(rec.segs, k + 1), rec.segs[k + 1]);
    EtWriting.BankInEvent(e0, rec, k + 1, HeadIndex(rec.segs, k + 1));
  }

  // ---- In the buffer -----------------------------------------------------------------------------------

  /** There is a word for the NUL: in the record, or behind it. */
  ghost predicate RoomForNul(n: int, ds: seq<Segment>, i: nat) {
    i < |ds| && (Overruns(ds[i]) ==> HeadIndex(ds, i + 1) < n)
  }

  lemma TextIn(e: seq<int>, p: int, d: Segment)
    requires SegOk(d) && 0 <= p && p + |d.hd| + |d.data| <= |e| && (Overruns(d) ==> p + |d.hd| < |e|)
    requires e[p..p + |d.hd|] == d.hd && e[p + |d.hd|..p + |d.hd| + |d.data|] == d.data
    ensures e[p] == |d.hd| && TextLimit(e[p]) == 4 * (|d.hd| - idFRMT)
    ensures TextEnd(e, p + idFRMT, TextLimit(e[p]), 0) == TextLength(FormatOf(d))
    ensures p + idFRMT + TextLength(FormatOf(d)) / 4 < |e|
  {
    ScanBank(e, p, d);
    assert e[p] == e[p..p + |d.hd|][0];
  }

  lemma TextGoesOn(e: seq<int>, at: int, limit: nat, k: nat)
    requires k < limit && 0 <= at + k / 4 < |e| && !EndsText(ByteOf(e[at + k / 4], k % 4))
    ensures TextEnd(e, at, limit, k) == TextEnd(e, at, limit, k + 1)
  {
  }

  lemma TextIsOver(e: seq<int>, at: int, limit: nat, k: nat)
    requires k <= limit && 0 <= at + k / 4 < |e| && (k == limit || EndsText(ByteOf(e[at + k / 4], k % 4)))
    ensures TextEnd(e, at, limit, k) == k
  {
  }

  lemma ScannedIs(e: seq<int>, ind: int)
    requires 0 <= ind < |e|
    ensures var n := TextEnd(e, ind + idFRMT, TextLimit(e[ind]), 0);
            ind + idFRMT + n / 4 < |e| ==>
              Scanned(e, ind) == e[ind + idFRMT + n / 4 := WithoutByte(e[ind + idFRMT + n / 4], n % 4)]
  {
  }

  /** The scan for the end of the format text of bank `i`, and the NUL (et2bos.c:72-75). */
  method EndText(ev: array<int>, ind: int, ghost e0: seq<int>, ghost rec: Record, ghost i: nat) returns (nf: nat)
    requires Ahead(ev[..], e0, rec, i) && i < |rec.segs| && ind == HeadIndex(rec.segs, i)
    requires RoomForNul(ev.Length, rec.segs, i)
    modifies ev
    ensures ev[..] == Scanned(old(ev[..]), ind) && nf == TextLength(FormatOf(rec.segs[i]))
  {
    hide Flat, Ahead, Overruns, ByteOf, WithoutByte, TextEnd, TextLength, Byte, Cut, Scanned, TextLimit, EndsText,
         FormatOf, EtWriting.Holds;
    ghost var e, d := ev[..], rec.segs[i];
    BankAhead(e, e0, rec, i);
    TextIn(e, ind, d);
    var at, limit := ind + idFRMT, TextLimit(ev[ind]);
    ghost var end := TextLength(FormatOf(d));
    nf := 0;
    while !EndsText(ByteOf(ev[at + nf / 4], nf % 4)) && nf < limit
      invariant nf <= end <= limit && TextEnd(e, at, limit, nf) == end && ev[..] == e && at + nf / 4 < ev.Length
    {
      TextGoesOn(e, at, limit, nf);
      nf := nf + 1;
    }
    TextIsOver(e, at, limit, nf);
    ScannedIs(e, ind);
    ev[at + nf / 4] := WithoutByte(ev[at + nf / 4], nf % 4);
  }
}
