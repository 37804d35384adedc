/**
 Converting a bank's data words by its format (cnvr14.c, cnvr41.c).
 */
module Converting {
  import opened Formats
  import opened Interpreting
  import opened WordConversion

  const LEVELS := 10  // groups may be nested this deep

  /** State of the interpreter (the source's static variables). */
  class FormatReader {
    const ifmt: seq<int>
    ghost const f: Format

    var imt: int           // codes used so far
    var ncnf: int          // words left for the present code
    var kcnf: int          // its type
    var lev: int           // groups open
    var iterm: int         // where to start over
    const lv: array<Level> // the open groups

    ghost var cur: Format
    ghost var st: Stack
    ghost var it: Format

    ghost predicate Valid()
      reads this, lv
    {
      && lv.Length == LEVELS && lev == Height(st)
      && At(f, ifmt, imt, iterm, cur, st, it, lv[..])
    }

    /** The types to come in this pass, behind the present code. */
    ghost function Ahead(): seq<nat>
      reads this
    {
      Once(cur) + Left(st)
    }

    constructor (ifmt: seq<int>, ghost f: Format)
      requires WellFormed(f) && f != Nil && ifmt == Encode(f) && Depth(f) <= LEVELS
      ensures Valid() && fresh(lv) && this.ifmt == ifmt && this.f == f && ncnf == 0 && kcnf == 0
      ensures Streams(f, 0, Ahead()) && Ahead() == Once(f) + []
    {
      this.ifmt, this.f := ifmt, f;
      imt, ncnf, kcnf, lev, iterm := 0, 0, 0, 0, 0;
      lv := new Level[LEVELS](_ => Level(0, 0, 0));
      cur, st, it := f, Bottom, f;
      new;
      AtStart(f, lv[..]);
    }
  }

  lemma TableWidth(r: FormatReader)
    requires r.Valid()
    ensures r.lv.Length == LEVELS && r.lev == Height(r.st) <= LEVELS && 0 <= r.imt <= |r.ifmt|
    ensures WellFormed(r.f) && r.f != Nil && WellFormed(r.cur)
  {
  }

  /** A right parenthesis is met. */
  method CloseGroup(r: FormatReader)
    requires r.Valid() && r.cur == Nil && r.st.Frame? && r.imt + 1 <= |r.ifmt|
    modifies r, r.lv
    ensures r.Valid() && r.Ahead() == old(r.Ahead())
    ensures r.cur != Nil || (r.cur == Nil && Height(r.st) < Height(old(r.st)))
  {
    hide At, Left, Once;
    TableWidth(r);
    r.imt := r.imt + 1;
    ghost var lv0, st0 := r.lv[..], r.st;
    if st0.done + 1 < st0.n {
      StepAgain(r.f, r.ifmt, r.imt - 1, r.iterm, st0, r.it, lv0);
      BodyThere(r.f, r.ifmt, r.imt - 1, r.iterm, r.cur, st0, r.it, lv0);
    } else {
      StepClose(r.f, r.ifmt, r.imt - 1, r.iterm, st0, r.it, lv0, st0.done + 1);
    }
    r.lv[r.lev - 1] := r.lv[r.lev - 1].(done := r.lv[r.lev - 1].done + 1);
    if r.lv[r.lev - 1].done >= r.lv[r.lev - 1].count {
      r.iterm := r.lv[r.lev - 1].start - 1;
      r.lev := r.lev - 1;
      r.it := Group(st0.n, st0.body, st0.rest);
      r.cur, r.st := st0.rest, st0.outer;
      assert r.lv[..] == lv0[Height(st0.outer) := Level(st0.start, st0.n, st0.done + 1)];
    } else {
      r.imt := r.lv[r.lev - 1].start;
      r.cur, r.st := st0.body, st0.(done := st0.done + 1);
      assert r.lv[..] == lv0[Height(st0.outer) := Level(st0.start, st0.n, st0.done + 1)];
    }
  }

  lemma BodyThere(f: Format, ifmt: seq<int>, imt: int, iterm: int, cur: Format, st: Stack, it: Format, lv: seq<Level>)
    requires At(f, ifmt, imt, iterm, cur, st, it, lv) && st.Frame?
    ensures st.body != Nil
  {
  }

  /**
   The next type code (label a5 of the source): parentheses are passed, and at the end the
   format is taken up again from its last outermost group.
   */
  method Fetch(r: FormatReader)
    requires r.Valid()
    modifies r, r.lv
    ensures r.Valid() && r.ncnf > 0 && r.kcnf >= 0
    ensures forall c: nat :: Streams(r.f, c, old(r.Ahead())) ==>
        Streams(r.f, c, Repeat([r.kcnf as nat], r.ncnf as nat) + r.Ahead())
  {
    hide At, Left, Once, Streams, Encode, Suffix;
    while true
      invariant r.Valid()
      invariant forall c: nat :: Streams(r.f, c, old(r.Ahead())) ==> Streams(r.f, c, r.Ahead())
      decreases if r.cur == Nil then 1 + Height(r.st) else 0, Size(r.cur)
    {
      TableWidth(r);
      WhatIsNext(r.f, r.ifmt, r.imt, r.iterm, r.cur, r.st, r.it, r.lv[..]);
      if r.imt + 1 > |r.ifmt| {
        StepRevert(r.f, r.ifmt, r.imt, r.iterm, r.it, r.lv[..]);
        r.imt := r.iterm;
        r.cur := r.it;
      } else if r.ifmt[r.imt] == 0 {
        CloseGroup(r);
      } else {
        var ncnf := r.ifmt[r.imt] / 10;
        var kcnf := r.ifmt[r.imt] - 10 * ncnf;
        if kcnf == 0 {
          StepOpen(r.f, r.ifmt, r.imt, r.iterm, r.cur, r.st, r.it, r.lv[..]);
          ghost var lv0 := r.lv[..];
          r.imt := r.imt + 1;
          r.lev := r.lev + 1;
          r.lv[r.lev - 1] := Level(r.imt, ncnf, 0);
          assert r.lv[..] == lv0[Height(r.st) := Level(r.imt, ncnf, 0)];
          r.st := Frame(r.imt, r.cur.n, 0, r.cur.body, r.cur.rest, r.st);
          r.cur := r.cur.body;
        } else {
          TakeCode(r, ncnf, kcnf);
          return;
        }
      }
    }
  }

  /** What the next code says about what is to come. */
  lemma WhatIsNext(f: Format, ifmt: seq<int>, imt: int, iterm: int, cur: Format, st: Stack, it: Format, lv: seq<Level>)
    requires At(f, ifmt, imt, iterm, cur, st, it, lv)
    ensures imt + 1 > |ifmt| <==> cur == Nil && st == Bottom
    ensures imt + 1 <= |ifmt| ==>
              && (ifmt[imt] == 0 <==> cur == Nil)
              && (cur == Nil ==> st.Frame?)
              && (cur.Group? ==> ifmt[imt] == 10 * cur.n && cur.n > 0 && cur.body != Nil && Size(cur.body) < Size(cur))
              && (cur.Code? ==> ifmt[imt] == 10 * cur.n + cur.k && cur.n > 0 && 0 < cur.k < 10)
  {
    assert imt < |ifmt| ==> ifmt[imt] == ifmt[imt..][0];
    EncodeEmpty(cur);
    LastFrame(st);
  }

  /** A type code is met; a last group of one code is taken as repeated without end. */
  method TakeCode(r: FormatReader, ncnf: int, kcnf: int)
    requires r.Valid() && r.cur.Code? && ncnf == r.cur.n > 0 && kcnf == r.cur.k > 0 && r.imt + 1 <= |r.ifmt|
    modifies r
    ensures r.Valid() && r.ncnf > 0 && r.kcnf >= 0
    ensures forall c: nat :: Streams(r.f, c, old(r.Ahead())) ==>
        Streams(r.f, c, Repeat([r.kcnf as nat], r.ncnf as nat) + r.Ahead())
  {
    hide At, Left, Once, Streams, Encode, Suffix;
    TableWidth(r);
    StepCode(r.f, r.ifmt, r.imt, r.iterm, r.cur, r.st, r.it, r.lv[..]);
    r.ncnf, r.kcnf := ncnf, kcnf;
    r.imt := r.imt + 1;
    if !(r.imt != |r.ifmt| - 1 || r.lev == 0) && !(r.imt != r.lv[r.lev - 1].start + 1) {
      StepMany(r.f, r.ifmt, r.imt - 1, r.iterm, r.cur, r.st, r.it, r.lv[..]);
      r.ncnf := MANY;
    }
    r.cur := r.cur.rest;
  }

  // ---- Converting ---------------------------------------------------------------------------------

  /** A word of type `k` in one of the two directions. */
  function Conv(back: bool, k: nat, w: bv32): bv32 {
    if back then Conv41(k, w) else Conv14(k, w)
  }

  /** The words with every one converted by its type; the first has number `skip` in the format. */
  ghost function Converted(back: bool, f: Format, skip: nat, ws: seq<bv32>): (r: seq<bv32>)
    requires WellFormed(f) && f != Nil
    ensures |r| == |ws| && forall p :: 0 <= p < |ws| ==> r[p] == Conv(back, TypeAt(f, skip + p), ws[p])
  {
    seq(|ws|, p requires 0 <= p < |ws| => Conv(back, TypeAt(f, skip + p), ws[p]))
  }

  /** Words ia .. ib are converted according to type `kcnf`. */
  method ConvertRun(iarr: array<bv32>, ia: int, ib: int, kcnf: int, back: bool)
    requires 1 <= ia && ib <= iarr.Length && 0 <= kcnf
    modifies iarr
    ensures forall p :: 0 <= p < iarr.Length ==>
              iarr[p] == if ia - 1 <= p < ib then Conv(back, kcnf as nat, old(iarr[p])) else old(iarr[p])
  {
    hide Conv14, Conv41;
    var i := ia;
    while i <= ib
      invariant ia <= i && (i <= ib + 1 || i == ia)
      invariant forall p :: 0 <= p < iarr.Length ==>
                  iarr[p] == if ia - 1 <= p < i - 1 then Conv(back, kcnf as nat, old(iarr[p])) else old(iarr[p])
    {
      iarr[i - 1] := if back then Conv41(kcnf as nat, iarr[i - 1]) else Conv14(kcnf as nat, iarr[i - 1]);
      i := i + 1;
    }
  }

  /** The first `n` of the types to come are `k`. */
  lemma TypesOfRun(f: Format, c: nat, k: nat, n: nat, s: seq<nat>, m: nat)
    requires Streams(f, c, Repeat([k], n) + s) && m <= n
    ensures forall p: nat :: c <= p < c + m ==> TypeAt(f, p) == k
    ensures Streams(f, c + m, Repeat([k], n - m) + s)
  {
    var t := Once(Revert(f, f));
    RepeatDrop(k, n, m);
    var u := Repeat([k], n) + s;
    assert u[m..] == Repeat([k], n - m) + s;
    forall p: nat | c <= p < c + m ensures TypeAt(f, p) == k {
      RepeatAt(k, n, p - c);
      assert TypeAt(f, c + (p - c)) == StreamAt(u, t, p - c);
    }
    forall q: nat ensures TypeAt(f, (c + m) + q) == StreamAt(u[m..], t, q) {
      StreamDrop(u, t, m, q);
      assert TypeAt(f, c + (m + q)) == StreamAt(u, t, m + q);
    }
  }

  /** A format of one code: its type is that of every word. */
  lemma SingleCode(f: Format, s: seq<nat>)
    requires WellFormed(f) && f != Nil && |Encode(f)| == 1 && Streams(f, 0, s)
    ensures f.Code? && 0 < f.k < 10 && Encode(f)[0] == 10 * f.n + f.k
    ensures s == Once(f) + [] ==> Streams(f, 0, Repeat([f.k], MANY) + s)
  {
    if f.Code? {
      EncodeEmpty(f.rest);
      ConstantRepeat([f.k], f.n, f.k);
      ConstantRepeat([f.k], MANY, f.k);
      ConstantAdd(Repeat([f.k], f.n), [], f.k);
      assert Once(f) == Repeat([f.k], f.n) + [];
      if s == Once(f) + [] {
        ConstantAdd(Repeat([f.k], MANY), s, f.k);
        ConstantSame(f, 0, s, Repeat([f.k], MANY) + s, f.k);
      }
    }
  }

  /** Words up to `ib` are converted. */
  ghost predicate Done(back: bool, f: Format, skip: nat, ws: seq<bv32>, now: seq<bv32>, ib: nat) {
    && WellFormed(f) && f != Nil && |now| == |ws|
    && forall p :: 0 <= p < |ws| ==> now[p] == if p < ib then Conv(back, TypeAt(f, skip + p), ws[p]) else ws[p]
  }

  lemma DoneRun(back: bool, f: Format, skip: nat, ws: seq<bv32>, now: seq<bv32>, now': seq<bv32>, ib: nat, ib': nat,
                k: nat)
    requires Done(back, f, skip, ws, now, ib) && ib <= ib' && |now'| == |now|
    requires forall p: nat :: skip + ib <= p < skip + ib' ==> TypeAt(f, p) == k
    requires forall p :: 0 <= p < |now| ==> now'[p] == if ib <= p < ib' then Conv(back, k, now[p]) else now[p]
    ensures Done(back, f, skip, ws, now', ib')
  {
    hide TypeAt, Conv;
    forall p | 0 <= p < |ws| ensures now'[p] == if p < ib' then Conv(back, TypeAt(f, skip + p), ws[p]) else ws[p] {
      if ib <= p < ib' { assert TypeAt(f, skip + p) == k; }
    }
  }

  /** One run of words of one type (from label a15 on, when nothing is left to skip). */
  method ConvertNext(iarr: array<bv32>, nwrd: int, ib: int, r: FormatReader, back: bool,
                     ghost nskip: nat, ghost ws: seq<bv32>)
    returns (ib': int)
    requires 0 <= ib < nwrd <= iarr.Length && r.ncnf > 0 && r.kcnf >= 0 && Done(back, r.f, nskip, ws, iarr[..], ib)
    requires Streams(r.f, nskip + ib, Repeat([r.kcnf as nat], r.ncnf as nat) + r.Ahead())
    modifies iarr, r`ncnf
    ensures ib < ib' <= nwrd && r.ncnf >= 0 && Done(back, r.f, nskip, ws, iarr[..], ib')
    ensures Streams(r.f, nskip + ib', Repeat([r.kcnf as nat], r.ncnf as nat) + r.Ahead())
  {
    hide Streams, TypeAt, Conv, Done, Once, Left;
    ghost var now := iarr[..];
    var ia := ib + 1;
    ib' := if nwrd < ib + r.ncnf then nwrd else ib + r.ncnf;
    TypesOfRun(r.f, nskip + ib, r.kcnf as nat, r.ncnf as nat, r.Ahead(), ib' - ib);
    r.ncnf := r.ncnf - ib' + ia - 1;
    ConvertRun(iarr, ia, ib', r.kcnf, back);
    DoneRun(back, r.f, nskip, ws, now, iarr[..], ib, ib', r.kcnf as nat);
  }

  /** The reader begins its use of the format: one code is not fetched but taken as repeated without end. */
  method BeginFormat(r: FormatReader)
    requires r.Valid() && r.ncnf == 0 && r.kcnf >= 0 && Streams(r.f, 0, r.Ahead()) && r.Ahead() == Once(r.f) + []
    requires r.ifmt == Encode(r.f)
    modifies r
    ensures r.Valid() && r.ncnf >= 0 && r.kcnf >= 0
    ensures Streams(r.f, 0, Repeat([r.kcnf as nat], r.ncnf as nat) + r.Ahead())
  {
    hide Streams, At, Once, Left, Encode, TypeAt;
    TableWidth(r);
    if |r.ifmt| == 1 {
      SingleCode(r.f, r.Ahead());
      r.ncnf := MANY;
      r.kcnf := r.ifmt[0] % 10;
    } else {
      r.ncnf := 0;
    }
    assert Repeat([r.kcnf as nat], 0) + r.Ahead() == r.Ahead();
  }

  /**
   Converts `nwrd` words of which the first has number `nskip` in the format (cnvr14_ and
   cnvr41_): each by the type that the unbounded use of the format gives it.
   */
  method Convert(iarr: array<bv32>, nwrd: int, nskip: nat, r: FormatReader, back: bool)
    requires nwrd <= iarr.Length && r.Valid() && r.ncnf == 0 && r.kcnf >= 0 && Streams(r.f, 0, r.Ahead())
    requires r.Ahead() == Once(r.f) + [] && r.ifmt == Encode(r.f) && WellFormed(r.f) && r.f != Nil
    requires |r.ifmt| == 1 ==> nskip + nwrd <= MANY
    requires iarr as object != r.lv as object
    modifies iarr, r, r.lv
    ensures nwrd <= 0 ==> iarr[..] == old(iarr[..])
    ensures nwrd > 0 ==> iarr[..] == Converted(back, r.f, nskip, old(iarr[..nwrd])) + old(iarr[nwrd..])
  {
    hide Streams, At, TypeAt, Conv, Once, Left, Encode, Done;
    ghost var ws := iarr[..];
    TableWidth(r);
    if nwrd <= 0 {
      return;
    }
    var ib, mskip: int := 0, nskip;
    NothingDone(back, r.f, nskip, ws);
    BeginFormat(r);
    while true
      invariant r.Valid() && 0 <= ib < nwrd && 0 <= mskip <= nskip && (mskip > 0 ==> ib == 0) && r.ncnf >= 0
      invariant r.kcnf >= 0
      invariant Streams(r.f, nskip - mskip + ib, Repeat([r.kcnf as nat], r.ncnf as nat) + r.Ahead())
      invariant Done(back, r.f, nskip, ws, iarr[..], ib)
      decreases mskip, nwrd - ib, if r.ncnf == 0 then 1 else 0
    {
      if r.ncnf == 0 {
        assert Repeat([r.kcnf as nat], 0) + r.Ahead() == r.Ahead();
        Fetch(r);
      } else if mskip > 0 && mskip >= r.ncnf {
        TypesOfRun(r.f, nskip - mskip + ib, r.kcnf as nat, r.ncnf as nat, r.Ahead(), r.ncnf as nat);
        assert Repeat([r.kcnf as nat], 0) + r.Ahead() == r.Ahead();
        mskip := mskip - r.ncnf;
        Fetch(r);
      } else {
        if mskip > 0 {
          TypesOfRun(r.f, nskip - mskip + ib, r.kcnf as nat, r.ncnf as nat, r.Ahead(), mskip);
          r.ncnf := r.ncnf - mskip;
          mskip := 0;
        }
        ib := ConvertNext(iarr, nwrd, ib, r, back, nskip, ws);
        if ib >= nwrd {
          break;
        }
      }
    }
    AllDone(back, r.f, nskip, ws, iarr[..], nwrd);
  }

  /** IEEE to DEC (cnvr14_). */
  method Cnvr14(iarr: array<bv32>, nwrd: int, nskip: nat, ifmt: seq<int>, ghost f: Format)
    requires nwrd <= iarr.Length && WellFormed(f) && f != Nil && Depth(f) <= LEVELS && ifmt == Encode(f)
    requires |ifmt| == 1 ==> nskip + nwrd <= MANY
    modifies iarr
    ensures nwrd <= 0 ==> iarr[..] == old(iarr[..])
    ensures nwrd > 0 ==> iarr[..] == Converted(false, f, nskip, old(iarr[..nwrd])) + old(iarr[nwrd..])
  {
    var r := new FormatReader(ifmt, f);
    Convert(iarr, nwrd, nskip, r, false);
  }

  /** DEC to IEEE (cnvr41_). */
  method Cnvr41(iarr: array<bv32>, nwrd: int, nskip: nat, ifmt: seq<int>, ghost f: Format)
    requires nwrd <= iarr.Length && WellFormed(f) && f != Nil && Depth(f) <= LEVELS && ifmt == Encode(f)
    requires |ifmt| == 1 ==> nskip + nwrd <= MANY
    modifies iarr
    ensures nwrd <= 0 ==> iarr[..] == old(iarr[..])
    ensures nwrd > 0 ==> iarr[..] == Converted(true, f, nskip, old(iarr[..nwrd])) + old(iarr[nwrd..])
  {
    var r := new FormatReader(ifmt, f);
    Convert(iarr, nwrd, nskip, r, true);
  }

  lemma NothingDone(back: bool, f: Format, skip: nat, ws: seq<bv32>)
    requires WellFormed(f) && f != Nil
    ensures Done(back, f, skip, ws, ws, 0)
  {
  }

  lemma AllDone(back: bool, f: Format, skip: nat, ws: seq<bv32>, now: seq<bv32>, n: nat)
    requires Done(back, f, skip, ws, now, n) && n <= |ws|
    ensures now == Converted(back, f, skip, ws[..n]) + ws[n..]
  {
    hide TypeAt, Conv;
  }

  // ---- What conversion is good for ------------------------------------------------------------------

  /** A long stretch of words may be converted in two parts. */
  lemma ConvertedParts(back: bool, f: Format, skip: nat, a: seq<bv32>, b: seq<bv32>)
    requires WellFormed(f) && f != Nil
    ensures Converted(back, f, skip, a + b) == Converted(back, f, skip, a) + Converted(back, f, skip + |a|, b)
  {
    hide TypeAt, Conv;
    var r, s := Converted(back, f, skip, a + b), Converted(back, f, skip, a) + Converted(back, f, skip + |a|, b);
    forall p | 0 <= p < |r| ensures r[p] == s[p] {
      if p >= |a| { assert skip + p == (skip + |a|) + (p - |a|); }
    }
  }

  /** What becomes of the `p`-th word: bytes or halves in reverse, or nothing, by its type in the format. */
  lemma ConvertedAt(back: bool, f: Format, skip: nat, ws: seq<bv32>, p: nat)
    requires WellFormed(f) && f != Nil && p < |ws|
    ensures var k, w, r := TypeAt(f, skip + p), ws[p], Converted(back, f, skip, ws)[p];
            if k == 3 || k == 5 then BytesOver(w, r)
            else if k == 4 then HalvesOver(w, r)
            else r == if k == 1 && back && w == 0x8000_0000 then 0 else w
  {
    hide TypeAt, Conv14, Conv41, BytesOver, HalvesOver;
    WordConverted(TypeAt(f, skip + p), ws[p], back);
  }

  /** Conversion there and back restores exactly the words that survive it. */
  lemma ConvertedBack(f: Format, skip: nat, ws: seq<bv32>)
    requires WellFormed(f) && f != Nil
    ensures forall p :: 0 <= p < |ws| ==>
              (Converted(true, f, skip, Converted(false, f, skip, ws))[p] == ws[p] <==>
                 Survives(TypeAt(f, skip + p), ws[p]))
    ensures Converted(true, f, skip, Converted(false, f, skip, ws)) == ws <==>
              forall p :: 0 <= p < |ws| ==> Survives(TypeAt(f, skip + p), ws[p])
  {
    hide TypeAt, Conv14, Conv41, Survives;
    var r := Converted(true, f, skip, Converted(false, f, skip, ws));
    forall p | 0 <= p < |ws| ensures r[p] == ws[p] <==> Survives(TypeAt(f, skip + p), ws[p]) {
      ThereAndBack(TypeAt(f, skip + p), ws[p]);
    }
    if forall p :: 0 <= p < |ws| ==> Survives(TypeAt(f, skip + p), ws[p]) {
      assert r == ws;
    }
  }
}
