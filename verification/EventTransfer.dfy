/**
 From one BOS array to another: bos2et, and et2bos on what it wrote, directly or after a way
 through a file.
 */
module EventTransfer {
  import opened Options
  import opened BankLayout
  import opened Directory
  import opened BosArrays
  import opened Creating
  import opened Linking
  import opened Records
  import opened Repetition
  import opened EventUnloading
  import opened HeaderTexts
  import opened EventWalking
  import opened EventLoading
  import Segments
  import EtWriting
  import EtReading
  import FileTransfer
  import BosWriting
  import BosReading

  // ---- What a copied record means ------------------------------------------------------------------------

  ghost predicate DistinctNames(names: seq<int>) {
    forall i, j :: 0 <= i < j < |names| ==> names[i] != names[j]
  }

  /** The source has names `na` and lists `ma`, of which those in `list` are copied. */
  ghost predicate Source(na: seq<int>, ma: seq<seq<Bank>>, list: seq<nat>, fmts: seq<seq<int>>) {
    DistinctNames(na) && AllSorted(ma) && |ma| == |na| && InRange(list, |ma|) && FormatsOk(fmts, |na|)
  }

  /** The banks of the flat record. */
  ghost function Sent(na: seq<int>, ma: seq<seq<Bank>>, list: seq<nat>, fmts: seq<seq<int>>): seq<Segments.Segment>
    requires Source(na, ma, list, fmts)
  {
    ListedNames(ma, list, na);
    SegsOf(na, fmts, Listed(ma, list))
  }

  lemma SentFrag(na: seq<int>, ma: seq<seq<Bank>>, list: seq<nat>, fmts: seq<seq<int>>, nb: seq<int>, j: nat)
    requires Source(na, ma, list, fmts) && NamesIn(nb, Sent(na, ma, list, fmts)) && j < |Listed(ma, list)|
    ensures var f := Listed(ma, list)[j];
            && f.n < |na| && f.bank in ma[f.n] && na[f.n] in nb
            && FragsOf(nb, Sent(na, ma, list, fmts))[j] == Frag(NameIndex(nb, na[f.n]), f.bank)
  {
    ListedNames(ma, list, na);
    ListedNamed(ma, list);
    var f, ds := Listed(ma, list)[j], Sent(na, ma, list, fmts);
    assert ds[j] == SegOf(na, fmts, f);
    assert Head(ds[j], Segments.idNAME1) in nb;
  }

  lemma SentLength(na: seq<int>, ma: seq<seq<Bank>>, list: seq<nat>, fmts: seq<seq<int>>, nb: seq<int>)
    requires Source(na, ma, list, fmts) && NamesIn(nb, Sent(na, ma, list, fmts))
    ensures |FragsOf(nb, Sent(na, ma, list, fmts))| == |Listed(ma, list)|
  {
  }

  /** Two records that agree in where the bank is. */
  ghost predicate SamePlaces(fs: seq<Frag>, n: nat, gs: seq<Frag>, q: nat, nr: int) {
    |fs| == |gs| && forall i :: 0 <= i < |fs| ==> (Key(fs[i], n, nr) <==> Key(gs[i], q, nr))
  }

  lemma {:induction false} SameRun(fs: seq<Frag>, n: nat, gs: seq<Frag>, q: nat, nr: int)
    requires SamePlaces(fs, n, gs, q, nr)
    ensures LastRun(fs, n, nr) == LastRun(gs, q, nr)
  {
    if fs != [] {
      var c, d := fs[..|fs| - 1], gs[|gs| - 1];
      SameRun(c, n, gs[..|gs| - 1], q, nr);
      assert Key(fs[|fs| - 1], n, nr) <==> Key(d, q, nr);
      if |fs| > 1 { assert Key(fs[|fs| - 2], n, nr) <==> Key(gs[|gs| - 2], q, nr); }
    }
  }

  lemma SentPlaces(na: seq<int>, ma: seq<seq<Bank>>, list: seq<nat>, fmts: seq<seq<int>>, nb: seq<int>, n: nat, nr: int)
    requires Source(na, ma, list, fmts) && NamesIn(nb, Sent(na, ma, list, fmts)) && n < |na|
    ensures SamePlaces(Listed(ma, list), n, FragsOf(nb, Sent(na, ma, list, fmts)), NameIndex(nb, na[n]), nr)
  {
    var fs, gs, q := Listed(ma, list), FragsOf(nb, Sent(na, ma, list, fmts)), NameIndex(nb, na[n]);
    ListedNames(ma, list, na);
    hide Listed, Sent, FragsOf, SegsOf;
    forall i | 0 <= i < |fs| ensures Key(fs[i], n, nr) <==> Key(gs[i], q, nr) {
      SentFrag(na, ma, list, fmts, nb, i);
    }
  }

  /** In sorted lists a number stands for one bank. */
  lemma OneBank(l: seq<Bank>, b: Bank, c: Bank)
    requires Sorted(l) && b in l && c in l && b.nr == c.nr
    ensures b == c
  {
    var i :| 0 <= i < |l| && l[i] == b;
    var j :| 0 <= j < |l| && l[j] == c;
  }

  lemma SentUniform(na: seq<int>, ma: seq<seq<Bank>>, list: seq<nat>, fmts: seq<seq<int>>, nb: seq<int>, n: nat,
                    d: Bank)
    requires Source(na, ma, list, fmts) && NamesIn(nb, Sent(na, ma, list, fmts)) && n < |na| && d in ma[n]
    ensures Uniform(FragsOf(nb, Sent(na, ma, list, fmts)), NameIndex(nb, na[n]), d)
  {
    var fs, gs, q := Listed(ma, list), FragsOf(nb, Sent(na, ma, list, fmts)), NameIndex(nb, na[n]);
    SentPlaces(na, ma, list, fmts, nb, n, d.nr);
    hide Listed, Sent, FragsOf, SegsOf;
    forall i | 0 <= i < |gs| && Key(gs[i], q, d.nr) ensures gs[i].bank == d {
      SentFrag(na, ma, list, fmts, nb, i);
      assert Key(fs[i], n, d.nr);
      OneBank(ma[n], d, fs[i].bank);
    }
  }

  lemma {:induction false} GroupedNamed(fs: seq<Frag>, k: nat)
    requires forall i :: 0 <= i < |fs| ==> fs[i].n < k
    ensures forall i :: 0 <= i < |Grouped(fs)| ==> Grouped(fs)[i].n < k
    decreases |fs|
  {
    if |fs| > 1 {
      if SameBank(fs[0], fs[1]) { GroupedNamed([Joined(fs[0], fs[1])] + fs[2..], k); }
          else { GroupedNamed(fs[1..], k); }
    }
  }

  /** What a list answers after the record has been loaded. */
  lemma LoadedAnswers(m: seq<seq<Bank>>, nb: seq<int>, rn: nat, unit: int, ds: seq<Segments.Segment>, q: nat, nr: int)
    requires NamesIn(nb, ds) && rn < |nb| && |m| <= |nb| && AllSorted(m) && q < |nb| && q != rn
    ensures |EventLoaded(m, nb, rn, unit, ds)| == |nb|
    ensures var o := LastOf(Grouped(FragsOf(nb, ds)), q, nr);
            Lookup(EventLoaded(m, nb, rn, unit, ds)[q], nr) == if o == None then Lookup(Padded(m, |nb|)[q], nr) else o
  {
    hide Grouped, Load, LastOf, Lookup, Delete;
    GroupedNamed(FragsOf(nb, ds), |nb|);
    LookupLoad(Padded(m, |nb|), Grouped(FragsOf(nb, ds)), q, nr);
  }

  /**
   A bank of a record that is loaded word for word is in the target with the same columns and
   rows, and with its data as often as it stands in a row at its last place in the list.
   */
  lemma ArrivedBank(na: seq<int>, ma: seq<seq<Bank>>, list: seq<nat>, fmts: seq<seq<int>>,
                   m: seq<seq<Bank>>, nb: seq<int>, rn: nat, unit: int, n: nat, d: Bank)
    requires Source(na, ma, list, fmts) && NamesIn(nb, Sent(na, ma, list, fmts)) && rn < |nb| && |m| <= |nb|
    requires AllSorted(m)
    requires n in list && d in ma[n] && na[n] in nb && NameIndex(nb, na[n]) != rn
    ensures |EventLoaded(m, nb, rn, unit, Sent(na, ma, list, fmts))| == |nb|
    ensures var k := LastRun(Listed(ma, list), n, d.nr);
            var o := Lookup(EventLoaded(m, nb, rn, unit, Sent(na, ma, list, fmts))[NameIndex(nb, na[n])], d.nr);
            && k > 0 && o == Some(d.(data := Times(d.data, k)))
            && (o == Some(d) <==> k == 1 || d.data == [])
  {
    hide Grouped, LastOf, Lookup, Times, LastRun, Listed, Sent, EventLoaded, FragsOf;
    var fs, gs, q := Listed(ma, list), FragsOf(nb, Sent(na, ma, list, fmts)), NameIndex(nb, na[n]);
    SentPlaces(na, ma, list, fmts, nb, n, d.nr);
    SameRun(fs, n, gs, q, d.nr);
    SentUniform(na, ma, list, fmts, nb, n, d);
    LastGrouped(gs, q, d);
    LoadedAnswers(m, nb, rn, unit, Sent(na, ma, list, fmts), q, d.nr);
    ListedHas(ma, list, n, d);
    RunCounts(fs, n, d.nr);
    TimesOnce(d.data, LastRun(fs, n, d.nr));
  }

  // ---- What et2bos makes of the record -----------------------------------------------------------------

  /** The banks as et2bos copies them, the texts of their formats having been ended. */
  ghost function AsCopied(ma: seq<seq<Bank>>, fmts: seq<seq<int>>): (r: seq<seq<Bank>>)
    requires |fmts| == |ma|
    ensures |r| == |ma|
  {
    seq(|ma|, n requires 0 <= n < |ma| => ListCopied(ma[n], fmts[n]))
  }

  ghost function ListCopied(l: seq<Bank>, fmt: seq<int>): (r: seq<Bank>)
    ensures |r| == |l|
  {
    seq(|l|, i requires 0 <= i < |l| => BankCopied(l[i], fmt))
  }

  ghost function BankCopied(d: Bank, fmt: seq<int>): Bank {
    d.(data := Clipped(fmt, d.data))
  }

  lemma CopiedSource(na: seq<int>, ma: seq<seq<Bank>>, list: seq<nat>, fmts: seq<seq<int>>)
    requires Source(na, ma, list, fmts)
    ensures Source(na, AsCopied(ma, fmts), list, fmts)
    ensures forall n, d :: 0 <= n < |ma| && d in ma[n] ==> BankCopied(d, fmts[n]) in AsCopied(ma, fmts)[n]
  {
    var mc := AsCopied(ma, fmts);
    forall n | 0 <= n < |mc| ensures Sorted(mc[n]) {
      assert Sorted(ma[n]);
    }
    forall n, d | 0 <= n < |ma| && d in ma[n] ensures BankCopied(d, fmts[n]) in mc[n] {
      var i :| 0 <= i < |ma[n]| && ma[n][i] == d;
      assert mc[n][i] == BankCopied(d, fmts[n]);
    }
  }

  ghost function FragCopied(f: Frag, fmts: seq<seq<int>>): Frag
    requires f.n < |fmts|
  {
    f.(bank := BankCopied(f.bank, fmts[f.n]))
  }

  lemma {:induction false} ListedCopied(ma: seq<seq<Bank>>, list: seq<nat>, fmts: seq<seq<int>>)
    requires InRange(list, |ma|) && |fmts| == |ma|
    ensures var fs, gs := Listed(ma, list), Listed(AsCopied(ma, fmts), list);
            |gs| == |fs| && forall i :: 0 <= i < |fs| ==> fs[i].n < |ma| && gs[i] == FragCopied(fs[i], fmts)
  {
    if list != [] { ListedCopied(ma, list[..|list| - 1], fmts); }
  }

  /** What et2bos copies is what would be sent of the copied banks. */
  lemma SentCopied(na: seq<int>, ma: seq<seq<Bank>>, list: seq<nat>, fmts: seq<seq<int>>)
    requires Source(na, ma, list, fmts)
    ensures Source(na, AsCopied(ma, fmts), list, fmts)
    ensures ClipAll(Sent(na, ma, list, fmts)) == Sent(na, AsCopied(ma, fmts), list, fmts)
  {
    hide Listed, Clipped;
    CopiedSource(na, ma, list, fmts);
    ListedNames(ma, list, na);
    ListedNames(AsCopied(ma, fmts), list, na);
    ListedCopied(ma, list, fmts);
    var fs, gs := Listed(ma, list), Listed(AsCopied(ma, fmts), list);
    var ds, cs := Sent(na, ma, list, fmts), Sent(na, AsCopied(ma, fmts), list, fmts);
    forall i | 0 <= i < |fs| ensures Clip(ds[i]) == cs[i] {
      assert ds[i] == SegOf(na, fmts, fs[i]) && cs[i] == SegOf(na, fmts, gs[i]);
      assert FormatOf(ds[i]) == fmts[fs[i].n];
    }
  }

  lemma RunCopied(ma: seq<seq<Bank>>, list: seq<nat>, fmts: seq<seq<int>>, n: nat, nr: int)
    requires InRange(list, |ma|) && |fmts| == |ma|
    ensures LastRun(Listed(AsCopied(ma, fmts), list), n, nr) == LastRun(Listed(ma, list), n, nr)
  {
    hide Listed;
    ListedCopied(ma, list, fmts);
    SameRun(Listed(AsCopied(ma, fmts), list), n, Listed(ma, list), n, nr);
  }

  /**
   A listed bank arrives with its columns and rows.  It arrives with its data if and only if it
   has none, or it stands alone at its last place in the list and its format leaves room for the
   NUL, the first byte of its data being zero otherwise.
   */
  lemma CopiedBank(na: seq<int>, ma: seq<seq<Bank>>, list: seq<nat>, fmts: seq<seq<int>>,
                   m: seq<seq<Bank>>, nb: seq<int>, rn: nat, unit: int, n: nat, d: Bank)
    requires Source(na, ma, list, fmts) && NamesIn(nb, ClipAll(Sent(na, ma, list, fmts))) && rn < |nb| && |m| <= |nb|
    requires AllSorted(m)
    requires n in list && d in ma[n] && na[n] in nb && NameIndex(nb, na[n]) != rn
    ensures |EventLoaded(m, nb, rn, unit, ClipAll(Sent(na, ma, list, fmts)))| == |nb|
    ensures var k := LastRun(Listed(ma, list), n, d.nr);
            var o := Lookup(EventLoaded(m, nb, rn, unit, ClipAll(Sent(na, ma, list, fmts)))[NameIndex(nb, na[n])],
                d.nr);
            && k > 0 && o == Some(d.(data := Times(Clipped(fmts[n], d.data), k)))
            && (o == Some(d) <==> d.data == [] || (k == 1 && Spared(fmts[n], d.data)))
  {
    hide Grouped, LastOf, Lookup, Times, LastRun, Listed, Sent, EventLoaded, FragsOf, Clipped, ClipAll, Spared;
    SentCopied(na, ma, list, fmts);
    CopiedSource(na, ma, list, fmts);
    ArrivedBank(na, AsCopied(ma, fmts), list, fmts, m, nb, rn, unit, n, BankCopied(d, fmts[n]));
    RunCopied(ma, list, fmts, n, d.nr);
    SparedIff(fmts[n], d.data);
    TimesLength(Clipped(fmts[n], d.data), LastRun(Listed(ma, list), n, d.nr));
    TimesOnce(Clipped(fmts[n], d.data), LastRun(Listed(ma, list), n, d.nr));
    assert |Clipped(fmts[n], d.data)| == |d.data|;
  }

  lemma {:induction false} TimesLength(d: seq<int>, k: nat)
    ensures k > 1 && d != [] ==> |Times(d, k)| > |d|
    ensures k > 0 ==> |Times(d, k)| >= |d|
    ensures d == [] ==> Times(d, k) == []
  {
    if k > 0 { TimesLength(d, k - 1); }
  }

  lemma {:induction false} ListedHas(m: seq<seq<Bank>>, list: seq<nat>, n: nat, d: Bank)
    requires InRange(list, |m|) && n in list && d in m[n]
    ensures exists i :: 0 <= i < |Listed(m, list)| && Key(Listed(m, list)[i], n, d.nr)
  {
    var c, l := list[..|list| - 1], list[|list| - 1];
    var a := Listed(m, c);
    if n == l {
      var j :| 0 <= j < |m[n]| && m[n][j] == d;
      assert OfName(n, m[n])[j] == Frag(n, d);
      assert Listed(m, list)[|a| + j] == Frag(n, d);
    } else {
      assert n in c;
      ListedHas(m, c, n, d);
      var i :| 0 <= i < |a| && Key(a[i], n, d.nr);
      assert Listed(m, list)[i] == a[i];
    }
  }

  /** Banks of the target that are not in the record stay as they were. */
  lemma OtherBank(na: seq<int>, ma: seq<seq<Bank>>, list: seq<nat>, fmts: seq<seq<int>>,
                  m: seq<seq<Bank>>, nb: seq<int>, rn: nat, unit: int, q: nat, nr: int)
    requires Source(na, ma, list, fmts) && NamesIn(nb, Sent(na, ma, list, fmts)) && rn < |nb| && |m| <= |nb|
    requires AllSorted(m)
    requires q < |nb| && q != rn
    requires forall n, d :: n in list && d in ma[n] && na[n] == nb[q] ==> d.nr != nr
    ensures |EventLoaded(m, nb, rn, unit, Sent(na, ma, list, fmts))| == |nb|
    ensures Lookup(EventLoaded(m, nb, rn, unit, Sent(na, ma, list, fmts))[q], nr) == Lookup(Padded(m, |nb|)[q], nr)
  {
    hide Grouped, LastOf, Lookup, Times, LastRun, Listed, Sent, EventLoaded, FragsOf;
    var fs, ds := Listed(ma, list), Sent(na, ma, list, fmts);
    var gs := FragsOf(nb, ds);
    ListedFrom(ma, list);
    SentLength(na, ma, list, fmts, nb);
    forall i | 0 <= i < |gs| ensures !Key(gs[i], q, nr) {
      SentFrag(na, ma, list, fmts, nb, i);
      assert fs[i].n in list;
    }
    RunCounts(gs, q, nr);
    LastGrouped(gs, q, Bank(nr, 0, 0, []));
    LoadedAnswers(m, nb, rn, unit, ds, q, nr);
  }

  /** A list without repetitions gives a record without repetitions. */
  lemma {:induction false} ListedDistinct(m: seq<seq<Bank>>, list: seq<nat>)
    requires InRange(list, |m|) && AllSorted(m) && forall i, j :: 0 <= i < j < |list| ==> list[i] != list[j]
    ensures AllDistinct(Listed(m, list))
  {
    if list != [] {
      var c, l := list[..|list| - 1], list[|list| - 1];
      ListedDistinct(m, c);
      ListedFrom(m, c);
    }
  }

  lemma {:induction false} ListedFrom(m: seq<seq<Bank>>, list: seq<nat>)
    requires InRange(list, |m|)
    ensures forall i :: 0 <= i < |Listed(m, list)| ==> Listed(m, list)[i].n in list
  {
    if list != [] { ListedFrom(m, list[..|list| - 1]); }
  }

  // ---- From array to array ------------------------------------------------------------------------------

  /** The complete flat record. */
  lemma FlatRecord(ev: seq<int>, na: seq<int>, fmts: seq<seq<int>>, fs: seq<Frag>, ndim: int)
    requires Named(na, fs) && FormatsOk(fmts, |na|) && fs != [] && Unloaded(ev, SegsOf(na, fmts, fs), |fs|, ndim)
    ensures |ev| >= Segments.RECHEADLEN
    ensures EtWriting.Holds(ev, Segments.Record(ev[..Segments.RECHEADLEN], SegsOf(na, fmts, fs)))
  {
    hide SegOf, Segments.Flat;
    var ds := SegsOf(na, fmts, fs);
    assert ds[..|fs|] == ds;
    forall i | 0 <= i < |ds| ensures Segments.SegOk(ds[i]) && ds[i].hd[Segments.idCODE] == 0
        && ds[i].hd[Segments.idNPREV] == 0 {
      SegFits(na, fmts, fs[i]);
    }
  }

  /** The record read back from a file is a flat record again. */
  lemma DeliveredHolds(ev: seq<int>, ds: seq<Segments.Segment>, hd: seq<int>)
    requires EtReading.Delivered(ev, |ev|, Segments.Record(hd, ds)) && Segments.Whole(Segments.Record(hd, ds))
    ensures |ev| >= Segments.RECHEADLEN && EtWriting.Holds(ev, Segments.Record(ev[..Segments.RECHEADLEN], ds))
  {
    hide Segments.Flat;
    var n := Segments.RECHEADLEN + |Segments.Flat(ds)|;
    assert ev[..n] == ev[..Segments.RECHEADLEN] + ev[Segments.RECHEADLEN..n];
  }

  /** Every bank of a listed name is in the target, with the same columns, rows and data. */
  ghost predicate AllCopied(na: seq<int>, ma: seq<seq<Bank>>, list: seq<nat>, nb: seq<int>, mb: seq<seq<Bank>>)
    requires |ma| == |na| && InRange(list, |ma|)
  {
    forall n, d :: n in list && d in ma[n] ==> IsThere(nb, mb, na[n], d)
  }

  /** The lists have bank `d` under this name. */
  ghost predicate IsThere(nb: seq<int>, mb: seq<seq<Bank>>, name: int, d: Bank) {
    name in nb && NameIndex(nb, name) < |mb| && Lookup(mb[NameIndex(nb, name)], d.nr) == Some(d)
  }

  /** If no name is listed twice, a record that is loaded word for word brings every listed bank. */
  lemma ArrivedDistinct(na: seq<int>, ma: seq<seq<Bank>>, list: seq<nat>, fmts: seq<seq<int>>,
                        m: seq<seq<Bank>>, nb: seq<int>, rn: nat, unit: int)
    requires Source(na, ma, list, fmts) && NamesIn(nb, Sent(na, ma, list, fmts)) && rn < |nb| && |m| <= |nb|
    requires AllSorted(m)
    requires (forall n :: n in list ==> na[n] != nb[rn]) && forall i, j :: 0 <= i < j < |list| ==> list[i] != list[j]
    ensures AllCopied(na, ma, list, nb, EventLoaded(m, nb, rn, unit, Sent(na, ma, list, fmts)))
  {
    hide Listed, Sent, EventLoaded, FragsOf, Times, LastRun, Lookup;
    ListedDistinct(ma, list);
    forall n, d | n in list && d in ma[n]
      ensures IsThere(nb, EventLoaded(m, nb, rn, unit, Sent(na, ma, list, fmts)), na[n], d)
    {
      SentName(na, ma, list, fmts, nb, n, d);
      RunCounts(Listed(ma, list), n, d.nr);
      ArrivedBank(na, ma, list, fmts, m, nb, rn, unit, n, d);
    }
  }

  /** All listed banks leave room for the NUL behind their format, or have nothing to lose. */
  ghost predicate AllSpared(ma: seq<seq<Bank>>, list: seq<nat>, fmts: seq<seq<int>>)
    requires InRange(list, |ma|) && |fmts| == |ma|
  {
    forall n, d :: n in list && d in ma[n] ==> Spared(fmts[n], d.data)
  }

  /** If no name is listed twice, all listed banks arrive through et2bos if and only if all are spared. */
  lemma CopiedDistinct(na: seq<int>, ma: seq<seq<Bank>>, list: seq<nat>, fmts: seq<seq<int>>,
                       m: seq<seq<Bank>>, nb: seq<int>, rn: nat, unit: int)
    requires Source(na, ma, list, fmts) && NamesIn(nb, ClipAll(Sent(na, ma, list, fmts))) && rn < |nb| && |m| <= |nb|
    requires AllSorted(m)
    requires (forall n :: n in list ==> na[n] != nb[rn]) && forall i, j :: 0 <= i < j < |list| ==> list[i] != list[j]
    ensures AllCopied(na, ma, list, nb, EventLoaded(m, nb, rn, unit, ClipAll(Sent(na, ma, list, fmts))))
        <==> AllSpared(ma, list, fmts)
  {
    hide Listed, Sent, EventLoaded, FragsOf, Times, LastRun, Lookup, Spared, ClipAll, Clipped;
    ListedDistinct(ma, list);
    var mb := EventLoaded(m, nb, rn, unit, ClipAll(Sent(na, ma, list, fmts)));
    forall n, d | n in list && d in ma[n]
      ensures IsThere(nb, mb, na[n], d) <==> Spared(fmts[n], d.data)
    {
      CopiedName(na, ma, list, fmts, nb, n, d);
      RunCounts(Listed(ma, list), n, d.nr);
      CopiedBank(na, ma, list, fmts, m, nb, rn, unit, n, d);
      NothingToLose(fmts[n], d.data);
    }
    EachCopied(na, ma, list, fmts, nb, mb);
  }

  lemma EachCopied(na: seq<int>, ma: seq<seq<Bank>>, list: seq<nat>, fmts: seq<seq<int>>, nb: seq<int>,
                   mb: seq<seq<Bank>>)
    requires |ma| == |na| == |fmts| && InRange(list, |ma|)
    requires forall n, d :: n in list && d in ma[n] ==> (IsThere(nb, mb, na[n], d) <==> Spared(fmts[n], d.data))
    ensures AllCopied(na, ma, list, nb, mb) <==> AllSpared(ma, list, fmts)
  {
    hide IsThere, Spared;
    if AllCopied(na, ma, list, nb, mb) {
      forall n, d | n in list && d in ma[n] ensures Spared(fmts[n], d.data) { assert IsThere(nb, mb, na[n], d); }
    }
    if AllSpared(ma, list, fmts) {
      forall n, d | n in list && d in ma[n] ensures IsThere(nb, mb, na[n], d) { assert Spared(fmts[n], d.data); }
    }
  }

  lemma NothingToLose(fmt: seq<int>, data: seq<int>)
    ensures data == [] ==> Spared(fmt, data)
  {
  }

  lemma CopiedName(na: seq<int>, ma: seq<seq<Bank>>, list: seq<nat>, fmts: seq<seq<int>>, nb: seq<int>, n: nat, d: Bank)
    requires Source(na, ma, list, fmts) && NamesIn(nb, ClipAll(Sent(na, ma, list, fmts))) && n in list && d in ma[n]
    ensures na[n] in nb
  {
    hide Listed, Sent;
    SentCopied(na, ma, list, fmts);
    CopiedSource(na, ma, list, fmts);
    SentName(na, AsCopied(ma, fmts), list, fmts, nb, n, BankCopied(d, fmts[n]));
  }

  /** Banks of the target that are not in the record stay as they were, also when it is loaded by et2bos. */
  lemma OtherCopied(na: seq<int>, ma: seq<seq<Bank>>, list: seq<nat>, fmts: seq<seq<int>>,
                    m: seq<seq<Bank>>, nb: seq<int>, rn: nat, unit: int, q: nat, nr: int)
    requires Source(na, ma, list, fmts) && NamesIn(nb, ClipAll(Sent(na, ma, list, fmts))) && rn < |nb| && |m| <= |nb|
    requires AllSorted(m)
    requires q < |nb| && q != rn
    requires forall n, d :: n in list && d in ma[n] && na[n] == nb[q] ==> d.nr != nr
    ensures |EventLoaded(m, nb, rn, unit, ClipAll(Sent(na, ma, list, fmts)))| == |nb|
    ensures Lookup(EventLoaded(m, nb, rn, unit, ClipAll(Sent(na, ma, list, fmts)))[q], nr)
        == Lookup(Padded(m, |nb|)[q], nr)
  {
    hide Listed, Sent, EventLoaded, Lookup;
    SentCopied(na, ma, list, fmts);
    var mc: seq<seq<Bank>> := AsCopied(ma, fmts);
    forall n: nat, d: Bank | n in list && d in mc[n] && na[n] == nb[q] ensures d.nr != nr {
      var i: nat :| i < |mc[n]| && mc[n][i] == d;
      assert mc[n] == ListCopied(ma[n], fmts[n]);
      assert ma[n][i] in ma[n] && ma[n][i].nr == d.nr;
    }
    OtherBank(na, mc, list, fmts, m, nb, rn, unit, q, nr);
  }

  /**
   The format "2I,F" fills its word: a bank with the single data word 1 arrives through et2bos
   with the data word 0.
   */
  lemma FourCharacters(name: int, d: Bank, m: seq<seq<Bank>>, nb: seq<int>, rn: nat, unit: int)
    requires d.data == [1]
    requires var na, ma, fmts := [name], [[d]], [[0x462C4932]];
             Source(na, ma, [0], fmts) && NamesIn(nb, ClipAll(Sent(na, ma, [0], fmts)))
    requires rn < |nb| && |m| <= |nb| && AllSorted(m) && name in nb && NameIndex(nb, name) != rn
    ensures IsThere(nb, EventLoaded(m, nb, rn, unit, ClipAll(Sent([name], [[d]], [0], [[0x462C4932]]))), name,
        d.(data := [0]))
  {
    hide Listed, Sent, EventLoaded, FragsOf, Lookup, Stops, LastRun, Times, ClipAll;
    var ma: seq<seq<Bank>>, list: seq<nat> := [[d]], [0];
    FullWord();
    ListedDistinct(ma, list);
    RunCounts(Listed(ma, list), 0, d.nr);
    CopiedBank([name], ma, list, [[0x462C4932]], m, nb, rn, unit, 0, d);
    OneTime([0]);
  }

  lemma OneTime(d: seq<int>)
    ensures Times(d, 1) == d
  {
    assert Times(d, 1) == Times(d, 0) + d;
  }

  lemma FullWord()
    ensures TextWords([50, 73, 44, 70]) == [0x462C4932] && !Stops([0x462C4932]) && Clipped([0x462C4932], [1]) == [0]
  {
    hide Stops, TextLength;
    var t := [50, 73, 44, 70];
    TextStops(t);
    assert TextWords(t) == [0x462C4932];
    assert ByteOf(1, 0) == 1;
  }

  lemma SentName(na: seq<int>, ma: seq<seq<Bank>>, list: seq<nat>, fmts: seq<seq<int>>, nb: seq<int>, n: nat, d: Bank)
    requires Source(na, ma, list, fmts) && NamesIn(nb, Sent(na, ma, list, fmts)) && n in list && d in ma[n]
    ensures na[n] in nb
  {
    ListedHas(ma, list, n, d);
    var i :| 0 <= i < |Listed(ma, list)| && Key(Listed(ma, list)[i], n, d.nr);
    SentFrag(na, ma, list, fmts, nb, i);
  }

  /** What the source array has to give. */
  lemma IsSource(a: BosArray, list: seq<nat>, fmts: seq<seq<int>>)
    requires a.Valid() && InRange(list, |a.names|) && FormatsOk(fmts, |a.names|)
    ensures |a.Contents()| == |a.names| && Source(a.names, a.Contents(), list, fmts)
  {
    hide Listing, FormatsOk;
    CountNames(a.Value(), a.ch);
    SortedLists(a.Value(), a.ch);
    NamesDistinct(a.Value(), a.ch);
  }

  lemma NamesDistinct(v: Snapshot, ch: seq<seq<int>>)
    requires Sound(v, ch)
    ensures DistinctNames(v.a.names)
  {
  }

  /** The banks that array `a` sends of the listed names. */
  ghost function SentBy(a: BosArray, list: seq<nat>, fmts: seq<seq<int>>): seq<Segments.Segment>
    requires a.Valid() && InRange(list, |a.names|) && FormatsOk(fmts, |a.names|)
    reads a, a.w
  {
    IsSource(a, list, fmts);
    Sent(a.names, a.Contents(), list, fmts)
  }

  /** The banks of the listed names, with the formats that are made of texts. */
  ghost function SentBlocks(a: BosArray, list: seq<nat>, formats: seq<BankFormat>): seq<Segments.Segment>
    requires a.Valid() && InRange(list, |a.names|) && AllKnown(formats, |a.names|)
    reads a, a.w
  {
    KnownOk(formats, |a.names|);
    SentBy(a, list, HeaderFormats(formats))
  }

  /** Formats that fit into the buffer of bosWrite fit into a header. */
  lemma FitKnown(formats: seq<BankFormat>, n: nat)
    requires BosWriting.AllFit(formats, n)
    ensures AllKnown(formats, n)
  {
  }

  /** bos2et does not write further than the longest header behind the given size. */
  lemma EndsBehind(names: seq<int>, formats: seq<BankFormat>, m: seq<seq<Bank>>, list: seq<nat>, ndim: int)
    requires |m| == |names| && InRange(list, |m|) && AllKnown(formats, |names|)
    ensures ndim >= Segments.RECHEADLEN ==> EventEnd(names, formats, m, list, ndim) <= ndim + Segments.MAXHEAD + 1
  {
    hide Listed;
    ListedNames(m, list, names);
    KnownOk(formats, |names|);
    var fs := Listed(m, list);
    var ds, sp := SegsOf(names, HeaderFormats(formats), fs), SpillsOf(formats, fs);
    forall i | 0 <= i < |ds| ensures |ds[i].hd| <= Segments.MAXHEAD
        && sp[i] <= 1 { SegFits(names, HeaderFormats(formats), fs[i]); }
    if ndim >= Segments.RECHEADLEN { ReachBehind(ds, sp, ndim, 0); }
  }

  lemma {:induction false} ReachBehind(ds: seq<Segments.Segment>, sp: seq<nat>, ndim: int, i: nat)
    requires i <= |ds| == |sp| && Segments.RECHEADLEN + |Segments.Flat(ds[..i])| <= ndim
    requires forall j :: 0 <= j < |ds| ==> |ds[j].hd| <= Segments.MAXHEAD && sp[j] <= 1
    ensures Reach(ds, sp, ndim, i) <= ndim + Segments.MAXHEAD + 1
    decreases |ds| - i
  {
    hide Segments.Flat;
    if i == |ds| {
      assert ds[..i] == ds;
    } else if Segments.RECHEADLEN + |Segments.Flat(ds[..i + 1])| <= ndim {
      ReachBehind(ds, sp, ndim, i + 1);
    }
  }

  /** The target has room for what is sent; `nama` is the name +REC and not among the listed names. */
  ghost predicate Ready(b: BosArray, nama: int, na: seq<int>, list: seq<nat>, ds: seq<Segments.Segment>)
    requires b.Valid() && InRange(list, |na|)
    reads b, b.w
  {
    && b.ndw == 0 && b.fix + NHW <= b.idl + 1 <= b.w.Length && |EnterAll(LaidNames(b.names, nama, ds), ds)| <= b.cap
    && (forall n :: n in list ==> na[n] != nama)
    && BitCode(b.bits, nama) != 2 && BitCode(b.bits, nama) != 3
    && var m, n := b.Contents(), NameIndex(b.names, nama);
       RoomFor(b.igp, b.iwk, b.nresr, if n < |m| then |m[n]| + 1 else 1, |RawAll(ds)|)
  }

  lemma SentForeign(na: seq<int>, ma: seq<seq<Bank>>, list: seq<nat>, fmts: seq<seq<int>>, nama: int)
    requires Source(na, ma, list, fmts) && forall n :: n in list ==> na[n] != nama
    ensures var ds := Sent(na, ma, list, fmts); forall i :: 0 <= i < |ds| ==> Head(ds[i], Segments.idNAME1) != nama
  {
    ListedNames(ma, list, na);
    ListedFrom(ma, list);
    var ds, fs := Sent(na, ma, list, fmts), Listed(ma, list);
    forall i | 0 <= i < |ds| ensures Head(ds[i], Segments.idNAME1) != nama {
      assert ds[i] == SegOf(na, fmts, fs[i]) && fs[i].n in list;
    }
  }

  /** et2bos of a record that holds what was sent. */
  method Receive(b: BosArray, ev: array<int>, nama: int, unit: int, ghost ds: seq<Segments.Segment>, ghost na: seq<int>,
                 ghost ma: seq<seq<Bank>>, ghost list: seq<nat>, ghost fmts: seq<seq<int>>)
    requires b.Valid() && Source(na, ma, list, fmts) && ds == Sent(na, ma, list, fmts)
    requires Ready(b, nama, na, list, ClipAll(ds))
    requires ev != b.w && ev.Length > Segments.RECHEADLEN + |Segments.Flat(ds)| && Careful(ds)
    requires EtWriting.Holds(ev[..], Segments.Record(ev[..Segments.RECHEADLEN], ds))
    modifies b, b.w, ev
    ensures b.Valid() && Arrived(old(b.names), old(b.Contents()), b.names, b.Contents(), nama, unit, ClipAll(ds))
  {
    hide Sound, Listing, Arrived, EnterAll, RawAll, Sent, EtWriting.Holds, ClipAll, Careful, LaidNames, Segments.Flat,
         RoomOrNot, GapAfter, WithoutBank, Walked;
    SentForeign(na, ma, list, fmts, nama);
    ghost var rec := Segments.Record(ev[..Segments.RECHEADLEN], ds);
    EventLength(ev[..], rec);
    RoomEnough(b.Value(), b.ch, nama, unit, b.nresr, ClipAll(ds));
    var status, broken;
    ghost var i;
    status, broken, i := Et2bos(b, ev, nama, unit, rec);
  }

  lemma SentIs(na: seq<int>, ma: seq<seq<Bank>>, list: seq<nat>, fmts: seq<seq<int>>)
    requires Source(na, ma, list, fmts)
    ensures Named(na, Listed(ma, list)) && Sent(na, ma, list, fmts) == SegsOf(na, fmts, Listed(ma, list))
    ensures |Sent(na, ma, list, fmts)| == |Listed(ma, list)| && Segments.SegsOk(Sent(na, ma, list, fmts))
  {
    hide Listed;
    ListedNames(ma, list, na);
    var fs, ds := Listed(ma, list), Sent(na, ma, list, fmts);
    forall i | 0 <= i < |ds| ensures Segments.SegOk(ds[i]) { SegFits(na, fmts, fs[i]); }
  }

  lemma SizeTells(ds: seq<Segments.Segment>)
    requires Segments.SegsOk(ds)
    ensures ds[..|ds|] == ds && (|Segments.Flat(ds)| > 0 <==> ds != [])
  {
    NothingYet(ds);
  }

  /**
   The banks of the listed names go from array `a` to array `b`: bos2et, then et2bos.  If the
   event buffer is large enough they all arrive as et2bos copies them, and nothing else of `b`
   changes.
   */
  method CopyBanks(a: BosArray, b: BosArray, list: seq<nat>, ev: array<int>, ndim: int, formats: seq<BankFormat>,
                   head: int, nama: int, unit: int)
    returns (error: int)
    requires a.Valid() && |a.ch| == |a.names| && InRange(list, |a.names|) && AllKnown(formats, |a.names|)
    requires head in a.names ==> var n := NameIndex(a.names, head); 0 <= a.idl + 1 + n < a.w.Length && LinkRoom(a, n)
    requires a != b && a.w != b.w && ev != a.w && ev != b.w && a.fix + NHW <= a.w.Length
    requires Segments.RECHEADLEN <= ndim && ndim + Segments.MAXHEAD < ev.Length
    requires b.Valid() && Ready(b, nama, a.names, list, ClipAll(SentBlocks(a, list, formats)))
    requires Careful(SentBlocks(a, list, formats))
    modifies ev, a`iwk, a`igw, a`ndw, a`jw1, a.w, b, b.w
    ensures a.Valid() && a.Contents() == old(a.Contents()) && b.Valid()
    ensures var ds := old(SentBlocks(a, list, formats));
            && (error == 0 <==> Segments.RECHEADLEN + |Segments.Flat(ds)| <= ndim)
            && (if error == 0 && ds != []
                then Arrived(old(b.names), old(b.Contents()), b.names, b.Contents(), nama, unit, ClipAll(ds))
                else b.names == old(b.names) && b.Contents() == old(b.Contents()))
  {
    hide Sound, Listing, Sent, Unloaded, EnterAll, RawAll, Arrived, EtWriting.Holds, Segments.Flat, Listed, SegsOf,
         ClipAll, Careful, LaidNames;
    ghost var fmts := HeaderFormats(formats);
    KnownOk(formats, |a.names|);
    IsSource(a, list, fmts);
    EndsBehind(a.names, formats, a.Contents(), list, ndim);
    ghost var ma, ds := a.Contents(), Sent(a.names, a.Contents(), list, fmts);
    SentIs(a.names, ma, list, fmts);
    var size;
    ghost var k;
    error, size, k := Bos2et(a, list, ev, ndim, formats, head);
    if error == 0 { SizeTells(ds); }
    if error == 0 && size > 4 * Segments.RECHEADLEN {
      FlatRecord(ev[..], a.names, fmts, Listed(ma, list), ndim);
      Receive(b, ev, nama, unit, ds, a.names, ma, list, fmts);
    }
  }

  lemma HeldWhole(ev: seq<int>, rec: Segments.Record)
    requires EtWriting.Holds(ev, rec)
    ensures Segments.Whole(rec) && Segments.RecOk(rec)
  {
  }

  /**
   The same by way of a file: bos2et, etWrite and etFlush into blocks of `n` words, etRead, and
   et2bos.  However the record is split, the same banks arrive.
   */
  method CopyByFile(a: BosArray, b: BosArray, list: seq<nat>, ev: array<int>, ndim: int, formats: seq<BankFormat>,
                    head: int, nama: int, unit: int, n: int)
    returns (error: int)
    requires a.Valid() && |a.ch| == |a.names| && InRange(list, |a.names|) && AllKnown(formats, |a.names|)
    requires head in a.names ==> var n := NameIndex(a.names, head); 0 <= a.idl + 1 + n < a.w.Length && LinkRoom(a, n)
    requires a != b && a.w != b.w && ev != a.w && ev != b.w && a.fix + NHW <= a.w.Length && n >= 83
    requires Segments.RECHEADLEN <= ndim && ndim + Segments.MAXHEAD < ev.Length
    requires b.Valid() && Ready(b, nama, a.names, list, ClipAll(SentBlocks(a, list, formats)))
    requires Careful(SentBlocks(a, list, formats))
    modifies ev, a`iwk, a`igw, a`ndw, a`jw1, a.w, b, b.w
    ensures a.Valid() && a.Contents() == old(a.Contents()) && b.Valid()
    ensures var ds := old(SentBlocks(a, list, formats));
            && (error == 0 <==> Segments.RECHEADLEN + |Segments.Flat(ds)| <= ndim)
            && (if error == 0 && ds != []
                then Arrived(old(b.names), old(b.Contents()), b.names, b.Contents(), nama, unit, ClipAll(ds))
                else b.names == old(b.names) && b.Contents() == old(b.Contents()))
  {
    hide Sound, Listing, Sent, Unloaded, EnterAll, RawAll, Arrived, EtWriting.Holds, Segments.Flat, Listed, SegsOf,
         ClipAll, Careful, LaidNames;
    hide EtReading.Delivered, Segments.Whole, Segments.RecOk;
    ghost var fmts := HeaderFormats(formats);
    KnownOk(formats, |a.names|);
    IsSource(a, list, fmts);
    EndsBehind(a.names, formats, a.Contents(), list, ndim);
    ghost var ma, ds := a.Contents(), Sent(a.names, a.Contents(), list, fmts);
    SentIs(a.names, ma, list, fmts);
    var size;
    ghost var k;
    error, size, k := Bos2et(a, list, ev, ndim, formats, head);
    if error == 0 { SizeTells(ds); }
    if error == 0 && size > 4 * Segments.RECHEADLEN {
      FlatRecord(ev[..], a.names, fmts, Listed(ma, list), ndim);
      ghost var rec := Segments.Record(ev[..Segments.RECHEADLEN], ds);
      HeldWhole(ev[..], rec);
      FileTransfer.OneStep(ev[..]);
      ghost var blocks, pss, places;
      var file, out, last, lost;
      file, out, last, lost, blocks, pss,
          places := FileTransfer.RoundTrip(n, [FileTransfer.Write(ev[..]), FileTransfer.Flush],
          [size / 4 + 1], [rec]);
      FileTransfer.AlwaysPast(file);
      var buf := Buffer(out[0]);
      DeliveredHolds(out[0], ds, rec.hd);
      HeldPrefix(out[0], buf[..], ds);
      Receive(b, buf, nama, unit, ds, a.names, ma, list, fmts);
    }
  }

  /** An event buffer with room for one more word. */
  method Buffer(e: seq<int>) returns (buf: array<int>)
    ensures fresh(buf) && buf.Length == |e| + 1 && buf[..|e|] == e
  {
    buf := new int[|e| + 1](i => if 0 <= i < |e| then e[i] else 0);
  }

  lemma HeldPrefix(e: seq<int>, e': seq<int>, ds: seq<Segments.Segment>)
    requires |e| >= Segments.RECHEADLEN && EtWriting.Holds(e, Segments.Record(e[..Segments.RECHEADLEN], ds))
    requires |e'| == |e| + 1 && e'[..|e|] == e
    ensures EtWriting.Holds(e', Segments.Record(e'[..Segments.RECHEADLEN], ds))
    ensures |e'| > Segments.RECHEADLEN + |Segments.Flat(ds)|
  {
    hide Segments.Flat;
    var n := Segments.RECHEADLEN + |Segments.Flat(ds)|;
    assert e'[..n] == e'[..|e|][..n] == e[..n];
    assert e'[..Segments.RECHEADLEN] == e[..Segments.RECHEADLEN];
  }

  /** A name listed twice in a row that has a single bank: what is copied of its data arrives doubled. */
  lemma ListedTwice(na: seq<int>, ma: seq<seq<Bank>>, fmts: seq<seq<int>>,
                    m: seq<seq<Bank>>, nb: seq<int>, rn: nat, unit: int, n: nat, d: Bank)
    requires n < |ma| && ma[n] == [d] && Source(na, ma, [n, n], fmts)
    requires NamesIn(nb, ClipAll(Sent(na, ma, [n, n], fmts)))
    requires rn < |nb| && |m| <= |nb| && AllSorted(m) && na[n] in nb && NameIndex(nb, na[n]) != rn
    ensures var c := Clipped(fmts[n], d.data);
            IsThere(nb, EventLoaded(m, nb, rn, unit, ClipAll(Sent(na, ma, [n, n], fmts))), na[n], d.(data := c + c))
  {
    hide EventLoaded, FragsOf, Sent, Lookup, Listed, LastRun, Times, ClipAll, Clipped;
    TwiceRun(ma, n, d, Clipped(fmts[n], d.data));
    CopiedBank(na, ma, [n, n], fmts, m, nb, rn, unit, n, d);
  }

  lemma TwiceRun(ma: seq<seq<Bank>>, n: nat, d: Bank, c: seq<int>)
    requires n < |ma| && ma[n] == [d]
    ensures LastRun(Listed(ma, [n, n]), n, d.nr) == 2 && Times(c, 2) == c + c
  {
    hide Listed, LastRun, Times;
    TwiceListed(ma, n, d);
    RunOfTwo(Frag(n, d));
    TwoTimes(c);
  }

  lemma TwiceListed(ma: seq<seq<Bank>>, n: nat, d: Bank)
    requires n < |ma| && ma[n] == [d]
    ensures Listed(ma, [n, n]) == [Frag(n, d)] + [Frag(n, d)]
  {
    var f := Frag(n, d);
    ListedMore(ma, [n, n], 0);
    ListedMore(ma, [n, n], 1);
    hide Listed;
    assert [n, n][..0] == [] && [n, n][..1 + 1] == [n, n] && OfName(n, ma[n]) == [f];
    assert [] + [f] + [f] == [f] + [f];
  }

  lemma RunOfTwo(f: Frag)
    ensures LastRun([f] + [f], f.n, f.bank.nr) == 2
  {
    RunSnoc([], f, f.n, f.bank.nr);
    RunSnoc([f], f, f.n, f.bank.nr);
    assert [] + [f] == [f];
  }

  lemma TwoTimes(c: seq<int>)
    ensures Times(c, 2) == c + c
  {
    assert Times(c, 1) == Times(c, 0) + c == c;
  }

  // ---- By bosWrite and bosRead ---------------------------------------------------------------------------

  /** A file with one record. */
  method WriteOne(a: BosArray, list: seq<nat>, formats: seq<BankFormat>, head: int, n: int)
    returns (file: seq<seq<int>>, ghost blocks: seq<seq<Segments.Record>>, ghost ps: seq<Segments.Record>,
             ghost event: seq<int>)
    requires a.Valid() && |a.ch| == |a.names| && a.fix + NHW <= a.w.Length && n >= 83
    requires InRange(list, |a.names|) && BosWriting.AllFit(formats, |a.names|)
    requires head in a.names ==> var n := NameIndex(a.names, head); 0 <= a.idl + 1 + n < a.w.Length && LinkRoom(a, n)
    requires |a.Contents()| == |a.names| && Listed(a.Contents(), list) != []
    modifies a`iwk, a`igw, a`ndw, a`jw1, a.w
    ensures a.Valid() && a.Contents() == old(a.Contents())
    ensures |event| == Segments.RECHEADLEN && Named(a.names, Listed(a.Contents(), list))
    ensures var rec := BosWriting.RecordOf(a.names, HeaderFormats(formats), Listed(a.Contents(), list), event);
            Segments.Whole(rec) && Segments.Pieces(ps, rec)
    ensures EtWriting.AllLaid(n, file, blocks) && EtWriting.Concat(blocks) == ps
    ensures head in a.names ==>
              var n := NameIndex(a.names, head);
              && n < |a.Contents()|
              && (Lookup(a.Contents()[n], 0).Some? && |Lookup(a.Contents()[n], 0).value.data| >= 5 ==>
                    EventOf(event, Lookup(a.Contents()[n], 0).value.data))
  {
    hide Sound, Listing, Segments.Whole, Segments.Pieces, Listed, LinkRoom, EventOf, Lookup, EtWriting.Renders,
         Segments.Pack;
    hide BosWriting.RecordOf, Named, EtWriting.BlockWriter.Valid, EtWriting.Concat, BosWriting.AllStay;
    var w := new EtWriting.BlockWriter(n);
    var error;
    error, ps, event := BosWriting.BosWrite(w, a, list, formats, head);
    BosWriting.NothingElse(w, ps);
    error := EtWriting.EtFlush(w);
    BosWriting.InOrder(w);
    file, blocks := w.file, w.sent;
  }

  /**
   The banks of the listed names go from array `a` by bosWrite into a file with blocks of `n`
   words, and by bosRead from there into array `b`.
   */
  method CopyByBlocks(a: BosArray, b: BosArray, list: seq<nat>, formats: seq<BankFormat>, head: int, nama: int,
                      unit: int, n: int) returns (error: int)
    requires a != b && a.w != b.w && a.fix + NHW <= a.w.Length && n >= 83
    requires |a.ch| == |a.names| && InRange(list, |a.names|) && BosWriting.AllFit(formats, |a.names|)
    requires AllKnown(formats, |a.names|)
    requires head in a.names ==> var n := NameIndex(a.names, head); 0 <= a.idl + 1 + n < a.w.Length && LinkRoom(a, n)
    requires a.Valid() && SentBlocks(a, list, formats) != []
    requires b.igp + NHW + |RawAll(SentBlocks(a, list, formats))| + BosReading.MINROOM <= b.iwk
    requires b.Valid() && Ready(b, nama, a.names, list, SentBlocks(a, list, formats))
    modifies a`iwk, a`igw, a`ndw, a`jw1, a.w, b, b.w
    ensures a.Valid() && a.Contents() == old(a.Contents()) && b.Valid() && error == 0
    ensures Arrived(old(b.names), old(b.Contents()), b.names, b.Contents(), nama, unit,
        old(SentBlocks(a, list, formats)))
  {
    hide Sound, Listing, Sent, EnterAll, RawAll, Arrived, Segments.Flat, Listed, SegsOf, Segments.Whole,
         Segments.Pieces;
    hide EtWriting.Renders, Segments.Pack, LinkRoom, EventOf, Lookup, Segments.RecOk, BosWriting.RecordOf, LaidNames;
    ghost var fmts := HeaderFormats(formats);
    FitKnown(formats, |a.names|);
    KnownOk(formats, |a.names|);
    IsSource(a, list, fmts);
    ghost var ma, ds := a.Contents(), Sent(a.names, a.Contents(), list, fmts);
    SentIs(a.names, ma, list, fmts);
    SentForeign(a.names, ma, list, fmts, nama);
    var file;
    ghost var blocks, ps, event;
    file, blocks, ps, event := WriteOne(a, list, formats, head, n);
    ghost var rec := BosWriting.RecordOf(a.names, HeaderFormats(formats), Listed(ma, list), event);
    RecordSent(a.names, ma, list, fmts, event);
    var r := new EtReading.BlockReader(n, file, blocks);
    PiecesOnly(ps, rec);
    var lost;
    error, lost := BosReading.BosRead(b, r, nama, unit, [], ps, [], rec);
  }

  lemma RecordSent(na: seq<int>, ma: seq<seq<Bank>>, list: seq<nat>, fmts: seq<seq<int>>, event: seq<int>)
    requires Source(na, ma, list, fmts) && |event| == Segments.RECHEADLEN && Sent(na, ma, list, fmts) != []
    ensures Named(na, Listed(ma, list)) && Listed(ma, list) != []
    ensures var rec := BosWriting.RecordOf(na, fmts, Listed(ma, list), event);
            rec.segs == Sent(na, ma, list, fmts) && Segments.RecOk(rec) && Segments.SameEvent(event, rec.hd)
  {
    hide Listed, Segments.RecOk, SegsOf;
    SentIs(na, ma, list, fmts);
    BosWriting.RecordWhole(na, fmts, Listed(ma, list), event);
  }

  lemma PiecesOnly(ps: seq<Segments.Record>, rec: Segments.Record)
    requires Segments.Pieces(ps, rec)
    ensures ps != [] && EtReading.Leftover([]) && [] + ps + [] == ps
  {
    hide Segments.Flat, Segments.AllSegs, Segments.Assemble, Segments.SegsOk, Segments.RecsOk, Segments.SameEvent;
  }

  /**
   What etRead delivers of a record that bosWrite has made (`e`) and what bos2et makes of the same
   banks (`f`) are the same words: bank headers, formats and data, and the words of the event.
   */
  lemma EitherWay(na: seq<int>, fmts: seq<seq<int>>, fs: seq<Frag>, event: seq<int>, e: seq<int>, size: int,
                  f: seq<int>, ndim: int)
    requires Named(na, fs) && FormatsOk(fmts, |na|) && |event| == Segments.RECHEADLEN && fs != []
    requires EtReading.Delivered(e, size, BosWriting.RecordOf(na, fmts, fs, event))
    requires Unloaded(f, SegsOf(na, fmts, fs), |fs|, ndim)
    ensures Segments.RECHEADLEN <= size <= |e| && size <= |f|
    ensures e[Segments.RECHEADLEN..size] == f[Segments.RECHEADLEN..size]
    ensures e[Segments.irNWRD] == f[Segments.irNWRD] == size - Segments.RECHEADLEN
    ensures forall d :: EventOf(event, d) && EventOf(f[..Segments.RECHEADLEN], d) ==>
              e[Segments.irNRUN] == f[Segments.irNRUN] && e[Segments.irNEVNT] == f[Segments.irNEVNT]
                  && e[Segments.irTRIG] == f[Segments.irTRIG]
  {
    hide SegOf, Segments.Flat;
    BosWriting.RecordWhole(na, fmts, fs, event);
    var ds := SegsOf(na, fmts, fs);
    assert ds[..|fs|] == ds;
    var n := Segments.RECHEADLEN + |Segments.Flat(ds)|;
    assert f[..n][Segments.RECHEADLEN..] == Segments.Flat(ds);
    assert f[..n][Segments.RECHEADLEN..] == f[Segments.RECHEADLEN..n];
  }

  /** Room for two link banks of the HEAD name, so that it can be looked up twice. */
  ghost predicate RoomForHead(a: BosArray, head: int)
    requires |a.ch| == |a.names|
    reads a, a.w
  {
    head in a.names ==>
      var n := NameIndex(a.names, head);
      && 0 <= a.idl + 1 + n < a.w.Length && LinkRoom(a, n) && a.igp + 2 * LinkWords(|a.ch[n]|) + a.nresr <= a.iwk
  }

  /**
   bos2et into one event buffer, and bosWrite, etFlush and etRead into another: the banks have the same
   words, and so have run, event and trigger if there is a HEAD bank.
   */
  method BothWays(a: BosArray, list: seq<nat>, ev: array<int>, ndim: int, formats: seq<BankFormat>, head: int, n: int)
    returns (e: array<int>, size: int)
    requires a.Valid() && |a.ch| == |a.names| == |a.Contents()| && InRange(list, |a.names|)
    requires BosWriting.AllFit(formats, |a.names|)
    requires RoomForHead(a, head) && a.fix + NHW <= a.w.Length && n >= 83 && ev != a.w
    requires Listed(a.Contents(), list) != [] && ndim + Segments.MAXHEAD < ev.Length
    requires Segments.RECHEADLEN + |Segments.Flat(SentBlocks(a, list, formats))| <= ndim
    modifies ev, a`iwk, a`igw, a`ndw, a`jw1, a.w
    ensures a.Valid() && a.Contents() == old(a.Contents())
    ensures Segments.RECHEADLEN <= size <= e.Length && size <= ev.Length
    ensures size == Segments.RECHEADLEN + |Segments.Flat(old(SentBlocks(a, list, formats)))|
    ensures e[Segments.RECHEADLEN..size] == ev[Segments.RECHEADLEN..size] && e[Segments.irNWRD] == ev[Segments.irNWRD]
    ensures head in a.names ==>
              var k := NameIndex(a.names, head);
              && k < |a.Contents()|
              && (Lookup(a.Contents()[k], 0).Some? && |Lookup(a.Contents()[k], 0).value.data| >= 5 ==>
                    && e[Segments.irNRUN] == ev[Segments.irNRUN] && e[Segments.irNEVNT] == ev[Segments.irNEVNT]
                    && e[Segments.irTRIG] == ev[Segments.irTRIG])
  {
    hide Sound, Listing, Sent, Unloaded, Segments.Flat, Listed, SegsOf, EventOf, Lookup, LinkRoom, Named, HeaderFormats;
    hide BosWriting.RecordOf, Segments.Whole, Segments.Pieces, Segments.RecOk, EtReading.Delivered, HeaderBehind,
         SameBehind;
    ghost var fmts, ma := HeaderFormats(formats), a.Contents();
    FitKnown(formats, |a.names|);
    KnownOk(formats, |a.names|);
    IsSource(a, list, fmts);
    SentIs(a.names, ma, list, fmts);
    EndsBehind(a.names, formats, ma, list, ndim);
    var error, done;
    ghost var k;
    error, done, k := Bos2et(a, list, ev, ndim, formats, head);
    ghost var f := ev[..];
    RoomAgain(a, head);
    var file;
    ghost var blocks, ps, event;
    file, blocks, ps, event := WriteOne(a, list, formats, head, n);
    ghost var rec := BosWriting.RecordOf(a.names, fmts, Listed(ma, list), event);
    RecordSent(a.names, ma, list, fmts, event);
    e, size := ReadOnly(n, file, ndim + 1, blocks, ps, rec);
    EitherWay(a.names, fmts, Listed(ma, list), event, e[..], size, f, ndim);
    BothSizes(e[..], size, rec);
    assert e[Segments.RECHEADLEN..size] == e[..][Segments.RECHEADLEN..size]
        && ev[Segments.RECHEADLEN..size] == f[Segments.RECHEADLEN..size];
  }

  /** The record that is alone in a file. */
  method ReadOnly(n: int, file: seq<seq<int>>, room: nat, ghost blocks: seq<seq<Segments.Record>>,
                  ghost ps: seq<Segments.Record>, ghost rec: Segments.Record) returns (e: array<int>, size: int)
    requires EtWriting.AllLaid(n, file, blocks) && EtWriting.Concat(blocks) == ps && Segments.RecOk(rec)
    requires Segments.Pieces(ps, rec) && room > Segments.RECHEADLEN + |Segments.Flat(rec.segs)|
    ensures fresh(e) && EtReading.Delivered(e[..], size, rec)
  {
    hide Segments.Flat, Segments.Pieces, Segments.RecOk, EtReading.Delivered, EtReading.Enough, EtReading.TooSmall,
         EtWriting.AllLaid, EtReading.Leftover, EtReading.HeadFrom;
    var r := new EtReading.BlockReader(n, file, blocks);
    PiecesOnly(ps, rec);
    e := new int[room];
    EtReading.RoomEnough(room, ps, rec);
    var error, lost;
    error, size, lost := EtReading.EtRead(r, e, [], ps, [], rec);
  }

  lemma BothSizes(e: seq<int>, size: int, rec: Segments.Record)
    requires EtReading.Delivered(e, size, rec)
    ensures size == Segments.RECHEADLEN + |Segments.Flat(rec.segs)|
  {
  }

  /** After the first search there is still room. */
  lemma RoomAgain(a: BosArray, head: int)
    requires |a.ch| == |a.names|
    requires head in a.names ==>
               var n := NameIndex(a.names, head);
               0 <= a.idl + 1 + n < a.w.Length && a.igp + LinkWords(|a.ch[n]|) + a.nresr <= a.iwk
    ensures head in a.names ==> LinkRoom(a, NameIndex(a.names, head))
  {
  }
}
