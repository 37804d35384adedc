/**
 Banks inside a flat event record (etbosio.c): finding, enumerating and adding them where they
 lie.  Names have four characters and are compared as words.
 */
module EtBanks {
  import opened Slices
  import opened Segments
  import opened EtWriting
  import opened HeaderTexts
  import EtReading

  const NDDL := 200    // slots of the table of names
  const STRLEN := 256  // characters that a format may have
  const BLANK := 0x20202020

  /** An entry of the table: a name with the text of its format, and where the last bank was found. */
  datatype Ddl = Ddl(name: int, fmt: seq<int>, bytes: int, indSave: int, bSave: int, afterNamind: bool)

  /** The system area: the buffer of the present event, and the table of names. */
  class EtEvent {
    var jw: array<int>
    var nwords: nat          // words that the banks may take
    var table: seq<Ddl>      // the slots of the table of names
    var nddl: nat            // how many of them are in use; the others are as they were left
    ghost var segs: seq<Segment>

    /** The slots in use. */
    function Ddls(): (ddl: seq<Ddl>)
      reads this
      ensures nddl <= |table| ==> |ddl| == nddl
    {
      if nddl <= |table| then table[..nddl] else table
    }

    /** The buffer has a record, which may be empty. */
    ghost predicate Laid()
      reads this, jw
    {
      && IsRecord(jw[..], segs) && RECHEADLEN + nwords <= jw.Length
      && |table| == NDDL && nddl <= NDDL && Distinct(Ddls())
    }

    ghost predicate Valid()
      reads this, jw
    {
      Laid() && segs != []
    }
  }

  /**
   The words of a record.  Behind the header of an empty one there are those of whatever bank was
   there before; its two sizes have no sign.
   */
  ghost predicate IsRecord(w: seq<int>, ds: seq<Segment>) {
    && SegsOk(ds) && RECHEADLEN + idFRMT <= |w| && RECHEADLEN + |Flat(ds)| <= |w|
    && w[irNWRD] == |Flat(ds)| && w[RECHEADLEN..RECHEADLEN + |Flat(ds)|] == Flat(ds)
    && (ds == [] ==> w[RECHEADLEN] >= 0 && w[RECHEADLEN + idDATA] >= 0)
  }

  /** The words of a record of at least one bank. */
  ghost predicate IsEvent(w: seq<int>, ds: seq<Segment>) {
    IsRecord(w, ds) && ds != []
  }

  ghost predicate Distinct(ddl: seq<Ddl>) {
    forall i, j :: 0 <= i < j < |ddl| ==> ddl[i].name != ddl[j].name
  }

  /** Index of the first data word of bank `j`: what the functions return. */
  ghost function DataIndex(ds: seq<Segment>, j: nat): int
    requires j < |ds|
  {
    RECHEADLEN + |Flat(ds[..j])| + |ds[j].hd|
  }

  ghost predicate IsNamed(d: Segment, nama: int) {
    |d.hd| >= 9 && d.hd[idNAME1] == nama
  }

  ghost predicate IsBank(d: Segment, nama: int, nr: int) {
    IsNamed(d, nama) && d.hd[idNSGM] == nr
  }

  /** What the buffer has of bank `j`. */
  lemma BankThere(w: seq<int>, ds: seq<Segment>, j: nat)
    requires SegsOk(ds) && j < |ds| && RECHEADLEN + |Flat(ds)| <= |w|
    requires w[RECHEADLEN..RECHEADLEN + |Flat(ds)|] == Flat(ds)
    ensures var p := HeadIndex(ds, j);
            && SegOk(ds[j]) && RECHEADLEN <= p
            && p + |ds[j].hd| + |ds[j].data| == HeadIndex(ds, j + 1) <= RECHEADLEN + |Flat(ds)|
            && w[p] == |ds[j].hd| && w[p + idDATA] == |ds[j].data| && w[p + idNAME1] == ds[j].hd[idNAME1]
            && w[p + idNSGM] == ds[j].hd[idNSGM]
            && (j + 1 == |ds| <==> HeadIndex(ds, j + 1) == RECHEADLEN + |Flat(ds)|)
  {
    hide Flat, SegWords;
    FlatAt(ds, j);
    assert SegOk(ds[j]);
    var p, f := HeadIndex(ds, j), |SegWords(ds[j])|;
    SubSlice(w, RECHEADLEN, RECHEADLEN + |Flat(ds)|, p, p + f);
    SegmentWords(w, p, ds[j]);
    var h := w[p..p + |ds[j].hd|];
    assert w[p + idNAME1] == h[idNAME1] && w[p + idNSGM] == h[idNSGM];
    EtReading.FlatEnd(ds, j);
  }

  /** The first bank with this name and number from bank `j` on, or the number of banks. */
  ghost function First(ds: seq<Segment>, j: nat, nama: int, nr: int): (k: nat)
    requires j <= |ds|
    ensures j <= k <= |ds|
    ensures forall i :: j <= i < k ==> !IsBank(ds[i], nama, nr)
    ensures k < |ds| ==> IsBank(ds[k], nama, nr)
    decreases |ds| - j
  {
    if j == |ds| || IsBank(ds[j], nama, nr) then j else First(ds, j + 1, nama, nr)
  }

  ghost function FirstNamed(ds: seq<Segment>, j: nat, nama: int): (k: nat)
    requires j <= |ds|
    ensures j <= k <= |ds|
    ensures forall i :: j <= i < k ==> !IsNamed(ds[i], nama)
    ensures k < |ds| ==> IsNamed(ds[k], nama)
    decreases |ds| - j
  {
    if j == |ds| || IsNamed(ds[j], nama) then j else FirstNamed(ds, j + 1, nama)
  }

  /** In an empty record, the bank that was there before has this name and number. */
  ghost predicate LeftOver(w: seq<int>, ds: seq<Segment>, nama: int, nr: int) {
    ds == [] && RECHEADLEN + idFRMT <= |w| && w[RECHEADLEN + idNAME1] == nama && w[RECHEADLEN + idNSGM] == nr
  }

  /** How far behind the record the search for a bank that is not there ends: nowhere, unless it is empty. */
  ghost function Beyond(w: seq<int>, ds: seq<Segment>): (s: nat)
    requires IsRecord(w, ds)
    ensures ds != [] ==> s == 0
  {
    if ds == [] then w[RECHEADLEN] + w[RECHEADLEN + idDATA] else 0
  }

  /** The bank with this name and number, or the place behind the last one. */
  method Look(e: EtEvent, nama: int, nr: int) returns (found: bool, w: nat)
    requires e.Laid()
    ensures var k := First(e.segs, 0, nama, nr);
            && (found <==> k < |e.segs| || LeftOver(e.jw[..], e.segs, nama, nr))
            && (found ==> w < e.jw.Length && if k < |e.segs| then w + e.jw[w] == DataIndex(e.segs, k)
                else w == RECHEADLEN)
            && (!found ==> w == RECHEADLEN + |Flat(e.segs)| + Beyond(e.jw[..], e.segs))
  {
    hide Flat, SegsOk;
    var len := e.jw[irNWRD] + RECHEADLEN;
    w := RECHEADLEN;
    ghost var j := 0;
    NoWords();
    assert e.segs[..0] == [];
    while true
      invariant if e.segs == [] then j == 0 && w == RECHEADLEN else j < |e.segs| && w == HeadIndex(e.segs, j)
      invariant First(e.segs, 0, nama, nr) == First(e.segs, j, nama, nr)
      decreases |e.segs| - j
    {
      if e.segs != [] { BankThere(e.jw[..], e.segs, j); }
      if e.jw[w + idNAME1] == nama && e.jw[w + idNSGM] == nr {
        return true, w;
      }
      w := w + e.jw[w] + e.jw[w + idDATA];
      if w >= len {
        break;
      }
      j := j + 1;
    }
    found := false;
  }

  /**
   The bank with this name and number (etNlink): the index of its data, or zero.  In an empty record
   that is the bank that was there before.
   */
  method Nlink(e: EtEvent, nama: int, nr: int) returns (ind: int)
    requires e.Laid()
    ensures var k := First(e.segs, 0, nama, nr);
            ind == if k < |e.segs| then DataIndex(e.segs, k)
                   else if LeftOver(e.jw[..], e.segs, nama, nr) then RECHEADLEN + e.jw[RECHEADLEN] else 0
  {
    hide First, Flat, SegsOk;
    var found, w := Look(e, nama, nr);
    ind := if found then w + e.jw[w] else 0;
  }

  // ---- Enumerating the banks of a name ---------------------------------------------------------------------

  /** Entry `d` of the table is empty, or stands at a bank of its name. */
  ghost predicate EntryOk(d: Ddl, ds: seq<Segment>) {
    d.indSave == 0 || exists j :: StandsAt(d, ds, j)
  }

  ghost predicate StandsAt(d: Ddl, ds: seq<Segment>, j: int) {
    0 <= j < |ds| && IsNamed(ds[j], d.name) && d.indSave == DataIndex(ds, j) && d.bSave == HeadIndex(ds, j)
  }

  /** All entries of the table belong to this record. */
  ghost predicate TableOk(ddl: seq<Ddl>, ds: seq<Segment>) {
    Distinct(ddl) && forall i :: 0 <= i < |ddl| ==> EntryOk(ddl[i], ds)
  }

  /** The table belongs to the present record. */
  ghost predicate Owns(e: EtEvent)
    reads e
  {
    TableOk(e.Ddls(), e.segs)
  }

  /** Position of a name in the table, or its length. */
  function EntryIndex(ddl: seq<Ddl>, nama: int): (i: nat)
    ensures i <= |ddl| && (i < |ddl| ==> ddl[i].name == nama)
    ensures forall j :: 0 <= j < i ==> ddl[j].name != nama
  {
    if ddl == [] || ddl[0].name == nama then 0 else EntryIndex(ddl[1..], nama) + 1
  }

  /** The first entry with this index, whatever its name, or the length of the table. */
  function FirstSaved(ddl: seq<Ddl>, ind: int): (i: nat)
    ensures i <= |ddl| && (i < |ddl| ==> ddl[i].indSave == ind)
    ensures forall j :: 0 <= j < i ==> ddl[j].indSave != ind
  {
    if ddl == [] || ddl[0].indSave == ind then 0 else FirstSaved(ddl[1..], ind) + 1
  }

  /** An entry at bank `j` after a call of etNnext. */
  ghost function Moved(d: Ddl, ds: seq<Segment>, j: nat): Ddl
    requires j < |ds|
  {
    if d.afterNamind then d.(afterNamind := false)
    else
      var n := FirstNamed(ds, j + 1, d.name);
      if n < |ds| then d.(bSave := HeadIndex(ds, n), indSave := DataIndex(ds, n)) else d.(indSave := 0)
  }

  /** Different banks have different indices. */
  lemma {:induction false} IndexGrows(ds: seq<Segment>, j: nat, k: nat)
    requires SegsOk(ds) && j < k < |ds|
    ensures 0 < DataIndex(ds, j) < DataIndex(ds, k)
    decreases k - j
  {
    hide Flat;
    FlatAt(ds, k - 1);
    assert SegOk(ds[k]) && SegOk(ds[k - 1]);
    if j < k - 1 { IndexGrows(ds, j, k - 1); }
  }

  /** The entry of a name that stands at bank `k` is the first, and the only one, with its index. */
  lemma OneEntry(ddl: seq<Ddl>, ds: seq<Segment>, i: nat, k: nat)
    requires TableOk(ddl, ds) && SegsOk(ds) && i < |ddl| && StandsAt(ddl[i], ds, k)
    ensures ddl[i].indSave != 0 && FirstSaved(ddl, ddl[i].indSave) == i
  {
    hide Flat;
    assert SegOk(ds[k]);
    var i' := FirstSaved(ddl, ddl[i].indSave);
    assert EntryOk(ddl[i'], ds);
    var k' :| StandsAt(ddl[i'], ds, k');
    if k < k' { IndexGrows(ds, k, k'); }
    if k' < k { IndexGrows(ds, k', k); }
  }

  lemma IndexOther(ds: seq<Segment>, j: nat, k: nat)
    requires SegsOk(ds) && j < |ds| && k < |ds|
    ensures DataIndex(ds, j) > 0 && (DataIndex(ds, j) == DataIndex(ds, k) <==> j == k)
  {
    hide Flat;
    assert SegOk(ds[j]);
    if j < k { IndexGrows(ds, j, k); }
    if k < j { IndexGrows(ds, k, j); }
  }

  /** A call of etNnext always changes the entry that it finds. */
  lemma MovedOn(d: Ddl, ds: seq<Segment>, k: nat)
    requires SegsOk(ds) && k < |ds| && d.indSave == DataIndex(ds, k)
    ensures Moved(d, ds, k) != d && (Moved(d, ds, k).indSave == d.indSave <==> d.afterNamind)
    ensures !d.afterNamind && FirstNamed(ds, k + 1, d.name) == |ds| <==> Moved(d, ds, k).indSave == 0
  {
    var n := FirstNamed(ds, k + 1, d.name);
    IndexOther(ds, k, k);
    if n < |ds| { IndexOther(ds, n, k); }
  }

  /**
   The entry `i0` of a name stands at bank `k`, and etNnext is called with the index of that bank.  It
   answers as for this name if and only if the first entry with the index is that of the name, or both
   have just been set by etNamind, or none has and neither name has a further bank.  Only in the first
   case the entry of the name moves on.
   */
  lemma NextRight(ddl: seq<Ddl>, ds: seq<Segment>, i0: nat, k: nat)
    requires Distinct(ddl) && SegsOk(ds) && i0 < |ddl| && StandsAt(ddl[i0], ds, k)
    ensures var i := FirstSaved(ddl, ddl[i0].indSave);
            && i < |ddl|
            && (Moved(ddl[i], ds, k).indSave == Moved(ddl[i0], ds, k).indSave <==>
                  || i == i0
                  || (ddl[i].afterNamind && ddl[i0].afterNamind)
                  || (!ddl[i].afterNamind && !ddl[i0].afterNamind
                      && FirstNamed(ds, k + 1, ddl[i].name) == |ds| == FirstNamed(ds, k + 1, ddl[i0].name)))
            && (ddl[i := Moved(ddl[i], ds, k)][i0] == Moved(ddl[i0], ds, k) <==> i == i0)
  {
    hide Flat, SegsOk;
    var i := FirstSaved(ddl, ddl[i0].indSave);
    MovedOn(ddl[i0], ds, k);
    MovedOn(ddl[i], ds, k);
    var n, m := FirstNamed(ds, k + 1, ddl[i].name), FirstNamed(ds, k + 1, ddl[i0].name);
    if n < |ds| && m < |ds| { IndexOther(ds, n, m); }
    if n < |ds| { IndexOther(ds, n, k); }
    if m < |ds| { IndexOther(ds, m, k); }
  }

  predicate StartsWith(t: seq<int>, s: seq<int>) {
    |s| <= |t| && t[..|s|] == s
  }

  /** Bytes of a value by the format text: four divided by this number. */
  function Lfmt(fmt: seq<int>): int {
    if StartsWith(fmt, [66, 56]) || StartsWith(fmt, [66, 48, 56]) then 4  // "B8", "B08"
    else if StartsWith(fmt, [66, 49, 54]) then 2                          // "B16"
    else 1
  }

  /** Position of a name in the table, or its length. */
  method FindEntry(e: EtEvent, nama: int) returns (i: nat)
    requires e.nddl <= |e.table|
    ensures i == EntryIndex(e.Ddls(), nama)
  {
    i := 0;
    assert e.Ddls()[0..] == e.Ddls();
    while i < e.nddl
      invariant 0 <= i <= e.nddl && EntryIndex(e.Ddls(), nama) == EntryIndex(e.Ddls()[i..], nama) + i
    {
      assert e.Ddls()[i..][0] == e.table[i] && e.Ddls()[i..][1..] == e.Ddls()[i + 1..];
      if e.table[i].name == nama {
        return;
      }
      i := i + 1;
    }
  }

  /** One slot set, which may be the first one not in use. */
  lemma SlotSet(table: seq<Ddl>, n: nat, ds: seq<Segment>, i: nat, d: Ddl)
    requires n <= |table| && i <= n && i < |table| && Distinct(table[..n])
    requires if i < n then d.name == table[i].name else EntryIndex(table[..n], d.name) == n
    ensures var m := if i < n then n else n + 1;
            && m <= |table| && Distinct(table[i := d][..m])
            && table[i := d][..m] == (if i < n then table[..n][i := d] else table[..n] + [d])
            && (TableOk(table[..n], ds) && EntryOk(d, ds) ==> TableOk(table[i := d][..m], ds))
            && (TableOk(table[i := d][..m], ds) ==> EntryOk(d, ds))
  {
    var m := if i < n then n else n + 1;
    var a, b := table[..n], table[i := d][..m];
    assert b[i] == d;
    assert forall j :: 0 <= j < m && j != i ==> b[j] == a[j];
  }

  /** A new event: no slot is in use (etOpen). */
  method Open(e: EtEvent, jw: array<int>, nbcs: nat, ghost segs: seq<Segment>) returns (length: int)
    requires |e.table| == NDDL && IsRecord(jw[..], segs) && 1 <= nbcs && RECHEADLEN + nbcs - 1 <= jw.Length
    modifies e
    ensures e.Laid() && e.jw == jw && e.segs == segs && e.nwords == nbcs - 1 && e.table == old(e.table) && e.nddl == 0
    ensures TableOk(e.Ddls(), segs) && length == 4 * (RECHEADLEN + |Flat(segs)|)
  {
    e.jw, e.nddl, e.nwords, e.segs := jw, 0, nbcs - 1, segs;
    length := (jw[irNWRD] + RECHEADLEN) * 4;
  }

  /**
   Declares the format of a name (etNformat).  In a slot that comes into use, what was saved there of
   another event stays: the table belongs to the record afterwards if and only if that does.
   */
  method Nformat(e: EtEvent, nama: int, fmt: seq<int>) returns (status: int)
    requires e.Valid()
    modifies e`table, e`nddl
    ensures e.Valid()
    ensures var i := EntryIndex(old(e.Ddls()), nama);
            if |fmt| > STRLEN || i == NDDL then status == -1 && e.table == old(e.table) && e.nddl == old(e.nddl)
            else
              var was := old(e.table)[i];
              && status == 0 && e.nddl == (if i < old(e.nddl) then old(e.nddl) else old(e.nddl) + 1)
              && e.table == old(e.table)[i := if i < old(e.nddl) then was.(fmt := fmt)
                                              else was.(name := nama, fmt := fmt, bytes := Lfmt(fmt),
                                                  afterNamind := false)]
              && (old(Owns(e)) ==> (Owns(e) <==> i < old(e.nddl) || EntryOk(e.table[i], e.segs)))
  {
    hide IsRecord, TableOk, EntryOk, Distinct, Lfmt, EntryIndex;
    if |fmt| > STRLEN {
      return -1;
    }
    var i := FindEntry(e, nama);
    if i < e.nddl {
      var d := e.table[i].(fmt := fmt);
      SlotSet(e.table, e.nddl, e.segs, i, d);
      SameEntry(e.Ddls(), e.segs, i, d);
      e.table := e.table[i := d];
      return 0;
    }
    if e.nddl >= NDDL {
      return -1;
    }
    var d := e.table[i].(name := nama, fmt := fmt, bytes := Lfmt(fmt), afterNamind := false);
    SlotSet(e.table, e.nddl, e.segs, i, d);
    e.table := e.table[i := d];
    e.nddl := e.nddl + 1;
    status := 0;
  }

  lemma SameEntry(ddl: seq<Ddl>, ds: seq<Segment>, i: nat, d: Ddl)
    requires i < |ddl| && d == ddl[i].(fmt := d.fmt)
    ensures TableOk(ddl, ds) ==> EntryOk(d, ds)
  {
    if TableOk(ddl, ds) {
      assert EntryOk(ddl[i], ds);
      if d.indSave != 0 {
        var j :| StandsAt(ddl[i], ds, j);
        assert StandsAt(d, ds, j);
      }
    }
  }

  lemma StandsOk(d: Ddl, ds: seq<Segment>, j: nat)
    requires StandsAt(d, ds, j)
    ensures EntryOk(d, ds)
  {
  }

  /** The entry of bank `k` after etNamind: what it was, or what the header of the bank says. */
  ghost function Entered(was: Ddl, known: bool, ds: seq<Segment>, k: nat): Ddl
    requires k < |ds| && |ds[k].hd| >= idFRMT
  {
    var t := FormatText(ds[k].hd[idFRMT..]);
    var d := if known then was else was.(name := ds[k].hd[idNAME1], fmt := t, bytes := Lfmt(t));
    d.(indSave := DataIndex(ds, k), bSave := HeadIndex(ds, k), afterNamind := true)
  }

  /** The first bank of a name is looked for (etNamind); its entry in the table stands there. */
  method Namind(e: EtEvent, nama: int) returns (r: int)
    requires e.Valid()
    modifies e`table, e`nddl
    ensures e.Valid() && (old(Owns(e)) ==> Owns(e))
    ensures var k, i := FirstNamed(e.segs, 0, nama), EntryIndex(old(e.Ddls()), nama);
            if k == |e.segs| || i == NDDL then r == (if k == |e.segs| then -1 else -10) && e.table == old(e.table)
                && e.nddl == old(e.nddl)
            else
              && |e.segs[k].hd| >= idFRMT && r == DataIndex(e.segs, k) - 1
              && e.nddl == (if i < old(e.nddl) then old(e.nddl) else old(e.nddl) + 1)
              && e.table == old(e.table)[i := Entered(old(e.table)[i], i < old(e.nddl), e.segs, k)]
              && StandsAt(e.table[i], e.segs, k)
  {
    hide Flat, SegsOk, TableOk, EntryOk, Distinct, IsRecord, EtEvent.Ddls;
    EventWords(e.jw[..], e.segs);
    var len := e.jw[irNWRD] + RECHEADLEN;
    var w := RECHEADLEN;
    ghost var j := 0;
    NoWords();
    assert e.segs[..0] == [];
    while true
      invariant e.table == old(e.table) && e.nddl == old(e.nddl) && j < |e.segs| && w == HeadIndex(e.segs, j)
      invariant FirstNamed(e.segs, 0, nama) == FirstNamed(e.segs, j, nama)
      decreases |e.segs| - j
    {
      BankThere(e.jw[..], e.segs, j);
      if e.jw[w + idNAME1] == nama {
        r := EnterBank(e, nama, w, j);
        return;
      }
      w := w + e.jw[w] + e.jw[w + idDATA];
      j := j + 1;
      if w >= len {
        break;
      }
    }
    r := -1;
  }

  /** The entry of the name is set to the bank at `w`. */
  method EnterBank(e: EtEvent, nama: int, w: int, ghost j: nat) returns (r: int)
    requires e.Valid() && j < |e.segs| && IsNamed(e.segs[j], nama) && w == HeadIndex(e.segs, j)
    modifies e`table, e`nddl
    ensures e.Valid() && (old(Owns(e)) ==> Owns(e))
    ensures var i := EntryIndex(old(e.Ddls()), nama);
            if i == NDDL then r == -10 && e.table == old(e.table) && e.nddl == old(e.nddl)
            else
              && |e.segs[j].hd| >= idFRMT && r == DataIndex(e.segs, j) - 1
              && e.nddl == (if i < old(e.nddl) then old(e.nddl) else old(e.nddl) + 1)
              && e.table == old(e.table)[i := Entered(old(e.table)[i], i < old(e.nddl), e.segs, j)]
              && StandsAt(e.table[i], e.segs, j)
  {
    hide Flat, SegsOk, TableOk, EntryOk, Distinct, IsRecord, Lfmt, FormatText, FirstNamed, EntryIndex;
    BankHere(e, j);
    var ind := w + e.jw[w];
    var i := FindEntry(e, nama);
    if i < e.nddl {
      var d := e.table[i].(bSave := w, indSave := ind, afterNamind := true);
      SlotSet(e.table, e.nddl, e.segs, i, d);
      StandsOk(d, e.segs, j);
      e.table := e.table[i := d];
      return ind - 1;
    }
    if e.nddl >= NDDL {
      return -10;
    }
    var fmt := ReadText(e.jw, w + idFRMT, e.jw[w] - idFRMT);
    var d := Ddl(nama, fmt, Lfmt(fmt), ind, w, true);
    SlotSet(e.table, e.nddl, e.segs, i, d);
    StandsOk(d, e.segs, j);
    e.table := e.table[i := d];
    e.nddl := e.nddl + 1;
    r := ind - 1;
  }

  lemma BankHere(e: EtEvent, j: nat)
    requires e.Valid() && j < |e.segs|
    ensures var p, h := HeadIndex(e.segs, j), e.segs[j].hd;
            && 0 <= p && |h| >= idFRMT && p + |h| <= e.jw.Length && e.jw[p] == |h|
            && e.jw[p + idFRMT..p + |h|] == h[idFRMT..]
            && h[idNAME1] == e.jw[p + idNAME1] && p + |h| == DataIndex(e.segs, j)
  {
    hide Flat, SegsOk, IsEvent, Distinct;
    EventWords(e.jw[..], e.segs);
    BankThere(e.jw[..], e.segs, j);
    HeaderThere(e.jw[..], e.segs, j);
    var p := HeadIndex(e.segs, j);
    assert e.jw[..][p + idFRMT..p + |e.segs[j].hd|] == e.jw[p + idFRMT..p + |e.segs[j].hd|];
  }

  lemma EventWords(w: seq<int>, ds: seq<Segment>)
    requires IsRecord(w, ds)
    ensures SegsOk(ds) && RECHEADLEN + |Flat(ds)| <= |w| && w[irNWRD] == |Flat(ds)|
    ensures w[RECHEADLEN..RECHEADLEN + |Flat(ds)|] == Flat(ds)
  {
  }

  /** The format words of bank `j`. */
  lemma HeaderThere(w: seq<int>, ds: seq<Segment>, j: nat)
    requires IsRecord(w, ds) && j < |ds|
    ensures var p := HeadIndex(ds, j);
            && 0 <= p && |ds[j].hd| >= idFRMT && p + |ds[j].hd| <= |w|
            && w[p + idFRMT..p + |ds[j].hd|] == ds[j].hd[idFRMT..]
  {
    hide Flat, SegWords;
    FlatAt(ds, j);
    assert SegOk(ds[j]);
    var p, f := HeadIndex(ds, j), |SegWords(ds[j])|;
    SubSlice(w, RECHEADLEN, RECHEADLEN + |Flat(ds)|, p, p + f);
    SegmentWords(w, p, ds[j]);
    assert w[p..p + |ds[j].hd|][idFRMT..] == w[p + idFRMT..p + |ds[j].hd|];
  }

  /** From the bank at `w0` on, a bank of this name is looked for. */
  method ScanOn(e: EtEvent, w0: int, name: int, ghost j0: nat) returns (found: bool, w: int, ghost j: nat)
    requires e.Valid() && j0 <= |e.segs| && w0 == HeadIndex(e.segs, j0)
    ensures j == FirstNamed(e.segs, j0, name) && found == (j < |e.segs|)
    ensures found ==> w == HeadIndex(e.segs, j) && 0 <= w < e.jw.Length && w + e.jw[w] == DataIndex(e.segs, j)
  {
    hide Flat, SegsOk;
    w, j := w0, j0;
    EndOrNot(e.segs, j);
    while w < e.jw[irNWRD] + RECHEADLEN
      invariant j0 <= j <= |e.segs| && w == HeadIndex(e.segs, j) && (j < |e.segs| <==> w < e.jw[irNWRD] + RECHEADLEN)
      invariant FirstNamed(e.segs, j0, name) == FirstNamed(e.segs, j, name)
      decreases |e.segs| - j
    {
      BankThere(e.jw[..], e.segs, j);
      if e.jw[w + idNAME1] == name {
        return true, w, j;
      }
      w := w + e.jw[w] + e.jw[w + idDATA];
      j := j + 1;
      EndOrNot(e.segs, j);
    }
    found := false;
  }

  lemma EndOrNot(ds: seq<Segment>, j: nat)
    requires SegsOk(ds) && j <= |ds|
    ensures j < |ds| <==> HeadIndex(ds, j) < RECHEADLEN + |Flat(ds)|
  {
    hide Flat;
    if j < |ds| {
      FlatAt(ds, j);
      assert SegOk(ds[j]);
    } else {
      assert ds[..j] == ds;
    }
  }

  /** The entry found for an index stands at the header of bank `k`, whether it is of its name or not. */
  ghost predicate LeadsTo(ddl: seq<Ddl>, ds: seq<Segment>, ind: int, k: nat) {
    var i := FirstSaved(ddl, ind);
    k < |ds| && (ind != 0 && i < |ddl| && !ddl[i].afterNamind ==> ddl[i].bSave == HeadIndex(ds, k))
  }

  /** The next bank behind `ind` of the name that is found first for this index (etNnext), or zero. */
  method Nnext(e: EtEvent, ind: int, ghost k: nat) returns (r: int)
    requires e.Valid() && LeadsTo(e.Ddls(), e.segs, ind, k)
    modifies e`table
    ensures e.Valid() && e.nddl == old(e.nddl)
    ensures old(Owns(e)) ==> Owns(e)
    ensures var i := FirstSaved(old(e.Ddls()), ind);
            if ind == 0 || i == e.nddl then r == 0 && e.table == old(e.table)
            else
              var d := Moved(old(e.table)[i], e.segs, k);
              r == d.indSave && e.table == old(e.table)[i := d] && e.Ddls() == old(e.Ddls())[i := d]
  {
    hide Flat, SegsOk, TableOk, EntryOk, Distinct, IsRecord;
    if ind == 0 {
      return 0;
    }
    var i := FindSaved(e, ind);
    if i == e.nddl {
      return 0;
    }
    var d := NextEntry(e, i, k);
    SlotSet(e.table, e.nddl, e.segs, i, d);
    MovedOk(e.Ddls(), e.segs, i, k);
    e.table := e.table[i := d];
    r := d.indSave;
  }

  /** The first entry with this index. */
  method FindSaved(e: EtEvent, ind: int) returns (i: nat)
    requires e.nddl <= |e.table|
    ensures i == FirstSaved(e.Ddls(), ind) <= e.nddl && (i < e.nddl ==> e.table[i].indSave == ind)
  {
    i := 0;
    while i < e.nddl && e.table[i].indSave != ind
      invariant 0 <= i <= e.nddl && forall j :: 0 <= j < i ==> e.Ddls()[j].indSave != ind
    {
      i := i + 1;
    }
    if i < e.nddl { assert e.Ddls()[i] == e.table[i]; }
  }

  /** What becomes of an entry that stands at bank `k`. */
  method NextEntry(e: EtEvent, i: nat, ghost k: nat) returns (d: Ddl)
    requires e.Valid() && i < e.nddl && k < |e.segs|
    requires (!e.table[i].afterNamind ==> e.table[i].bSave == HeadIndex(e.segs, k))
    ensures d == Moved(e.table[i], e.segs, k)
  {
    hide Flat, SegsOk, Distinct, IsRecord;
    EventWords(e.jw[..], e.segs);
    d := e.table[i];
    if d.afterNamind {
      d := d.(afterNamind := false);
    } else {
      BankThere(e.jw[..], e.segs, k);
      var w := d.bSave + e.jw[d.bSave] + e.jw[d.bSave + idDATA];
      var found;
      ghost var j;
      found, w, j := ScanOn(e, w, d.name, k + 1);
      d := if found then d.(bSave := w, indSave := w + e.jw[w]) else d.(indSave := 0);
    }
  }

  lemma MovedOk(ddl: seq<Ddl>, ds: seq<Segment>, i: nat, k: nat)
    requires i < |ddl| && k < |ds| && (!ddl[i].afterNamind ==> ddl[i].bSave == HeadIndex(ds, k))
    ensures TableOk(ddl, ds) ==> EntryOk(Moved(ddl[i], ds, k), ds)
  {
    if TableOk(ddl, ds) {
      var d := Moved(ddl[i], ds, k);
      assert EntryOk(ddl[i], ds);
      if d.indSave != 0 {
        if ddl[i].afterNamind {
          var j :| StandsAt(ddl[i], ds, j);
          assert StandsAt(d, ds, j);
        } else {
          assert StandsAt(d, ds, FirstNamed(ds, k + 1, d.name));
        }
      }
    }
  }

  /** Indices of the banks of a name from bank `j` on, in order. */
  ghost function AllNamed(ds: seq<Segment>, j: nat, nama: int): seq<int>
    requires j <= |ds|
    decreases |ds| - j
  {
    if j == |ds| then []
    else (if IsNamed(ds[j], nama) then [DataIndex(ds, j)] else []) + AllNamed(ds, j + 1, nama)
  }

  lemma {:induction false} NextOfAll(ds: seq<Segment>, j: nat, nama: int)
    requires j <= |ds|
    ensures var k := FirstNamed(ds, j, nama);
            AllNamed(ds, j, nama) == if k < |ds| then [DataIndex(ds, k)] + AllNamed(ds, k + 1, nama) else []
    decreases |ds| - j
  {
    if j < |ds| && !IsNamed(ds[j], nama) { NextOfAll(ds, j + 1, nama); }
  }

  /** No entry in front of the one of the name stands at a bank of the name. */
  ghost predicate FrontClear(ddl: seq<Ddl>, ds: seq<Segment>, nama: int) {
    forall i, k :: 0 <= i < EntryIndex(ddl, nama) && 0 <= k < |ds| && IsNamed(ds[k], nama) ==>
        ddl[i].indSave != DataIndex(ds, k)
  }

  /** In a table that belongs to the record there are no such entries. */
  lemma TableClear(ddl: seq<Ddl>, ds: seq<Segment>, nama: int)
    requires TableOk(ddl, ds) && SegsOk(ds)
    ensures FrontClear(ddl, ds, nama)
  {
    hide SegsOk;
    forall i, k | 0 <= i < EntryIndex(ddl, nama) && 0 <= k < |ds|
        && IsNamed(ds[k], nama) ensures ddl[i].indSave != DataIndex(ds, k) {
      assert EntryOk(ddl[i], ds);
      IndexOther(ds, k, k);
      if ddl[i].indSave != 0 {
        var j :| StandsAt(ddl[i], ds, j);
        IndexOther(ds, j, k);
      }
    }
  }

  lemma SavedAt(ddl: seq<Ddl>, ind: int, i: nat)
    requires i < |ddl| && ddl[i].indSave == ind && forall j :: 0 <= j < i ==> ddl[j].indSave != ind
    ensures FirstSaved(ddl, ind) == i
  {
  }

  /** Entries with the index of a bank stand at its header. */
  ghost predicate Aligned(ddl: seq<Ddl>, ds: seq<Segment>) {
    forall i, k :: 0 <= i < |ddl| && 0 <= k < |ds| && ddl[i].indSave == DataIndex(ds, k) ==>
        ddl[i].bSave == HeadIndex(ds, k)
  }

  /** Whether the entry taken for bank `k` has just been set. */
  ghost function Fresh(ddl: seq<Ddl>, ds: seq<Segment>, k: nat): nat
    requires k < |ds|
  {
    var i := FirstSaved(ddl, DataIndex(ds, k));
    if i < |ddl| && ddl[i].afterNamind then 1 else 0
  }

  /** A call of etNnext with the index of bank `k`: the bank that it gives, if any, and the table. */
  ghost function After(ddl: seq<Ddl>, ds: seq<Segment>, k: nat): (r: (nat, seq<Ddl>))
    requires k < |ds|
    ensures r.0 < |ds| ==> r.0 > k || (r.0 == k && Fresh(ddl, ds, k) == 1 && Fresh(r.1, ds, k) == 0)
  {
    var i := FirstSaved(ddl, DataIndex(ds, k));
    if i == |ddl| then (|ds|, ddl)
    else
      var ddl' := ddl[i := Moved(ddl[i], ds, k)];
      if ddl[i].afterNamind then SavedAt(ddl', DataIndex(ds, k), i); (k, ddl')
      else (FirstNamed(ds, k + 1, ddl[i].name), ddl')
  }

  /** Calls of etNnext from bank `k` on look at headers only where there are banks. */
  ghost predicate Led(ddl: seq<Ddl>, ds: seq<Segment>, k: nat)
    requires k < |ds|
    decreases |ds| - k, Fresh(ddl, ds, k)
  {
    var (n, ddl') := After(ddl, ds, k);
    LeadsTo(ddl, ds, DataIndex(ds, k), k) && (n < |ds| ==> Led(ddl', ds, n))
  }

  /** What they answer. */
  ghost function Answers(ddl: seq<Ddl>, ds: seq<Segment>, k: nat): seq<int>
    requires k < |ds|
    decreases |ds| - k, Fresh(ddl, ds, k)
  {
    var (n, ddl') := After(ddl, ds, k);
    if n < |ds| then [DataIndex(ds, n)] + Answers(ddl', ds, n) else []
  }

  /**
   An entry in front that stands at bank `k` of the name does no harm if this is the last bank of both
   names, and the entry has just been set if it is the first as well.
   */
  ghost predicate NoHarm(front: seq<Ddl>, ds: seq<Segment>, nama: int, k: nat, fresh_: bool)
    requires k < |ds|
  {
    var i := FirstSaved(front, DataIndex(ds, k));
    i < |front| ==>
      FirstNamed(ds, k + 1, nama) == |ds| == FirstNamed(ds, k + 1, front[i].name) && front[i].afterNamind == fresh_
  }

  /** This is so for all banks of the name. */
  ghost predicate Harmless(front: seq<Ddl>, ds: seq<Segment>, nama: int) {
    forall k :: 0 <= k < |ds| && IsNamed(ds[k], nama) ==> NoHarm(front, ds, nama, k, k == FirstNamed(ds, 0, nama))
  }

  /** For the banks from `k` on, when the first answer has been given. */
  ghost predicate HarmlessOn(front: seq<Ddl>, ds: seq<Segment>, nama: int, k: nat) {
    forall j :: k <= j < |ds| && IsNamed(ds[j], nama) ==> NoHarm(front, ds, nama, j, false)
  }

  /** The entry of a name is found by its index, unless there is one in front. */
  lemma InFront(ddl: seq<Ddl>, ind: int, i0: nat)
    requires i0 < |ddl| && ddl[i0].indSave == ind
    ensures FirstSaved(ddl, ind) == FirstSaved(ddl[..i0], ind)
  {
    var i := FirstSaved(ddl[..i0], ind);
    SavedAt(ddl, ind, i);
  }

  lemma NextIndex(ds: seq<Segment>, k: nat, nama: int, nama': int)
    requires SegsOk(ds) && k < |ds| && nama != nama'
    ensures var n, n' := FirstNamed(ds, k + 1, nama), FirstNamed(ds, k + 1, nama');
            && (n < |ds| ==> DataIndex(ds, n) != DataIndex(ds, k))
            && (n < |ds| && n' < |ds| ==> DataIndex(ds, n) != DataIndex(ds, n'))
  {
    hide Flat, SegsOk;
    var n, n' := FirstNamed(ds, k + 1, nama), FirstNamed(ds, k + 1, nama');
    if n < |ds| { IndexOther(ds, n, k); }
    if n < |ds| && n' < |ds| { IndexOther(ds, n, n'); }
  }

  lemma Heads(a: int, x: seq<int>, b: int, y: seq<int>)
    ensures [a] + x == [b] + y <==> a == b && x == y
  {
    if [a] + x == [b] + y {
      assert a == ([a] + x)[0] == ([b] + y)[0] == b;
      assert x == ([a] + x)[1..] == ([b] + y)[1..] == y;
    }
  }

  /** The entry of the name is found: it moves on, and those in front stay. */
  lemma OwnMoves(ddl: seq<Ddl>, ds: seq<Segment>, i0: nat, k: nat)
    requires Distinct(ddl) && i0 < |ddl| && StandsAt(ddl[i0], ds, k) && FirstSaved(ddl, DataIndex(ds, k)) == i0
    ensures var (n, ddl') := After(ddl, ds, k);
            && n == (if ddl[i0].afterNamind then k else FirstNamed(ds, k + 1, ddl[i0].name)) && Distinct(ddl')
            && |ddl'| == |ddl|
            && ddl'[i0].name == ddl[i0].name && ddl'[..i0] == ddl[..i0]
            && (n < |ds| ==> StandsAt(ddl'[i0], ds, n) && !ddl'[i0].afterNamind)
  {
    hide Flat, DataIndex;
  }

  /** Then the question is the same for the next bank of the name. */
  lemma HarmlessNext(front: seq<Ddl>, ds: seq<Segment>, nama: int, k: nat)
    requires k < |ds| && FirstSaved(front, DataIndex(ds, k)) == |front|
    ensures var n := FirstNamed(ds, k + 1, nama);
            HarmlessOn(front, ds, nama, k) <==> (n < |ds| ==> HarmlessOn(front, ds, nama, n))
  {
    hide Flat, DataIndex, IsNamed;
    var n := FirstNamed(ds, k + 1, nama);
    assert NoHarm(front, ds, nama, k, false);
    if n < |ds| && HarmlessOn(front, ds, nama, n) {
      forall j | k <= j < |ds| && IsNamed(ds[j], nama) ensures NoHarm(front, ds, nama, j, false) {
        assert j == k || j >= n;
      }
    }
  }

  /** Another entry is found: what it gives is right only at the end. */
  lemma OtherMoves(ddl: seq<Ddl>, ds: seq<Segment>, i0: nat, k: nat)
    requires Distinct(ddl) && SegsOk(ds) && i0 < |ddl| && StandsAt(ddl[i0], ds, k)
    requires FirstSaved(ddl, DataIndex(ds, k)) < i0
    ensures Answers(ddl, ds, k) == AllNamed(ds, k + 1, ddl[i0].name) <==> NoHarm(ddl[..i0], ds, ddl[i0].name, k, false)
  {
    hide Flat, SegsOk, AllNamed, DataIndex, Moved, Answers, IsNamed;
    AnswersFrom(ddl, ds, k);
    var nama := ddl[i0].name;
    var i, n := FirstSaved(ddl, DataIndex(ds, k)), FirstNamed(ds, k + 1, nama);
    InFront(ddl, DataIndex(ds, k), i0);
    NextOfAll(ds, k + 1, nama);
    NextIndex(ds, k, nama, ddl[i].name);
    var (n', ddl') := After(ddl, ds, k);
    if n < |ds| && n' < |ds| {
      Heads(DataIndex(ds, n), AllNamed(ds, n + 1, nama), DataIndex(ds, n'), Answers(ddl', ds, n'));
    }
  }

  lemma HarmAtEnd(front: seq<Ddl>, ds: seq<Segment>, nama: int, k: nat)
    requires k < |ds| && IsNamed(ds[k], nama) && FirstSaved(front, DataIndex(ds, k)) < |front|
    ensures HarmlessOn(front, ds, nama, k) <==> NoHarm(front, ds, nama, k, false)
  {
    hide Flat, DataIndex, IsNamed;
  }

  /** Once the first answer has been given: the rest are right if and only if no entry in front does harm. */
  lemma {:induction false} RightOn(ddl: seq<Ddl>, ds: seq<Segment>, i0: nat, k: nat)
    requires Distinct(ddl) && SegsOk(ds) && i0 < |ddl| && StandsAt(ddl[i0], ds, k) && !ddl[i0].afterNamind
    ensures Answers(ddl, ds, k) == AllNamed(ds, k + 1, ddl[i0].name) <==> HarmlessOn(ddl[..i0], ds, ddl[i0].name, k)
    decreases |ds| - k
  {
    hide Flat, SegsOk, Distinct, AllNamed, DataIndex, Moved, HarmlessOn, NoHarm, After, Answers, FirstSaved;
    AnswersFrom(ddl, ds, k);
    var nama, front := ddl[i0].name, ddl[..i0];
    InFront(ddl, DataIndex(ds, k), i0);
    if FirstSaved(front, DataIndex(ds, k)) == |front| {
      OwnMoves(ddl, ds, i0, k);
      HarmlessNext(front, ds, nama, k);
      NextOfAll(ds, k + 1, nama);
      var (n, ddl') := After(ddl, ds, k);
      if n < |ds| {
        RightOn(ddl', ds, i0, n);
        Heads(DataIndex(ds, n), AllNamed(ds, n + 1, nama), DataIndex(ds, n), Answers(ddl', ds, n));
      }
    } else {
      OtherMoves(ddl, ds, i0, k);
      HarmAtEnd(front, ds, nama, k);
    }
  }

  /** From the first bank of the name on, the answers are right if and only if no entry in front does harm. */
  lemma RightFromFirst(ddl: seq<Ddl>, ds: seq<Segment>, i0: nat, k: nat)
    requires Distinct(ddl) && SegsOk(ds) && i0 < |ddl| && StandsAt(ddl[i0], ds, k) && ddl[i0].afterNamind
    requires k == FirstNamed(ds, 0, ddl[i0].name)
    ensures Answers(ddl, ds, k) == AllNamed(ds, 0, ddl[i0].name) <==> Harmless(ddl[..i0], ds, ddl[i0].name)
  {
    hide Flat, SegsOk, Distinct, AllNamed, DataIndex, Moved, HarmlessOn, NoHarm, After, Harmless;
    var nama, front := ddl[i0].name, ddl[..i0];
    InFront(ddl, DataIndex(ds, k), i0);
    NextOfAll(ds, 0, nama);
    if FirstSaved(front, DataIndex(ds, k)) == |front| {
      OwnMoves(ddl, ds, i0, k);
      var (n, ddl') := After(ddl, ds, k);
      RightOn(ddl', ds, i0, k);
      HarmlessFirst(front, ds, nama, k);
      Heads(DataIndex(ds, k), AllNamed(ds, k + 1, nama), DataIndex(ds, k), Answers(ddl', ds, k));
    } else {
      OtherFirst(ddl, ds, i0, k);
      HarmAtFirst(front, ds, nama, k);
    }
  }

  lemma HarmlessFirst(front: seq<Ddl>, ds: seq<Segment>, nama: int, k: nat)
    requires k < |ds| && k == FirstNamed(ds, 0, nama) && FirstSaved(front, DataIndex(ds, k)) == |front|
    ensures Harmless(front, ds, nama) <==> HarmlessOn(front, ds, nama, k)
  {
    hide Flat, DataIndex, IsNamed;
    forall b: bool ensures NoHarm(front, ds, nama, k, b) {}
    if HarmlessOn(front, ds, nama, k) {
      forall j | 0 <= j < |ds| && IsNamed(ds[j], nama) ensures NoHarm(front, ds, nama, j, j == k) {
        assert j >= k;
      }
    }
  }

  lemma HarmAtFirst(front: seq<Ddl>, ds: seq<Segment>, nama: int, k: nat)
    requires k < |ds| && k == FirstNamed(ds, 0, nama) && FirstSaved(front, DataIndex(ds, k)) < |front|
    ensures Harmless(front, ds, nama) <==> NoHarm(front, ds, nama, k, true)
  {
    hide Flat, DataIndex, IsNamed;
    if NoHarm(front, ds, nama, k, true) {
      forall j | 0 <= j < |ds| && IsNamed(ds[j], nama) ensures NoHarm(front, ds, nama, j, j == k) {
        assert j == k;
      }
    }
  }

  /** Another entry is found behind etNamind. */
  lemma OtherFirst(ddl: seq<Ddl>, ds: seq<Segment>, i0: nat, k: nat)
    requires Distinct(ddl) && SegsOk(ds) && i0 < |ddl| && StandsAt(ddl[i0], ds, k)
    requires FirstSaved(ddl, DataIndex(ds, k)) < i0
    ensures Answers(ddl, ds, k) == [DataIndex(ds, k)] + AllNamed(ds, k + 1, ddl[i0].name)
        <==> NoHarm(ddl[..i0], ds, ddl[i0].name, k, true)
  {
    hide Flat, SegsOk, AllNamed, DataIndex, Answers, NoHarm;
    var nama := ddl[i0].name;
    var i := FirstSaved(ddl, DataIndex(ds, k));
    InFront(ddl, DataIndex(ds, k), i0);
    var (n, ddl') := After(ddl, ds, k);
    AnswersFrom(ddl, ds, k);
    if n < |ds| {
      Heads(DataIndex(ds, n), Answers(ddl', ds, n), DataIndex(ds, k), AllNamed(ds, k + 1, nama));
    }
    if ddl[i].afterNamind {
      FreshOnce(ddl, ds, i0, k);
      OtherMoves(ddl', ds, i0, k);
    } else {
      NextIndex(ds, k, ddl[i].name, nama);
      NotFresh(ddl, ds, i0, k);
    }
  }

  lemma AnswersFrom(ddl: seq<Ddl>, ds: seq<Segment>, k: nat)
    requires k < |ds|
    ensures var (n, ddl') := After(ddl, ds, k);
            Answers(ddl, ds, k) == if n < |ds| then [DataIndex(ds, n)] + Answers(ddl', ds, n) else []
  {
  }

  /** An entry in front that has just been set is found once more as one that has not. */
  lemma FreshOnce(ddl: seq<Ddl>, ds: seq<Segment>, i0: nat, k: nat)
    requires Distinct(ddl) && i0 < |ddl| && StandsAt(ddl[i0], ds, k)
    requires FirstSaved(ddl, DataIndex(ds, k)) < i0 && ddl[FirstSaved(ddl, DataIndex(ds, k))].afterNamind
    ensures var (n, ddl') := After(ddl, ds, k);
            && n == k && Distinct(ddl') && |ddl'| == |ddl| && ddl'[i0] == ddl[i0]
            && FirstSaved(ddl', DataIndex(ds, k)) < i0
            && (NoHarm(ddl'[..i0], ds, ddl[i0].name, k, false) <==> NoHarm(ddl[..i0], ds, ddl[i0].name, k, true))
  {
    hide Flat, DataIndex;
    var i := FirstSaved(ddl, DataIndex(ds, k));
    var ddl' := After(ddl, ds, k).1;
    SavedAt(ddl', DataIndex(ds, k), i);
    SavedAt(ddl[..i0], DataIndex(ds, k), i);
    SavedAt(ddl'[..i0], DataIndex(ds, k), i);
  }

  lemma NotFresh(ddl: seq<Ddl>, ds: seq<Segment>, i0: nat, k: nat)
    requires i0 < |ddl| && StandsAt(ddl[i0], ds, k)
    requires FirstSaved(ddl, DataIndex(ds, k)) < i0 && !ddl[FirstSaved(ddl, DataIndex(ds, k))].afterNamind
    ensures !NoHarm(ddl[..i0], ds, ddl[i0].name, k, true)
  {
    hide Flat, DataIndex;
    SavedAt(ddl[..i0], DataIndex(ds, k), FirstSaved(ddl, DataIndex(ds, k)));
  }

  // ---- The calls of an enumeration -------------------------------------------------------------------------

  lemma FrontIsClear(ddl: seq<Ddl>, ds: seq<Segment>, nama: int, k: nat)
    requires FrontClear(ddl, ds, nama) && k < |ds| && IsNamed(ds[k], nama)
    ensures FirstSaved(ddl[..EntryIndex(ddl, nama)], DataIndex(ds, k)) == EntryIndex(ddl, nama)
  {
    hide Flat, DataIndex;
  }

  /** Without entries in front at banks of the name there is no harm. */
  lemma ClearHarmless(ddl: seq<Ddl>, ds: seq<Segment>, nama: int)
    requires FrontClear(ddl, ds, nama)
    ensures Harmless(ddl[..EntryIndex(ddl, nama)], ds, nama)
  {
    hide Flat, DataIndex, FrontClear;
    forall k | 0 <= k < |ds| && IsNamed(ds[k], nama)
      ensures NoHarm(ddl[..EntryIndex(ddl, nama)], ds, nama, k, k == FirstNamed(ds, 0, nama))
    {
      FrontIsClear(ddl, ds, nama, k);
    }
  }

  /** Entry `i0` of the name stands at bank `k`, and there is none in front at a bank of the name. */
  ghost predicate Ahead(ddl: seq<Ddl>, ds: seq<Segment>, i0: nat, k: nat) {
    && i0 < |ddl| && Distinct(ddl) && StandsAt(ddl[i0], ds, k)
    && forall j :: 0 <= j < |ds| && IsNamed(ds[j], ddl[i0].name) ==> FirstSaved(ddl[..i0], DataIndex(ds, j)) == i0
  }

  lemma {:induction false} ClearLed(ddl: seq<Ddl>, ds: seq<Segment>, i0: nat, k: nat)
    requires Ahead(ddl, ds, i0, k)
    ensures k < |ds| && Led(ddl, ds, k)
    decreases |ds| - k, if ddl[i0].afterNamind then 1 else 0
  {
    hide Flat, DataIndex, Distinct;
    InFront(ddl, DataIndex(ds, k), i0);
    OwnMoves(ddl, ds, i0, k);
    var (n, ddl') := After(ddl, ds, k);
    if n < |ds| { ClearLed(ddl', ds, i0, n); }
  }

  lemma {:induction false} AlignedLed(ddl: seq<Ddl>, ds: seq<Segment>, k: nat)
    requires Aligned(ddl, ds) && SegsOk(ds) && k < |ds|
    ensures Led(ddl, ds, k)
    decreases |ds| - k, Fresh(ddl, ds, k)
  {
    hide Flat, SegsOk, DataIndex;
    var (n, ddl') := After(ddl, ds, k);
    if n < |ds| {
      AlignedAfter(ddl, ds, k);
      AlignedLed(ddl', ds, n);
    }
  }

  lemma AlignedAfter(ddl: seq<Ddl>, ds: seq<Segment>, k: nat)
    requires Aligned(ddl, ds) && SegsOk(ds) && k < |ds|
    ensures Aligned(After(ddl, ds, k).1, ds)
  {
    hide Flat, SegsOk, DataIndex;
    var i := FirstSaved(ddl, DataIndex(ds, k));
    if i < |ddl| {
      MovedAligned(ddl[i], ds, k);
      EntrySet(ddl, ds, i, Moved(ddl[i], ds, k));
    }
  }

  /** Entry `d` stands at the header of the bank that has its index. */
  ghost predicate InLine(d: Ddl, ds: seq<Segment>) {
    forall k :: 0 <= k < |ds| && d.indSave == DataIndex(ds, k) ==> d.bSave == HeadIndex(ds, k)
  }

  lemma MovedAligned(d: Ddl, ds: seq<Segment>, k: nat)
    requires SegsOk(ds) && k < |ds| && InLine(d, ds)
    ensures InLine(Moved(d, ds, k), ds)
  {
    hide Flat, SegsOk, DataIndex;
    var n := FirstNamed(ds, k + 1, d.name);
    forall j | 0 <= j < |ds| && Moved(d, ds, k).indSave == DataIndex(ds, j) ensures Moved(d, ds, k).bSave
        == HeadIndex(ds, j) {
      IndexOther(ds, j, j);
      if n < |ds| { IndexOther(ds, n, j); }
    }
  }

  lemma StandsInLine(d: Ddl, ds: seq<Segment>, k: nat)
    requires SegsOk(ds) && StandsAt(d, ds, k)
    ensures InLine(d, ds)
  {
    hide Flat, SegsOk, DataIndex;
    forall j | 0 <= j < |ds| && d.indSave == DataIndex(ds, j) ensures d.bSave == HeadIndex(ds, j) {
      IndexOther(ds, j, k);
    }
  }

  lemma EntrySet(ddl: seq<Ddl>, ds: seq<Segment>, i: nat, d: Ddl)
    requires Aligned(ddl, ds) && InLine(d, ds) && i <= |ddl|
    ensures Aligned(if i < |ddl| then ddl[i := d] else ddl + [d], ds)
  {
    hide Flat, DataIndex;
  }

  /** etNamind in an enumeration. */
  method Start(e: EtEvent, nama: int) returns (r: int)
    requires e.Valid() && (FrontClear(e.Ddls(), e.segs, nama) || Aligned(e.Ddls(), e.segs))
    modifies e`table, e`nddl
    ensures e.Valid() && (old(Owns(e)) ==> Owns(e))
    ensures var k, i := FirstNamed(e.segs, 0, nama), EntryIndex(old(e.Ddls()), nama);
            if k == |e.segs| || i == NDDL then r == if k == |e.segs| then -1 else -10
            else
              && r == DataIndex(e.segs, k) - 1 && r >= 0 && i < |e.Ddls()| && StandsAt(e.Ddls()[i], e.segs, k)
              && e.Ddls()[i].afterNamind
              && e.Ddls()[i].name == nama && e.Ddls()[..i] == old(e.Ddls())[..i] && Led(e.Ddls(), e.segs, k)
  {
    hide Flat, SegsOk, TableOk, EntryOk, Distinct, IsRecord, DataIndex, FrontClear, Aligned, Led;
    ghost var ddl, k := e.Ddls(), FirstNamed(e.segs, 0, nama);
    ghost var i := EntryIndex(ddl, nama);
    IndexPositive(e.segs, k);
    r := Namind(e, nama);
    if k < |e.segs| && i < NDDL {
      ghost var d := e.table[i];
      assert e.Ddls() == if i < |ddl| then ddl[i := d] else ddl + [d];
      EventWords(e.jw[..], e.segs);
      StartLed(ddl, e.segs, nama, k, d);
    }
  }

  lemma StartLed(ddl: seq<Ddl>, ds: seq<Segment>, nama: int, k: nat, d: Ddl)
    requires SegsOk(ds) && StandsAt(d, ds, k) && d.name == nama && (FrontClear(ddl, ds, nama) || Aligned(ddl, ds))
    requires var i := EntryIndex(ddl, nama); Distinct(if i < |ddl| then ddl[i := d] else ddl + [d])
    ensures var i := EntryIndex(ddl, nama); k < |ds| && Led(if i < |ddl| then ddl[i := d] else ddl + [d], ds, k)
  {
    hide Flat, SegsOk, DataIndex, FrontClear, Aligned, Led, Distinct;
    var i := EntryIndex(ddl, nama);
    var ddl' := if i < |ddl| then ddl[i := d] else ddl + [d];
    if FrontClear(ddl, ds, nama) {
      assert ddl'[..i] == ddl[..i];
      forall j | 0 <= j < |ds| && IsNamed(ds[j], nama) ensures FirstSaved(ddl'[..i], DataIndex(ds, j)) == i {
        FrontIsClear(ddl, ds, nama, j);
      }
      ClearLed(ddl', ds, i, k);
    } else {
      StandsInLine(d, ds, k);
      EntrySet(ddl, ds, i, d);
      AlignedLed(ddl', ds, k);
    }
  }

  /**
   etNamind and then etNnext as long as there is a bank.  Unless the table is full, this gives exactly
   the banks of the name, in order of address, if and only if no entry in front does harm.
   */
  method Enumerate(e: EtEvent, nama: int) returns (ok: bool, inds: seq<int>)
    requires e.Valid() && (FrontClear(e.Ddls(), e.segs, nama) || Aligned(e.Ddls(), e.segs))
    modifies e`table, e`nddl
    ensures e.Valid() && (old(Owns(e)) ==> Owns(e))
    ensures ok <==> EntryIndex(old(e.Ddls()), nama) != NDDL || FirstNamed(e.segs, 0, nama) == |e.segs|
    ensures ok ==>
              var ddl := old(e.Ddls());
              && (inds == AllNamed(e.segs, 0, nama) <==> Harmless(ddl[..EntryIndex(ddl, nama)], e.segs, nama))
              && (FrontClear(ddl, e.segs, nama) ==> inds == AllNamed(e.segs, 0, nama))
  {
    hide Flat, SegsOk, Owns, DataIndex, IsNamed, EtEvent.Ddls, EntryIndex, IsRecord, AllNamed, FirstNamed, FrontClear,
         Aligned, Led, Harmless, Distinct;
    ghost var ddl, k := e.Ddls(), FirstNamed(e.segs, 0, nama);
    if FrontClear(ddl, e.segs, nama) { ClearHarmless(ddl, e.segs, nama); }
    NextOfAll(e.segs, 0, nama);
    NoneHarmless(ddl[..EntryIndex(ddl, nama)], e.segs, nama);
    var r := Start(e, nama);
    if r < 0 {
      return r == -1, [];
    }
    EventWords(e.jw[..], e.segs);
    RightFromFirst(e.Ddls(), e.segs, EntryIndex(ddl, nama), k);
    inds := Collect(e, r + 1, k);
    ok := true;
  }

  lemma NoneHarmless(front: seq<Ddl>, ds: seq<Segment>, nama: int)
    ensures FirstNamed(ds, 0, nama) == |ds| ==> Harmless(front, ds, nama)
  {
  }

  /** etNnext until there is no bank. */
  method Collect(e: EtEvent, ind0: int, ghost k0: nat) returns (inds: seq<int>)
    requires e.Valid() && k0 < |e.segs| && ind0 == DataIndex(e.segs, k0) && Led(e.Ddls(), e.segs, k0)
    modifies e`table
    ensures e.Valid() && (old(Owns(e)) ==> Owns(e)) && inds == Answers(old(e.Ddls()), e.segs, k0)
  {
    hide Flat, SegsOk, Owns, DataIndex, IsRecord, LeadsTo, Led, Answers, After, Distinct, Moved, FirstSaved;
    ghost var k := k0;
    inds := [];
    var ind := ind0;
    while true
      invariant e.Valid() && (old(Owns(e)) ==> Owns(e)) && k < |e.segs| && ind == DataIndex(e.segs, k)
      invariant Led(e.Ddls(), e.segs, k)
      invariant Answers(old(e.Ddls()), e.segs, k0) == inds + Answers(e.Ddls(), e.segs, k)
      decreases |e.segs| - k, Fresh(e.Ddls(), e.segs, k)
    {
      ghost var ddl := e.Ddls();
      ghost var (n, ddl') := After(ddl, e.segs, k);
      LedOn(ddl, e.segs, k);
      AnswersFrom(ddl, e.segs, k);
      IndexPositive(e.segs, n);
      var r := Nnext(e, ind, k);
      if r == 0 {
        assert inds + [] == inds;
        return;
      }
      inds := inds + [r];
      ind := r;
      k := n;
    }
  }

  lemma LedOn(ddl: seq<Ddl>, ds: seq<Segment>, k: nat)
    requires k < |ds| && Led(ddl, ds, k)
    ensures var (n, ddl') := After(ddl, ds, k);
            && DataIndex(ds, k) > 0 && LeadsTo(ddl, ds, DataIndex(ds, k), k) && (n < |ds| ==> Led(ddl', ds, n))
            && (n < |ds| ==> n > k || (n == k && Fresh(ddl, ds, k) == 1 && Fresh(ddl', ds, k) == 0))
            && var i := FirstSaved(ddl, DataIndex(ds, k));
               if i == |ddl| then n == |ds| && ddl' == ddl
               else
                 && ddl' == ddl[i := Moved(ddl[i], ds, k)]
                 && Moved(ddl[i], ds, k).indSave == if n < |ds| then DataIndex(ds, n) else 0
  {
    hide Flat;
  }

  /** In a table that belongs to the record every index leads to a bank. */
  lemma Leads(ddl: seq<Ddl>, ds: seq<Segment>, ind: int) returns (k: nat)
    requires TableOk(ddl, ds) && ds != []
    ensures LeadsTo(ddl, ds, ind, k)
  {
    var i := FirstSaved(ddl, ind);
    k := 0;
    if ind != 0 && i < |ddl| {
      assert EntryOk(ddl[i], ds);
      var j :| StandsAt(ddl[i], ds, j);
      k := j;
    }
  }

  datatype Call = ToFirst(nama: int) | ToNext(ind: int)

  /** From etOpen on, with calls of etNamind and etNnext alone, the table belongs to the record. */
  method Session(e: EtEvent, jw: array<int>, nbcs: nat, calls: seq<Call>, ghost segs: seq<Segment>)
    requires |e.table| == NDDL && IsEvent(jw[..], segs) && 1 <= nbcs && RECHEADLEN + nbcs - 1 <= jw.Length
    modifies e
    ensures e.Valid() && e.segs == segs && TableOk(e.Ddls(), segs) && forall nama :: FrontClear(e.Ddls(), segs, nama)
  {
    hide Flat, SegsOk, TableOk, Distinct, IsRecord, LeadsTo, FrontClear, EntryIndex, FirstSaved;
    var length := Open(e, jw, nbcs, segs);
    EventWords(jw[..], segs);
    var i := 0;
    while i < |calls|
      invariant 0 <= i <= |calls| && e.Valid() && e.segs == segs && e.jw == jw && TableOk(e.Ddls(), segs)
    {
      match calls[i] {
        case ToFirst(nama) =>
          var r := Namind(e, nama);
        case ToNext(ind) =>
          ghost var k := Leads(e.Ddls(), segs, ind);
          var r := Nnext(e, ind, k);
      }
      i := i + 1;
    }
    forall nama ensures FrontClear(e.Ddls(), segs, nama) { TableClear(e.Ddls(), segs, nama); }
  }

  /**
   An event is closed with an entry that stands at its first bank, of name `b`; for the next one, with
   a bank of this name in the same place, the format of a name `a` that it does not have is declared
   first.  Then etNnext does not give the bank that etNamind has found.
   */
  method Forgotten(e: EtEvent, a: int, b: int, fmt: seq<int>) returns (r: int)
    requires e.Valid() && a != b && e.segs != [] && IsNamed(e.segs[0], b) && FirstNamed(e.segs, 1, a) == |e.segs|
    requires |fmt| <= STRLEN
    modifies e
    ensures r == 0 && e.segs == old(e.segs) != [] && DataIndex(e.segs, 0) in AllNamed(e.segs, 0, b)
  {
    hide Flat, SegsOk, TableOk, EntryOk, Distinct, IsRecord, Lfmt;
    ghost var ds := e.segs;
    var nbcs := e.nwords + 1;
    var length := Open(e, e.jw, nbcs, ds);
    var first := Namind(e, b);
    length := Open(e, e.jw, nbcs, ds);
    var status := Nformat(e, a, fmt);
    first := Namind(e, b);
    TwoEntries(e.Ddls(), ds, a, b);
    r := Nnext(e, first + 1, 0);
    NextOfAll(ds, 0, b);
  }

  lemma TwoEntries(ddl: seq<Ddl>, ds: seq<Segment>, a: int, b: int)
    requires |ddl| == 2 && a != b && ds != [] && ddl[0].name == a && StandsAt(ddl[1], ds, 0)
    requires ddl[0].indSave == DataIndex(ds, 0) && ddl[0].bSave == HeadIndex(ds, 0) && !ddl[0].afterNamind
    ensures FirstSaved(ddl, DataIndex(ds, 0)) == 0 && LeadsTo(ddl, ds, DataIndex(ds, 0), 0)
  {
  }

  lemma IndexPositive(ds: seq<Segment>, k: nat)
    ensures k < |ds| ==> DataIndex(ds, k) > 0
  {
  }

  // ---- A new bank --------------------------------------------------------------------------------------------

  /** Words of a bank with values of four divided by `bytes` bytes. */
  function BankWords(ncol: nat, nrow: nat, bytes: int): nat
    requires bytes == 1 || bytes == 2 || bytes == 4
  {
    (ncol * nrow * (4 / bytes) + 3) / 4
  }

  ghost predicate FormatsKnown(ddl: seq<Ddl>) {
    forall i :: 0 <= i < |ddl| ==>
          && (ddl[i].bytes == 1 || ddl[i].bytes == 2 || ddl[i].bytes == 4)
          && |TextWords(ddl[i].fmt)| <= MAXHEAD - idFRMT
  }

  /** The header of a new bank. */
  function NewHeader(nama: int, nr: int, ncol: int, nrow: int, fmt: seq<int>, ndata: int): (h: seq<int>)
    ensures |h| == idFRMT + |TextWords(fmt)|
  {
    [idFRMT + |TextWords(fmt)|, nama, BLANK, nr, ncol, nrow, 0, 0, ndata] + TextWords(fmt)
  }

  /** One more bank in the buffer. */
  lemma BankAdded(w: seq<int>, w': seq<int>, ds: seq<Segment>, d: Segment)
    requires SegsOk(ds) && SegOk(d) && RECHEADLEN + |Flat(ds)| + |d.hd| + |d.data| <= |w| == |w'|
    requires w[RECHEADLEN..RECHEADLEN + |Flat(ds)|] == Flat(ds)
    requires var p := RECHEADLEN + |Flat(ds)|;
             && (forall i :: RECHEADLEN <= i < p ==> w'[i] == w[i])
             && w'[p..p + |d.hd|] == d.hd && w'[p + |d.hd|..p + |d.hd| + |d.data|] == d.data
    ensures SegsOk(ds + [d]) && |Flat(ds + [d])| == |Flat(ds)| + |d.hd| + |d.data|
    ensures w'[RECHEADLEN..RECHEADLEN + |Flat(ds + [d])|] == Flat(ds + [d])
  {
    hide Flat;
    FlatAdd(ds, d);
    var p := RECHEADLEN + |Flat(ds)|;
    var q := p + |d.hd| + |d.data|;
    assert w'[RECHEADLEN..p] == w[RECHEADLEN..p];
    assert w'[RECHEADLEN..q] == w'[RECHEADLEN..p] + (w'[p..p + |d.hd|] + w'[p + |d.hd|..q]);
  }

  /** A bank added behind all others is found, and so are the others. */
  lemma {:induction false} AddedFound(ds: seq<Segment>, j: nat, d: Segment, nama: int, nr: int)
    requires j <= |ds|
    ensures First(ds + [d], j, nama, nr) == if First(ds, j, nama, nr) < |ds|
        || IsBank(d, nama, nr) then First(ds, j, nama, nr) else |ds| + 1
    ensures forall k :: 0 <= k < |ds| ==> DataIndex(ds + [d], k) == DataIndex(ds, k)
    decreases |ds| - j
  {
    var a := ds + [d];
    assert forall k :: 0 <= k <= |ds| ==> a[..k] == ds[..k];
    if j < |ds| { AddedFound(ds, j + 1, d, nama, nr); }
  }

  /** The words with `h` from `at` on, as far as there is room. */
  ghost predicate Holds(w0: seq<int>, w: seq<int>, at: nat, h: seq<int>) {
    |w| == |w0| && forall i :: 0 <= i < |w| ==> w[i] == if at <= i < at + |h| then h[i - at] else w0[i]
  }

  /**
   A header is put at `at`, with the text of its format as a string: behind a text that fills its words
   the first byte becomes zero.  What is written behind the array is not part of this model.
   */
  method PutHeader(a: array<int>, at: nat, h: seq<int>, fmt: seq<int>)
    requires |h| == idFRMT + |TextWords(fmt)|
    modifies a
    ensures Holds(Cut(old(a[..]), at + idFRMT, |fmt|), a[..], at, h)
  {
    hide TextWords, WithoutByte;
    var q := at + |h|;
    if |fmt| % 4 == 0 && q < a.Length {
      a[q] := WithoutByte(a[q], 0);
    }
    ghost var w0 := a[..];
    assert |fmt| % 4 == 0 ==> w0 == Cut(old(a[..]), at + idFRMT, |fmt|);
    var i := 0;
    while i < |h| && at + i < a.Length
      invariant 0 <= i <= |h| && forall k :: 0 <= k < a.Length ==> a[k] == if at <= k < at + i then h[k - at] else w0[k]
    {
      a[at + i] := h[i];
      i := i + 1;
    }
    assert at + idFRMT + |fmt| / 4 >= at && (|fmt| % 4 != 0 ==> at + idFRMT + |fmt| / 4 < q);
  }

  /** The bank is not there, its name has a format, and there is room. */
  ghost predicate CanCreate(ddl: seq<Ddl>, ds: seq<Segment>, nwords: nat, nama: int, nr: int, ncol: nat, nrow: nat)
    requires FormatsKnown(ddl)
  {
    var i := EntryIndex(ddl, nama);
    && First(ds, 0, nama, nr) == |ds| && i < |ddl|
    && |Flat(ds)| + idFRMT + |TextWords(ddl[i].fmt)| + BankWords(ncol, nrow, ddl[i].bytes) <= nwords
  }

  /** The new bank is the last, with the shape and format asked for; the others are as they were. */
  ghost predicate IsCreated(ddl: seq<Ddl>, ds: seq<Segment>, ds': seq<Segment>, ind: int, nama: int, nr: int, ncol: nat,
                            nrow: nat)
    requires FormatsKnown(ddl) && EntryIndex(ddl, nama) < |ddl|
  {
    && |ds'| == |ds| + 1 && ds'[..|ds|] == ds && ind == DataIndex(ds', |ds|)
    && var d, f := ds'[|ds|], ddl[EntryIndex(ddl, nama)];
       && IsBank(d, nama, nr) && d.hd[2] == 0x2020_2020 && d.hd[idNCOL] == ncol && d.hd[idNROW] == nrow
       && d.hd[6] == 0 && d.hd[7] == 0 && d.hd[idFRMT..] == TextWords(f.fmt)
       && |d.data| == BankWords(ncol, nrow, f.bytes)
  }

  lemma CreatedLast(ddl: seq<Ddl>, ds: seq<Segment>, d: Segment, ind: int, nama: int, nr: int, ncol: nat, nrow: nat)
    requires FormatsKnown(ddl) && EntryIndex(ddl, nama) < |ddl|
    requires var f := ddl[EntryIndex(ddl, nama)];
             |d.data| == BankWords(ncol, nrow, f.bytes) && d.hd == NewHeader(nama, nr, ncol, nrow, f.fmt, |d.data|)
    requires ind == RECHEADLEN + |Flat(ds)| + |d.hd|
    ensures IsCreated(ddl, ds, ds + [d], ind, nama, nr, ncol, nrow)
  {
    assert (ds + [d])[..|ds|] == ds;
    assert d.hd[idFRMT..] == TextWords(ddl[EntryIndex(ddl, nama)].fmt);
  }

  /** The first words behind the header of the record are those of a bank with this name, number and format. */
  ghost predicate Begins(w: seq<int>, nama: int, nr: int, fmt: seq<int>) {
    && RECHEADLEN + idFRMT <= |w|
    && w[RECHEADLEN] == idFRMT + |TextWords(fmt)| && w[RECHEADLEN + idNAME1] == nama && w[RECHEADLEN + idNSGM] == nr
  }

  /** The bank written behind the others belongs to the record. */
  lemma NewBank(w0: seq<int>, w: seq<int>, ds: seq<Segment>, d: Segment, fmt: seq<int>)
    requires IsRecord(w0, ds) && |w| == |w0| && SegOk(d) && |d.hd| == idFRMT + |TextWords(fmt)|
    requires var p := RECHEADLEN + |Flat(ds)|;
             && p + |d.hd| + |d.data| <= |w| && d.data == w[p + |d.hd|..p + |d.hd| + |d.data|]
             && w[irNWRD] == |Flat(ds)| + |d.hd| + |d.data|
             && Holds(Cut(w0, p + idFRMT, |fmt|), w[irNWRD := w0[irNWRD]], p, d.hd)
    ensures IsEvent(w, ds + [d])
  {
    hide Flat, SegsOk, TextWords;
    var p := RECHEADLEN + |Flat(ds)|;
    var v := w[irNWRD := w0[irNWRD]];
    assert forall i :: 0 <= i < |w| && i != irNWRD ==> w[i] == v[i];
    assert v[p..p + |d.hd|] == d.hd && v[p..p + |d.hd|] == w[p..p + |d.hd|];
    BankAdded(w0, w, ds, d);
  }

  /** A header written further behind leaves the front as it was. */
  lemma FrontStays(w0: seq<int>, w: seq<int>, ds: seq<Segment>, at: nat, h: seq<int>, fmt: seq<int>, nama: int, nr: int)
    requires IsRecord(w0, ds) && |w| == |w0| && ds == [] && at > RECHEADLEN && |h| == idFRMT + |TextWords(fmt)|
    requires at == RECHEADLEN + w0[RECHEADLEN] + w0[RECHEADLEN + idDATA] && !LeftOver(w0, ds, nama, nr)
    requires Holds(Cut(w0, at + idFRMT, |fmt|), w[irNWRD := w0[irNWRD]], at, h)
    ensures !Begins(w, nama, nr, fmt)
  {
    hide Flat, SegsOk, TextWords;
    var v, c := w[irNWRD := w0[irNWRD]], Cut(w0, at + idFRMT, |fmt|);
    assert w[RECHEADLEN] == v[RECHEADLEN] == c[RECHEADLEN] == w0[RECHEADLEN];
    if w0[RECHEADLEN] >= idFRMT {
      assert w[RECHEADLEN + idNAME1] == v[RECHEADLEN + idNAME1] == c[RECHEADLEN + idNAME1] == w0[RECHEADLEN + idNAME1];
      assert w[RECHEADLEN + idNSGM] == v[RECHEADLEN + idNSGM] == c[RECHEADLEN + idNSGM] == w0[RECHEADLEN + idNSGM];
    }
  }

  /**
   Creates a bank behind the others (etNcreate): the index of its data, or zero.  In an empty record
   the search goes by what was there before.  Unless that has no words, the header comes to lie behind
   it, and the record does not begin with the new bank.
   */
  method Ncreate(e: EtEvent, nama: int, nr: int, ncol: nat, nrow: nat) returns (ind: int)
    requires e.Laid() && FormatsKnown(e.Ddls())
    modifies e`segs, e.jw
    ensures ind == 0 <==>
              || LeftOver(old(e.jw[..]), old(e.segs), nama, nr)
              || !CanCreate(e.Ddls(), old(e.segs), e.nwords, nama, nr, ncol, nrow)
    ensures ind == 0 ==> e.Laid() && e.segs == old(e.segs) && e.jw[..] == old(e.jw[..])
    ensures ind != 0 && old(Beyond(e.jw[..], e.segs)) == 0 ==>
              && e.Valid() && (old(Owns(e)) ==> Owns(e))
              && IsCreated(e.Ddls(), old(e.segs), e.segs, ind, nama, nr, ncol, nrow)
    ensures ind != 0 && old(Beyond(e.jw[..], e.segs)) > 0 ==>
              !Begins(e.jw[..], nama, nr, e.Ddls()[EntryIndex(e.Ddls(), nama)].fmt)
  {
    hide Flat, SegsOk, TableOk, IsCreated, IsBank, First, IsRecord, Distinct, Holds, Begins, TextWords, Cut, LeftOver,
         Beyond;
    ghost var ds, w0 := e.segs, e.jw[..];
    EventWords(w0, ds);
    LookedFor(w0, ds, nama, nr);
    var found, w := Look(e, nama, nr);
    if found {
      return 0;
    }
    var i := FindEntry(e, nama);
    if i == e.nddl {
      return 0;
    }
    ghost var f := e.Ddls()[i];
    var fmt, ndata := e.table[i].fmt, BankWords(ncol, nrow, e.table[i].bytes);
    var h := NewHeader(nama, nr, ncol, nrow, fmt, ndata);
    if e.jw[irNWRD] + |h| + ndata > e.nwords {
      return 0;
    }
    ind := PutNew(e, w, h, ndata, fmt);
    if Beyond(w0, ds) == 0 {
      assert e.segs == ds + [e.segs[|ds|]];
      CreatedLast(e.Ddls(), ds, e.segs[|ds|], ind, nama, nr, ncol, nrow);
      if TableOk(e.Ddls(), ds) { TableKept(e.Ddls(), ds, e.segs[|ds|]); }
    } else {
      FrontStays(w0, e.jw[..], ds, w, h, fmt, nama, nr);
    }
  }

  lemma LookedFor(w: seq<int>, ds: seq<Segment>, nama: int, nr: int)
    requires IsRecord(w, ds)
    ensures LeftOver(w, ds, nama, nr) ==> ds == []
    ensures Beyond(w, ds) > 0 ==> ds == [] && |Flat(ds)| == 0 && Beyond(w, ds) == w[RECHEADLEN] + w[RECHEADLEN + idDATA]
  {
  }

  /** The new header goes to `w`; the words of the data are left as they are. */
  method PutNew(e: EtEvent, w: nat, h: seq<int>, ndata: nat, fmt: seq<int>) returns (ind: int)
    requires e.Laid() && w == RECHEADLEN + |Flat(e.segs)| + Beyond(e.jw[..], e.segs)
    requires |h| == idFRMT + |TextWords(fmt)| <= MAXHEAD && h[idNHEAD] == |h| && h[idDATA] == ndata
    requires e.jw[irNWRD] + |h| + ndata <= e.nwords
    modifies e`segs, e.jw
    ensures ind == w + |h|
    ensures Holds(Cut(old(e.jw[..]), w + idFRMT, |fmt|), e.jw[..][irNWRD := old(e.jw[irNWRD])], w, h)
    ensures old(Beyond(e.jw[..], e.segs)) == 0 ==>
              && e.Valid() && |e.segs| == |old(e.segs)| + 1 && e.segs[..|old(e.segs)|] == old(e.segs)
              && e.segs[|old(e.segs)|].hd == h && |e.segs[|old(e.segs)|].data| == ndata
  {
    hide Flat, SegsOk, IsRecord, Distinct, Holds, TextWords, Cut;
    ghost var ds, w0 := e.segs, e.jw[..];
    EventWords(w0, ds);
    PutHeader(e.jw, w, h, fmt);
    ind := w + |h|;
    ghost var w1 := e.jw[..];
    HoldsAt(w0, w1, w, h, fmt);
    e.jw[irNWRD] := e.jw[irNWRD] + |h| + ndata;
    assert e.jw[..][irNWRD := w0[irNWRD]] == w1;
    if Beyond(w0, ds) == 0 {
      ghost var d := Segment(h, e.jw[ind..ind + ndata]);
      NewBank(w0, e.jw[..], ds, d, fmt);
      e.segs := ds + [d];
    }
  }

  lemma HoldsAt(w0: seq<int>, w: seq<int>, at: nat, h: seq<int>, fmt: seq<int>)
    requires Holds(Cut(w0, at + idFRMT, |fmt|), w, at, h) && at > irNWRD
    ensures |w| == |w0| && irNWRD < |w| ==> w[irNWRD] == w0[irNWRD]
  {
  }

  /** A bank that has been created is found where it was put, and nothing else is found differently. */
  lemma CreatedFound(ddl: seq<Ddl>, ds: seq<Segment>, ds': seq<Segment>, ind: int, nama: int, nr: int, ncol: nat,
                     nrow: nat)
    requires FormatsKnown(ddl) && EntryIndex(ddl, nama) < |ddl| && First(ds, 0, nama, nr) == |ds|
    requires IsCreated(ddl, ds, ds', ind, nama, nr, ncol, nrow)
    ensures First(ds', 0, nama, nr) == |ds| && DataIndex(ds', |ds|) == ind
    ensures forall name, n :: (name != nama || n != nr) ==>
              var k := First(ds, 0, name, n);
              First(ds', 0, name, n) == (if k < |ds| then k else |ds'|)
                  && (k < |ds| ==> DataIndex(ds', k) == DataIndex(ds, k))
  {
    hide First, Flat, DataIndex;
    var d := ds'[|ds|];
    assert ds' == ds + [d];
    AddedFound(ds, 0, d, nama, nr);
    forall name, n | name != nama || n != nr
      ensures var k := First(ds, 0, name, n);
              First(ds', 0, name, n) == (if k < |ds| then k else |ds'|)
                  && (k < |ds| ==> DataIndex(ds', k) == DataIndex(ds, k))
    {
      AddedFound(ds, 0, d, name, n);
    }
  }

  /**
   `p` values in as few words as they take: two bytes each if the format begins with "B16", one if with "B8"
   or "B08", four otherwise.
   */
  ghost predicate FewestWords(fmt: seq<int>, p: int, nd: int) {
    if |fmt| >= 3 && fmt[0] == 66 && fmt[1] == 49 && fmt[2] == 54 then 4 * (nd - 1) < 2 * p <= 4 * nd
    else if |fmt| >= 2 && fmt[0] == 66 && (fmt[1] == 56 || (|fmt| >= 3 && fmt[1] == 48 && fmt[2] == 56)) then
      4 * (nd - 1) < p <= 4 * nd
    else nd == p
  }

  lemma WordsFor(fmt: seq<int>, ncol: nat, nrow: nat)
    ensures Lfmt(fmt) == 1 || Lfmt(fmt) == 2 || Lfmt(fmt) == 4
    ensures FewestWords(fmt, ncol * nrow, BankWords(ncol, nrow, Lfmt(fmt)))
  {
  }

  /** Four values as short integers take two words. */
  lemma FourShorts(nd: int)
    ensures FewestWords([66, 49, 54], 4, nd) <==> nd == 2
  {
  }

  /** etNformat for a new name and then etNcreate: the bank has the words that its values take. */
  method DeclareAndCreate(e: EtEvent, nama: int, fmt: seq<int>, nr: int, ncol: nat, nrow: nat) returns (ind: int)
    requires e.Valid() && FormatsKnown(e.Ddls()) && |TextWords(fmt)| <= MAXHEAD - idFRMT
    requires EntryIndex(e.Ddls(), nama) == e.nddl < NDDL
    modifies e`table, e`nddl, e`segs, e.jw
    ensures e.Valid() && (ind == 0 ==> e.segs == old(e.segs))
    ensures ind != 0 ==>
              && |e.segs| == |old(e.segs)| + 1 && e.segs[..|old(e.segs)|] == old(e.segs)
              && var d := e.segs[|old(e.segs)|];
                 && IsBank(d, nama, nr) && d.hd[idNCOL] == ncol && d.hd[idNROW] == nrow
                 && d.hd[idFRMT..] == TextWords(fmt)
                 && ind == DataIndex(e.segs, |old(e.segs)|) && FewestWords(fmt, ncol * nrow, |d.data|)
  {
    hide IsRecord, Distinct, Lfmt, BankWords, EntryIndex, TextWords, First, Flat, SegsOk, DataIndex, IsBank,
         FewestWords;
    ghost var ddl := e.Ddls();
    WordsFor(fmt, ncol, nrow);
    var status := Nformat(e, nama, fmt);
    ghost var d := e.table[|ddl|];
    assert e.Ddls() == ddl + [d];
    EntryLast(ddl, nama, d);
    ind := Ncreate(e, nama, nr, ncol, nrow);
    if ind != 0 { CreatedShape(e.Ddls(), old(e.segs), e.segs, ind, nama, nr, ncol, nrow); }
  }

  lemma {:induction false} EntryLast(ddl: seq<Ddl>, nama: int, d: Ddl)
    requires EntryIndex(ddl, nama) == |ddl| && d.name == nama
    ensures EntryIndex(ddl + [d], nama) == |ddl|
  {
    if ddl != [] {
      assert (ddl + [d])[1..] == ddl[1..] + [d];
      EntryLast(ddl[1..], nama, d);
    }
  }

  lemma CreatedShape(ddl: seq<Ddl>, ds: seq<Segment>, ds': seq<Segment>, ind: int, nama: int, nr: int, ncol: nat,
                     nrow: nat)
    requires FormatsKnown(ddl) && EntryIndex(ddl, nama) < |ddl| && IsCreated(ddl, ds, ds', ind, nama, nr, ncol, nrow)
    ensures |ds'| == |ds| + 1 && ds'[..|ds|] == ds && ind == DataIndex(ds', |ds|)
    ensures var d, f := ds'[|ds|], ddl[EntryIndex(ddl, nama)];
            && IsBank(d, nama, nr) && d.hd[idNCOL] == ncol && d.hd[idNROW] == nrow && d.hd[idFRMT..] == TextWords(f.fmt)
            && |d.data| == BankWords(ncol, nrow, f.bytes)
  {
  }

  /** etNcreate and then etNlink. */
  method CreateAndLink(e: EtEvent, nama: int, nr: int, ncol: nat, nrow: nat) returns (ind: int, found: int)
    requires e.Valid() && FormatsKnown(e.Ddls())
    modifies e`segs, e.jw
    ensures e.Valid() && (ind != 0 ==> found == ind)
    ensures ind == 0 ==> (found != 0 <==> First(old(e.segs), 0, nama, nr) < |old(e.segs)|)
  {
    hide First, Flat, DataIndex, IsCreated, IsEvent, Distinct;
    ghost var ds := e.segs;
    IndexPositive(ds, First(ds, 0, nama, nr));
    ind := Ncreate(e, nama, nr, ncol, nrow);
    if ind != 0 { CreatedFound(e.Ddls(), ds, e.segs, ind, nama, nr, ncol, nrow); }
    found := Nlink(e, nama, nr);
    if ind != 0 { CreatedCount(e.Ddls(), ds, e.segs, ind, nama, nr, ncol, nrow); }
  }

  lemma CreatedCount(ddl: seq<Ddl>, ds: seq<Segment>, ds': seq<Segment>, ind: int, nama: int, nr: int, ncol: nat,
                     nrow: nat)
    requires FormatsKnown(ddl) && EntryIndex(ddl, nama) < |ddl| && IsCreated(ddl, ds, ds', ind, nama, nr, ncol, nrow)
    ensures |ds'| == |ds| + 1
  {
  }

  /** A bank added behind all others leaves the table right. */
  lemma TableKept(ddl: seq<Ddl>, ds: seq<Segment>, d: Segment)
    requires TableOk(ddl, ds)
    ensures TableOk(ddl, ds + [d])
  {
    hide Flat;
    var a := ds + [d];
    assert forall k :: 0 <= k <= |ds| ==> a[..k] == ds[..k];
    forall i | 0 <= i < |ddl| ensures EntryOk(ddl[i], a) {
      assert EntryOk(ddl[i], ds);
      if ddl[i].indSave != 0 {
        var j :| StandsAt(ddl[i], ds, j);
        assert StandsAt(ddl[i], a, j);
      }
    }
  }
}
