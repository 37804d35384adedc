/**
 A record that has a bank several times: what becomes of it when the record is loaded.
 */
module Repetition {
  import opened Options
  import opened Directory
  import opened Records

  ghost predicate Key(f: Frag, n: nat, nr: int) {
    f.n == n && f.bank.nr == nr
  }

  /** How often the bank stands in a row at its last place in the record. */
  ghost function LastRun(fs: seq<Frag>, n: nat, nr: int): nat {
    if fs == [] then 0
    else
      var c, f := fs[..|fs| - 1], fs[|fs| - 1];
      if !Key(f, n, nr) then LastRun(c, n, nr)
      else if c != [] && Key(c[|c| - 1], n, nr) then LastRun(c, n, nr) + 1
      else 1
  }

  /** The data `k` times. */
  function Times(d: seq<int>, k: nat): (r: seq<int>)
    ensures |r| >= 0
  {
    if k == 0 then [] else Times(d, k - 1) + d
  }

  lemma {:induction false} GroupedSnoc(fs: seq<Frag>, f: Frag)
    requires fs != []
    ensures var gs := Grouped(fs);
            && gs != [] && SameBank(gs[|gs| - 1], fs[|fs| - 1])
            && Grouped(fs + [f]) == if SameBank(fs[|fs| - 1], f) then gs[..|gs| - 1] + [Joined(gs[|gs| - 1], f)]
                else gs + [f]
    decreases |fs|
  {
    var a := fs + [f];
    if |fs| == 1 {
      assert a[1..] == [f] && a[2..] == [];
    } else if SameBank(fs[0], fs[1]) {
      var c := [Joined(fs[0], fs[1])] + fs[2..];
      assert [Joined(a[0], a[1])] + a[2..] == c + [f];
      GroupedSnoc(c, f);
    } else {
      assert a[1..] == fs[1..] + [f];
      GroupedSnoc(fs[1..], f);
    }
  }

  lemma {:induction false} LastOfSnoc(gs: seq<Frag>, g: Frag, n: nat, nr: int)
    ensures LastOf(gs + [g], n, nr) == if Key(g, n, nr) then Some(g.bank) else LastOf(gs, n, nr)
  {
    if gs == [] {
      assert ([] + [g])[1..] == [];
    } else {
      assert (gs + [g])[1..] == gs[1..] + [g];
      LastOfSnoc(gs[1..], g, n, nr);
    }
  }

  /** All fragments of one bank of the record are `b`. */
  ghost predicate Uniform(fs: seq<Frag>, n: nat, b: Bank) {
    forall i :: 0 <= i < |fs| && Key(fs[i], n, b.nr) ==> fs[i].bank == b
  }

  /** The last bank of the grouped record under a key is `b` with its data as often as in the last run. */
  ghost predicate Repeated(fs: seq<Frag>, n: nat, b: Bank) {
    var k, gs := LastRun(fs, n, b.nr), Grouped(fs);
    && LastOf(gs, n, b.nr) == (if k == 0 then None else Some(b.(data := Times(b.data, k))))
    && (fs != [] && Key(fs[|fs| - 1], n, b.nr) ==>
        k > 0 && gs != [] && gs[|gs| - 1].bank == b.(data := Times(b.data, k)))
  }

  lemma RunSnoc(c: seq<Frag>, f: Frag, n: nat, nr: int)
    ensures LastRun(c + [f], n, nr) == if !Key(f, n, nr) then LastRun(c, n, nr)
                                       else if c != [] && Key(c[|c| - 1], n, nr) then LastRun(c, n, nr) + 1 else 1
  {
    assert (c + [f])[..|c|] == c;
  }

  lemma RepeatedStep(c: seq<Frag>, f: Frag, n: nat, b: Bank)
    requires Repeated(c, n, b) && (Key(f, n, b.nr) ==> f.bank == b)
    ensures Repeated(c + [f], n, b)
  {
    hide Grouped, LastOf, LastRun;
    var gs := Grouped(c);
    RunSnoc(c, f, n, b.nr);
    assert Times(b.data, 1) == Times(b.data, 0) + b.data == b.data;
    if c == [] {
      Single(f, n, b.nr);
      assert [] + [f] == [f];
    } else {
      GroupedSnoc(c, f);
      var h, g := gs[..|gs| - 1], gs[|gs| - 1];
      assert gs == h + [g];
      if SameBank(c[|c| - 1], f) {
        LastOfSnoc(h, g, n, b.nr);
        LastOfSnoc(h, Joined(g, f), n, b.nr);
      } else {
        LastOfSnoc(gs, f, n, b.nr);
      }
    }
  }

  lemma Single(f: Frag, n: nat, nr: int)
    ensures Grouped([f]) == [f] && LastRun([], n, nr) == 0
    ensures LastOf([f], n, nr) == if Key(f, n, nr) then Some(f.bank) else None
  {
    assert LastOf([f][1..], n, nr) == None;
  }

  /** A bank that is in the record several times in a row is loaded with its data as often. */
  lemma {:induction false} LastGrouped(fs: seq<Frag>, n: nat, b: Bank)
    requires Uniform(fs, n, b)
    ensures Repeated(fs, n, b)
  {
    hide Repeated;
    if fs != [] {
      var c, f := fs[..|fs| - 1], fs[|fs| - 1];
      assert fs == c + [f];
      LastGrouped(c, n, b);
      RepeatedStep(c, f, n, b);
    } else {
      Empty(n, b);
    }
  }

  lemma Empty(n: nat, b: Bank)
    ensures Repeated([], n, b)
  {
  }

  /** Repeating changes the data unless there are none. */
  lemma {:induction false} TimesOnce(d: seq<int>, k: nat)
    requires k > 0
    ensures Times(d, k) == d <==> k == 1 || d == []
    ensures |Times(d, k)| >= |d|
  {
    if k > 1 {
      TimesOnce(d, k - 1);
      assert |Times(d, k)| >= |d| + |d|;
      if d == [] { assert Times(d, k) == []; }
    } else {
      assert Times(d, 1) == Times(d, 0) + d;
    }
  }

  // ---- When a bank is not repeated -------------------------------------------------------------------

  /** No bank is twice in the record. */
  ghost predicate AllDistinct(fs: seq<Frag>) {
    forall i, j :: 0 <= i < j < |fs| ==> !SameBank(fs[i], fs[j])
  }

  lemma {:induction false} RunCounts(fs: seq<Frag>, n: nat, nr: int)
    ensures LastRun(fs, n, nr) == 0 <==> forall i :: 0 <= i < |fs| ==> !Key(fs[i], n, nr)
    ensures AllDistinct(fs) ==> LastRun(fs, n, nr) <= 1
  {
    if fs != [] {
      var c, f := fs[..|fs| - 1], fs[|fs| - 1];
      RunCounts(c, n, nr);
      assert forall i :: 0 <= i < |c| ==> c[i] == fs[i];
      assert fs[|fs| - 1] == f;
    }
  }
}
