/**
 A record as a list of bank fragments: how the +REC bank holds it, and what loading it does
 to the lists of banks (bosread.c, et2bos.c).
 */
module Records {
  import opened Options
  import opened BankLayout
  import opened Directory

  /** A bank or a part of one: position of its name in the list of names, and contents. */
  datatype Frag = Frag(n: nat, bank: Bank)

  /** The words of a fragment inside the +REC bank; the link word holds the index of the name. */
  function Words(base: int, names: seq<int>, f: Frag): (r: seq<int>)
    requires f.n < |names|
    ensures |r| == NHW + |f.bank.data|
  {
    [f.bank.ncol, f.bank.nrow, names[f.n], f.bank.nr, base + f.n, |f.bank.data|] + f.bank.data
  }

  ghost predicate Named(names: seq<int>, fs: seq<Frag>) {
    forall i :: 0 <= i < |fs| ==> fs[i].n < |names|
  }

  /** The data of the +REC bank. */
  function Flat(base: int, names: seq<int>, fs: seq<Frag>): seq<int>
    requires forall i :: 0 <= i < |fs| ==> fs[i].n < |names|
  {
    if fs == [] then [] else Words(base, names, fs[0]) + Flat(base, names, fs[1..])
  }

  predicate SameBank(f: Frag, g: Frag) {
    f.n == g.n && f.bank.nr == g.bank.nr
  }

  /** A fragment with the data of the next one attached. */
  function Joined(f: Frag, g: Frag): Frag {
    f.(bank := f.bank.(data := f.bank.data + g.bank.data))
  }

  /** Adjacent fragments of one bank become one: headers of the first, data in order. */
  function Grouped(fs: seq<Frag>): seq<Frag>
    decreases |fs|
  {
    if |fs| <= 1 then fs
    else if SameBank(fs[0], fs[1]) then Grouped([Joined(fs[0], fs[1])] + fs[2..])
    else [fs[0]] + Grouped(fs[1..])
  }

  /** The lists of banks with the banks of a record put in, one after the other. */
  ghost function Load(m: seq<seq<Bank>>, gs: seq<Frag>): (r: seq<seq<Bank>>)
    ensures |r| == |m|
    decreases |gs|
  {
    if gs == [] || gs[0].n >= |m| then m
    else Load(m[gs[0].n := Put(m[gs[0].n], gs[0].bank)], gs[1..])
  }

  /** The last bank of the record with this name and number. */
  function LastOf(gs: seq<Frag>, n: nat, nr: int): Option<Bank>
    decreases |gs|
  {
    if gs == [] then None
    else
      var rest := LastOf(gs[1..], n, nr);
      if rest == None && gs[0].n == n && gs[0].bank.nr == nr then Some(gs[0].bank) else rest
  }

  /** A loaded record answers like a map override: its last bank under a key wins. */
  lemma {:induction false} LookupLoad(m: seq<seq<Bank>>, gs: seq<Frag>, n: nat, nr: int)
    requires n < |m| && forall i :: 0 <= i < |m| ==> Sorted(m[i])
    requires forall i :: 0 <= i < |gs| ==> gs[i].n < |m|
    ensures Lookup(Load(m, gs)[n], nr) == if LastOf(gs, n, nr) == None then Lookup(m[n], nr) else LastOf(gs, n, nr)
    ensures Sorted(Load(m, gs)[n])
    decreases |gs|
  {
    if gs != [] {
      LookupPut(m[gs[0].n], gs[0].bank, nr);
      LookupLoad(m[gs[0].n := Put(m[gs[0].n], gs[0].bank)], gs[1..], n, nr);
    }
  }

  /** Grouping leaves no two neighbours of one bank. */
  lemma {:induction false} GroupedApart(fs: seq<Frag>)
    ensures forall i, j :: 0 <= i < |Grouped(fs)| && j == i + 1 < |Grouped(fs)| ==>
        !SameBank(Grouped(fs)[i], Grouped(fs)[j])
    ensures fs != [] ==> Grouped(fs) != [] && SameBank(Grouped(fs)[0], fs[0])
    decreases |fs|
  {
    if |fs| > 1 {
      if SameBank(fs[0], fs[1]) { GroupedApart([Joined(fs[0], fs[1])] + fs[2..]); } else { GroupedApart(fs[1..]); }
    }
  }

  /** The data of all fragments of one bank, in record order. */
  function DataOf(fs: seq<Frag>, n: nat, nr: int): seq<int> {
    if fs == [] then []
    else (if fs[0].n == n && fs[0].bank.nr == nr then fs[0].bank.data else []) + DataOf(fs[1..], n, nr)
  }

  /** Grouping neither loses, duplicates nor reorders the data of any bank. */
  lemma {:induction false} GroupedData(fs: seq<Frag>, n: nat, nr: int)
    ensures DataOf(Grouped(fs), n, nr) == DataOf(fs, n, nr)
    decreases |fs|
  {
    if |fs| > 1 {
      if SameBank(fs[0], fs[1]) {
        var gs := [Joined(fs[0], fs[1])] + fs[2..];
        GroupedData(gs, n, nr);
        assert gs[1..] == fs[2..] && fs[1..][1..] == fs[2..];
        if fs[0].n == n && fs[0].bank.nr == nr { } else { }
      } else {
        GroupedData(fs[1..], n, nr);
        assert ([fs[0]] + Grouped(fs[1..]))[1..] == Grouped(fs[1..]);
      }
    }
  }

  /** Lists of names that do not occur in the record are not looked at. */
  lemma {:induction false} LoadElsewhere(m: seq<seq<Bank>>, gs: seq<Frag>, r: nat, v: seq<Bank>)
    requires r < |m| && forall i :: 0 <= i < |gs| ==> gs[i].n != r
    ensures Load(m[r := v], gs) == Load(m, gs)[r := v] && Load(m, gs)[r] == m[r]
    decreases |gs|
  {
    if gs != [] && gs[0].n < |m| {
      var n := gs[0].n;
      var m1 := m[n := Put(m[n], gs[0].bank)];
      LoadElsewhere(m1, gs[1..], r, v);
      assert m[r := v][n := Put(m[n], gs[0].bank)] == m1[r := v];
    }
  }

  lemma {:induction false} GroupedNames(fs: seq<Frag>, r: nat)
    requires forall i :: 0 <= i < |fs| ==> fs[i].n != r
    ensures forall i :: 0 <= i < |Grouped(fs)| ==> Grouped(fs)[i].n != r
    decreases |fs|
  {
    if |fs| > 1 {
      if SameBank(fs[0], fs[1]) { GroupedNames([Joined(fs[0], fs[1])] + fs[2..], r); }
          else { GroupedNames(fs[1..], r); }
    }
  }

  /** The first fragment and the others. */
  lemma FlatFirst(base: int, names: seq<int>, fs: seq<Frag>)
    requires Named(names, fs) && fs != []
    ensures Named(names, fs[1..]) && fs[0].n < |names|
    ensures Flat(base, names, fs) == Words(base, names, fs[0]) + Flat(base, names, fs[1..])
  {
  }

  // ---- Loading fragment by fragment ------------------------------------------------------------

  /**
   `lists` is `mp` with bank `cur` put in, to which later fragments may still be joined; with
   the fragments `rest` to come the outcome will be `t`.
   */
  ghost predicate Pending(mp: seq<seq<Bank>>, cur: Frag, rest: seq<Frag>, lists: seq<seq<Bank>>, t: seq<seq<Bank>>) {
    && cur.n < |mp| && lists == mp[cur.n := Put(mp[cur.n], cur.bank)]
    && Load(mp, Grouped([cur] + rest)) == t
  }

  lemma PendingFirst(mp: seq<seq<Bank>>, fs: seq<Frag>)
    requires fs != [] && fs[0].n < |mp|
    ensures Pending(mp, fs[0], fs[1..], mp[fs[0].n := Put(mp[fs[0].n], fs[0].bank)], Load(mp, Grouped(fs)))
  {
    assert [fs[0]] + fs[1..] == fs;
  }

  lemma PendingMerge(mp: seq<seq<Bank>>, cur: Frag, rest: seq<Frag>, lists: seq<seq<Bank>>, t: seq<seq<Bank>>)
    requires Pending(mp, cur, rest, lists, t) && rest != [] && SameBank(cur, rest[0])
    ensures Pending(mp, Joined(cur, rest[0]), rest[1..], lists[cur.n := Put(lists[cur.n], Joined(cur, rest[0]).bank)],
        t)
  {
    PutPut(mp[cur.n], cur.bank, Joined(cur, rest[0]).bank);
    assert ([cur] + rest)[2..] == rest[1..];
  }

  lemma PendingNext(mp: seq<seq<Bank>>, cur: Frag, rest: seq<Frag>, lists: seq<seq<Bank>>, t: seq<seq<Bank>>)
    requires Pending(mp, cur, rest, lists, t) && rest != [] && !SameBank(cur, rest[0]) && rest[0].n < |mp|
    ensures Pending(lists, rest[0], rest[1..], lists[rest[0].n := Put(lists[rest[0].n], rest[0].bank)], t)
  {
    var gs := [cur] + rest;
    assert gs[1..] == rest && Grouped(gs) == [cur] + Grouped(rest) && Grouped(gs)[1..] == Grouped(rest);
    assert [rest[0]] + rest[1..] == rest;
  }

  lemma PendingDone(mp: seq<seq<Bank>>, cur: Frag, lists: seq<seq<Bank>>, t: seq<seq<Bank>>)
    requires Pending(mp, cur, [], lists, t)
    ensures lists == t
  {
    assert [cur] + [] == [cur];
    assert Load(mp, [cur]) == Load(lists, []);
  }

  /** Deleting a bank that has just been put in. */
  lemma {:induction false} DeletePut(v: seq<Bank>, b: Bank)
    requires Sorted(v)
    ensures Delete(Put(v, b), b.nr) == Delete(v, b.nr)
  {
    if v == [] || b.nr < v[0].nr {
      assert Put(v, b)[1..] == v;
      assert forall i :: 0 <= i < |v| ==> v[0].nr <= v[i].nr;
      DeleteAbsent(v, b.nr);
    } else if b.nr == v[0].nr {
      assert Put(v, b)[1..] == v[1..];
    } else {
      DeletePut(v[1..], b);
      assert Put(v, b)[1..] == Put(v[1..], b);
    }
  }
}
