/**
 What a chain means to its users: a list of banks with strictly ascending numbers, and
 the two ways in which such a list changes.
 */
module Directory {
  import opened Options
  import opened Chains

  datatype Bank = Bank(nr: int, ncol: int, nrow: int, data: seq<int>)

  ghost predicate Sorted(v: seq<Bank>) {
    forall i, j :: 0 <= i < j < |v| ==> v[i].nr < v[j].nr
  }

  /** The bank with number `nr`, if the list has one. */
  function Lookup(v: seq<Bank>, nr: int): Option<Bank> {
    if v == [] then None
    else if v[0].nr == nr then Some(v[0])
    else Lookup(v[1..], nr)
  }

  /** `b` takes the place of the bank with its number, or is added in order. */
  function Put(v: seq<Bank>, b: Bank): seq<Bank> {
    if v == [] || b.nr < v[0].nr then [b] + v
    else if b.nr == v[0].nr then [b] + v[1..]
    else [v[0]] + Put(v[1..], b)
  }

  function Delete(v: seq<Bank>, nr: int): seq<Bank> {
    if v == [] then []
    else if v[0].nr == nr then v[1..]
    else [v[0]] + Delete(v[1..], nr)
  }

  lemma {:induction false} PutInsert(v: seq<Bank>, k: nat, b: Bank)
    requires k <= |v| && Sorted(v)
    requires forall i :: 0 <= i < k ==> v[i].nr < b.nr
    requires forall i :: k <= i < |v| ==> v[i].nr > b.nr
    ensures Put(v, b) == Insert(v, k, b)
  {
    if k > 0 {
      PutInsert(v[1..], k - 1, b);
      assert Insert(v, k, b) == [v[0]] + Insert(v[1..], k - 1, b);
    }
  }

  lemma {:induction false} PutReplace(v: seq<Bank>, k: nat, b: Bank)
    requires k < |v| && Sorted(v) && v[k].nr == b.nr
    ensures Put(v, b) == v[k := b]
  {
    if k > 0 {
      assert v[0].nr < v[k].nr;
      PutReplace(v[1..], k - 1, b);
    }
  }

  lemma {:induction false} DeleteRemove(v: seq<Bank>, k: nat, nr: int)
    requires k < |v| && Sorted(v) && v[k].nr == nr
    ensures Delete(v, nr) == Remove(v, k)
  {
    if k > 0 {
      assert v[0].nr < v[k].nr;
      DeleteRemove(v[1..], k - 1, nr);
      assert Remove(v, k) == [v[0]] + Remove(v[1..], k - 1);
    }
  }

  lemma {:induction false} DeleteAbsent(v: seq<Bank>, nr: int)
    requires forall i :: 0 <= i < |v| ==> v[i].nr != nr
    ensures Delete(v, nr) == v
  {
    if v != [] { DeleteAbsent(v[1..], nr); }
  }

  lemma {:induction false} LookupAt(v: seq<Bank>, k: nat, nr: int)
    requires k < |v| && Sorted(v) && v[k].nr == nr
    ensures Lookup(v, nr) == Some(v[k])
  {
    if k > 0 {
      assert v[0].nr < v[k].nr;
      LookupAt(v[1..], k - 1, nr);
    }
  }

  lemma {:induction false} LookupAbsent(v: seq<Bank>, nr: int)
    requires forall i :: 0 <= i < |v| ==> v[i].nr != nr
    ensures Lookup(v, nr) == None
  {
    if v != [] { LookupAbsent(v[1..], nr); }
  }

  /** A list with a bank put in answers like a map update. */
  lemma {:induction false} LookupPut(v: seq<Bank>, b: Bank, nr: int)
    requires Sorted(v)
    ensures Lookup(Put(v, b), nr) == if nr == b.nr then Some(b) else Lookup(v, nr)
    ensures Sorted(Put(v, b)) && (forall i :: 0 <= i < |Put(v, b)| ==> Put(v, b)[i] == b || Put(v, b)[i] in v)
  {
    if v == [] || b.nr < v[0].nr {
    } else if b.nr == v[0].nr {
      if nr == b.nr { } else { assert Put(v, b)[1..] == v[1..]; }
    } else {
      LookupPut(v[1..], b, nr);
      assert Put(v, b)[1..] == Put(v[1..], b);
    }
  }

  lemma {:induction false} LookupDelete(v: seq<Bank>, nr: int, nr': int)
    requires Sorted(v)
    ensures Lookup(Delete(v, nr), nr') == if nr == nr' then None else Lookup(v, nr')
    ensures Sorted(Delete(v, nr)) && (forall i :: 0 <= i < |Delete(v, nr)| ==> Delete(v, nr)[i] in v)
  {
    if v != [] {
      if v[0].nr == nr {
        if nr == nr' { LookupAbsent(v[1..], nr); }
      } else {
        LookupDelete(v[1..], nr, nr');
        assert Delete(v, nr)[1..] == Delete(v[1..], nr);
      }
    }
  }

  lemma {:induction false} PutDelete(v: seq<Bank>, b: Bank)
    requires Sorted(v)
    ensures Put(Delete(v, b.nr), b) == Put(v, b)
  {
    if v != [] {
      if v[0].nr == b.nr {
        assert |v| > 1 ==> v[0].nr < v[1].nr;
      } else if v[0].nr < b.nr {
        PutDelete(v[1..], b);
        assert Delete(v, b.nr)[1..] == Delete(v[1..], b.nr);
      } else {
        assert forall i :: 0 <= i < |v| ==> v[0].nr <= v[i].nr;
        DeleteAbsent(v, b.nr);
      }
    }
  }

  /** The last of two banks put under the same number stays. */
  lemma {:induction false} PutPut(v: seq<Bank>, b: Bank, b': Bank)
    requires b.nr == b'.nr
    ensures Put(Put(v, b), b') == Put(v, b')
  {
    if v != [] && b.nr > v[0].nr {
      PutPut(v[1..], b, b');
      assert Put(v, b)[1..] == Put(v[1..], b);
    }
  }
}
