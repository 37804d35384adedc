/**
 Link banks (bosnlink.c): for a name with many banks a work bank caches the chain as a
 sorted table of (number, index) pairs.  A used length of zero means "rebuild on demand".
 The handle of the link bank of the n-th name is word `idl + 1 + n`.
 */
module LinkTables {
  import opened BankLayout
  import opened WorkArea

  /** The data words of work bank `x` are the (number, index) pairs of chain `c`, in order. */
  ghost predicate Table(w: seq<int>, x: int, c: seq<int>) {
    && 0 <= x && x + 2 * |c| < |w| && w[x] == 2 * |c|
    && (forall i :: 0 <= i < |c| ==>
          INR <= c[i] < |w| && w[x + 1 + 2 * i] == w[c[i] - INR] && w[x + 2 + 2 * i] == c[i])
  }

  /** The link bank with handle `l` is absent, empty, or the table of chain `c`. */
  ghost predicate LinkBank(k: Work, l: int, c: seq<int>)
    requires WLayout(k)
  {
    && 0 <= l < |k.w|
    && (k.w[l] != 0 ==>
          && k.w[l] in WBanks(k) && k.w[k.w[l]] >= 0 && k.w[k.w[l] - INXT] == l
          && (k.w[k.w[l]] != 0 ==> Table(k.w, k.w[l], c)))
  }

  ghost predicate LinkState(k: Work, idl: int, ch: seq<seq<int>>, n: nat)
    requires WLayout(k)
  {
    LinkBank(k, idl + 1 + n, if n < |ch| then ch[n] else [])
  }

  ghost predicate Links(k: Work, idl: int, cap: nat, ch: seq<seq<int>>)
    requires WLayout(k)
  {
    && k.fix <= idl + 1 && idl + cap <= k.njw
    && (forall n: nat :: n < cap ==> LinkState(k, idl, ch, n))
  }

  /** The words when the link bank with handle `l`, if there is one, has been emptied. */
  ghost function Emptied(w: seq<int>, l: int): seq<int>
    requires 0 <= l < |w| && 0 <= w[l] < |w|
  {
    if w[l] == 0 then w else w[w[l] := 0]
  }

  /** The link bank with handle `l` is absent or empty. */
  ghost predicate NoTable(w: seq<int>, l: int) {
    0 <= l < |w| && (w[l] != 0 ==> 0 <= w[l] < |w| && w[w[l]] == 0)
  }

  /** Only words between the chain heads and the work banks differ. */
  ghost predicate SameWork(k: Work, w': seq<int>) {
    && |w'| == |k.w|
    && (forall i :: 0 <= i < |k.w| && (i < k.base || k.iwk <= i) ==> w'[i] == k.w[i])
  }

  /** Emptying one link bank keeps the other work banks and their tables. */
  lemma EmptyLink(k: Work, idl: int, cap: nat, ch: seq<seq<int>>, n: nat)
    requires WInv(k) && Links(k, idl, cap, ch) && n < cap
    requires forall m :: 0 <= m < |ch| ==> forall x :: x in ch[m] ==> INR <= x < k.iwk
    ensures 0 <= k.w[idl + 1 + n] < |k.w|
    ensures var k' := k.(w := Emptied(k.w, idl + 1 + n));
            && WInv(k') && Links(k', idl, cap, ch) && WBanks(k') == WBanks(k)
            && k'.w[..k.iwk] == k.w[..k.iwk]
            && (k'.w[idl + 1 + n] != 0 ==> k'.w[k'.w[idl + 1 + n]] == 0)
  {
    hide WTiles, WInds, WDropSum, WTop, Table, WBank;
    assert LinkState(k, idl, ch, n);
    var l := idl + 1 + n;
    if k.w[l] != 0 {
      WEmpty(k, k.w[l]);
      EmptyLinks(k, idl, cap, ch, k.w[l]);
      WAbove(k, k.w[l]);
    }
  }

  lemma WAbove(k: Work, x: int)
    requires WInv(k) && x in WBanks(k)
    ensures k.iwk <= x < |k.w|
  {
  }

  lemma EmptyLinks(k: Work, idl: int, cap: nat, ch: seq<seq<int>>, x: int)
    requires WInv(k) && Links(k, idl, cap, ch) && x in WBanks(k) && x < |k.w| && k.w[x] >= 0
    requires forall m :: 0 <= m < |ch| ==> forall x :: x in ch[m] ==> INR <= x < k.iwk
    requires WInv(k.(w := k.w[x := 0])) && WBanks(k.(w := k.w[x := 0])) == WBanks(k)
    ensures Links(k.(w := k.w[x := 0]), idl, cap, ch)
  {
    hide WTiles, WInds, WDropSum, WTop, Table, WBank, LinkBank;
    var k' := k.(w := k.w[x := 0]);
    forall m: nat | m < cap
      ensures LinkState(k', idl, ch, m)
    {
      assert LinkState(k, idl, ch, m);
      EmptyOther(k, x, idl + 1 + m, if m < |ch| then ch[m] else []);
    }
  }

  lemma EmptyOther(k: Work, x: int, l: int, c: seq<int>)
    requires WInv(k) && x in WBanks(k) && k.w[x] >= 0 && k.fix <= l && LinkBank(k, l, c)
    requires forall z :: z in c ==> INR <= z < k.iwk
    requires WLayout(k.(w := k.w[x := 0])) && WBanks(k.(w := k.w[x := 0])) == WBanks(k)
    ensures LinkBank(k.(w := k.w[x := 0]), l, c)
  {
    WTilesApart(k.w, k.iwk, k.fix);
    var y := k.w[l];
    if y != 0 && k.w[y] != 0 && y != x {
      assert WBank(k, y);
      forall i | 0 <= i < |c|
        ensures (x < y + 1 + 2 * i || y + 2 + 2 * i < x) && c[i] in c
      {
      }
    }
  }

  /**
   An operation on named banks that empties the link bank of the one chain it changes
   keeps every cached table right.
   */
  lemma LinksKept(k: Work, k': Work, idl: int, cap: nat, ch: seq<seq<int>>, ch': seq<seq<int>>, n: nat)
    requires WInv(k) && Links(k, idl, cap, ch) && n < cap && |ch| <= |ch'| <= cap
    requires k' == k.(w := k'.w) && SameWork(k, k'.w)
    requires k.w[idl + 1 + n] == 0 || (0 <= k.w[idl + 1 + n] < |k.w| && k.w[k.w[idl + 1 + n]] == 0)
    requires forall m :: 0 <= m < |ch'| && m != n ==>
               && ch'[m] == (if m < |ch| then ch[m] else [])
               && forall x :: x in ch'[m] ==> INR <= x < |k.w| && k'.w[x - INR] == k.w[x - INR]
    ensures WInv(k') && Links(k', idl, cap, ch') && WBanks(k') == WBanks(k)
  {
    hide WTiles, WInds, Table, WBank, WDropSum, WTop;
    WFrame(k, k');
    assert LinkState(k, idl, ch, n);
    forall m: nat | m < cap
      ensures LinkState(k', idl, ch', m)
    {
      assert LinkState(k, idl, ch, m);
      var c := if m < |ch'| then ch'[m] else [];
      if m != n {
        assert c == if m < |ch| then ch[m] else [];
        LinkBankKept(k, k', idl + 1 + m, c);
      }
    }
  }

  lemma LinkBankKept(k: Work, k': Work, l: int, c: seq<int>)
    requires WInv(k) && k' == k.(w := k'.w) && SameWork(k, k'.w)
    requires WInv(k') && WBanks(k') == WBanks(k) && k.fix <= l && LinkBank(k, l, c)
    requires forall x :: x in c ==> INR <= x < |k.w| && k'.w[x - INR] == k.w[x - INR]
    ensures LinkBank(k', l, c)
  {
    var x := k.w[l];
    if x != 0 {
      assert WBank(k, x);
      WTilesApart(k.w, k.iwk, k.fix);
      if k.w[x] != 0 {
        assert forall i :: 0 <= i < |c| ==> c[i] in c;
      }
    }
  }
}
