/**
 DMA buffer partitions (dmaPList.c): buffers are carved, taken from the lists of partitions, put
 on the lists of others, and freed to the partition that owns them.  Every operation holds the
 partition lock, so that operations of several clients are interleaved one by one.
 */
module DmaPartitions {
  import opened DmaLists

  const LINUX_MAX_PARTSIZE := 4194304

  /** What the lists and the clients hold. */
  datatype Holdings = Holdings(queues: seq<seq<Node>>, held: map<Node, nat>)

  ghost function OnLists(queues: seq<seq<Node>>): set<Node> {
    set x, i | 0 <= i < |queues| && x in queues[i] :: x
  }

  /** Buffers that are on a list or held. */
  ghost function Everything(h: Holdings): set<Node> {
    OnLists(h.queues) + h.held.Keys
  }

  /** Every buffer is on exactly one list, or held by one client. */
  ghost predicate Apart(h: Holdings) {
    && (forall i :: 0 <= i < |h.queues| ==> Distinct(h.queues[i]))
    && (forall i, j, x :: 0 <= i < j < |h.queues| && x in h.queues[i] ==> x !in h.queues[j])
    && (forall i, x :: 0 <= i < |h.queues| && x in h.queues[i] ==> x !in h.held)
  }

  function Sum(queues: seq<seq<Node>>): nat {
    if queues == [] then 0 else Sum(queues[..|queues| - 1]) + |queues[|queues| - 1]|
  }

  class Pool {
    var parts: seq<Partition>   // the partitions
    var held: map<Node, nat>    // buffers in the hands of clients

    ghost var nodes: set<Node>  // all buffers carved so far

    ghost function Now(): Holdings
      reads this, parts
    {
      Holdings(seq(|parts|, i requires 0 <= i < |parts| reads this, parts => parts[i].q), held)
    }

    ghost predicate Valid()
      reads this, parts, nodes
    {
      && (forall i, j :: 0 <= i < j < |parts| ==> parts[i] != parts[j])
      && (forall i, x :: 0 <= i < |parts| && x in parts[i].q ==> x in nodes)
      && (forall i :: 0 <= i < |parts| ==> parts[i].Linked())
      && Apart(Now()) && Everything(Now()) == nodes
      && (forall x :: x in nodes ==> x.part in parts)
    }

    constructor ()
      ensures Valid() && Now() == Holdings([], map[]) && nodes == {} && fresh(this)
    {
      parts, held, nodes := [], map[], {};
    }
  }

  // ---- Steps, on values ------------------------------------------------------------------------------------

  function Taken(h: Holdings, client: nat, k: nat): Holdings
    requires k < |h.queues| && h.queues[k] != []
  {
    Holdings(h.queues[k := h.queues[k][1..]], h.held[h.queues[k][0] := client])
  }

  function Put(h: Holdings, k: nat, x: Node): Holdings
    requires k < |h.queues|
  {
    Holdings(h.queues[k := h.queues[k] + [x]], h.held - {x})
  }

  lemma TakenApart(h: Holdings, client: nat, k: nat)
    requires Apart(h) && k < |h.queues| && h.queues[k] != []
    ensures Apart(Taken(h, client, k)) && Everything(Taken(h, client, k)) == Everything(h)
  {
    var h', q := Taken(h, client, k), h.queues[k];
    assert forall x :: x in q <==> x == q[0] || x in q[1..];
    assert q[0] !in q[1..];
    forall i, x | 0 <= i < |h'.queues| && x in h'.queues[i] ensures x in h.queues[i] && x !in h'.held {
      if i != k { assert q[0] in h.queues[k]; }
    }
    forall x ensures x in Everything(h') <==> x in Everything(h) {
      if x in Everything(h) && x !in h.held {
        var i :| 0 <= i < |h.queues| && x in h.queues[i];
        if x != q[0] { assert x in h'.queues[i]; }
      }
    }
  }

  lemma PutApart(h: Holdings, k: nat, x: Node)
    requires Apart(h) && k < |h.queues| && (x in h.held || x !in Everything(h))
    ensures Apart(Put(h, k, x)) && Everything(Put(h, k, x)) == Everything(h) + {x}
  {
    var h' := Put(h, k, x);
    forall i | 0 <= i < |h.queues| ensures x !in h.queues[i] { OnNoList(h, i, x); }
    PutMembers(h, k, x);
    hide Everything;
    assert Distinct(h'.queues[k]) by { assert Distinct(h.queues[k]); }
    forall i, y | 0 <= i < |h'.queues| && y in h'.queues[i] ensures y in h.queues[i] || (i == k && y == x) {
    }
  }

  lemma PutMembers(h: Holdings, k: nat, x: Node)
    requires k < |h.queues|
    ensures Everything(Put(h, k, x)) == Everything(h) + {x}
  {
    var h' := Put(h, k, x);
    assert x in h'.queues[k];
    forall y | y in Everything(h) && y != x ensures y in Everything(h') {
      if y !in h.held {
        var i :| 0 <= i < |h.queues| && y in h.queues[i];
        assert y in h'.queues[i];
      }
    }
  }

  lemma OnNoList(h: Holdings, i: nat, x: Node)
    requires Apart(h) && i < |h.queues| && (x in h.held || x !in Everything(h))
    ensures x !in h.queues[i] && (x in h.held ==> x in Everything(h))
  {
  }

  lemma PutIs(h: Holdings, h': Holdings, k: nat, x: Node)
    requires k < |h.queues| && h'.queues == h.queues[k := h.queues[k] + [x]] && h'.held == h.held - {x}
    ensures h' == Put(h, k, x)
  {
  }

  /** Appending touches no other list. */
  lemma NotElsewhere(h: Holdings, k: nat, x: Node, tail: Node)
    requires Apart(h) && k < |h.queues| && (x in h.held || x !in Everything(h))
    requires tail == x || tail in h.queues[k]
    ensures x in h.held ==> x in Everything(h)
    ensures forall i, y :: 0 <= i < |h.queues| && y in h.queues[i] ==> y != x && (i != k ==> y != tail)
  {
    forall i, y | 0 <= i < |h.queues| && y in h.queues[i] ensures y != x && (i != k ==> y != tail) {
      OnNoList(h, i, x);
    }
  }

  twostate lemma LinkedStill(li: Partition)
    requires old(li.Linked()) && unchanged(li) && forall x :: x in li.q ==> x.n == old(x.n) && x.p == old(x.p)
    ensures li.Linked()
  {
  }

  // ---- Steps -----------------------------------------------------------------------------------------------

  /** A client takes the first free buffer of partition `k` (dmaPGetItem). */
  method GetItem(pool: Pool, client: nat, k: nat) returns (theNode: Node?)
    requires pool.Valid() && k < |pool.parts|
    modifies pool`held, pool.parts[k]
    ensures pool.Valid() && pool.nodes == old(pool.nodes) && pool.parts == old(pool.parts)
    ensures pool.parts[k].total == old(pool.parts[k].total) && pool.parts[k].incr == old(pool.parts[k].incr)
    ensures var h := old(pool.Now());
            if h.queues[k] == [] then theNode == null && pool.Now() == h
            else theNode == h.queues[k][0] && pool.Now() == Taken(h, client, k)
  {
    hide Apart, Everything;
    ghost var h := pool.Now();
    assert h.queues[k] == pool.parts[k].q;
    theNode := ListGet(pool.parts[k]);
    if theNode != null {
      TakenApart(h, client, k);
      pool.held := pool.held[theNode := client];
      assert pool.Now() == Taken(h, client, k);
    } else {
      assert pool.Now() == h;
    }
  }

  /** A buffer that is on no list is appended to the list of partition `k`. */
  method Append(pool: Pool, li: Partition, pItem: Node, ghost k: nat)
    requires pool.Valid() && k < |pool.parts| && pool.parts[k] == li && pItem.part in pool.parts
    requires pItem in pool.held || pItem !in pool.nodes
    modifies pool`held, pool`nodes, li, pool.nodes`n, pool.nodes`p, pItem`n, pItem`p
    ensures pool.Valid() && pool.nodes == old(pool.nodes) + {pItem} && pool.parts == old(pool.parts)
    ensures pool.Now() == Put(old(pool.Now()), k, pItem)
    ensures li.total == old(li.total) && li.incr == old(li.incr) && pItem.length == old(pItem.length)
  {
    hide Apart, Everything, Partition.Linked, Put;
    ghost var h := pool.Now();
    assert h.queues[k] == li.q;
    PutApart(h, k, pItem);
    ghost var tail := if li.q == [] then pItem else li.q[|li.q| - 1];
    NotElsewhere(h, k, pItem, tail);
    label B:
    ListAdd(li, pItem);
    pool.held := pool.held - {pItem};
    pool.nodes := pool.nodes + {pItem};
    PutIs(h, pool.Now(), k, pItem);
    forall i | 0 <= i < |pool.parts| && i != k ensures pool.parts[i].Linked() {
      assert pool.parts[i].q == h.queues[i];
      LinkedStill@B(pool.parts[i]);
    }
  }

  /** A client puts a buffer that it holds on the list of partition `k` (dmaPAddItem); its data go with it. */
  method AddItem(pool: Pool, client: nat, k: nat, pItem: Node)
    requires pool.Valid() && k < |pool.parts| && pItem in pool.held && pool.held[pItem] == client
    modifies pool`held, pool`nodes, pool.parts[k], pool.nodes`n, pool.nodes`p
    ensures pool.Valid() && pool.nodes == old(pool.nodes) && pool.parts == old(pool.parts)
    ensures pool.Now() == Put(old(pool.Now()), k, pItem)
    ensures pool.parts[k].total == old(pool.parts[k].total) && pool.parts[k].incr == old(pool.parts[k].incr)
    ensures forall x :: x in pool.nodes ==> x.length == old(x.length)
  {
    OnNoList(pool.Now(), k, pItem);
    Append(pool, pool.parts[k], pItem, k);
  }

  /** A client frees a buffer that it holds, to the partition that owns it (dmaPFreeItem). */
  method FreeItem(pool: Pool, client: nat, pItem: Node, ghost k: nat)
    requires pool.Valid() && k < |pool.parts| && pItem in pool.held && pool.held[pItem] == client
    requires pool.parts[k] == pItem.part
    modifies pool`held, pool`nodes, pItem.part, pool.nodes`n, pool.nodes`p, pItem`length
    ensures pool.Valid() && pool.nodes == old(pool.nodes) && pool.parts == old(pool.parts)
    ensures pool.Now() == Put(old(pool.Now()), k, pItem)
    ensures pool.parts[k].total == old(pool.parts[k].total) && pool.parts[k].incr == old(pool.parts[k].incr)
    ensures forall x :: x in pool.nodes ==> x.length == if x == pItem then 0 else old(x.length)
  {
    hide Apart, Everything, Partition.Linked, Put;
    OnNoList(pool.Now(), k, pItem);
    label L:
    pItem.length := 0;
    SameLists@L(pool);
    Append(pool, pItem.part, pItem, k);
  }

  /** A client fills a buffer that it holds. */
  method FillItem(pool: Pool, client: nat, x: Node, bytes: nat)
    requires pool.Valid() && x in pool.held && pool.held[x] == client
    modifies x`length
    ensures pool.Valid() && pool.Now() == old(pool.Now()) && x.length == bytes
  {
    hide Apart, Everything, Partition.Linked;
    label L:
    x.length := bytes;
    SameLists@L(pool);
  }

  /** Lists and hands are the same, whatever else there is in the buffers. */
  twostate lemma SameLists(pool: Pool)
    requires old(pool.Valid()) && unchanged(pool) && (forall i :: 0 <= i < |pool.parts| ==> unchanged(pool.parts[i]))
    requires forall x :: x in pool.nodes ==> x.n == old(x.n) && x.p == old(x.p)
    ensures pool.Valid() && pool.Now() == old(pool.Now())
  {
    hide Apart, Everything, Partition.Linked;
    assert pool.Now() == old(pool.Now());
    forall i | 0 <= i < |pool.parts| ensures pool.parts[i].Linked() {
      LinkedStill(pool.parts[i]);
    }
  }

  // ---- Carving -------------------------------------------------------------------------------------------

  /** What the allocator answers: a block at `base`, or none. */
  datatype Block = Block(ok: bool, base: int)

  /** The list of partition `k` with `more` behind it. */
  ghost function Grown(h: Holdings, k: nat, more: seq<Node>): Holdings
    requires k < |h.queues|
  {
    h.(queues := h.queues[k := h.queues[k] + more])
  }

  /** Two buffers of `size` bytes do not overlap. */
  predicate Disjoint(a: int, b: int, size: nat) {
    a + size <= b || b + size <= a
  }

  lemma NewNode(h: Holdings, k: nat, more: seq<Node>, x: Node)
    requires k < |h.queues| && x !in Everything(h)
    ensures Put(Grown(h, k, more), k, x) == Grown(h, k, more + [x])
  {
    assert h.held - {x} == h.held;
    assert h.queues[k] + more + [x] == h.queues[k] + (more + [x]);
  }

  /** A buffer at `addr` is made and appended to the list of its partition. */
  method Carve(pool: Pool, pPart: Partition, addr: int, fragment: int, ghost k: nat, ghost h: Holdings,
               ghost more: seq<Node>) returns (node: Node)
    requires pool.Valid() && k < |pool.parts| && pool.parts[k] == pPart
    requires k < |h.queues| && pool.Now() == Grown(h, k, more) && Everything(h) <= pool.nodes
    modifies pool`held, pool`nodes, pPart, pool.nodes`n, pool.nodes`p
    ensures pool.Valid() && fresh(node) && pool.nodes == old(pool.nodes) + {node} && pool.parts == old(pool.parts)
    ensures pool.Now() == Grown(h, k, more + [node]) && pPart.total == old(pPart.total) && pPart.incr == old(pPart.incr)
    ensures node.addr == addr && node.fragment == fragment && node.part == pPart && node.length == 0
  {
    hide Apart, Everything, Partition.Linked;
    node := new Node(addr, fragment, pPart);
    Append(pool, pPart, node, k);
    NewNode(h, k, more, node);
  }

  /** Everything about the buffers that dmaPIncr has made so far. */
  ghost predicate Made(more: seq<Node>, pPart: Partition) {
    && Distinct(more)
    && (forall i :: 0 <= i < |more| ==> more[i].part == pPart)
    && (forall i, j :: 0 <= i < j < |more| ==> Disjoint(more[i].addr, more[j].addr, pPart.size))
  }

  /** One block for all buffers. */
  method CarveAll(pool: Pool, pPart: Partition, c: nat, base: int, ghost k: nat) returns (ghost more: seq<Node>)
    requires pool.Valid() && k < |pool.parts| && pool.parts[k] == pPart && pPart.size > 0
    modifies pool`held, pool`nodes, pPart, pool.nodes`n, pool.nodes`p
    ensures pool.Valid() && fresh(pool.nodes - old(pool.nodes)) && pool.nodes == old(pool.nodes) + Members(more)
    ensures pool.parts == old(pool.parts) && pPart.total == old(pPart.total) && pPart.incr == old(pPart.incr)
    ensures forall x <- more :: x.length == 0
    ensures |more| == c && pool.Now() == Grown(old(pool.Now()), k, more) && Made(more, pPart)
    ensures forall i :: 0 <= i < c ==> more[i].addr == base + i * pPart.size && more[i].fragment == base
                                       && base <= more[i].addr && more[i].addr + pPart.size <= base + c * pPart.size
  {
    hide Apart, Everything, Partition.Linked;
    ghost var h := pool.Now();
    GrownNone(h, k);
    more := [];
    var node, actual := base, c;
    while actual > 0
      invariant 0 <= actual <= c && |more| == c - actual && node == base + |more| * pPart.size
      invariant pool.Valid() && fresh(pool.nodes - old(pool.nodes)) && pool.nodes == old(pool.nodes) + Members(more)
      invariant pool.parts == old(pool.parts) && pPart.total == old(pPart.total) && pPart.incr == old(pPart.incr)
      invariant pool.Now() == Grown(h, k, more) && forall x <- more :: x.length == 0
      invariant Distinct(more)
      invariant forall i :: 0 <= i < |more| ==>
          more[i].addr == base + i * pPart.size && more[i].fragment == base && more[i].part == pPart
    {
      EverythingThere(pool, h, k, more);
      ghost var was := pool.nodes;
      var x := Carve(pool, pPart, node, base, k, h, more);
      FreshLast(more, x, was);
      more := more + [x];
      node := node + pPart.size;
      Stride(|more| - 1, pPart.size);
      actual := actual - 1;
    }
    forall i, j | 0 <= i < j < c ensures Disjoint(more[i].addr, more[j].addr, pPart.size) { Strides(i, j, pPart.size); }
    forall i | 0 <= i < c ensures base <= more[i].addr
        && more[i].addr + pPart.size <= base + c * pPart.size { Strides(i, c, pPart.size); }
  }

  lemma Stride(i: nat, size: nat)
    ensures (i + 1) * size == i * size + size
  {
  }

  lemma {:induction false} Strides(i: nat, j: nat, size: nat)
    requires i < j
    ensures 0 <= i * size && i * size + size <= j * size
  {
    Stride(j - 1, size);
    if i < j - 1 { Strides(i, j - 1, size); }
  }

  lemma GrownNone(h: Holdings, k: nat)
    requires k < |h.queues|
    ensures Grown(h, k, []) == h && Members([]) == {}
  {
    assert h.queues[k] + [] == h.queues[k];
    assert h.queues[k := h.queues[k]] == h.queues;
  }

  lemma EverythingThere(pool: Pool, h: Holdings, k: nat, more: seq<Node>)
    requires pool.Valid() && k < |h.queues| && pool.Now() == Grown(h, k, more)
    ensures Everything(h) <= pool.nodes
  {
    forall x | x in Everything(h) ensures x in Everything(pool.Now()) {
      if x !in h.held {
        var i :| 0 <= i < |h.queues| && x in h.queues[i];
        assert x in pool.Now().queues[i];
      }
    }
  }

  lemma FreshLast(more: seq<Node>, x: Node, s: set<Node>)
    requires Distinct(more) && Members(more) <= s && x !in s
    ensures Distinct(more + [x]) && Members(more + [x]) == Members(more) + {x}
  {
    forall i | 0 <= i < |more| ensures more[i] != x { assert more[i] in Members(more); }
  }

  /** The allocator's blocks do not overlap. */
  ghost predicate BlocksApart(blocks: seq<Block>, size: nat) {
    forall i, j :: 0 <= i < j < |blocks| && blocks[i].ok && blocks[j].ok ==>
        Disjoint(blocks[i].base, blocks[j].base, size)
  }

  /** A block for every buffer, as long as there are blocks. */
  method CarveEach(pool: Pool, pPart: Partition, c: nat, blocks: seq<Block>, ghost k: nat)
    returns (ok: bool, ghost more: seq<Node>)
    requires pool.Valid() && k < |pool.parts| && pool.parts[k] == pPart && c <= |blocks|
    requires BlocksApart(blocks, pPart.size)
    modifies pool`held, pool`nodes, pPart, pool.nodes`n, pool.nodes`p
    ensures pool.Valid() && fresh(pool.nodes - old(pool.nodes)) && pool.nodes == old(pool.nodes) + Members(more)
    ensures pool.parts == old(pool.parts) && pPart.total == old(pPart.total) && pPart.incr == old(pPart.incr)
    ensures forall x <- more :: x.length == 0
    ensures pool.Now() == Grown(old(pool.Now()), k, more) && Made(more, pPart) && |more| <= c
    ensures forall i :: 0 <= i < |more| ==> blocks[i].ok && more[i].addr == more[i].fragment == blocks[i].base
    ensures if ok then |more| == c else |more| < c && !blocks[|more|].ok
  {
    hide Apart, Everything, Partition.Linked;
    ghost var h := pool.Now();
    GrownNone(h, k);
    more := [];
    var actual := 0;
    while actual < c
      invariant 0 <= actual <= c && |more| == actual
      invariant pool.Valid() && fresh(pool.nodes - old(pool.nodes)) && pool.nodes == old(pool.nodes) + Members(more)
      invariant pool.parts == old(pool.parts) && pPart.total == old(pPart.total) && pPart.incr == old(pPart.incr)
      invariant pool.Now() == Grown(h, k, more) && forall x <- more :: x.length == 0
      invariant Distinct(more)
      invariant forall i :: 0 <= i < |more| ==>
          blocks[i].ok && more[i].addr == more[i].fragment == blocks[i].base && more[i].part == pPart
    {
      if !blocks[actual].ok {
        return false, more;
      }
      EverythingThere(pool, h, k, more);
      ghost var was := pool.nodes;
      var x := Carve(pool, pPart, blocks[actual].base, blocks[actual].base, k, h, more);
      FreshLast(more, x, was);
      more := more + [x];
      actual := actual + 1;
    }
    ok := true;
  }

  /** Where the buffers are that dmaPIncr has made, and what it returns. */
  ghost predicate Placed(c: nat, size: nat, blocks: seq<Block>, added: int, more: seq<Node>)
    requires c <= |blocks|
  {
    && (added == c || added == -1) && (added == c ==> |more| == c)
    && (0 < c ==>
          if c * size < LINUX_MAX_PARTSIZE then
            && (added == c <==> blocks[0].ok) && (added == -1 ==> more == [])
            && InOneBlock(blocks[0].base, size, c, more)
          else if size > LINUX_MAX_PARTSIZE then
            added == -1 && more == []
          else
            && (added == c <==> forall i :: 0 <= i < c ==> blocks[i].ok) && |more| <= c
            && forall i :: 0 <= i < |more| ==> more[i].addr == more[i].fragment == blocks[i].base)
  }

  ghost predicate InOneBlock(base: int, size: nat, c: nat, more: seq<Node>) {
    forall i :: 0 <= i < |more| ==>
          && more[i].fragment == base && more[i].addr == base + i * size && base <= more[i].addr
          && more[i].addr + size <= base + c * size
  }

  /** Counts that are no part of the list. */
  method SetCounts(pool: Pool, pPart: Partition, total: int, incr: int)
    requires pool.Valid() && pPart in pool.parts
    modifies pPart`total, pPart`incr
    ensures pool.Valid() && pool.Now() == old(pool.Now()) && pPart.total == total && pPart.incr == incr
  {
    hide Apart, Everything;
    ghost var h := pool.Now();
    pPart.total, pPart.incr := total, incr;
    assert pool.Now() == h;
  }

  /**
   Enlarges a partition by `c` buffers (dmaPIncr).  Buffers get one block, or blocks of their own
   when together they are too large; they do not overlap, and all are free at once.
   */
  method Incr(pool: Pool, pPart: Partition, c: nat, blocks: seq<Block>, ghost k: nat)
    returns (added: int, ghost more: seq<Node>)
    requires pool.Valid() && k < |pool.parts| && pool.parts[k] == pPart && pPart.size > 0
    requires c <= |blocks| && BlocksApart(blocks, pPart.size)
    modifies pool`held, pool`nodes, pPart, pool.nodes`n, pool.nodes`p
    ensures pool.Valid() && fresh(pool.nodes - old(pool.nodes)) && pool.nodes == old(pool.nodes) + Members(more)
    ensures pool.parts == old(pool.parts) && pPart.total == old(pPart.total) + c
    ensures pool.Now() == Grown(old(pool.Now()), k, more) && Made(more, pPart)
    ensures Placed(c, pPart.size, blocks, added, more) && forall x <- more :: x.length == 0
    ensures pPart.incr == if c == 0 || pPart.size > 4194304 then old(pPart.incr)
                          else if c * pPart.size >= 4194304 then 1
                          else if blocks[0].ok then 0 else old(pPart.incr)
  {
    hide Apart, Everything, Partition.Linked, Pool.Valid, Made, Grown;
    ghost var h := pool.Now();
    GrownNone(h, k);
    NoneMade(pPart);
    SetCounts(pool, pPart, pPart.total + c, pPart.incr);
    more := [];
    if c == 0 {
      return 0, [];
    }
    var totalBytes := c * pPart.size;
    if LINUX_MAX_PARTSIZE <= totalBytes {
      if LINUX_MAX_PARTSIZE < pPart.size {
        return -1, [];
      }
      SetCounts(pool, pPart, pPart.total, 1);
      var ok;
      ok, more := CarveEach(pool, pPart, c, blocks, k);
      added := if ok then c else -1;
    } else {
      if !blocks[0].ok {
        return -1, [];
      }
      SetCounts(pool, pPart, pPart.total, 0);
      more := CarveAll(pool, pPart, c, blocks[0].base, k);
      added := c;
    }
  }

  lemma NoneMade(pPart: Partition)
    ensures Made([], pPart)
  {
  }

  // ---- Whole runs ------------------------------------------------------------------------------------------

  /** What a client asks for, under the partition lock; or it fills a buffer that it holds with `bytes` of data. */
  datatype Op =
    | Get(client: nat, k: nat)
    | Add(client: nat, k: nat, x: Node)
    | Free(client: nat, k: nat, x: Node)
    | Fill(client: nat, x: Node, bytes: nat)

  /** The partition whose list an operation changes. */
  predicate Allowed(parts: seq<Partition>, h: Holdings, op: Op) {
    match op
    case Get(_, k) => k < |parts|
    case Add(client, k, x) => k < |parts| && x in h.held && h.held[x] == client
    case Free(client, k, x) => k < |parts| && x in h.held && h.held[x] == client && parts[k] == x.part
    case Fill(client, x, _) => x in h.held && h.held[x] == client
  }

  /** What an operation does; one that its client may not ask for is not made. */
  function Performed(parts: seq<Partition>, h: Holdings, op: Op): Holdings
    requires |h.queues| == |parts|
  {
    if !Allowed(parts, h, op) then h
    else
      match op
      case Get(client, k) => if h.queues[k] == [] then h else Taken(h, client, k)
      case Add(_, k, x) => Put(h, k, x)
      case Free(_, k, x) => Put(h, k, x)
      case Fill(_, _, _) => h
  }

  function AllPerformed(parts: seq<Partition>, h: Holdings, ops: seq<Op>): (r: Holdings)
    requires |h.queues| == |parts|
    ensures |r.queues| == |parts|
  {
    if ops == [] then h else Performed(parts, AllPerformed(parts, h, ops[..|ops| - 1]), ops[|ops| - 1])
  }

  /** Buffers that came to list `k`, in order. */
  function Came(parts: seq<Partition>, h: Holdings, ops: seq<Op>, k: nat): seq<Node>
    requires |h.queues| == |parts|
  {
    if ops == [] then []
    else
      var was, op := Came(parts, h, ops[..|ops| - 1], k), ops[|ops| - 1];
      if (op.Add? || op.Free?) && op.k == k && Allowed(parts, AllPerformed(parts, h, ops[..|ops| - 1]), op)
      then was + [op.x] else was
  }

  /** Buffers that were taken from list `k`, in order. */
  function Went(parts: seq<Partition>, h: Holdings, ops: seq<Op>, k: nat): seq<Node>
    requires |h.queues| == |parts|
  {
    if ops == [] then []
    else
      var was, op := Went(parts, h, ops[..|ops| - 1], k), ops[|ops| - 1];
      var q := if k < |parts| then AllPerformed(parts, h, ops[..|ops| - 1]).queues[k] else [];
      if op.Get? && op.k == k && q != [] then was + [q[0]] else was
  }

  /**
   Every list is a queue: what it had and what came is what went and what it has, in this order,
   however the operations of the clients are interleaved.
   */
  lemma {:induction false} FirstInFirstOut(parts: seq<Partition>, h: Holdings, ops: seq<Op>, k: nat)
    requires |h.queues| == |parts| && k < |parts|
    ensures h.queues[k] + Came(parts, h, ops, k) == Went(parts, h, ops, k) + AllPerformed(parts, h, ops).queues[k]
  {
    if ops != [] {
      FirstInFirstOut(parts, h, ops[..|ops| - 1], k);
      var was, op := AllPerformed(parts, h, ops[..|ops| - 1]), ops[|ops| - 1];
      var a, b, q := h.queues[k] + Came(parts, h, ops[..|ops| - 1], k), Went(parts, h, ops[..|ops| - 1], k),
          was.queues[k];
      if op.Get? {
        if op.k == k && q != [] { assert b + q == b + [q[0]] + q[1..]; }
      } else if !op.Fill? && op.k == k && Allowed(parts, was, op) {
        assert (b + q) + [op.x] == b + (q + [op.x]);
      }
    }
  }

  /** Bytes of data in buffer `x` after the operations, `n` being there at first. */
  function Length(parts: seq<Partition>, h: Holdings, ops: seq<Op>, x: Node, n: int): int
    requires |h.queues| == |parts|
  {
    if ops == [] then n
    else
      var was, op := Length(parts, h, ops[..|ops| - 1], x, n), ops[|ops| - 1];
      if !Allowed(parts, AllPerformed(parts, h, ops[..|ops| - 1]), op) || op.Get? || op.x != x then was
      else if op.Free? then 0
      else if op.Fill? then op.bytes
      else was
  }

  /**
   A buffer comes off a list with the data with which it was put there, or with none if it was freed: the
   `i`-th operation puts it on a list, and up to the `j`-th nobody holds it.
   */
  lemma {:induction false} HandedOver(parts: seq<Partition>, h: Holdings, ops: seq<Op>, i: nat, j: nat, x: Node, n: int)
    requires |h.queues| == |parts| && i < j <= |ops| && (ops[i].Add? || ops[i].Free?) && ops[i].x == x
    requires Allowed(parts, AllPerformed(parts, h, ops[..i]), ops[i])
    requires forall m :: i < m < j ==> x !in AllPerformed(parts, h, ops[..m]).held
    ensures Length(parts, h, ops[..j], x, n) == if ops[i].Free? then 0 else Length(parts, h, ops[..i], x, n)
    decreases j
  {
    assert ops[..j][..j - 1] == ops[..j - 1];
    if i + 1 < j { HandedOver(parts, h, ops, i, j - 1, x, n); }
  }

  /** No buffer is lost or doubled: counts and held buffers add up. */
  lemma CountAll(h: Holdings)
    requires Apart(h)
    ensures Sum(h.queues) + |h.held| == |Everything(h)|
  {
    CountLists(h.queues);
    assert OnLists(h.queues) !! h.held.Keys;
  }

  lemma OnMore(c: seq<seq<Node>>, q: seq<Node>)
    ensures OnLists(c + [q]) == OnLists(c) + Members(q)
  {
    var a := c + [q];
    forall x | x in OnLists(c) ensures x in OnLists(a) {
      var i :| 0 <= i < |c| && x in c[i];
      assert x in a[i];
    }
    forall x | x in q ensures x in OnLists(a) { assert x in a[|c|]; }
    forall x | x in OnLists(a) ensures x in OnLists(c) + Members(q) {
      var i :| 0 <= i < |a| && x in a[i];
      if i < |c| { assert x in c[i]; }
    }
  }

  lemma {:induction false} CountLists(queues: seq<seq<Node>>)
    requires forall i :: 0 <= i < |queues| ==> Distinct(queues[i])
    requires forall i, j, x :: 0 <= i < j < |queues| && x in queues[i] ==> x !in queues[j]
    ensures Sum(queues) == |OnLists(queues)|
  {
    if queues != [] {
      var c, q := queues[..|queues| - 1], queues[|queues| - 1];
      assert queues == c + [q];
      CountLists(c);
      OnMore(c, q);
      CountMembers(q);
      assert OnLists(c) !! Members(q);
    }
  }

  lemma {:induction false} CountMembers(q: seq<Node>)
    requires Distinct(q)
    ensures |Members(q)| == |q|
  {
    if q == [] {
      assert Members(q) == {};
    } else {
      var c, x := q[..|q| - 1], q[|q| - 1];
      CountMembers(c);
      assert x !in c;
      assert Members(q) == Members(c) + {x};
    }
  }

  /** One operation of a client, if it is allowed. */
  method Perform(pool: Pool, op: Op)
    requires pool.Valid()
    modifies pool`held, pool`nodes, pool.parts, pool.nodes
    ensures pool.Valid() && pool.nodes == old(pool.nodes) && pool.parts == old(pool.parts)
    ensures pool.Now() == Performed(pool.parts, old(pool.Now()), op)
    ensures forall x :: x in pool.nodes ==>
              x.length == if !Allowed(pool.parts, old(pool.Now()), op) || op.Get? || op.x != x then old(x.length)
                          else if op.Free? then 0 else if op.Fill? then op.bytes else old(x.length)
  {
    hide Apart, Everything, Taken, Put, Partition.Linked;
    if !op.Get? && op.x in pool.held { HeldIsThere(pool.Now(), op.x); }
    match op {
      case Get(client, k) =>
        if k < |pool.parts| {
          var x := GetItem(pool, client, k);
        }
      case Add(client, k, x) =>
        if k < |pool.parts| && x in pool.held && pool.held[x] == client {
          AddItem(pool, client, k, x);
        }
      case Free(client, k, x) =>
        if k < |pool.parts| && x in pool.held && pool.held[x] == client && pool.parts[k] == x.part {
          FreeItem(pool, client, x, k);
        }
      case Fill(client, x, bytes) =>
        if x in pool.held && pool.held[x] == client {
          FillItem(pool, client, x, bytes);
        }
    }
  }

  lemma HeldIsThere(h: Holdings, x: Node)
    requires x in h.held
    ensures x in Everything(h)
  {
  }

  /**
   Operations of clients, in any interleaving: the lists and the hands of the clients have what
   the queues of values say, and every buffer carved is in exactly one place.
   */
  method Interleaved(pool: Pool, ops: seq<Op>)
    requires pool.Valid()
    modifies pool`held, pool`nodes, pool.parts, pool.nodes
    ensures pool.Valid() && pool.nodes == old(pool.nodes) && pool.parts == old(pool.parts)
    ensures pool.Now() == AllPerformed(pool.parts, old(pool.Now()), ops)
    ensures forall x :: x in pool.nodes ==> x.length == Length(pool.parts, old(pool.Now()), ops, x, old(x.length))
    ensures Sum(pool.Now().queues) + |pool.held| == |pool.nodes|
  {
    hide Apart, Everything, Pool.Valid, Performed, Allowed;
    var i := 0;
    ghost var h := pool.Now();
    assert ops[..0] == [];
    while i < |ops|
      invariant 0 <= i <= |ops| && pool.Valid() && pool.nodes == old(pool.nodes) && pool.parts == old(pool.parts)
      invariant pool.Now() == AllPerformed(pool.parts, h, ops[..i])
      invariant forall x :: x in pool.nodes ==> x.length == Length(pool.parts, h, ops[..i], x, old(x.length))
    {
      assert ops[..i + 1][..i] == ops[..i];
      Perform(pool, ops[i]);
      i := i + 1;
    }
    assert ops[..i] == ops;
    AllCounted(pool);
  }

  lemma AllCounted(pool: Pool)
    requires pool.Valid()
    ensures Sum(pool.Now().queues) + |pool.held| == |pool.nodes|
  {
    hide Apart, Everything;
    CountAll(pool.Now());
  }

  // ---- A new partition ---------------------------------------------------------------------------------

  /**
   A new partition with `c` buffers (dmaPCreate).  Its buffers take multiples of eight bytes; the
   other partitions and what clients hold are as they were.
   */
  method Create(pool: Pool, size: nat, header: nat, c: nat, blocks: seq<Block>)
    returns (pPart: Partition?, ghost part: Partition, ghost more: seq<Node>)
    requires pool.Valid() && header > 0 && c <= |blocks|
    requires forall s :: size + header <= s < size + header + 8 ==> BlocksApart(blocks, s)
    modifies pool, pool.nodes`n, pool.nodes`p
    ensures pool.Valid() && pool.parts == old(pool.parts) + [part] && fresh(part) && (pPart == null || pPart == part)
    ensures part.size % 8 == 0 && size + header <= part.size < size + header + 8 && part.total == c
    ensures pool.Now() == Holdings(old(pool.Now().queues) + [more], old(pool.held)) && Made(more, part)
    ensures pool.nodes == old(pool.nodes) + Members(more) && fresh(pool.nodes - old(pool.nodes))
    ensures exists added :: Placed(c, part.size, blocks, added, more) && (pPart != null <==> added == c)
  {
    hide Apart, Everything, Made, Placed, Grown, Pool.Valid, Distinct;
    ghost var h, k := pool.Now(), |pool.parts|;
    var li := new Partition(size, header);
    part := li;
    AddPartition(pool, li);
    var added;
    added, more := Incr(pool, li, c, blocks, k);
    GrownLast(h, more);
    pPart := if added != c then null else li;
  }

  lemma GrownLast(h: Holdings, more: seq<Node>)
    ensures Grown(Holdings(h.queues + [[]], h.held), |h.queues|, more) == Holdings(h.queues + [more], h.held)
  {
    var x := (h.queues + [[]])[|h.queues|] + more;
    assert x == more;
    assert (h.queues + [[]])[|h.queues| := x] == h.queues + [x];
  }

  method AddPartition(pool: Pool, li: Partition)
    requires pool.Valid() && li !in pool.parts && li.Linked() && li.q == []
    modifies pool`parts
    ensures pool.Valid() && pool.parts == old(pool.parts) + [li] && pool.nodes == old(pool.nodes)
    ensures pool.Now() == Holdings(old(pool.Now().queues) + [[]], old(pool.held))
  {
    hide Apart, Everything;
    ghost var h := pool.Now();
    pool.parts := pool.parts + [li];
    assert pool.Now().queues == h.queues + [[]];
    OneMoreList(h);
  }

  lemma OneMoreList(h: Holdings)
    requires Apart(h)
    ensures Apart(Holdings(h.queues + [[]], h.held)) && Everything(Holdings(h.queues + [[]], h.held)) == Everything(h)
  {
    OnMore(h.queues, []);
  }
}
