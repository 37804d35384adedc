/**
 Lists of DMA buffers (dmaPList.h): nodes linked through themselves.  A list is used as a queue:
 nodes are added at its tail and taken from its head.
 */
module DmaLists {
  class Node {
    const addr: int          // where the node lies
    const fragment: int      // block that it was carved from
    const part: Partition    // the partition that owns it
    var n: Node?             // next node of the list
    var p: Node?             // previous node; that of the head is not kept up to date
    var length: int          // bytes of data

    constructor (addr: int, fragment: int, part: Partition)
      ensures this.addr == addr && this.fragment == fragment && this.part == part && length == 0 && n == null
    {
      this.addr, this.fragment, this.part := addr, fragment, part;
      n, p, length := null, null, 0;
    }
  }

  class Partition {
    const size: nat       // bytes of a node
    var f: Node?          // head of the list of free nodes
    var l: Node?          // its tail
    var c: int            // their number
    var total: int        // nodes asked for so far
    var incr: int         // whether nodes have blocks of their own

    ghost var q: seq<Node>  // the list

    /** The list is linked from head to tail, and back from the tail to the head. */
    ghost predicate Linked()
      reads this, q
    {
      && c == |q| && Distinct(q)
      && (q == [] ==> l == null)
      && (q != [] ==> f == q[0] && l == q[|q| - 1] && q[|q| - 1].n == null)
      && (forall i, j :: 0 <= i < |q| && j == i + 1 < |q| ==> q[i].n == q[j] && q[j].p == q[i])
    }

    /** A partition for items of `size` bytes; with the node header, room in multiples of eight. */
    constructor (size: nat, header: nat)
      ensures Linked() && q == [] && total == 0 && this.size % 8 == 0 && size + header <= this.size < size + header + 8
    {
      var sizeIncr := 0;
      if (size + header) % 8 != 0 {
        sizeIncr := 8 - (size + header) % 8;
      }
      this.size := size + header + sizeIncr;
      f, l, c, total, incr := null, null, 0, 0, 0;
      q := [];
    }
  }

  ghost predicate Distinct(q: seq<Node>) {
    forall i, j :: 0 <= i < j < |q| ==> q[i] != q[j]
  }

  ghost function Members(q: seq<Node>): set<Node> {
    set x | x in q
  }

  /** dmalistGet: the head of the list, or null. */
  method ListGet(li: Partition) returns (no: Node?)
    requires li.Linked()
    modifies li`f, li`l, li`c, li`q
    ensures li.Linked()
    ensures if old(li.q) == [] then no == null && li.q == [] else no == old(li.q)[0] && li.q == old(li.q)[1..]
  {
    no := null;
    if li.c != 0 {
      li.c := li.c - 1;
      no := li.f;
      li.f := li.f.n;
      li.q := li.q[1..];
    }
    if li.c == 0 {
      li.l := null;
    }
  }

  /** dmalistAdd: the node becomes the tail of the list. */
  method ListAdd(li: Partition, no: Node)
    requires li.Linked() && no !in li.q
    modifies li`f, li`l, li`c, li`q, no`n, no`p, (if li.q == [] then {} else {li.q[|li.q| - 1]})`n
    ensures li.Linked() && li.q == old(li.q) + [no] && (old(li.q) == [] ==> no.p == null)
  {
    if li.c == 0 {
      li.f := no;
      li.l := no;
      no.p := null;
    } else {
      no.p := li.l;
      li.l.n := no;
      li.l := no;
    }
    no.n := null;
    li.c := li.c + 1;
    li.q := li.q + [no];
  }
}
