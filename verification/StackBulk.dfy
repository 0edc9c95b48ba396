/** The loops with which consume_all_atomic and consume_all_atomic_reversed
    (boost/lockfree/stack.hpp) consume the chain of nodes they detached. */
module StackBulk {
  import opened Sequences

  type Val = int

  class Node {
    var next: Node?
    const v: Val

    constructor (v: Val)
      ensures this.v == v && next == null
    {
      this.v := v;
      next := null;
    }
  }

  /** The pool as the loops see it: only nodes outside it are read, and a node put back has its
      link overwritten.  `freed` and `refused` are history: the nodes put back, and the values there was no
      node for. */
  class Pool {
    var live: set<Node>
    ghost var freed: seq<Node>
    ghost var refused: seq<Val>

    constructor ()
      ensures live == {} && freed == [] && refused == []
    {
      live := {};
      freed, refused := [], [];
    }

    /** Null if the pool has no node left. */
    method Construct(v: Val) returns (n: Node?)
      modifies this
      ensures freed == old(freed) && live == old(live) + (if n == null then {} else {n})
      ensures n != null ==> fresh(n) && n.v == v
      ensures refused == old(refused) + if n == null then [v] else []
    {
      var full: bool := *;
      if full {
        refused := refused + [v];
        return null;
      }
      n := new Node(v);
      live := live + {n};
    }

    function Next(n: Node): Node?
      requires n in live
      reads this, n
    {
      n.next
    }

    function Value(n: Node): Val
      requires n in live
      reads this
    {
      n.v
    }

    method Link(n: Node, next: Node?)
      requires n in live
      modifies n
      ensures n.next == next
    {
      n.next := next;
    }

    method Destruct(n: Node, scribble: Node?)
      requires n in live
      modifies this, n
      ensures live == old(live) - {n} && freed == old(freed) + [n] && refused == old(refused)
    {
      n.next := scribble;
      live := live - {n};
      freed := freed + [n];
    }
  }

  ghost function At(nodes: seq<Node>, i: int): Node? {
    if 0 <= i < |nodes| then nodes[i] else null
  }

  ghost predicate LinkAt(nodes: seq<Node>, i: nat)
    requires i < |nodes|
    reads nodes[i]
  {
    nodes[i].next == At(nodes, i + 1)
  }

  /** The link of a node that has been turned round. */
  ghost predicate BackAt(nodes: seq<Node>, i: nat)
    requires i < |nodes|
    reads nodes[i]
  {
    nodes[i].next == At(nodes, i - 1)
  }

  /** `nodes` are linked from `first` to null. */
  ghost predicate Chain(first: Node?, nodes: seq<Node>)
    reads nodes
  {
    && first == At(nodes, 0)
    && Distinct(nodes)
    && forall i :: 0 <= i < |nodes| ==> LinkAt(nodes, i)
  }

  ghost function SetOf(nodes: seq<Node>): set<Node> { set n | n in nodes }

  ghost function Values(nodes: seq<Node>): (vs: seq<Val>)
    ensures |vs| == |nodes|
  {
    seq(|nodes|, i requires 0 <= i < |nodes| => nodes[i].v)
  }

  /** prepare_node_list: the chain for a push of a range, made of the values for which the pool has
      nodes; the last value is on top. */
  method PrepareNodeList(pool: Pool, vals: seq<Val>)
      returns (top: Node?, end: Node?, taken: nat, ghost nodes: seq<Node>)
    requires vals != []
    modifies pool
    ensures taken == |nodes| <= |vals| && fresh(nodes) && Chain(top, nodes) && end == At(nodes, taken - 1)
    ensures Values(nodes) == Reversed(vals[..taken])
    ensures pool.live == old(pool.live) + SetOf(nodes) && pool.freed == old(pool.freed)
    ensures pool.refused == old(pool.refused) + if taken < |vals| then [vals[taken]] else []
  {
    hide Chain, SetOf, Values, Reversed;
    Nothing();
    nodes := [];
    end := pool.Construct(vals[0]);
    if end == null { return null, null, 0, []; }
    pool.Link(end, null);
    Prepend(end, []);
    ReversedMore(vals, 0);
    top, taken, nodes := end, 1, [end];
    assert [end] + [] == nodes && vals[..0] == [];
    while taken < |vals|
      invariant 0 < taken == |nodes| <= |vals| && fresh(nodes) && Chain(top, nodes) && end == nodes[taken - 1]
      invariant Values(nodes) == Reversed(vals[..taken])
      invariant pool.live == old(pool.live) + SetOf(nodes) && pool.freed == old(pool.freed)
      invariant pool.refused == old(pool.refused)
    {
      var newnode := pool.Construct(vals[taken]);
      if newnode == null { break; }
      pool.Link(newnode, top);
      Prepend(newnode, nodes);
      ReversedMore(vals, taken);
      top, nodes, taken := newnode, [newnode] + nodes, taken + 1;
    }
  }

  lemma Nothing()
    ensures Chain(null, []) && SetOf([]) == {} && Values([]) == [] && Reversed<Val>([]) == []
  {
  }

  lemma Prepend(n: Node, nodes: seq<Node>)
    requires Chain(n.next, nodes) && n !in nodes
    ensures Chain(n, [n] + nodes)
    ensures SetOf([n] + nodes) == SetOf(nodes) + {n} && Values([n] + nodes) == [n.v] + Values(nodes)
  {
    forall i | 0 <= i < |nodes| + 1
      ensures LinkAt([n] + nodes, i)
    {
      if i > 0 { assert LinkAt(nodes, i - 1); }
    }
  }

  lemma ReversedMore(vals: seq<Val>, k: nat)
    requires k < |vals|
    ensures Reversed(vals[..k + 1]) == [vals[k]] + Reversed(vals[..k])
  {
    assert vals[..k + 1] == vals[..k] + [vals[k]];
  }

  /** Passes every value to the functor, which records it in `seen`, and frees every node. */
  method Consume(pool: Pool, first: Node, ghost nodes: seq<Node>) returns (count: nat, seen: seq<Val>)
    requires Chain(first, nodes) && forall n :: n in nodes ==> n in pool.live
    modifies pool, nodes
    ensures count == |nodes|
    ensures seen == Values(nodes)
    ensures pool.freed == old(pool.freed) + nodes
    ensures pool.live == old(pool.live) - SetOf(nodes)
  {
    count, seen := 0, [];
    var node := first;
    while true
      invariant count < |nodes| && node == nodes[count]
      invariant seen == Values(nodes[..count])
      invariant pool.freed == old(pool.freed) + nodes[..count]
      invariant pool.live == old(pool.live) - SetOf(nodes[..count])
      invariant forall i :: count <= i < |nodes| ==> nodes[i] in pool.live && LinkAt(nodes, i)
      decreases |nodes| - count
    {
      ghost var done := count;
      assert nodes[..done + 1] == nodes[..done] + [node];
      seen := seen + [pool.Value(node)];
      count := count + 1;
      var next := pool.Next(node);
      var scribble: Node? := *;
      pool.Destruct(node, scribble);
      if next == null {
        assert nodes[..count] == nodes;
        break;
      }
      node := next;
    }
  }

  /** consume_all_atomic, after the exchange that detached `nodes`. */
  method ConsumeAllAtomic(pool: Pool, first: Node, ghost nodes: seq<Node>) returns (count: nat, seen: seq<Val>)
    requires Chain(first, nodes) && forall n :: n in nodes ==> n in pool.live
    modifies pool, nodes
    ensures count == |nodes| && seen == Values(nodes)
    ensures pool.freed == old(pool.freed) + nodes && pool.live == old(pool.live) - SetOf(nodes)
  {
    count, seen := Consume(pool, first, nodes);
  }

  /** Reverses the chain in place. */
  method Reverse(pool: Pool, first: Node, ghost nodes: seq<Node>) returns (last: Node)
    requires Chain(first, nodes) && forall n :: n in nodes ==> n in pool.live
    modifies nodes
    ensures Chain(last, Reversed(nodes))
  {
    hide Reversed;
    var node := first;
    var previous: Node? := null;
    ghost var k := 0;
    while true
      invariant k < |nodes| && node == nodes[k]
      invariant previous == At(nodes, k - 1)
      invariant forall i :: 0 <= i < k ==> BackAt(nodes, i)
      invariant forall i :: k <= i < |nodes| ==> LinkAt(nodes, i)
      decreases |nodes| - k
    {
      assert LinkAt(nodes, k);
      var next := pool.Next(node);
      pool.Link(node, previous);
      assert BackAt(nodes, k);
      previous := node;
      if next == null {
        last := node;
        break;
      }
      node := next;
      k := k + 1;
    }
    ChainReversed(last, nodes);
  }

  lemma ChainReversed(last: Node, nodes: seq<Node>)
    requires nodes != [] && Distinct(nodes) && last == nodes[|nodes| - 1]
    requires forall i :: 0 <= i < |nodes| ==> BackAt(nodes, i)
    ensures Chain(last, Reversed(nodes))
  {
    var rev := Reversed(nodes);
    forall i | 0 <= i < |rev|
      ensures LinkAt(rev, i)
    {
      assert rev[i] == nodes[|nodes| - 1 - i] && BackAt(nodes, |nodes| - 1 - i);
    }
  }

  /** consume_all_atomic_reversed, after the exchange that detached `nodes`. */
  method ConsumeAllAtomicReversed(pool: Pool, first: Node, ghost nodes: seq<Node>) returns (count: nat, seen: seq<Val>)
    requires Chain(first, nodes) && forall n :: n in nodes ==> n in pool.live
    modifies pool, nodes
    ensures count == |nodes| && seen == Reversed(Values(nodes))
    ensures pool.freed == old(pool.freed) + Reversed(nodes) && pool.live == old(pool.live) - SetOf(nodes)
  {
    var last := Reverse(pool, first, nodes);
    ghost var rev := Reversed(nodes);
    assert forall n :: n in rev <==> n in nodes by {
      assert forall i :: 0 <= i < |nodes| ==> nodes[i] == rev[|rev| - 1 - i];
    }
    count, seen := Consume(pool, last, rev);
    assert Values(rev) == Reversed(Values(nodes));
    assert SetOf(rev) == SetOf(nodes);
  }
}
