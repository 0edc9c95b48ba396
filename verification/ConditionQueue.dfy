/** The linked list of a ConditionObject of JDK/concurrent/AbstractQueuedSynchronizer.java, as its
    methods change it while they hold the lock.  Waits may be cancelled under them at any time: the
    parameter `cancels` says who gives up just before the first, the second, ... access of a method to
    a status, and a contract holds for all its values. */
module ConditionQueue {
  import opened Sequences

  const CONDITION: int := -2

  class Node {
    var waitStatus: int
    var nextWaiter: Node?

    constructor (waitStatus: int)
      ensures this.waitStatus == waitStatus && nextWaiter == null
    {
      this.waitStatus, nextWaiter := waitStatus, null;
    }
  }

  function At(s: seq<Node>, i: int): Node? {
    if 0 <= i < |s| then s[i] else null
  }

  ghost predicate LinkAt(s: seq<Node>, i: nat)
    requires i < |s|
    reads {s[i]}`nextWaiter
  {
    s[i].nextWaiter == At(s, i + 1)
  }

  ghost predicate Linked(s: seq<Node>)
    reads s`nextWaiter
  {
    Distinct(s) && forall i :: 0 <= i < |s| ==> LinkAt(s, i)
  }

  type Cancels = seq<set<Node>>

  function Group(cancels: Cancels, k: nat): set<Node> {
    if k < |cancels| then cancels[k] else {}
  }

  /** Who is in the first `k` groups. */
  ghost function Gone(cancels: Cancels, k: nat): set<Node> {
    if k == 0 then {} else Gone(cancels, k - 1) + Group(cancels, k - 1)
  }

  /** Who of `w` still waits when the first `k` groups have given up. */
  ghost function Still(w: set<Node>, cancels: Cancels, k: nat): set<Node> {
    w - Gone(cancels, k)
  }

  /** The groups after the first. */
  function Rest(cancels: Cancels): Cancels {
    if cancels == [] then [] else cancels[1..]
  }

  ghost function SetOf(s: seq<Node>): set<Node> { set n | n in s }

  lemma StillNext(w: set<Node>, cancels: Cancels, k: nat)
    ensures Still(w, cancels, k) - Group(cancels, k) == Still(w, cancels, k + 1)
  {
  }

  ghost predicate Within(cancels: Cancels, s: seq<Node>) {
    forall k, n :: 0 <= k < |cancels| && n in cancels[k] ==> n in s
  }

  /** The nodes of `s` that are found waiting when they are visited one after the other, in order. */
  ghost function Kept(s: seq<Node>, w: set<Node>, cancels: Cancels): seq<Node> {
    if s == [] then []
    else
      var i := |s| - 1;
      Kept(s[..i], w, cancels) + if s[i] in Still(w, cancels, i + 1) then [s[i]] else []
  }

  lemma KeptSnoc(s: seq<Node>, w: set<Node>, cancels: Cancels, n: Node)
    ensures Kept(s + [n], w, cancels) == Kept(s, w, cancels) + if n in Still(w, cancels, |s| + 1) then [n] else []
  {
    assert (s + [n])[..|s|] == s;
  }

  lemma KeptNext(s: seq<Node>, i: nat, w: set<Node>, cancels: Cancels)
    requires i < |s|
    ensures Kept(s[..i + 1], w, cancels) ==
            Kept(s[..i], w, cancels) + if s[i] in Still(w, cancels, i + 1) then [s[i]] else []
  {
    assert s[..i + 1] == s[..i] + [s[i]];
    KeptSnoc(s[..i], w, cancels, s[i]);
  }

  lemma KeptNothing(s: seq<Node>, w: set<Node>, cancels: Cancels)
    ensures Kept(s[..0], w, cancels) == [] && Still(w, cancels, 0) == w
  {
  }

  lemma {:induction false} KeptIn(s: seq<Node>, w: set<Node>, cancels: Cancels)
    ensures forall n :: n in Kept(s, w, cancels) ==> n in s && n in w
    decreases |s|
  {
    if s != [] { KeptIn(s[..|s| - 1], w, cancels); }
  }

  /** A node is kept exactly if it is found waiting at its visit. */
  lemma {:induction false} KeptMembers(s: seq<Node>, w: set<Node>, cancels: Cancels, i: nat)
    requires i < |s| && Distinct(s)
    ensures s[i] in Kept(s, w, cancels) <==> s[i] in Still(w, cancels, i + 1)
    decreases |s|
  {
    var n := |s| - 1;
    KeptIn(s[..n], w, cancels);
    if i < n { KeptMembers(s[..n], w, cancels, i); }
  }

  /** Whoever gives up before the first visit, or never waited, is not kept; whoever waits to the end
      is. */
  lemma KeptBetween(s: seq<Node>, w: set<Node>, cancels: Cancels, i: nat)
    requires i < |s| && Distinct(s)
    ensures s[i] in Still(w, cancels, |s|) ==> s[i] in Kept(s, w, cancels)
    ensures s[i] in Kept(s, w, cancels) ==> s[i] in Still(w, cancels, 1)
  {
    KeptMembers(s, w, cancels, i);
    GoneGrows(cancels, i + 1, |s|);
    GoneGrows(cancels, 1, i + 1);
  }

  lemma {:induction false} GoneGrows(cancels: Cancels, j: nat, k: nat)
    requires j <= k
    ensures Gone(cancels, j) <= Gone(cancels, k)
    decreases k
  {
    if j < k { GoneGrows(cancels, j, k - 1); }
  }

  /** The place, from `i` on, of the first node of `s` that is found waiting at its visit, or the
      length. */
  ghost function First(s: seq<Node>, w: set<Node>, cancels: Cancels, i: nat): (k: nat)
    requires i <= |s|
    ensures i <= k <= |s| && (k < |s| ==> s[k] in Still(w, cancels, k + 1))
    ensures forall j :: i <= j < k ==> s[j] !in Still(w, cancels, j + 1)
    decreases |s| - i
  {
    if i == |s| || s[i] in Still(w, cancels, i + 1) then i else First(s, w, cancels, i + 1)
  }

  lemma AtHere(all: seq<Node>, i: nat)
    ensures At(all, i) == null <==> i >= |all|
    ensures i < |all| ==> all[i] == At(all, i)
  {
  }

  /** The list around its place `|kept|`. */
  lemma Joint(kept: seq<Node>, rest: seq<Node>)
    requires rest != []
    ensures var q, k := kept + rest, |kept|;
      && q[k] == rest[0] == At(rest, 0) && At(q, k - 1) == At(kept, k - 1) && At(q, k + 1) == At(rest[1..], 0)
      && q[..k] + q[k + 1..] == kept + rest[1..]
      && q == (kept + [rest[0]]) + rest[1..]
      && At(kept + [rest[0]], |kept + [rest[0]]| - 1) == rest[0]
  {
  }

  class ConditionObject {
    var firstWaiter: Node?
    var lastWaiter: Node?
    ghost var queue: seq<Node>
    ghost var transferred: seq<Node> // handed to enq by signals, in order

    ghost predicate Valid()
      reads this, queue`nextWaiter
    {
      Linked(queue) && firstWaiter == At(queue, 0) && lastWaiter == At(queue, |queue| - 1)
    }

    /** The listed nodes that have not been cancelled. */
    ghost function Waiting(): set<Node>
      reads this`queue, queue`waitStatus
    {
      set n | n in queue && n.waitStatus == CONDITION
    }

    constructor ()
      ensures Valid() && queue == [] && transferred == []
    {
      firstWaiter, lastWaiter := null, null;
      queue, transferred := [], [];
    }

    /** The threads of group `i` that still wait win the status CAS of transferAfterCancelledWait. */
    method GiveUp(cancels: Cancels, i: nat, ghost all: seq<Node>, ghost v: set<Node>)
      requires Within(cancels, all) && Statuses(all, v)
      modifies all`waitStatus
      ensures Statuses(all, v - Group(cancels, i))
      ensures forall n :: n in all && n !in Group(cancels, i) ==> n.waitStatus == old(n.waitStatus)
    {
      var group := Group(cancels, i);
      assert forall n :: n in group ==> n in all by {
        if i < |cancels| { assert group == cancels[i]; }
      }
      forall n | n in group && n.waitStatus == CONDITION {
        n.waitStatus := 0;
      }
    }

    /** What is left is exactly what was found waiting, in order, and lastWaiter is the last of it; a
        node that was dropped has no link left. */
    method UnlinkCancelledWaiters(cancels: Cancels)
      requires Valid() && Within(cancels, queue)
      modifies this`firstWaiter, this`lastWaiter, this`queue, queue
      ensures Valid() && queue == Kept(old(queue), old(Waiting()), cancels)
      ensures Statuses(old(queue), Still(old(Waiting()), cancels, |old(queue)|))
      ensures forall n :: n in old(queue) && n !in queue ==> n.nextWaiter == null
    {
      hide Kept, Linked, LinkAt, Distinct, Still;
      ghost var w, seen, kept, rest := Waiting(), [], [], queue;
      var t, trail, i := firstWaiter, null, 0;
      assert queue == kept + rest;
      StartSettled(cancels);
      while t != null
        invariant old(queue) == seen + rest && t == At(rest, 0) && i == |seen|
        invariant kept == Kept(seen, w, cancels) && queue == kept + rest && trail == At(kept, |kept| - 1)
        invariant Valid() && Settled(old(queue), |seen|, w, cancels)
        invariant Statuses(old(queue), Still(w, cancels, |seen|))
        decreases |rest|
      {
        GiveUp(cancels, i, old(queue), Still(w, cancels, i));
        StillNext(w, cancels, i);
        t, trail, kept, rest, seen := Visit(t, trail, old(queue), seen, kept, rest, w, cancels);
        i := i + 1;
      }
      assert seen == old(queue) && queue == kept;
      forall k | 0 <= k < |seen| && seen[k] !in kept
        ensures seen[k].nextWaiter == null
      {
        KeptMembers(seen, w, cancels, k);
      }
    }
    lemma StartSettled(cancels: Cancels)
      requires Valid()
      ensures Settled(queue, 0, Waiting(), cancels) && Kept([], Waiting(), cancels) == []
      ensures Statuses(queue, Still(Waiting(), cancels, 0))
    {
    }

    ghost predicate Statuses(all: seq<Node>, v: set<Node>)
      reads all`waitStatus
    {
      forall j :: 0 <= j < |all| ==> (all[j] in v <==> all[j].waitStatus == CONDITION)
    }

    /** What the loop has done to the `n` nodes it has passed. */
    ghost predicate Settled(all: seq<Node>, n: nat, w: set<Node>, cancels: Cancels)
      requires n <= |all|
      reads all`nextWaiter
    {
      Distinct(all)
      && forall j :: 0 <= j < n && all[j] !in Still(w, cancels, j + 1) ==> all[j].nextWaiter == null
    }

    /** One round of the loop, after the node's group has given up. */
    method Visit(t: Node, trail: Node?, ghost all: seq<Node>, ghost seen: seq<Node>, ghost kept: seq<Node>,
                 ghost rest: seq<Node>, ghost w: set<Node>, ghost cancels: Cancels)
      returns (next: Node?, trail': Node?, ghost kept': seq<Node>, ghost rest': seq<Node>, ghost seen': seq<Node>)
      requires all == seen + rest && t == At(rest, 0)
      requires kept == Kept(seen, w, cancels) && queue == kept + rest && trail == At(kept, |kept| - 1)
      requires Valid() && Settled(all, |seen|, w, cancels) && Statuses(all, Still(w, cancels, |seen| + 1))
      modifies this`firstWaiter, this`lastWaiter, this`queue, all`nextWaiter
      ensures all == seen' + rest' && next == At(rest', 0) && |rest'| == |rest| - 1 && |seen'| == |seen| + 1
      ensures kept' == Kept(seen', w, cancels) && queue == kept' + rest' && trail' == At(kept', |kept'| - 1)
      ensures Valid() && Settled(all, |seen'|, w, cancels)
    {
      hide At, Valid, Linked, LinkAt, Kept, Settled, Distinct, Statuses, Still;
      Around(t, all, seen, kept, rest, w, cancels);
      NextOf(|kept|);
      rest', seen' := rest[1..], seen + [t];
      next := t.nextWaiter;
      if t.waitStatus != CONDITION {
        TrailKept(all, seen, w, cancels, trail);
        CutCancelled(trail, t, next, |kept|, all, |seen|, w, cancels);
        trail', kept' := trail, kept;
      } else {
        SettledKeep(all, |seen|, w, cancels);
        trail', kept' := t, kept + [t];
      }
    }

    lemma Around(t: Node, all: seq<Node>, seen: seq<Node>, kept: seq<Node>, rest: seq<Node>, w: set<Node>,
                 cancels: Cancels)
      requires all == seen + rest && t == At(rest, 0) && kept == Kept(seen, w, cancels)
      requires Statuses(all, Still(w, cancels, |seen| + 1))
      ensures rest != [] && all == (seen + [t]) + rest[1..] && all[|seen|] == t && t in all
      ensures t in Still(w, cancels, |seen| + 1) <==> t.waitStatus == CONDITION
      ensures Kept(seen + [t], w, cancels) == if t.waitStatus == CONDITION then kept + [t] else kept
      ensures var q, k := kept + rest, |kept|;
        && q[k] == t && At(q, k - 1) == At(kept, k - 1) && At(q, k + 1) == At(rest[1..], 0)
        && q[..k] + q[k + 1..] == kept + rest[1..] && q == (kept + [t]) + rest[1..]
      ensures At(kept + [t], |kept + [t]| - 1) == t
    {
      Joint(kept, rest);
      Joint(seen, rest);
      KeptSnoc(seen, w, cancels, t);
    }

    /** The node before is one that was kept. */
    lemma TrailKept(all: seq<Node>, seen: seq<Node>, w: set<Node>, cancels: Cancels, trail: Node?)
      requires seen <= all && Settled(all, |seen|, w, cancels)
      requires trail == At(Kept(seen, w, cancels), |Kept(seen, w, cancels)| - 1)
      ensures trail != null ==> trail in all
      ensures forall j :: 0 <= j < |seen| && all[j] == trail ==> all[j] in Still(w, cancels, j + 1)
    {
      assert forall j :: 0 <= j < |seen| ==> seen[j] == all[j];
      KeptIn(seen, w, cancels);
      forall j | 0 <= j < |seen| && all[j] == trail
        ensures all[j] in Still(w, cancels, j + 1)
      {
        KeptMembers(seen, w, cancels, j);
      }
    }

    lemma SettledKeep(all: seq<Node>, n: nat, w: set<Node>, cancels: Cancels)
      requires n < |all| && Settled(all, n, w, cancels) && all[n] in Still(w, cancels, n + 1)
      ensures Settled(all, n + 1, w, cancels)
    {
    }

    method CutCancelled(trail: Node?, t: Node, next: Node?, ghost k: nat, ghost all: seq<Node>, ghost n: nat,
                        ghost w: set<Node>, ghost cancels: Cancels)
      requires Valid() && k < |queue| && t == queue[k] && trail == At(queue, k - 1) && next == At(queue, k + 1)
      requires n < |all| && t == all[n] && Settled(all, n, w, cancels)
      requires forall j :: 0 <= j < n && all[j] == trail ==> all[j] in Still(w, cancels, j + 1)
      modifies this`firstWaiter, this`lastWaiter, this`queue, t`nextWaiter,
               (if trail == null then {} else {trail})`nextWaiter
      ensures Valid() && queue == old(queue)[..k] + old(queue)[k + 1..]
      ensures Settled(all, n + 1, w, cancels)
    {
      hide Valid, At, Linked, Still;
      Cut(trail, t, next, k);
    }

    lemma NextOf(k: nat)
      requires Valid() && k < |queue|
      ensures queue[k].nextWaiter == At(queue, k + 1)
    {
      assert LinkAt(queue, k);
    }

    /** Takes `t`, the node at place `k`, out of the list. */
    method Cut(trail: Node?, t: Node, next: Node?, ghost k: nat)
      requires Valid() && k < |queue| && t == queue[k] && trail == At(queue, k - 1) && next == At(queue, k + 1)
      modifies this`firstWaiter, this`lastWaiter, this`queue, t`nextWaiter,
               (if trail == null then {} else {trail})`nextWaiter
      ensures Valid() && queue == old(queue)[..k] + old(queue)[k + 1..]
      ensures t.nextWaiter == null
    {
      ghost var q := queue;
      assert forall i :: 0 <= i < |q| ==> LinkAt(q, i);
      t.nextWaiter := null;
      if trail == null {
        firstWaiter := next;
      } else {
        trail.nextWaiter := next;
      }
      if next == null {
        lastWaiter := trail;
      }
      queue := q[..k] + q[k + 1..];
      forall i | 0 <= i < |queue|
        ensures LinkAt(queue, i)
      {
        var j := if i < k then i else i + 1;
        assert queue[i] == q[j];
        assert j != k - 1 ==> LinkAt(q, j);
      }
    }

    /** A cancelled lastWaiter makes addConditionWaiter clean the list first: the first group gives up
        before it looks, the others while it cleans. */
    method AddConditionWaiter(cancels: Cancels) returns (node: Node)
      requires Valid() && Within(cancels, queue)
      modifies this`firstWaiter, this`lastWaiter, this`queue, queue
      ensures Valid() && fresh(node) && node.waitStatus == CONDITION && node == lastWaiter
      ensures var w := Still(old(Waiting()), cancels, 1);
        queue == (if old(lastWaiter) != null && old(lastWaiter) !in w
                  then Kept(old(queue), w, Rest(cancels)) else old(queue)) + [node]
    {
      hide Kept, Linked, Still;
      ghost var w := Waiting();
      assert w <= SetOf(queue);
      var t := lastWaiter;
      if t != null {
        StartSettled(cancels);
        GiveUp(cancels, 0, queue, Still(w, cancels, 0));
        StillNext(w, cancels, 0);
        LastIn();
        WaitingIs(w, cancels);
        if t.waitStatus != CONDITION {
          UnlinkCancelledWaiters(Rest(cancels));
          t := lastWaiter;
          KeptIn(old(queue), Still(w, cancels, 1), Rest(cancels));
        }
      }
      assert t != null ==> t == queue[|queue| - 1] && t in old(queue);
      node := new Node(CONDITION);
      Append(t, node);
    }

    lemma LastIn()
      requires Valid()
      ensures lastWaiter != null ==> lastWaiter in queue
    {
    }

    lemma WaitingIs(w: set<Node>, cancels: Cancels)
      requires Statuses(queue, Still(w, cancels, 1)) && w <= SetOf(queue)
      ensures Waiting() == Still(w, cancels, 1)
    {
    }

    method Append(t: Node?, node: Node)
      requires Valid() && t == lastWaiter && node !in queue && node.nextWaiter == null
      modifies this`firstWaiter, this`lastWaiter, this`queue, (if t == null then {} else {t})`nextWaiter
      ensures Valid() && queue == old(queue) + [node] && lastWaiter == node
    {
      ghost var q := queue;
      assert forall i :: 0 <= i < |q| ==> LinkAt(q, i) && q[i] in q && q[i] != node;
      if t == null {
        firstWaiter := node;
      } else {
        t.nextWaiter := node;
      }
      lastWaiter := node;
      queue := q + [node];
      forall i | 0 <= i < |queue|
        ensures LinkAt(queue, i)
      {
        if i < |q| - 1 { assert LinkAt(q, i) && queue[i] == q[i]; }
      }
    }

    /** The first three lines of doSignal's loop. */
    method TakeFirst(first: Node)
      requires Valid() && first == firstWaiter
      modifies this`firstWaiter, this`lastWaiter, this`queue, first`nextWaiter
      ensures Valid() && queue == old(queue)[1..] && first == old(queue)[0] && first.nextWaiter == null
    {
      ghost var q := queue;
      assert forall i :: 0 <= i < |q| ==> LinkAt(q, i);
      assert first == q[0] && LinkAt(q, 0);
      firstWaiter := first.nextWaiter;
      if firstWaiter == null {
        lastWaiter := null;
      }
      first.nextWaiter := null;
      queue := q[1..];
      forall i | 0 <= i < |queue|
        ensures LinkAt(queue, i)
      {
        assert LinkAt(q, i + 1) && queue[i] == q[i + 1];
      }
    }

    /** The status CAS of transferForSignal; a node it wins is handed to enq. */
    method TransferForSignal(node: Node) returns (won: bool)
      modifies node`waitStatus, this`transferred
      ensures won <==> old(node.waitStatus) == CONDITION
      ensures won ==> node.waitStatus == 0 && transferred == old(transferred) + [node]
      ensures !won ==> node.waitStatus == old(node.waitStatus) && transferred == old(transferred)
    {
      won := node.waitStatus == CONDITION;
      if won {
        node.waitStatus := 0;
        transferred := transferred + [node];
      }
    }

    /** Exactly the first node that is found waiting is transferred; those before it leave the list
        with it, and no other status changes than by giving up. */
    method DoSignal(first: Node, cancels: Cancels)
      requires Valid() && first == firstWaiter && Within(cancels, queue)
      modifies this, queue
      ensures Valid()
      ensures var all := old(queue); var k := First(all, old(Waiting()), cancels, 0);
        if k < |all| then queue == all[k + 1..] && transferred == old(transferred) + [all[k]] && all[k].waitStatus == 0
        else queue == [] && transferred == old(transferred)
      ensures var all := old(queue); var w := old(Waiting()); var k := First(all, w, cancels, 0);
        forall i :: 0 <= i < |all| && i != k ==>
          (all[i].waitStatus == CONDITION <==> all[i] in Still(w, cancels, if k < |all| then k + 1 else k))
    {
      hide Still, Within, First, Valid, Statuses, Distinct;
      ghost var all, w := queue, Waiting();
      var node, won, i := first, false, 0;
      assert queue == all[0..];
      StartSettled(cancels);
      while !won && node != null
        invariant Valid() && i <= |all| && queue == all[i..] && Distinct(all) && Within(cancels, all)
        invariant node == if won then null else firstWaiter
        invariant First(all, w, cancels, 0) == if won then i - 1 else First(all, w, cancels, i)
        invariant !won ==> Statuses(all, Still(w, cancels, i)) && transferred == old(transferred)
        invariant won ==> i > 0 && transferred == old(transferred) + [all[i - 1]] && all[i - 1].waitStatus == 0
        invariant won ==> Statuses(all, Still(w, cancels, i) - {all[i - 1]})
        decreases |all| - i
      {
        HeadIs(all, i);
        FirstNext(all, w, cancels, i);
        node, won := SignalRound(node, cancels, i, all, w);
        i := i + 1;
      }
      HeadIs(all, i);
      FirstEnds(all, w, cancels);
      SignalStatuses(all, w, cancels, i, won);
    }

    lemma HeadIs(all: seq<Node>, i: nat)
      requires Valid() && i <= |all| && queue == all[i..]
      ensures firstWaiter != null ==> i < |all| && all[i] == firstWaiter
      ensures firstWaiter == null ==> i == |all| && queue == []
    {
    }

    lemma SignalStatuses(all: seq<Node>, w: set<Node>, cancels: Cancels, i: nat, won: bool)
      requires i <= |all| && Distinct(all) && (won ==> i > 0)
      requires Statuses(all, if won then Still(w, cancels, i) - {all[i - 1]} else Still(w, cancels, i))
      ensures forall j :: 0 <= j < |all| && !(won && j == i - 1) ==>
                            (all[j].waitStatus == CONDITION <==> all[j] in Still(w, cancels, i))
    {
    }

    /** One round of doSignal's loop. */
    method SignalRound(node: Node, cancels: Cancels, i: nat, ghost all: seq<Node>, ghost w: set<Node>)
      returns (next: Node?, won: bool)
      requires Valid() && i < |all| && queue == all[i..] && node == firstWaiter == all[i] && Distinct(all)
      requires Within(cancels, all) && Statuses(all, Still(w, cancels, i))
      modifies this`firstWaiter, this`lastWaiter, this`queue, this`transferred, all
      ensures Valid() && queue == all[i + 1..] && next == if won then null else firstWaiter
      ensures won <==> all[i] in Still(w, cancels, i + 1)
      ensures transferred == old(transferred) + if won then [all[i]] else []
      ensures won ==> all[i].waitStatus == 0
      ensures Statuses(all, if won then Still(w, cancels, i + 1) - {all[i]} else Still(w, cancels, i + 1))
    {
      hide Still, Valid, Within;
      GiveUp(cancels, i, all, Still(w, cancels, i));
      StillNext(w, cancels, i);
      next, won := TakeAndTransfer(node);
    }

    lemma FirstNext(all: seq<Node>, w: set<Node>, cancels: Cancels, i: nat)
      requires i < |all|
      ensures First(all, w, cancels, i) ==
              if all[i] in Still(w, cancels, i + 1) then i else First(all, w, cancels, i + 1)
    {
    }

    lemma FirstEnds(all: seq<Node>, w: set<Node>, cancels: Cancels)
      ensures First(all, w, cancels, |all|) == |all|
    {
    }

    /** One round of doSignal's loop: the next node to try, if this one was cancelled. */
    method TakeAndTransfer(first: Node) returns (next: Node?, won: bool)
      requires Valid() && first == firstWaiter
      modifies this`firstWaiter, this`lastWaiter, this`queue, this`transferred, first
      ensures Valid() && queue == old(queue)[1..] && first == old(queue)[0]
      ensures won <==> old(first.waitStatus) == CONDITION
      ensures next == if won then null else firstWaiter
      ensures first.waitStatus == if won then 0 else old(first.waitStatus)
      ensures transferred == old(transferred) + if won then [first] else []
    {
      TakeFirst(first);
      won := TransferForSignal(first);
      next := if won then null else firstWaiter;
    }

    /** All nodes leave the list, and exactly those found waiting are transferred, in order. */
    method DoSignalAll(first: Node, cancels: Cancels)
      requires Valid() && first == firstWaiter && Within(cancels, queue)
      modifies this, queue
      ensures Valid() && queue == [] && lastWaiter == null
      ensures transferred == old(transferred) + Kept(old(queue), old(Waiting()), cancels)
      ensures forall i :: 0 <= i < |old(queue)| ==>
                old(queue)[i].nextWaiter == null && old(queue)[i].waitStatus != CONDITION
    {
      hide Kept, At, Pending, Within, Still, Statuses, Open;
      ghost var all, w := queue, Waiting();
      KeptNothing(all, w, cancels);
      StartPending(first, cancels);
      lastWaiter, firstWaiter := null, null;
      queue := [];
      var node: Node?, i := first, 0;
      while node != null
        invariant queue == [] && firstWaiter == null && lastWaiter == null
        invariant i <= |all| && node == At(all, i) && Pending(all, i) && Within(cancels, all)
        invariant Statuses(all, Open(all, w, cancels, i))
        invariant transferred == old(transferred) + Kept(all[..i], w, cancels)
        decreases |all| - i
      {
        AtHere(all, i);
        KeptNext(all, i, w, cancels);
        OpenNext(all, w, cancels, i);
        GiveUp(cancels, i, all, Open(all, w, cancels, i));
        node := Detach(node, all, i, Open(all, w, cancels, i) - Group(cancels, i));
        i := i + 1;
      }
      AtHere(all, i);
      assert i == |all|;
      DonePending(all, w, cancels);
      assert all[..i] == all;
      EmptyValid();
    }

    /** The first `n` nodes have been dealt with, the others are linked as they were on the list. */
    ghost predicate Pending(all: seq<Node>, n: nat)
      reads all`nextWaiter
    {
      && Distinct(all)
      && (forall j :: 0 <= j < |all| && j < n ==> all[j].nextWaiter == null)
      && (forall j :: n <= j < |all| ==> all[j].nextWaiter == At(all, j + 1))
    }

    /** Who still waits when `n` nodes have been dealt with. */
    ghost function Open(all: seq<Node>, w: set<Node>, cancels: Cancels, n: nat): set<Node>
      requires n <= |all|
    {
      Still(w, cancels, n) - SetOf(all[..n])
    }

    lemma OpenNext(all: seq<Node>, w: set<Node>, cancels: Cancels, n: nat)
      requires n < |all| && Pending(all, n)
      ensures Open(all, w, cancels, n + 1) == Open(all, w, cancels, n) - Group(cancels, n) - {all[n]}
      ensures all[n] in Open(all, w, cancels, n) - Group(cancels, n) <==> all[n] in Still(w, cancels, n + 1)
    {
      StillNext(w, cancels, n);
      assert all[..n + 1] == all[..n] + [all[n]];
      hide Still, Gone;
    }

    lemma StartPending(first: Node, cancels: Cancels)
      requires Valid() && first == firstWaiter
      ensures Pending(queue, 0) && first == At(queue, 0) && Statuses(queue, Open(queue, Waiting(), cancels, 0))
    {
      forall i | 0 <= i < |queue|
        ensures queue[i].nextWaiter == At(queue, i + 1)
      {
        assert LinkAt(queue, i);
      }
    }

    lemma EmptyValid()
      requires queue == [] && firstWaiter == null && lastWaiter == null
      ensures Valid()
    {
    }

    lemma DonePending(all: seq<Node>, w: set<Node>, cancels: Cancels)
      requires Pending(all, |all|) && Statuses(all, Open(all, w, cancels, |all|))
      ensures forall i :: 0 <= i < |all| ==> all[i].nextWaiter == null && all[i].waitStatus != CONDITION
    {
      assert all[..|all|] == all;
    }

    /** One round of doSignalAll's loop. */
    method Detach(node: Node, ghost all: seq<Node>, ghost n: nat, ghost v: set<Node>) returns (next: Node?)
      requires n < |all| && node == all[n] && Pending(all, n) && Statuses(all, v)
      modifies node, this`transferred
      ensures next == At(all, n + 1) && Pending(all, n + 1) && Statuses(all, v - {node})
      ensures transferred == old(transferred) + if node in v then [node] else []
    {
      assert forall j :: 0 <= j < |all| && j != n ==> all[j] != node;
      next := node.nextWaiter;
      node.nextWaiter := null;
      var won := TransferForSignal(node);
      assert won <==> node in v;
    }

    /** signal and signalAll refuse a thread that does not hold the lock. */
    method Signal(isHeldExclusively: bool, cancels: Cancels) returns (thrown: bool)
      requires Valid() && Within(cancels, queue)
      modifies this, queue
      ensures Valid() && thrown == !isHeldExclusively
      ensures thrown ==> queue == old(queue) && transferred == old(transferred)
      ensures var all := old(queue); var k := First(all, old(Waiting()), cancels, 0);
        !thrown ==>
          queue == (if k < |all| then all[k + 1..] else [])
          && transferred == old(transferred) + if k < |all| then [all[k]] else []
    {
      if !isHeldExclusively { return true; }
      if firstWaiter != null { DoSignal(firstWaiter, cancels); }
      return false;
    }

    method SignalAll(isHeldExclusively: bool, cancels: Cancels) returns (thrown: bool)
      requires Valid() && Within(cancels, queue)
      modifies this, queue
      ensures Valid() && thrown == !isHeldExclusively
      ensures thrown ==> queue == old(queue) && transferred == old(transferred)
      ensures !thrown ==> queue == [] && transferred == old(transferred) + Kept(old(queue), old(Waiting()), cancels)
    {
      if !isHeldExclusively { return true; }
      if firstWaiter != null { DoSignalAll(firstWaiter, cancels); }
      return false;
    }
  }
}
