/** What the proof of the stack says to its users, and what happens when the tag wraps. */
module StackTheorems {
  import opened Sequences
  import opened StackModel
  import opened StackProof

  /** States of runs in which no pop succeeded on a tag brought back by `n` or more removals. */
  ghost predicate Reached(s: State, n: nat, sched: Schedule) {
    n > 0 && s == Run(Init(n), sched) && !s.wrapped
  }

  lemma ReachedInv(s: State, n: nat, sched: Schedule)
    requires Reached(s, n, sched)
    ensures Inv(s)
  {
    InvInit(n);
    InvRun(Init(n), sched);
  }

  /** Replaying the operations one after the other, in the order in which they took effect, gives
      every operation the result it had and ends with the values now linked from the top. */
  lemma Linearizable(s: State, n: nat, sched: Schedule)
    requires Reached(s, n, sched)
    ensures Replay(s.log) == Some(Values(s.val, s.chain))
    ensures Linked(s.next, s.chain, NULL) && s.top == if s.chain == [] then NULL else s.chain[0]
  {
    ReachedInv(s, n, sched);
  }

  /** A call that has returned took effect exactly once, between its start and now, as an
      operation of its kind; what the functor saw is what that operation removed. */
  lemma TakesEffectOnce(s: State, n: nat, sched: Schedule, t: Tid)
    requires Reached(s, n, sched) && Th(s, t).pc == Done
    ensures var f := Th(s, t);
      exists i :: f.started <= i < |s.log| && s.log[i].t == t && Fits(f.call, s.log[i].op)
              && multiset(f.seen) == multiset(Removed(s.log[i].op))
              && forall j :: f.started <= j < |s.log| && s.log[j].t == t ==> j == i
  {
    hide Replay, Run;
    ReachedInv(s, n, sched);
    assert FrameOk(s, t);
    var f := Th(s, t);
    assert multiset(Values(s.val, [])) == multiset{};
    assert s.log[f.lin].t == t;
  }

  function Singles(t: Tid, vals: seq<Val>): seq<Event>
    decreases |vals|
  {
    if vals == [] then [] else [Event(t, Pushed([vals[0]], 1))] + Singles(t, vals[1..])
  }

  /** A range of which `k` values were pushed has the effect of `k` single pushes in its order. */
  lemma {:induction false} RangeIsSinglePushes(log: seq<Event>, t: Tid, vals: seq<Val>, k: nat)
    requires k <= |vals| && Replay(log).Some?
    ensures Replay(log + [Event(t, Pushed(vals, k))]) == Replay(log + Singles(t, vals[..k]))
    decreases k
  {
    hide Replay, PushAll, Apply;
    if k == 0 {
      PushNothing(log, t, vals);
      assert log + Singles(t, vals[..0]) == log;
    } else {
      RangeStep(log, t, vals, k);
      RangeIsSinglePushes(log + [Event(t, Pushed([vals[0]], 1))], t, vals[1..], k - 1);
      SinglesStep(log, t, vals, k);
    }
  }

  lemma PushNothing(log: seq<Event>, t: Tid, vals: seq<Val>)
    requires Replay(log).Some?
    ensures Replay(log + [Event(t, Pushed(vals, 0))]) == Replay(log)
  {
    ReplayLast(log, Event(t, Pushed(vals, 0)));
  }

  lemma SinglesStep(log: seq<Event>, t: Tid, vals: seq<Val>, k: nat)
    requires 0 < k <= |vals|
    ensures log + Singles(t, vals[..k]) == (log + [Event(t, Pushed([vals[0]], 1))]) + Singles(t, vals[1..][..k - 1])
  {
    assert vals[..k][1..] == vals[1..][..k - 1] && vals[..k][0] == vals[0];
  }

  lemma RangeStep(log: seq<Event>, t: Tid, vals: seq<Val>, k: nat)
    requires 0 < k <= |vals| && Replay(log).Some?
    ensures var l := log + [Event(t, Pushed([vals[0]], 1))];
      && Replay(l).Some?
      && Replay(log + [Event(t, Pushed(vals, k))]) == Replay(l + [Event(t, Pushed(vals[1..], k - 1))])
  {
    hide Replay;
    var l := log + [Event(t, Pushed([vals[0]], 1))];
    ReplayLast(log, Event(t, Pushed([vals[0]], 1)));
    ReplayLast(log, Event(t, Pushed(vals, k)));
    ReplayLast(l, Event(t, Pushed(vals[1..], k - 1)));
    var s := Replay(log).value;
    assert [vals[0]][..1] == [vals[0]] && [vals[0]][1..] == [];
    assert PushAll(s, [vals[0]]) == PushAll([vals[0]] + s, []) == [vals[0]] + s;
    assert vals[..k][1..] == vals[1..][..k - 1] && vals[..k][0] == vals[0];
  }

  function PushedBy(op: Op): seq<Val> {
    if op.Pushed? && op.taken <= |op.vals| then op.vals[..op.taken] else []
  }

  function AllPushed(log: seq<Event>): multiset<Val> {
    if log == [] then multiset{} else AllPushed(log[..|log| - 1]) + multiset(PushedBy(log[|log| - 1].op))
  }

  function AllRemoved(log: seq<Event>): multiset<Val> {
    if log == [] then multiset{} else AllRemoved(log[..|log| - 1]) + multiset(Removed(log[|log| - 1].op))
  }

  lemma {:induction false} PushAllKeeps(s: seq<Val>, vals: seq<Val>)
    ensures multiset(PushAll(s, vals)) == multiset(s) + multiset(vals)
    decreases |vals|
  {
    if vals != [] {
      PushAllKeeps([vals[0]] + s, vals[1..]);
      assert vals == [vals[0]] + vals[1..];
    }
  }

  lemma ApplyConserves(s: seq<Val>, op: Op)
    requires Apply(s, op).Some?
    ensures multiset(s) + multiset(PushedBy(op)) == multiset(Removed(op)) + multiset(Apply(s, op).value)
  {
    match op
    case Pushed(vals, k) => PushAllKeeps(s, vals[..k]);
    case Popped(v) => assert s == [s[0]] + s[1..];
    case Empty =>
    case Detached(vs) =>
  }

  lemma Exchange(
      a: multiset<Val>, b: multiset<Val>, s: multiset<Val>, p: multiset<Val>, r: multiset<Val>, s': multiset<Val>)
    requires a == b + s && s + p == r + s'
    ensures a + p == b + r + s'
  {
    assert b + s + p == b + (s + p);
  }

  lemma {:induction false} ReplayConserves(log: seq<Event>)
    requires Replay(log).Some?
    ensures AllPushed(log) == AllRemoved(log) + multiset(Replay(log).value)
    decreases |log|
  {
    hide PushedBy, Removed, Apply;
    if log != [] {
      var rest, e := log[..|log| - 1], log[|log| - 1];
      ReplayConserves(rest);
      var before, after := Replay(rest).value, Replay(log).value;
      ApplyConserves(before, e.op);
      Exchange(AllPushed(rest), AllRemoved(rest), multiset(before), multiset(PushedBy(e.op)),
               multiset(Removed(e.op)), multiset(after));
    }
  }

  /** Nothing is lost or made up: what was pushed is what was removed and what is still there. */
  lemma Conservation(s: State, n: nat, sched: Schedule)
    requires Reached(s, n, sched)
    ensures AllPushed(s.log) == AllRemoved(s.log) + multiset(Values(s.val, s.chain))
  {
    ReachedInv(s, n, sched);
    ReplayConserves(s.log);
  }

  /** A node is in the pool, on the stack or with one thread, so what a thread gives back to the
      pool was not there and is not reachable by anyone else. */
  lemma NodesApart(s: State, n: nat, sched: Schedule, t: Tid, u: Tid, r: Ref)
    requires Reached(s, n, sched) && r in Th(s, t).mine
    ensures r in s.used && r !in s.chain && (u != t ==> r !in Th(s, u).mine)
  {
    ReachedInv(s, n, sched);
    assert FrameOk(s, t);
  }

  /** The chain a bulk removal takes is linked from the node it loaded to null, which is what the
      consuming loops start from. */
  lemma DetachedIsLinked(s: State, n: nat, sched: Schedule, t: Tid)
    requires Reached(s, n, sched)
    requires var f := Th(s, t); f.pc == Drain && f.call.TakeAll? && f.seen == [] && !f.relinked
    ensures var f := Th(s, t);
      f.mine != [] && f.mine[0] == f.oldPtr && Distinct(f.mine) && Linked(s.next, f.mine, NULL)
  {
    ReachedInv(s, n, sched);
    assert FrameOk(s, t);
  }

  /** A pop that is about to succeed leaves a proper stack exactly if the link it read is the
      present link of the top, and it is when fewer than `n` removals happened since its load. */
  lemma PopReadsTrueNext(s: State, n: nat, sched: Schedule, t: Tid)
    requires Reached(s, n, sched) && t != 0
    requires var f := Th(s, t); f.pc == PopCas && Unchanged(s, f)
    ensures var f := Th(s, t); ChainOk(Step(s, t, Go)) <==> f.nx == Next(s, s.top)
    ensures var f := Th(s, t); s.removed - f.since < n ==> f.nx == Next(s, s.top)
  {
    hide Replay, Run, Apart;
    ReachedInv(s, n, sched);
    assert FrameOk(s, t);
    var f, u := Th(s, t), Step(s, t, Go);
    assert s.chain != [];
    assert LinkAt(s.next, s.chain, NULL, 0);
    assert u.chain == s.chain[1..] && u.top == f.nx && u.next == s.next && u.used == s.used;
    if f.nx == Next(s, s.top) { PopChain(s, u); }
    if s.removed - f.since < n { PopIsRight(s, t); }
  }
}
