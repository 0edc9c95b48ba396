/** The lock-free stack of boost/lockfree/stack.hpp as a state machine, and the sequential
    stack it is meant to be.  A step of a thread is one access to the top of the stack or one
    piece of work on memory that no other thread writes.

    The top is a node and a tag; the tag counts removals modulo `n`.  The pool hands out any
    node that nobody uses, and may scribble over the link of a node it holds, since it keeps
    its own links there. */
module StackModel {
  import opened Sequences

  type Ref = int // 0 is the null handle
  type Tid = int
  type Val = int

  const NULL: Ref := 0

  // ---- The sequential stack

  /** One atomic operation: a range of which the first `taken` values were pushed, a pop, a
      pop that found nothing, or the removal of everything. */
  datatype Op =
    | Pushed(vals: seq<Val>, taken: nat)
    | Popped(v: Val)
    | Empty
    | Detached(vs: seq<Val>)

  function PushAll(s: seq<Val>, vals: seq<Val>): seq<Val>
    decreases |vals|
  {
    if vals == [] then s else PushAll([vals[0]] + s, vals[1..])
  }

  function Apply(s: seq<Val>, op: Op): Option<seq<Val>> {
    match op
    case Pushed(vals, k) => if k <= |vals| then Some(PushAll(s, vals[..k])) else None
    case Popped(v) => if s != [] && s[0] == v then Some(s[1..]) else None
    case Empty => if s == [] then Some(s) else None
    case Detached(vs) => if s == vs then Some([]) else None
  }

  datatype Event = Event(t: Tid, op: Op)

  /** The stack after the operations of `log`, if each of them could give its result. */
  function Replay(log: seq<Event>): Option<seq<Val>>
    decreases |log|
  {
    if log == [] then Some([])
    else
      match Replay(log[..|log| - 1])
      case None => None
      case Some(s) => Apply(s, log[|log| - 1].op)
  }

  // ---- The machine

  datatype Call = PushRange(vals: seq<Val>) | PopOne | TakeAll

  datatype Pc =
    | Idle | Alloc | LinkLoad | LinkNext | LinkCas
    | PopLoad | PopNext | PopCas | TakeLoad | TakeCas | Drain | Done

  /** The locals of a call: the nodes the thread alone can reach (of a range being pushed,
      new_top_node first and end_node last), the top it loaded, the link it read, and the values
      passed to the functor so far.  `relinked`, `since`, `started` and `lin` are history: whether
      links of a detached chain have been written, the number of removals at the load, the length of
      the log at the call, and the place of its event. */
  datatype Frame = Frame(
    pc: Pc, call: Call, mine: seq<Ref>, oldPtr: Ref, oldTag: nat, nx: Ref, seen: seq<Val>,
    relinked: bool, since: nat, started: nat, lin: nat)

  const IDLE_FRAME: Frame := Frame(Idle, PopOne, [], NULL, 0, NULL, [], false, 0, 0, 0)

  /** `used` holds the nodes outside the pool.  `chain`, `removed`, `log` and `wrapped` are
      history: the nodes on the stack, the number of removals, the operations that took
      effect, and whether a pop succeeded on a tag that `n` or more removals had brought back. */
  datatype State = State(
    n: nat, top: Ref, tag: nat, next: map<Ref, Ref>, val: map<Ref, Val>, used: set<Ref>,
    chain: seq<Ref>, removed: nat, log: seq<Event>, wrapped: bool, th: map<Tid, Frame>)

  function Init(n: nat): State {
    State(n, NULL, 0, map[], map[], {}, [], 0, [], false, map[])
  }

  function Link(next: map<Ref, Ref>, r: Ref): Ref { if r in next then next[r] else NULL }
  function Next(s: State, r: Ref): Ref { Link(s.next, r) }
  function Value(s: State, r: Ref): Val { if r in s.val then s.val[r] else 0 }
  function Th(s: State, t: Tid): Frame { if t in s.th then s.th[t] else IDLE_FRAME }

  function Values(val: map<Ref, Val>, nodes: seq<Ref>): (vs: seq<Val>)
    ensures |vs| == |nodes|
  {
    seq(|nodes|, i requires 0 <= i < |nodes| => if nodes[i] in val then val[nodes[i]] else 0)
  }

  /** What a thread does where it, the pool or the processor has a choice: the call it makes,
      the node the pool hands out (Use) or its refusal (Refuse), a spurious failure of
      compare_exchange_weak (Fail), a link the reversal writes in a detached node (Relink). */
  datatype Choice =
    | Go | Fail | Refuse | Use(r: Ref) | Begin(call: Call) | Relink(i: nat, to: Ref) | Scribble(node: Ref, link: Ref)

  function Start(s: State, call: Call): Frame {
    IDLE_FRAME.(call := call, started := |s.log|,
    pc := match call case PushRange(_) => Alloc case PopOne => PopLoad case TakeAll => TakeLoad)
  }

  function Loaded(s: State, f: Frame, pc: Pc): Frame {
    f.(pc := pc, oldPtr := s.top, oldTag := s.tag, since := s.removed)
  }

  function Log(s: State, t: Tid, f: Frame, op: Op): State {
    s.(log := s.log + [Event(t, op)], th := s.th[t := f.(lin := |s.log|)])
  }

  function Put(s: State, t: Tid, f: Frame): State { s.(th := s.th[t := f]) }

  function Unchanged(s: State, f: Frame): bool { s.top == f.oldPtr && s.tag == f.oldTag }

  /** What holds of all steps. */
  predicate Onward(s: State, u: State) { u.n == s.n && (s.wrapped ==> u.wrapped) }

  /** prepare_node_list: one more node, linked above those made before. */
  function ActAlloc(s: State, t: Tid, f: Frame, c: Choice): (u: State)
    requires f.call.PushRange?
    ensures Onward(s, u)
  {
    var k := |f.mine|;
    if c.Use? && c.r !in s.used && c.r != NULL && k < |f.call.vals| then
      s.(used := s.used + {c.r}, val := s.val[c.r := f.call.vals[k]],
      next := s.next[c.r := if k == 0 then NULL else f.mine[0]],
      th := s.th[t := f.(mine := [c.r] + f.mine, pc := if k + 1 == |f.call.vals| then LinkLoad else Alloc)])
    else if c == Refuse && k == 0 then Log(s, t, f.(pc := Done), Pushed(f.call.vals, 0))
    else if c == Refuse then Put(s, t, f.(pc := LinkLoad))
    else s
  }

  /** The load of the top at the start of consume_one and after a failed exchange. */
  function LoadForPop(s: State, t: Tid, f: Frame): (u: State)
    ensures Onward(s, u)
  {
    if s.top == NULL then Log(s, t, Loaded(s, f, Done), Empty) else Put(s, t, Loaded(s, f, PopNext))
  }

  function LoadForTake(s: State, t: Tid, f: Frame): (u: State)
    ensures Onward(s, u)
  {
    if s.top == NULL then Log(s, t, Loaded(s, f, Done), Detached([])) else Put(s, t, Loaded(s, f, TakeCas))
  }

  function ActLinkCas(s: State, t: Tid, f: Frame, c: Choice): (u: State)
    requires f.call.PushRange?
    ensures Onward(s, u)
  {
    if c != Fail && Unchanged(s, f) && f.mine != [] then
      Log(s, t, f.(pc := Done, mine := []), Pushed(f.call.vals, |f.mine|))
      .(top := f.mine[0], chain := f.mine + s.chain)
    else Put(s, t, Loaded(s, f, LinkNext))
  }

  function ActPopCas(s: State, t: Tid, f: Frame, c: Choice): (u: State)
    requires s.n > 0
    ensures Onward(s, u)
  {
    if c != Fail && Unchanged(s, f) then
      Log(s, t, f.(pc := Drain, mine := [f.oldPtr]), Popped(Value(s, f.oldPtr)))
      .(top := f.nx, tag := (s.tag + 1) % s.n, removed := s.removed + 1,
      chain := if s.chain == [] then [] else s.chain[1..],
      wrapped := s.wrapped || s.removed - f.since >= s.n)
    else LoadForPop(s, t, f)
  }

  function ActTakeCas(s: State, t: Tid, f: Frame, c: Choice): (u: State)
    requires s.n > 0
    ensures Onward(s, u)
  {
    if c != Fail && Unchanged(s, f) then
      Log(s, t, f.(pc := Drain, mine := s.chain), Detached(Values(s.val, s.chain)))
      .(top := NULL, tag := (s.tag + 1) % s.n, removed := s.removed + 1, chain := [])
    else LoadForTake(s, t, f)
  }

  /** The functor sees a node the thread has taken off the stack, and the node goes back to the
      pool, or the thread writes the link of such a node; which one is next, and which link it gets,
      is the business of the loops in module StackBulk. */
  function ActDrain(s: State, t: Tid, f: Frame, c: Choice): (u: State)
    ensures Onward(s, u)
  {
    if f.mine == [] then Put(s, t, f.(pc := Done))
    else if c.Use? && 0 <= c.r < |f.mine| then
      var r := f.mine[c.r];
      s.(used := s.used - {r},
      th := s.th[t := f.(seen := f.seen + [Value(s, r)], mine := f.mine[..c.r] + f.mine[c.r + 1..])])
    else if c.Relink? && c.i < |f.mine| && f.call.TakeAll? then
      s.(next := s.next[f.mine[c.i] := c.to], th := s.th[t := f.(relinked := true)])
    else s
  }

  /** One step of thread `t`; as thread 0, the pool writes to a node it holds. */
  function Step(s: State, t: Tid, c: Choice): (u: State)
    requires s.n > 0
    ensures Onward(s, u)
  {
    var f := Th(s, t);
    if t == 0 then
      if c.Scribble? && c.node !in s.used then s.(next := s.next[c.node := c.link]) else s
    else
      match f.pc
      case Idle =>
        if c.Begin? && (c.call.PushRange? ==> c.call.vals != []) then Put(s, t, Start(s, c.call)) else s
      case Alloc => if f.call.PushRange? then ActAlloc(s, t, f, c) else s
      case LinkLoad => Put(s, t, Loaded(s, f, LinkNext))
      case LinkNext =>
        if f.mine == [] then s
        else s.(next := s.next[f.mine[|f.mine| - 1] := f.oldPtr], th := s.th[t := f.(pc := LinkCas)])
      case LinkCas => if f.call.PushRange? then ActLinkCas(s, t, f, c) else s
      case PopLoad => LoadForPop(s, t, f)
      case PopNext => Put(s, t, f.(pc := PopCas, nx := Next(s, f.oldPtr)))
      case PopCas => ActPopCas(s, t, f, c)
      case TakeLoad => LoadForTake(s, t, f)
      case TakeCas => ActTakeCas(s, t, f, c)
      case Drain => ActDrain(s, t, f, c)
      case Done => Put(s, t, f.(pc := Idle))
  }

  type Schedule = seq<(Tid, Choice)>

  function Run(s: State, sched: Schedule): (u: State)
    requires s.n > 0
    ensures u.n == s.n
    decreases |sched|
  {
    if sched == [] then s else Run(Step(s, sched[0].0, sched[0].1), sched[1..])
  }
}
