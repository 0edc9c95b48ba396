/** The lock queue of AqsModel runs inside ConditionModel: every step of every one of its threads is
    one of the moves of thread 0, so what module ConditionTheorems proves holds whatever else happens
    to the queue, the transfers of other conditions included. */
module ConditionEnvironment {
  import opened ConditionModel
  import opened ConditionProof
  import A = AqsModel
  import Q = AqsQueue
  import P = AqsPreserve

  ghost predicate SameNode(a: A.Mem, m: Mem, r: Ref) {
    Ws(m, r) == A.Ws(a, r) && PrevOf(m, r) == A.Prev(a, r) && NextOf(m, r) == A.Next(a, r)
  }

  /** The move that performs a write. */
  function MoveFor(a: A.Mem, e: A.Effect): Choice {
    match e
    case Alloc | AllocWaiting => EnvAlloc
    case InitHead => EnvInitHead
    case WriteHead(r) => if r in a.ord then EnvHead(a.ord[r]) else Go
    case WriteTail(r) => if a.tail == NULL then EnvInitTail else if r in a.ord then EnvTail(a.ord[r]) else Go
    case Append(r) => EnvAppend(r)
    case WriteStatus(r, v) => EnvStatus(r, v)
    case WritePrev(r, v) =>
      if r in a.ord then EnvPrev(a.ord[r], if v in a.ord then a.ord[v] else -1) else EnvFreshPrev(r, v)
    case WriteNext(r, v) => EnvNext(r, v)
    case _ => Go
  }

  /** The queue of `m` is that of `a`; nodes of conditions that are not queued yet are unknown to `a`. */
  ghost predicate SameQueue(a: A.Mem, m: Mem) {
    && m.head == a.head && m.tail == a.tail && m.log == a.log && m.nextRef == a.nextRef
    && (forall r :: r in m.log || r !in m.own ==> SameNode(a, m, r))
    && (forall r :: r in m.own && r !in m.log ==> A.Own(a, r) == 0)
  }

  /** What a write needs for its move to be possible. */
  ghost predicate Possible(a: A.Mem, t: Tid, e: A.Effect, m: Mem) {
    && Q.Shape(a) && P.Legit(a, t, e) && t != 0 && Numbered(m) && SameQueue(a, m)
    && (e.WriteTail? && a.tail == NULL ==> m.envInit)
    && (e.WriteStatus? ==> e.ws != CONDITION)
  }

  /** Queued is the same in both machines. */
  lemma Queued(a: A.Mem, r: Ref)
    requires Q.Numbered(a)
    ensures r in a.log <==> r in a.ord
    ensures r in a.ord ==> a.ord[r] < |a.log| && a.log[a.ord[r]] == r
  {
    if r in a.log {
      var i :| 0 <= i < |a.log| && a.log[i] == r;
      assert a.log[i] in a.ord;
    }
  }

  // For each kind of write: the move, and then the nodes.

  lemma EndsMoves(a: A.Mem, t: Tid, e: A.Effect, m: Mem)
    requires Possible(a, t, e, m) && (e.WriteHead? || e.WriteTail?)
    ensures var w := ActEnv(m, MoveFor(a, e)); var b := A.Write(a, t, e);
      && w == m.(head := b.head, tail := b.tail, envInit := w.envInit)
      && b == a.(head := b.head, tail := b.tail, heads := b.heads)
  {
    hide Q.LinksOk, SameNode;
    match e
    case WriteHead(r) => Queued(a, r);
    case WriteTail(r) => Queued(a, r);
  }

  lemma EndsMove(a: A.Mem, t: Tid, e: A.Effect, m: Mem)
    requires Possible(a, t, e, m) && (e.WriteHead? || e.WriteTail?)
    ensures SameQueue(A.Write(a, t, e), ActEnv(m, MoveFor(a, e)))
  {
    hide Q.Shape, P.Legit, Numbered, ActEnv, MoveFor, A.Write, SameNode;
    EndsMoves(a, t, e, m);
    SameNodes(a, A.Write(a, t, e), m, ActEnv(m, MoveFor(a, e)));
  }

  /** Fields of nodes that did not change. */
  lemma SameNodes(a: A.Mem, b: A.Mem, m: Mem, w: Mem)
    requires b.ws == a.ws && b.prev == a.prev && b.next == a.next && b.own == a.own
    requires w.ws == m.ws && w.prev == m.prev && w.next == m.next
    ensures forall r :: SameNode(a, m, r) ==> SameNode(b, w, r)
    ensures forall r :: A.Own(b, r) == A.Own(a, r)
  {
  }

  lemma AllocMove(a: A.Mem, t: Tid, e: A.Effect, m: Mem)
    requires Possible(a, t, e, m) && (e.Alloc? || e.AllocWaiting?)
    ensures SameQueue(A.Write(a, t, e), ActEnv(m, EnvAlloc))
  {
    hide Q.Shape, P.Legit, SameNode;
    var b, w := A.Write(a, t, e), ActEnv(m, EnvAlloc);
    SameNodes(a, b.(own := a.own), m, w);
    forall r | r in w.log || r !in w.own
      ensures SameNode(b, w, r)
    {
      assert SameNode(a, m, r);
      SameFields(b.(own := a.own), b, w, r);
    }
  }

  lemma SameFields(a: A.Mem, b: A.Mem, m: Mem, r: Ref)
    requires SameNode(a, m, r) && b.ws == a.ws && b.prev == a.prev && b.next == a.next
    ensures SameNode(b, m, r)
  {
  }

  lemma InitHeadMove(a: A.Mem, t: Tid, m: Mem)
    requires Possible(a, t, A.InitHead, m) && a.head == NULL
    ensures SameQueue(A.Write(a, t, A.InitHead), ActEnv(m, EnvInitHead))
  {
    hide Q.Shape, P.Legit, SameNode;
    var b, w, d := A.Write(a, t, A.InitHead), ActEnv(m, EnvInitHead), a.nextRef;
    FreshRef(a, m);
    forall r | r in w.log || r !in w.own
      ensures SameNode(b, w, r)
    {
      assert SameNode(a, m, r);
      DummyFields(a, b, m, w, r);
    }
  }

  lemma FreshRef(a: A.Mem, m: Mem)
    requires Q.Shape(a) && Numbered(m) && SameQueue(a, m)
    ensures m.nextRef !in m.own && PrevOf(m, m.nextRef) == NULL
  {
    hide Q.LinksOk, Q.EndsOk;
    assert SameNode(a, m, a.nextRef) && A.Prev(a, a.nextRef) == NULL;
  }

  lemma DummyFields(a: A.Mem, b: A.Mem, m: Mem, w: Mem, r: Ref)
    requires SameNode(a, m, r) && b.ws == a.ws && b.prev == a.prev && b.next == a.next
    requires w.ws == m.ws && w.next == m.next && w.prev == m.prev[m.nextRef := NULL] && PrevOf(m, m.nextRef) == NULL
    ensures SameNode(b, w, r)
  {
  }

  lemma AppendMove(a: A.Mem, t: Tid, r: Ref, m: Mem)
    requires Possible(a, t, A.Append(r), m)
    ensures SameQueue(A.Write(a, t, A.Append(r)), ActEnv(m, EnvAppend(r)))
  {
    hide Q.LinksOk;
    var b, w := A.Write(a, t, A.Append(r)), ActEnv(m, EnvAppend(r));
    Queued(a, r);
    assert r !in m.own && SameNode(a, m, r);
    forall x | x in w.log || x !in w.own
      ensures SameNode(b, w, x)
    {
      assert SameNode(a, m, x);
    }
  }

  lemma StatusMoves(a: A.Mem, t: Tid, r: Ref, v: int, m: Mem)
    requires Possible(a, t, A.WriteStatus(r, v), m)
    ensures ActEnv(m, EnvStatus(r, v)) == m.(ws := m.ws[r := v])
  {
    hide Q.LinksOk, Q.EndsOk, SameNode;
    Queued(a, r);
  }

  lemma StatusMove(a: A.Mem, t: Tid, r: Ref, v: int, m: Mem)
    requires Possible(a, t, A.WriteStatus(r, v), m)
    ensures SameQueue(A.Write(a, t, A.WriteStatus(r, v)), ActEnv(m, EnvStatus(r, v)))
  {
    hide Q.Shape, P.Legit, ActEnv, Numbered;
    StatusMoves(a, t, r, v, m);
    var b, w := A.Write(a, t, A.WriteStatus(r, v)), m.(ws := m.ws[r := v]);
    forall x | x in w.log || x !in w.own
      ensures SameNode(b, w, x)
    {
      assert SameNode(a, m, x);
    }
  }

  lemma NextMoves(a: A.Mem, t: Tid, r: Ref, v: Ref, m: Mem)
    requires Possible(a, t, A.WriteNext(r, v), m)
    ensures ActEnv(m, EnvNext(r, v)) == m.(next := m.next[r := v])
  {
    hide Q.LinksOk, Q.EndsOk, SameNode;
    Queued(a, r);
  }

  lemma NextMove(a: A.Mem, t: Tid, r: Ref, v: Ref, m: Mem)
    requires Possible(a, t, A.WriteNext(r, v), m)
    ensures SameQueue(A.Write(a, t, A.WriteNext(r, v)), ActEnv(m, EnvNext(r, v)))
  {
    hide Q.Shape, P.Legit, ActEnv, Numbered;
    NextMoves(a, t, r, v, m);
    var b, w := A.Write(a, t, A.WriteNext(r, v)), m.(next := m.next[r := v]);
    forall x | x in w.log || x !in w.own
      ensures SameNode(b, w, x)
    {
      assert SameNode(a, m, x);
    }
  }

  lemma PrevMoves(a: A.Mem, t: Tid, r: Ref, v: Ref, m: Mem)
    requires Possible(a, t, A.WritePrev(r, v), m)
    ensures ActEnv(m, MoveFor(a, A.WritePrev(r, v))) == m.(prev := m.prev[r := v])
  {
    hide Q.LinksOk, Q.EndsOk, SameNode;
    Queued(a, r);
    Queued(a, v);
  }

  lemma PrevMove(a: A.Mem, t: Tid, r: Ref, v: Ref, m: Mem)
    requires Possible(a, t, A.WritePrev(r, v), m)
    ensures SameQueue(A.Write(a, t, A.WritePrev(r, v)), ActEnv(m, MoveFor(a, A.WritePrev(r, v))))
  {
    hide Q.Shape, P.Legit, ActEnv, MoveFor, Numbered;
    PrevMoves(a, t, r, v, m);
    var b, w := A.Write(a, t, A.WritePrev(r, v)), m.(prev := m.prev[r := v]);
    forall x | x in w.log || x !in w.own
      ensures SameNode(b, w, x)
    {
      assert SameNode(a, m, x);
    }
  }

  /** The other writes do not touch the queue. */
  lemma NoMove(a: A.Mem, t: Tid, e: A.Effect, m: Mem)
    requires SameQueue(a, m) && (e.Nothing? || e.SetState? || e.Claim? || e.ClearThread? || e.Unpark? || e.TakePermit?)
    ensures SameQueue(A.Write(a, t, e), ActEnv(m, MoveFor(a, e)))
  {
    forall x | x in m.log || x !in m.own
      ensures SameNode(A.Write(a, t, e), m, x)
    {
      assert SameNode(a, m, x);
    }
  }

  /** The move does to the queue what the write does. */
  lemma MoveWrites(a: A.Mem, t: Tid, e: A.Effect, m: Mem)
    requires Possible(a, t, e, m)
    ensures SameQueue(A.Write(a, t, e), ActEnv(m, MoveFor(a, e)))
  {
    hide Q.Shape, SameQueue, A.Write, ActEnv;
    match e
    case InitHead => InitHeadMove(a, t, m);
    case Append(r) => AppendMove(a, t, r, m);
    case WriteStatus(r, v) => StatusMove(a, t, r, v, m);
    case WritePrev(r, v) => PrevMove(a, t, r, v, m);
    case WriteNext(r, v) => NextMove(a, t, r, v, m);
    case Alloc => AllocMove(a, t, e, m);
    case AllocWaiting => AllocMove(a, t, e, m);
    case WriteHead(_) => EndsMove(a, t, e, m);
    case WriteTail(_) => EndsMove(a, t, e, m);
    case _ => NoMove(a, t, e, m);
  }

  // ---- Steps and runs

  lemma StatusValues(a: A.Mem, t: Tid, f: A.Frame, c: A.Choice)
    ensures var (g, e) := A.Act(a, t, f, c); e.WriteStatus? ==> e.ws in {A.CANCELLED, 0, A.SIGNAL, A.PROPAGATE}
  {
  }

  lemma TailOnce(a: A.Mem, t: Tid, f: A.Frame, c: A.Choice)
    requires Q.Initialising(f.pc) && A.Act(a, t, f, c).1.WriteTail?
    ensures !Q.Initialising(A.Act(a, t, f, c).0.pc)
  {
  }

  /** `x` is queued and its thread, in await, has not found it yet. */
  ghost predicate Sought(u: State, x: Ref) {
    x in u.m.log && x in u.m.own && Unaware(Th(u, u.m.own[x]), x)
  }

  /** A transferred node that is behind head and not cancelled. */
  ghost predicate Queuing(a: A.Mem, x: Ref) { Q.BehindHead(a, x) && A.Ws(a, x) <= 0 && x in a.mover }

  /** The queues are the same, and so are the threads that create the queue; in `s` the nodes that
      waiters of `u` are looking for are transferred nodes behind head. */
  ghost predicate Mirrors(s: A.State, u: State) {
    && SameQueue(s.m, u.m)
    && (forall t :: Q.Initialising(A.Th(s, t).pc) ==> u.m.envInit)
    && (forall x :: Sought(u, x) ==> Queuing(s.m, x))
  }

  function MoveOf(s: A.State, t: Tid, c: A.Choice): Choice {
    if t == 0 then Go else MoveFor(s.m, A.Act(s.m, t, A.Th(s, t), c).1)
  }

  /** The step makes a node the head that its waiter in `u` is still looking for: the waiter has to find
      it first, and does so in ConditionModel. */
  ghost predicate Overtakes(s: A.State, t: Tid, c: A.Choice, u: State) {
    t != 0 && var e := A.Act(s.m, t, A.Th(s, t), c).1; e.WriteHead? && Sought(u, e.r)
  }

  /** Whatever a thread of the lock queue does in a reachable state, thread 0 does it in any state of
      the condition with the same queue. */
  lemma StepIsAMove(s: A.State, t: Tid, c: A.Choice, u: State)
    requires Q.Inv(s) && Inv(u) && Mirrors(s, u) && !Overtakes(s, t, c, u)
    ensures Mirrors(A.Step(s, t, c), Step(u, 0, MoveOf(s, t, c)))
  {
    hide Q.Shape, SameQueue, A.Act, A.Write, A.StaleSignal, Numbered, Q.Owned, ActEnv, MoveFor, Inv, Sought, Queuing,
      KeepsWaiters;
    NumberedFrom(u);
    if t != 0 {
      var f := A.Th(s, t);
      var (g, e) := A.Act(s.m, t, f, c);
      assert Q.ThreadOk(s.m, t, f);
      P.StepThread(s.m, t, f, c);
      StatusValues(s.m, t, f, c);
      InitialisersTail(s, t, c);
      MoveWrites(s.m, t, e, u.m);
      InitialiserMoves(s, t, c, u);
      P.StepFrames(s, t, c);
      P.InvStep(s, t, c);
      MoveKeeps(s.m, t, e, u);
    } else {
      GoStays(u);
    }
  }

  /** The guard on thread 0's moves lets this one pass. */
  lemma MoveKeeps(a: A.Mem, t: Tid, e: A.Effect, u: State)
    requires Possible(a, t, e, u.m) && Inv(u) && (forall x :: Sought(u, x) ==> Queuing(a, x))
    requires e.WriteHead? ==> !Sought(u, e.r)
    requires Q.Shape(A.Write(a, t, e)) && SameQueue(A.Write(a, t, e), ActEnv(u.m, MoveFor(a, e)))
    ensures var v := Step(u, 0, MoveFor(a, e));
      v == u.(m := ActEnv(u.m, MoveFor(a, e))) && forall x :: Sought(v, x) ==> Queuing(A.Write(a, t, e), x)
  {
    hide ActEnv, MoveFor, A.Write, Q.Shape, P.Legit, Found, Inv, Queuing, Unaware;
    var b, w := A.Write(a, t, e), ActEnv(u.m, MoveFor(a, e));
    EnvOwn(u.m, MoveFor(a, e));
    forall x | x in w.log && x in w.own && Unaware(Th(u, w.own[x]), x)
      ensures Queuing(b, x) && Found(w, x)
    {
      assert Sought(u, x);
      QueuingKept(a, t, e, x);
      FoundInQueue(b, w, x);
    }
    assert forall v :: Th(u.(m := w), v) == Th(u, v);
  }

  /** The environment makes no node of the condition, and queues none. */
  lemma EnvOwn(m: Mem, c: Choice)
    requires Numbered(m)
    ensures var w := ActEnv(m, c);
      w.own == m.own && forall x :: x in w.log && x in w.own ==> x in m.log
  {
    hide PrevOf;
  }

  lemma QueuingKept(a: A.Mem, t: Tid, e: A.Effect, x: Ref)
    requires Q.Shape(a) && P.Legit(a, t, e) && Queuing(a, x) && (e.WriteHead? ==> e.r != x)
    ensures Queuing(A.Write(a, t, e), x)
  {
    hide A.Write;
    P.NodeKept(a, t, e, x);
    if e.WriteHead? { Q.LiveNotSkipped(a, a.head, e.r, x); }
  }

  lemma {:induction false} MeetsLive(a: A.Mem, w: Mem, n: Ref, x: Ref, k: nat)
    requires Q.Shape(a) && a.head in a.ord && n in a.ord && x in a.ord && k >= a.ord[n]
    requires a.ord[a.head] <= a.ord[x] <= a.ord[n] && A.Ws(a, x) <= 0
    requires forall y :: y in a.ord ==> PrevOf(w, y) == A.Prev(a, y)
    ensures Meets(w, n, x, k)
    decreases a.ord[n]
  {
    if n != x {
      if a.ord[n] == a.ord[x] { Q.Positions(a, n, x); }
      assert Q.BehindHead(a, n) && A.Behind(a, A.Prev(a, n), n);
      Q.LiveNotSkipped(a, A.Prev(a, n), n, x);
      MeetsLive(a, w, A.Prev(a, n), x, k - 1);
    }
  }

  lemma FoundInQueue(b: A.Mem, w: Mem, x: Ref)
    requires Q.Shape(b) && SameQueue(b, w) && Queuing(b, x)
    ensures Found(w, x)
  {
    forall y | y in b.ord
      ensures PrevOf(w, y) == A.Prev(b, y)
    {
      Queued(b, y);
      assert SameNode(b, w, y);
    }
    hide SameQueue, SameNode;
    assert A.Behind(b, A.Prev(b, x), x);
    assert b.tail != NULL && b.ord[x] <= b.ord[b.tail];
    assert w.tail == b.tail && |w.log| == |b.log| by { SameEnds(b, w); }
    MeetsLive(b, w, b.tail, x, |w.log|);
  }

  lemma SameEnds(b: A.Mem, w: Mem)
    requires SameQueue(b, w)
    ensures w.tail == b.tail && w.log == b.log
  {
  }

  /** A tail written while it is null is written by the thread that initialises. */
  lemma InitialisersTail(s: A.State, t: Tid, c: A.Choice)
    requires Q.Inv(s) && t != 0
    ensures var e := A.Act(s.m, t, A.Th(s, t), c).1;
      e.WriteTail? && s.m.tail == NULL ==> Q.Initialising(A.Th(s, t).pc)
  {
    hide A.Act, Q.LinksOk, Q.EndsOk, Q.Owned, Q.OneInitialiser, Q.LocalsOk;
    P.StepMoves(s.m, t, A.Th(s, t), c);
    assert Q.ThreadOk(s.m, t, A.Th(s, t));
  }

  lemma GoStays(u: State)
    ensures Step(u, 0, Go) == u
  {
    assert u.(m := u.m) == u;
  }

  lemma OthersKeepInit(m: Mem, c: Choice)
    requires c != EnvInitHead && c != EnvInitTail
    ensures ActEnv(m, c).envInit == m.envInit
  {
    hide PrevOf, Fresh;
  }

  lemma MoveKinds(a: A.Mem, e: A.Effect)
    ensures MoveFor(a, e) == EnvInitHead <==> e.InitHead?
    ensures MoveFor(a, e) == EnvInitTail <==> e.WriteTail? && a.tail == NULL
  {
  }

  lemma EnvInitMoves(a: A.Mem, e: A.Effect, m: Mem)
    requires m.head == a.head && m.tail == a.tail && (e.InitHead? ==> a.head == NULL)
    ensures var w := ActEnv(m, MoveFor(a, e));
      w.envInit == if e.InitHead? then true else if e.WriteTail? && a.tail == NULL then false else m.envInit
  {
    MoveKinds(a, e);
    if !e.InitHead? && !(e.WriteTail? && a.tail == NULL) {
      hide ActEnv, MoveFor;
      OthersKeepInit(m, MoveFor(a, e));
    }
  }

  lemma InitialiserMoves(s: A.State, t: Tid, c: A.Choice, z: State)
    requires Q.Inv(s) && t != 0 && Mirrors(s, z) && P.Legit(s.m, t, A.Act(s.m, t, A.Th(s, t), c).1)
    ensures forall u :: Q.Initialising(A.Th(A.Step(s, t, c), u).pc) ==> ActEnv(z.m, MoveOf(s, t, c)).envInit
  {
    var m := z.m;
    hide A.Act, A.Write, A.StaleSignal, Q.Shape, Q.Owned, Q.ThreadOk, ActEnv, MoveFor, Q.Initialising;
    var f, s' := A.Th(s, t), A.Step(s, t, c);
    var (g, e) := A.Act(s.m, t, f, c);
    P.StepMoves(s.m, t, f, c);
    InitialisersTail(s, t, c);
    EnvInitMoves(s.m, e, m);
    if Q.Initialising(f.pc) && e.WriteTail? { TailOnce(s.m, t, f, c); }
    assert A.Th(s', t) == g && forall u :: u != t ==> A.Th(s', u) == A.Th(s, u);
  }

  /** No step of the run overtakes a waiter of `u`. */
  ghost predicate Spares(s: A.State, sched: A.Schedule, u: State)
    decreases |sched|
  {
    sched == [] ||
    (!Overtakes(s, sched[0].0, sched[0].1, u) && Spares(A.Step(s, sched[0].0, sched[0].1), sched[1..], u))
  }

  /** What is sought does not change by thread 0's moves. */
  lemma {:induction false} SparesSame(s: A.State, sched: A.Schedule, u: State, v: State)
    requires Spares(s, sched, u) && forall x :: Sought(v, x) ==> Sought(u, x)
    ensures Spares(s, sched, v)
    decreases |sched|
  {
    hide Sought, A.Step;
    if sched != [] { SparesSame(A.Step(s, sched[0].0, sched[0].1), sched[1..], u, v); }
  }

  lemma SoughtSame(u: State, c: Choice)
    requires Inv(u)
    ensures forall x :: Sought(Step(u, 0, c), x) ==> Sought(u, x)
  {
    hide ActEnv, Unaware, KeepsWaiters, Inv;
    NumberedFrom(u);
    EnvOwn(u.m, c);
    assert forall v :: Th(Step(u, 0, c), v) == Th(u, v);
  }

  /** Every run of the lock queue, from the first contention on, is a run of moves of thread 0 that
      ends with the same queue. */
  lemma {:induction false} RunIsMoves(s: A.State, sched: A.Schedule, u: State) returns (moves: Schedule)
    requires Q.Inv(s) && Inv(u) && Mirrors(s, u) && Spares(s, sched, u)
    ensures forall i :: 0 <= i < |moves| ==> moves[i].0 == 0
    ensures Mirrors(A.Run(s, sched), Run(u, moves))
    decreases |sched|
  {
    hide Q.Inv, Inv, Mirrors, A.Step, MoveOf, Overtakes, Sought, Step;
    if sched == [] {
      moves := [];
    } else {
      var (t, c) := sched[0];
      var move := MoveOf(s, t, c);
      StepIsAMove(s, t, c, u);
      P.InvStep(s, t, c);
      InvStep(u, 0, move);
      SoughtSame(u, move);
      SparesSame(A.Step(s, t, c), sched[1..], u, Step(u, 0, move));
      var rest := RunIsMoves(A.Step(s, t, c), sched[1..], Step(u, 0, move));
      moves := [(0, move)] + rest;
      assert moves[1..] == rest;
    }
  }

  lemma NumberedFrom(u: State)
    requires Inv(u)
    ensures Numbered(u.m)
  {
  }

  lemma MirrorsInit()
    ensures Mirrors(A.Init(A.Mutex, 0), INIT) && forall x :: !Sought(INIT, x)
  {
  }

  lemma {:induction false} NothingSought(s: A.State, sched: A.Schedule, u: State)
    requires forall x :: !Sought(u, x)
    ensures Spares(s, sched, u)
    decreases |sched|
  {
    hide Sought, A.Step;
    if sched != [] { NothingSought(A.Step(s, sched[0].0, sched[0].1), sched[1..], u); }
  }

  /** The lock queue of the Mutex, created and used by acquires and releases, and by waits on other
      conditions of the same lock. */
  lemma QueueRunIsMoves(sched: A.Schedule)
    ensures exists moves: Schedule ::
              (forall i :: 0 <= i < |moves| ==> moves[i].0 == 0)
              && Mirrors(A.Run(A.Init(A.Mutex, 0), sched), Run(INIT, moves))
  {
    hide Mirrors, Q.Inv, Inv, A.Run, Run, Sought;
    P.InvInit(A.Mutex, 0);
    InvInit();
    MirrorsInit();
    NothingSought(A.Init(A.Mutex, 0), sched, INIT);
    var moves := RunIsMoves(A.Init(A.Mutex, 0), sched, INIT);
  }
}
