/** What the queue invariant gives: the chain of prev links, the backward scan, the order
    of service, and mutual exclusion for the Mutex. */
module AqsTheorems {
  import opened AqsModel
  import opened AqsQueue
  import opened AqsPreserve

  ghost predicate Reachable(s: State) {
    exists kind, st, sched: Schedule :: s == Run(Init(kind, st), sched)
  }

  lemma ReachableInv(s: State)
    requires Reachable(s)
    ensures Inv(s)
  {
    hide Inv;
    var kind, st, sched: Schedule :| s == Run(Init(kind, st), sched);
    InvInit(kind, st);
    InvRun(Init(kind, st), sched);
  }

  // ------------------------------------------------------------- the prev chain

  /** Following prev from a queued node at or behind head meets every live node at or
      behind head that was queued no later. */
  lemma {:induction false} ChainMeetsLive(m: Mem, n: Ref, k: Ref)
    requires Shape(m) && m.head in m.ord && n in m.ord && k in m.ord
    requires m.ord[m.head] <= m.ord[k] <= m.ord[n] && Ws(m, k) <= 0
    ensures Reaches(m.prev, m.ord, n, k)
    decreases m.ord[n]
  {
    if n == k {
    } else {
      if m.ord[n] == m.ord[k] { Positions(m, n, k); }
      assert BehindHead(m, n) && Behind(m, Prev(m, n), n);
      LiveNotSkipped(m, Prev(m, n), n, k);
      assert n in m.prev;
      ChainMeetsLive(m, Prev(m, n), k);
    }
  }

  /** The chain from tail is finite, ends at head, which is not cancelled, and holds every
      enqueued live node behind head. */
  lemma QueueIntegrity(s: State, k: Ref)
    requires Reachable(s) && s.m.tail != NULL
    ensures s.m.head in s.m.ord && Ws(s.m, s.m.head) != CANCELLED
    ensures Reaches(s.m.prev, s.m.ord, s.m.tail, s.m.head)
    ensures BehindHead(s.m, k) && Ws(s.m, k) <= 0 ==>
              Reaches(s.m.prev, s.m.ord, s.m.tail, k) && Reaches(s.m.prev, s.m.ord, k, s.m.head)
  {
    ReachableInv(s);
    var m := s.m;
    ChainMeetsLive(m, m.tail, m.head);
    if BehindHead(m, k) && Ws(m, k) <= 0 {
      if m.ord[k] > m.ord[m.tail] { assert false; }
      ChainMeetsLive(m, m.tail, k);
      ChainMeetsLive(m, k, m.head);
    }
  }

  lemma Predecessors(m: Mem, t: Tid, f: Frame)
    requires Shape(m) && ThreadOk(m, t, f)
    ensures
      && (f.pc == Wait(AqReadPrev) || f.pc == Quit(CaReadPrev) ==> Prev(m, f.n) != NULL)
      && (f.pc == Wait(SpReadPrev) || f.pc == Quit(CaSkipRead) ==> f.p != NULL && Prev(m, f.p) != NULL)
      && (f.pc == Wait(SpWritePrev) || f.pc == Quit(CaSkipWrite) ==> f.x != NULL)
  {
    hide Shape, Behind;
    if f.pc.Wait? || f.pc.Quit? {
      SeesPrev(m, t, f);
      PrevNotNull(m, f.n);
      if Prev(m, f.n) == f.p && Ws(m, f.p) == CANCELLED { Skips(m, f.n, f.p); }
    }
  }

  lemma PrevNotNull(m: Mem, n: Ref)
    requires Shape(m) && Behind(m, Prev(m, n), n)
    ensures Prev(m, n) != NULL
  {
  }

  lemma Skips(m: Mem, n: Ref, p: Ref)
    requires Shape(m) && BehindHead(m, n) && Prev(m, n) == p && Ws(m, p) == CANCELLED
    ensures p != NULL && Prev(m, p) != NULL
  {
    SkipOk(m, n, p);
  }

  /** predecessor() in the acquire loops never throws, and the loops that skip cancelled
      predecessors never dereference null. */
  lemma PredecessorsExist(s: State, t: Tid)
    requires Reachable(s)
    ensures var f := Th(s, t);
      && (f.pc == Wait(AqReadPrev) || f.pc == Quit(CaReadPrev) ==> Prev(s.m, f.n) != NULL)
      && (f.pc == Wait(SpReadPrev) || f.pc == Quit(CaSkipRead) ==> f.p != NULL && Prev(s.m, f.p) != NULL)
      && (f.pc == Wait(SpWritePrev) || f.pc == Quit(CaSkipWrite) ==> f.x != NULL)
  {
    hide Reachable, Owned, OneInitialiser, ThreadOk, Shape;
    ReachableInv(s);
    assert ThreadOk(s.m, t, Th(s, t));
    Predecessors(s.m, t, Th(s, t));
  }

  /** The scan of unparkSuccessor run without interruption, from cursor `c` with candidate `s`. */
  ghost function Scan(m: Mem, c: Ref, y: Ref, s: Ref): Ref
    requires Numbered(m)
    decreases if c in m.ord then m.ord[c] + 1 else 0
  {
    if c == NULL || c == y || c !in m.ord then s
    else
      var s' := if Ws(m, c) <= 0 then c else s;
      var p := Prev(m, c);
      if p in m.ord && m.ord[p] < m.ord[c] then Scan(m, p, y, s') else s'
  }

  /** `n` is the first live node behind `y`. */
  ghost predicate FirstLiveBehind(m: Mem, y: Ref, n: Ref) {
    Behind(m, y, n) && Ws(m, n) <= 0
  }

  lemma {:induction false} ScanBelow(m: Mem, c: Ref, y: Ref, n: Ref)
    requires Shape(m) && m.head in m.ord && FirstLiveBehind(m, y, n)
    requires y in m.ord && m.ord[m.head] <= m.ord[y]
    requires c in m.ord && m.ord[c] < m.ord[n] && Reaches(m.prev, m.ord, c, y)
    ensures Scan(m, c, y, n) == n
    decreases m.ord[c]
  {
    if c != y {
      ReachesDown(m, c, y);
      assert BehindHead(m, c) && Behind(m, Prev(m, c), c);
      ScanBelow(m, Prev(m, c), y, n);
    }
  }

  lemma ReachesDown(m: Mem, n: Ref, y: Ref)
    requires n in m.ord && Reaches(m.prev, m.ord, n, y)
    ensures y in m.ord && m.ord[y] <= m.ord[n]
    decreases m.ord[n]
  {
    if n != y { ReachesDown(m, m.prev[n], y); }
  }

  lemma {:induction false} ScanAbove(m: Mem, c: Ref, y: Ref, n: Ref, s: Ref)
    requires Shape(m) && m.head in m.ord && FirstLiveBehind(m, y, n)
    requires m.ord[m.head] <= m.ord[y] && Reaches(m.prev, m.ord, n, y)
    requires c in m.ord && m.ord[n] <= m.ord[c]
    ensures Scan(m, c, y, s) == n
    decreases m.ord[c]
  {
    assert BehindHead(m, c) && Behind(m, Prev(m, c), c);
    var p := Prev(m, c);
    if c == n {
      ScanBelow(m, p, y, n);
    } else {
      if m.ord[c] == m.ord[n] { Positions(m, c, n); }
      LiveNotSkipped(m, p, c, n);
      ScanAbove(m, p, y, n, if Ws(m, c) <= 0 then c else s);
    }
  }

  /** However far the next links lag, the scan from tail finds the first live node behind
      any node that is on the chain. */
  lemma ScanFindsSuccessor(s: State, y: Ref, n: Ref)
    requires Reachable(s) && s.m.tail != NULL
    requires s.m.head in s.m.ord && y in s.m.ord && s.m.ord[s.m.head] <= s.m.ord[y]
    requires FirstLiveBehind(s.m, y, n) && Reaches(s.m.prev, s.m.ord, s.m.tail, y)
    ensures Numbered(s.m) && Scan(s.m, s.m.tail, y, NULL) == n
  {
    ReachableInv(s);
    var m := s.m;
    if m.ord[n] > m.ord[m.tail] { assert false; }
    ChainMeetsLive(m, m.tail, n);
    ReachesSplit(m, m.tail, n, y);
    ScanAbove(m, m.tail, y, n, NULL);
  }

  /** Two nodes on one chain: the later one reaches the earlier one. */
  lemma {:induction false} ReachesSplit(m: Mem, c: Ref, n: Ref, y: Ref)
    requires c in m.ord && n in m.ord && y in m.ord && m.ord[y] < m.ord[n]
    requires Reaches(m.prev, m.ord, c, n) && Reaches(m.prev, m.ord, c, y)
    ensures Reaches(m.prev, m.ord, n, y)
    decreases m.ord[c]
  {
    if c != n {
      ReachesDown(m, m.prev[c], n);
      ReachesSplit(m, m.prev[c], n, y);
    }
  }

  // --------------------------------------------------------------- order of service

  /** The first `i` nodes of the enqueuing order with the cancelled ones left out. */
  ghost function Served(m: Mem, i: nat): seq<Ref>
    requires i <= |m.log|
  {
    if i == 0 then []
    else Served(m, i - 1) + if Ws(m, m.log[i - 1]) == CANCELLED then [] else [m.log[i - 1]]
  }

  /** Nodes became head in the order of their tail CASes, the cancelled ones left out. */
  ghost predicate FifoOk(m: Mem) {
    if m.head == NULL then m.heads == []
    else m.head in m.ord && m.ord[m.head] < |m.log| && m.heads == Served(m, m.ord[m.head] + 1)
  }

  lemma {:induction false} ServedSame(m: Mem, m': Mem, i: nat)
    requires i <= |m.log| && m.log <= m'.log
    requires forall j :: 0 <= j < i ==> (Ws(m, m.log[j]) == CANCELLED <==> Ws(m', m.log[j]) == CANCELLED)
    ensures Served(m', i) == Served(m, i)
  {
    if i > 0 {
      ServedSame(m, m', i - 1);
      assert Ws(m, m.log[i - 1]) == CANCELLED <==> Ws(m', m.log[i - 1]) == CANCELLED;
    }
  }

  lemma {:induction false} ServedGap(m: Mem, lo: nat, hi: nat)
    requires Numbered(m) && lo < hi <= |m.log| && Gap(m, lo, hi)
    ensures Served(m, hi) == Served(m, lo + 1)
  {
    if lo + 1 < hi {
      ServedGap(m, lo, hi - 1);
      assert Ws(m, m.log[hi - 1]) == CANCELLED;
    }
  }

  lemma HeadGap(m: Mem, r: Ref)
    requires LinksOk(m) && BehindHead(m, r) && Prev(m, r) == m.head
    ensures Gap(m, m.ord[m.head], m.ord[r])
  {
  }

  lemma FifoWriteHead(m: Mem, t: Tid, r: Ref)
    requires Shape(m) && Legit(m, t, WriteHead(r)) && FifoOk(m)
    ensures FifoOk(Write(m, t, WriteHead(r)))
  {
    hide LinksOk, Gap;
    var m' := Write(m, t, WriteHead(r));
    HeadGap(m, r);
    ServedGap(m, m.ord[m.head], m.ord[r]);
    ServedSame(m, m', m.ord[r] + 1);
    assert m.log[m.ord[r]] == r && Ws(m, r) != CANCELLED;
  }

  lemma FifoInitHead(m: Mem, t: Tid)
    requires Shape(m) && m.head == NULL && FifoOk(m)
    ensures FifoOk(Write(m, t, InitHead))
  {
    var m' := Write(m, t, InitHead);
    assert m'.log == [m.nextRef] && m'.heads == [m.nextRef];
    assert m.nextRef !in m.ord && Ws(m, m.nextRef) == 0;
    assert Ws(m', m'.log[0]) == 0;
    assert Served(m', 1) == Served(m', 0) + [m.nextRef];
  }

  lemma WhatIsLegit(m: Mem, t: Tid, e: Effect)
    requires Legit(m, t, e)
    ensures e.WriteStatus? && e.ws > 0 ==> BehindHead(m, e.r)
    ensures e.WriteStatus? ==> Ws(m, e.r) <= 0
    ensures e.Append? ==> e.r !in m.ord
  {
  }

  lemma FifoOtherWrite(m: Mem, t: Tid, e: Effect)
    requires Numbered(m) && EndsOk(m) && Legit(m, t, e) && FifoOk(m) && !e.WriteHead? && !e.InitHead?
    ensures FifoOk(Write(m, t, e))
  {
    hide Write, Legit;
    var m' := Write(m, t, e);
    EndsAre(m, t, e);
    assert m'.head == m.head && m'.heads == m.heads && m.log <= m'.log;
    WhatIsLegit(m, t, e);
    if m.head != NULL {
      var i := m.ord[m.head] + 1;
      forall j | 0 <= j < i
        ensures Ws(m, m.log[j]) == CANCELLED <==> Ws(m', m.log[j]) == CANCELLED
      {
        FieldsKept(m, t, e, m.log[j]);
      }
      ServedSame(m, m', i);
    }
  }

  lemma FifoStep(m: Mem, t: Tid, e: Effect)
    requires Shape(m) && Legit(m, t, e) && FifoOk(m)
    ensures FifoOk(Write(m, t, e))
  {
    hide LinksOk, Write, FifoOk;
    match e
    case WriteHead(r) => FifoWriteHead(m, t, r);
    case InitHead => FifoInitHead(m, t);
    case _ => FifoOtherWrite(m, t, e);
  }

  lemma {:induction false} FifoRun(s: State, sched: Schedule)
    requires Inv(s) && FifoOk(s.m)
    ensures FifoOk(Run(s, sched).m)
    decreases |sched|
  {
    hide FifoOk, Act, StaleSignal, Shape, Owned, OneInitialiser;
    if sched != [] {
      var (t, c) := sched[0];
      InvStep(s, t, c);
      if t != 0 {
        assert ThreadOk(s.m, t, Th(s, t));
        StepThread(s.m, t, Th(s, t), c);
        FifoStep(s.m, t, Act(s.m, t, Th(s, t), c).1);
      }
      FifoRun(Step(s, t, c), sched[1..]);
    }
  }

  /** In every run, whatever barging does to the state: the sequence of nodes that have been
      head is the sequence of successful tail CASes up to the present head with the cancelled
      nodes left out. */
  lemma FifoHandOver(kind: Kind, st: nat, sched: Schedule)
    ensures FifoOk(Run(Init(kind, st), sched).m)
  {
    InvInit(kind, st);
    FifoRun(Init(kind, st), sched);
  }

  // -------------------------------------------------------------- mutual exclusion

  /** The thread is between a successful tryAcquire and the write of state in tryRelease. */
  predicate Holds(f: Frame) {
    match f.pc
    case Held | Wait(SetHead) | Lead(_) | Rel(ReCheck) | Rel(ReSet) | Sig(_) => true
    case Enq(_) => Signalling(f)
    case _ => false
  }

  /** Program points a thread of the Mutex never reaches. */
  predicate SharedOnly(f: Frame) {
    match f.pc
    case Wait(SetHeadOld) | Rel(ReleaseShared) | Dr(_) => true
    case Lead(pc) => pc != SetHeadThread && pc != SetHeadPrev && pc != ClearNext
    case Us(_) => f.caller == ByShared
    case _ => false
  }

  ghost predicate MutexOk(s: State) {
    && s.m.kind == Mutex
    && s.m.st <= 1
    && (forall t :: !SharedOnly(Th(s, t)))
    && (forall t :: Holds(Th(s, t)) ==> s.m.st == 1)
    && (forall t, u :: Holds(Th(s, t)) && Holds(Th(s, u)) ==> t == u)
    && (s.m.st == 1 ==> exists t :: Holds(Th(s, t)))
  }

  /** How one step of a thread of the Mutex changes who holds it; the two nodes say that a thread
      that queues its own node has one. */
  ghost predicate Handles(m: Mem, f: Frame, g: Frame, e: Effect) {
    && !SharedOnly(g)
    && (Holds(f) && m.st == 1 ==> if Holds(g) then !e.SetState? else e == SetState(0))
    && (!Holds(f) ==> if Holds(g) then m.st == 0 && e == SetState(1) else !e.SetState?)
  }

  lemma HandlesWait(m: Mem, t: Tid, f: Frame, pc: WaitPc, c: Choice)
    requires f.pc == Wait(pc) && m.kind == Mutex && !SharedOnly(f)
    ensures var (g, e) := ActWait(m, t, f, pc, c); Handles(m, f, g, e)
  {
  }

  lemma HandlesOutside(m: Mem, t: Tid, f: Frame, c: Choice)
    requires m.kind == Mutex && m.nextRef != NULL
    requires f.pc == Idle || f.pc == Held || f.pc == TryAcquire || f.pc == AddWaiter
    ensures var (g, e) := ActOutside(m, t, f, c); Handles(m, f, g, e)
  {
  }

  lemma HandlesHolder(m: Mem, t: Tid, f: Frame, c: Choice)
    requires m.kind == Mutex && !SharedOnly(f) && (f.pc.Lead? || f.pc.Rel? || f.pc.Dr? || f.pc.Sig?)
    ensures var (g, e) := Act(m, t, f, c); Handles(m, f, g, e)
  {
  }

  lemma HandlesGone(m: Mem, f: Frame, pc: GonePc)
    requires f.pc == Gone(pc)
    ensures var (g, e) := ActGone(m, f, pc); Handles(m, f, g, e)
  {
  }

  lemma HandlesUs(m: Mem, f: Frame, pc: UsPc)
    requires f.pc == Us(pc) && !SharedOnly(f)
    ensures var (g, e) := ActUs(m, f, pc); Handles(m, f, g, e)
  {
  }

  lemma HandlesCond(m: Mem, t: Tid, f: Frame, pc: CondPc, c: Choice)
    requires f.pc == Cond(pc) && f.n != NULL
    ensures var (g, e) := ActCond(m, t, f, pc, c); Handles(m, f, g, e)
  {
  }

  lemma HandlesQueue(m: Mem, t: Tid, f: Frame, c: Choice)
    requires f.pc.Quit? || f.pc.Enq?
    ensures var (g, e) := Act(m, t, f, c); Handles(m, f, g, e)
  {
  }

  lemma StepHandles(m: Mem, t: Tid, f: Frame, c: Choice)
    requires m.kind == Mutex && !SharedOnly(f) && m.nextRef != NULL && (f.pc.Cond? ==> f.n != NULL)
    ensures var (g, e) := Act(m, t, f, c); Handles(m, f, g, e)
  {
    hide Handles, SharedOnly, ActEnq, ActWait, ActQuit, ActLead, ActGone, ActRel, ActDr, ActUs, ActOutside, ActCond,
      ActSig;
    match f.pc
    case Wait(pc) => HandlesWait(m, t, f, pc, c);
    case Gone(pc) => HandlesGone(m, f, pc);
    case Us(pc) => HandlesUs(m, f, pc);
    case Cond(pc) => HandlesCond(m, t, f, pc, c);
    case Enq(_) => HandlesQueue(m, t, f, c);
    case Quit(_) => HandlesQueue(m, t, f, c);
    case Lead(_) => HandlesHolder(m, t, f, c);
    case Rel(_) => HandlesHolder(m, t, f, c);
    case Dr(_) => HandlesHolder(m, t, f, c);
    case Sig(_) => HandlesHolder(m, t, f, c);
    case _ => HandlesOutside(m, t, f, c);
  }

  lemma WriteState(m: Mem, t: Tid, e: Effect)
    ensures Write(m, t, e).kind == m.kind
    ensures Write(m, t, e).st == if e.SetState? then e.st else m.st
  {
  }

  lemma MutexStep(s: State, t: Tid, c: Choice)
    requires Inv(s) && MutexOk(s)
    ensures MutexOk(Step(s, t, c))
  {
    hide Act, StaleSignal, SharedOnly, Holds, Write, Inv;
    if t == 0 { return; }
    var m, f, s' := s.m, Th(s, t), Step(s, t, c);
    var (g, e) := Act(m, t, f, c);
    HasNode(s, t);
    StepHandles(m, t, f, c);
    WriteState(m, t, e);
    assert forall u :: u != t ==> Th(s', u) == Th(s, u);
    assert Th(s', t) == g;
    if s'.m.st == 1 {
      if e == SetState(1) { assert Holds(Th(s', t)); }
      else {
        var u :| Holds(Th(s, u));
        assert Holds(Th(s', u));
      }
    }
  }

  lemma HasNode(s: State, t: Tid)
    requires Inv(s)
    ensures s.m.nextRef != NULL && (Th(s, t).pc.Cond? ==> Th(s, t).n != NULL)
  {
    assert ThreadOk(s.m, t, Th(s, t));
  }

  lemma {:induction false} MutexRun(s: State, sched: Schedule)
    requires Inv(s) && MutexOk(s)
    ensures MutexOk(Run(s, sched))
    decreases |sched|
  {
    hide MutexOk, Step, Inv;
    if sched != [] {
      MutexStep(s, sched[0].0, sched[0].1);
      InvStep(s, sched[0].0, sched[0].1);
      MutexRun(Step(s, sched[0].0, sched[0].1), sched[1..]);
    }
  }

  /** At most one thread is ever between a successful acquire of the Mutex and its release, and that
      includes a thread that signals; the state is 1 exactly while some thread is, and neither release
      nor the release of await ever throws. */
  lemma MutualExclusion(sched: Schedule, t: Tid, u: Tid)
    ensures var s := Run(Init(Mutex, 0), sched);
      && (Holds(Th(s, t)) && Holds(Th(s, u)) ==> t == u)
      && (s.m.st == 1 <==> exists v :: Holds(Th(s, v)))
      && (Th(s, t).pc == Rel(ReCheck) ==> s.m.st != 0)
  {
    hide Inv, Run;
    InvInit(Mutex, 0);
    MutexInit();
    hide Holds, SharedOnly;
    MutexRun(Init(Mutex, 0), sched);
    HoldsInRelease(Th(Run(Init(Mutex, 0), sched), t));
  }

  lemma MutexInit()
    ensures MutexOk(Init(Mutex, 0))
  {
  }

  lemma HoldsInRelease(f: Frame)
    ensures f.pc == Rel(ReCheck) ==> Holds(f)
  {
  }

  // ------------------------------------------------------------------- conditions

  /** Between the CAS of its status and its tail CAS a waiter's node is with exactly one thread, the
      one that won; the waiter itself stays in await.  A holder never finds its own node waiting, so
      the model's guard on signals excludes nothing. */
  lemma TransfersApart(s: State, t: Tid, u: Tid)
    requires Reachable(s)
    ensures var f, h := Th(s, t), Th(s, u);
      && (f.pc.Enq? && h.pc.Enq? && f.e == h.e ==> t == u)
      && (Signalling(f) ==> Th(s, Own(s.m, f.e)).n == f.e && StageOf(Th(s, Own(s.m, f.e))) == Awaiting)
      && (f.pc == Held ==> forall r :: r in s.m.waiting ==> Own(s.m, r) != t)
  {
    ReachableInv(s);
    var m, f, h := s.m, Th(s, t), Th(s, u);
    assert ThreadOk(m, t, f) && ThreadOk(m, u, h);
    if Signalling(f) { assert Unqueued(m, f.e); }
    forall r | f.pc == Held && r in m.waiting
      ensures Own(m, r) != t
    {
      assert Unqueued(m, r);
    }
  }
}
