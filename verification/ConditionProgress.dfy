/** What the calls on a condition achieve when their thread is left alone. */
module ConditionProgress {
  import opened ConditionModel
  import opened ConditionProof
  import opened ConditionReturn

  /** The thread can go no further by itself: it is out of all methods, holds the lock, is parked,
      finds the lock taken, spins for a signaller to queue its node, or waits for another thread to
      create the queue. */
  predicate Resting(m: Mem, f: Frame) {
    match f.pc
    case Idle => true
    case Held => true
    case Park => true
    case Acquire => m.holder != 0
    case On(_) => f.spin && f.n !in m.log
    case Enq(pc) => (pc == ReadTail || pc == InitHead) && m.tail == NULL && m.head != NULL
    case _ => false
  }

  // How far the thread has to go: the nodes signalAll still has to look at, the part of the call, and
  // the steps left in that part.

  function Chain(m: Mem, f: Frame): nat {
    match f.pc
    case AllTake => |m.waiters| + 1
    case AllNext => |f.chain|
    case AllCas => |f.chain|
    case Enq(_) => if f.how == BySignalAll then |f.chain| else 0
    case PredStatus => if f.how == BySignalAll then |f.chain| else 0
    case PredCas => if f.how == BySignalAll then |f.chain| else 0
    case _ => 0
  }

  predicate Missed(m: Mem, f: Frame) { f.pc == On(Walk) && f.spin && !Meets(m, f.p, f.n, |m.log|) }

  function Part(m: Mem, f: Frame): nat {
    match f.pc
    case SigTake => 50
    case SigCas => 50
    case AllCas => 45
    case CancelCas => 45
    case Enq(_) => 44
    case AddStatus => 43
    case Unlink(adding) => if adding then 42 else 31
    case AddLink => 41
    case Release => 40
    case On(_) => if Missed(m, f) then 37 else 36
    case Acquire => 35
    case Clean => 34
    case PredStatus => 20
    case PredCas => 19
    case AllNext => 10
    case SigDone => 3
    case AllDone => 3
    case _ => 0
  }

  /** The place in the order of tail CASes, counted from 1; 0 for null. */
  ghost function Place(m: Mem, r: Ref): nat {
    if r in m.log then PlaceIn(m.log, r) else 0
  }

  ghost function PlaceIn(log: seq<Ref>, r: Ref): (k: nat)
    requires r in log
    ensures 0 < k <= |log| && log[k - 1] == r
  {
    var i :| 0 <= i < |log| && log[i] == r;
    i + 1
  }

  ghost function Steps(m: Mem, f: Frame): nat {
    match f.pc
    case SigTake => 2 * |m.waiters| + 1
    case SigCas => 2 * |m.waiters| + 2
    case Unlink(_) => if f.i < |m.waiters| then |m.waiters| - f.i else 0
    case On(pc) =>
      (match pc
       case Status => |m.log| + 5
       case Prev => |m.log| + 4
       case Next => |m.log| + 3
       case Tail => |m.log| + 2
       case Walk => Place(m, f.p) + 1)
    case Enq(pc) =>
      (match pc
       case ReadTail => if m.tail != NULL then 3 else if m.head == NULL then 9 else 0
       case InitHead => if m.head == NULL then 8 else 4
       case InitRead => 7
       case InitTail => 6
       case SetPrev => if m.tail == f.p then 2 else 5
       case CasTail => if m.tail == f.p then 1 else 4
       case SetNext => 0)
    case _ => 0
  }

  ghost predicate Falls(m: Mem, f: Frame, w: Mem, g: Frame) {
    || Chain(w, g) < Chain(m, f)
    || (Chain(w, g) == Chain(m, f) && Part(w, g) < Part(m, f))
    || (Chain(w, g) == Chain(m, f) && Part(w, g) == Part(m, f) && Steps(w, g) < Steps(m, f))
  }

  lemma FallsAdd(m: Mem, t: Tid, f: Frame)
    requires f.pc == AddStatus || f.pc == AddLink || f.pc == Release || f.pc.Unlink?
    ensures var (w, g) := ActAdd(m, t, f); Falls(m, f, w, g)
  {
  }

  lemma FallsSignal(m: Mem, t: Tid, f: Frame)
    requires f.pc in {SigTake, SigCas, SigDone, AllTake, AllNext, AllCas, AllDone, PredStatus, PredCas}
    requires f.pc == PredStatus || f.pc == PredCas ==> f.how != ByCancel
    ensures var (w, g) := ActSignal(m, t, f); Falls(m, f, w, g)
  {
  }

  lemma FallsEnq(m: Mem, t: Tid, f: Frame, pc: EnqPc)
    requires f.pc == Enq(pc) && !Resting(m, f) && EnqOk(m, t, f) && NULL !in m.log
    requires m.head == NULL ==> m.log == []
    ensures var (w, g) := ActEnq(m, f, pc); Falls(m, f, w, g)
  {
  }

  lemma FallsAwait(m: Mem, t: Tid, f: Frame)
    requires (f.pc == CancelCas || f.pc == Acquire || f.pc == Clean) && !Resting(m, f)
    ensures var (w, g) := ActAwait(m, t, f, Go); Falls(m, f, w, g)
  {
  }

  lemma FallsOn(m: Mem, t: Tid, f: Frame, pc: OnPc)
    requires f.pc == On(pc) && !Resting(m, f) && NodeOk(m, t, f) && LogOk(m) && Down(m) && NULL !in m.log
    requires f.n in m.log ==> Ws(m, f.n) != CONDITION && Found(m, f.n)
    ensures Falls(m, f, m, ActOn(m, f, pc))
  {
    hide Down;
    if pc == Walk && f.p != NULL && f.p != f.n { WalkFalls(m, f.p); MeetsNext(m, f.p, f.n, |m.log|); }
    if pc == Tail { PlaceLow(m, m.tail); }
  }

  lemma PlaceLow(m: Mem, r: Ref)
    ensures Place(m, r) <= |m.log|
  {
  }

  /** The prev of a queued node has an earlier place. */
  lemma WalkFalls(m: Mem, r: Ref)
    requires r in m.log && Down(m) && LogOk(m) && NULL !in m.log
    ensures Place(m, PrevOf(m, r)) < Place(m, r)
  {
    var k := PlaceIn(m.log, r);
    assert Below(m, k - 1);
    var p := PrevOf(m, r);
    if p in m.log {
      var j := PlaceIn(m.log, p);
      var i :| 0 <= i < k - 1 && m.log[i] == p;
      assert i == j - 1;
    }
  }

  /** A walk that does not miss goes on not to miss. */
  lemma {:induction false} MeetsNext(m: Mem, r: Ref, x: Ref, k: nat)
    requires r != x && r != NULL
    ensures Meets(m, r, x, k) ==> Meets(m, PrevOf(m, r), x, k)
  {
    if Meets(m, r, x, k) { MeetsMore(m, PrevOf(m, r), x, k - 1); }
  }

  lemma {:induction false} MeetsMore(m: Mem, r: Ref, x: Ref, k: nat)
    requires Meets(m, r, x, k)
    ensures Meets(m, r, x, k + 1)
    decreases k
  {
    if r != x { MeetsMore(m, PrevOf(m, r), x, k - 1); }
  }

  // ------------------------------------------------------------ coming to rest

  ghost predicate Sane(s: State) { Inv(s) && ReturnInv(s) }

  lemma SaneStep(s: State, t: Tid, c: Choice)
    requires Sane(s)
    ensures Sane(Step(s, t, c))
  {
    hide Inv, ReturnInv, Step;
    InvStep(s, t, c);
    ReturnStep(s, t, c);
  }

  lemma Reaches(sched: Schedule)
    ensures Sane(Run(INIT, sched))
  {
    hide Inv, ReturnInv, Run;
    InvInit();
    ReturnInit();
    ReturnRun(INIT, sched);
  }

  lemma Knows(s: State, t: Tid)
    requires Sane(s) && t != 0
    ensures var m, f := s.m, Th(s, t);
      && NodeOk(m, t, f) && EnqOk(m, t, f) && LogOk(m) && Down(m) && NULL !in m.log
      && (m.head == NULL ==> m.log == [])
      && (f.pc.On? && f.n in m.log ==> Ws(m, f.n) != CONDITION && Found(m, f.n))
      && (Holding(f) <==> m.holder == t)
  {
    hide Found, Down, SignalOk;
    assert FrameOk(s, t);
    if Th(s, t).pc.On? && Th(s, t).n in s.m.log { OnKnows(s, t); }
  }

  lemma StepIs(s: State, t: Tid, c: Choice)
    requires t != 0
    ensures var u := Step(s, t, c);
      (u.m, Th(u, t)) == Act(s.m, t, Th(s, t), c) && forall v :: v != t ==> Th(u, v) == Th(s, v)
  {
    hide Act;
  }

  lemma FallsStep(s: State, t: Tid)
    requires Sane(s) && t != 0 && !Resting(s.m, Th(s, t))
    ensures var u := Step(s, t, Go); Falls(s.m, Th(s, t), u.m, Th(u, t))
  {
    hide Sane, Step, Falls, NodeOk, EnqOk, LogOk, Down, Found, Holding, ActEnq, ActSignal, ActAdd, ActAwait, ActOn;
    var m, f := s.m, Th(s, t);
    Knows(s, t);
    StepIs(s, t, Go);
    match f.pc
    case Idle =>
    case Held =>
    case Park =>
    case AddStatus => FallsAdd(m, t, f);
    case AddLink => FallsAdd(m, t, f);
    case Release => FallsAdd(m, t, f);
    case Unlink(_) => FallsAdd(m, t, f);
    case Enq(pc) => FallsEnq(m, t, f, pc);
    case On(pc) => FallsOn(m, t, f, pc);
    case CancelCas => FallsAwait(m, t, f);
    case Acquire => FallsAwait(m, t, f);
    case Clean => FallsAwait(m, t, f);
    case _ => PredsHow(m, t, f); FallsSignal(m, t, f);
  }

  lemma PredsHow(m: Mem, t: Tid, f: Frame)
    requires EnqOk(m, t, f)
    ensures f.pc == PredStatus || f.pc == PredCas ==> f.how != ByCancel
  {
  }

  /** The thread's own steps keep `inv` until it rests. */
  ghost predicate Keeps(t: Tid, inv: State -> bool) {
    forall s :: Sane(s) && inv(s) && !Resting(s.m, Th(s, t)) ==> inv(Step(s, t, Go))
  }

  lemma {:induction false} RestsWith(s: State, t: Tid, inv: State -> bool) returns (k: nat)
    requires Sane(s) && t != 0 && inv(s) && Keeps(t, inv)
    ensures var u := Run(s, Alone(t, k)); Resting(u.m, Th(u, t)) && inv(u) && Sane(u)
    decreases Chain(s.m, Th(s, t)), Part(s.m, Th(s, t)), Steps(s.m, Th(s, t))
  {
    hide Sane, Step, Run, Chain, Part, Steps, Resting;
    if Resting(s.m, Th(s, t)) {
      AloneNone(s, t);
      k := 0;
    } else {
      FallsStep(s, t);
      SaneStep(s, t, Go);
      k := RestsWith(Step(s, t, Go), t, inv);
      k := k + 1;
      AloneFirst(s, t, k);
    }
  }

  /** From every reachable state a thread that runs by itself comes to rest. */
  lemma ComesToRest(sched: Schedule, t: Tid) returns (k: nat)
    requires t != 0
    ensures var u := Run(Run(INIT, sched), Alone(t, k)); Resting(u.m, Th(u, t))
  {
    hide Sane, Run, Step, Resting;
    Reaches(sched);
    k := RestsWith(Run(INIT, sched), t, s => true);
  }

  // ------------------------------------------------------------ await

  /** The nodes of `q` that still wait, in order. */
  function Waiters(m: Mem, q: seq<Ref>): seq<Ref> {
    if q == [] then [] else Waiters(m, q[..|q| - 1]) + if Ws(m, q[|q| - 1]) == CONDITION then [q[|q| - 1]] else []
  }

  /** The list as addConditionWaiter leaves it for the new node. */
  function Cleaned(m: Mem): seq<Ref> {
    if m.waiters != [] && Ws(m, m.waiters[|m.waiters| - 1]) != CONDITION then Waiters(m, m.waiters) else m.waiters
  }

  /** unlinkCancelledWaiters has walked over the first `j` nodes of the list it found. */
  ghost predicate Walked(m0: Mem, m: Mem, i: nat, j: nat) {
    && j <= |m0.waiters| && m.ws == m0.ws
    && m.waiters == Waiters(m0, m0.waiters[..j]) + m0.waiters[j..] && i == |Waiters(m0, m0.waiters[..j])|
  }

  lemma WalkedOn(m0: Mem, m: Mem, i: nat, j: nat)
    requires Walked(m0, m, i, j) && i < |m.waiters|
    ensures j < |m0.waiters| && m.waiters[i] == m0.waiters[j]
    ensures if Ws(m, m.waiters[i]) == CONDITION then Walked(m0, m, i + 1, j + 1)
            else Walked(m0, m.(waiters := m.waiters[..i] + m.waiters[i + 1..]), i, j + 1)
  {
    var kept, q := Waiters(m0, m0.waiters[..j]), m0.waiters;
    assert q[..j + 1][..j] == q[..j] && q[..j + 1][j] == q[j];
    assert q[j..] == [q[j]] + q[j + 1..];
    assert Ws(m, q[j]) == Ws(m0, q[j]);
    if Ws(m, q[j]) == CONDITION {
      assert m.waiters == (kept + [q[j]]) + q[j + 1..];
    } else {
      assert m.waiters[..i] + m.waiters[i + 1..] == kept + q[j + 1..];
    }
  }

  lemma WalkedAll(m0: Mem, m: Mem, i: nat, j: nat)
    requires Walked(m0, m, i, j) && i >= |m.waiters|
    ensures m.waiters == Waiters(m0, m0.waiters)
  {
    assert j == |m0.waiters| && m0.waiters[..j] == m0.waiters;
  }

  lemma WalkedNone(m0: Mem)
    ensures Walked(m0, m0, 0, 0)
  {
    assert m0.waiters[..0] == [] && m0.waiters[0..] == m0.waiters;
  }

  /** The walk has come somewhere. */
  ghost predicate Walking(m0: Mem, m: Mem, i: nat) { exists j :: 0 <= j && Walked(m0, m, i, j) }

  lemma WalkingOn(m0: Mem, m: Mem, i: nat)
    requires Walking(m0, m, i) && i < |m.waiters|
    ensures if Ws(m, m.waiters[i]) == CONDITION then Walking(m0, m, i + 1)
            else Walking(m0, m.(waiters := m.waiters[..i] + m.waiters[i + 1..]), i)
  {
    var j :| 0 <= j && Walked(m0, m, i, j);
    WalkedOn(m0, m, i, j);
  }

  lemma WalkingAll(m0: Mem, m: Mem, i: nat)
    requires Walking(m0, m, i) && i >= |m.waiters|
    ensures m.waiters == Waiters(m0, m0.waiters) && m.ws == m0.ws
  {
    var j :| 0 <= j && Walked(m0, m, i, j);
    WalkedAll(m0, m, i, j);
  }

  ghost predicate AwaitPath(m0: Mem, s: State, t: Tid) {
    var m, f := s.m, Th(s, t);
    match f.pc
    case AddStatus => m == m0 && !f.spin
    case Unlink(adding) =>
      && adding && !f.spin && m0.waiters != [] && Ws(m0, m0.waiters[|m0.waiters| - 1]) != CONDITION
      && Walking(m0, m, f.i)
    case AddLink => !f.spin && m.ws == m0.ws && m.waiters == Cleaned(m0)
    case Release => !f.spin && m.waiters == Cleaned(m0) + [f.n] && Ws(m, f.n) == CONDITION
    case On(pc) =>
      && pc == Status && !f.spin && m.holder == 0 && m.waiters == Cleaned(m0) + [f.n] && Ws(m, f.n) == CONDITION
    case Park => m.holder == 0 && m.waiters == Cleaned(m0) + [f.n] && Ws(m, f.n) == CONDITION
    case _ => false
  }

  lemma AwaitStep(m0: Mem, s: State, t: Tid)
    requires t != 0 && AwaitPath(m0, s, t) && !Resting(s.m, Th(s, t))
    ensures AwaitPath(m0, Step(s, t, Go), t)
  {
    hide Walking, Waiters;
    var m, f := s.m, Th(s, t);
    StepIs(s, t, Go);
    match f.pc
    case AddStatus => WalkingNone(m0);
    case Unlink(_) => if f.i < |m.waiters| { WalkingOn(m0, m, f.i); } else { WalkingAll(m0, m, f.i); }
    case _ =>
  }

  lemma WalkingNone(m0: Mem)
    ensures Walking(m0, m0, 0)
  {
    WalkedNone(m0);
  }

  /** A holder that calls await adds its node to the list, which it cleans of cancelled nodes if the last
      one is cancelled, gives up the lock, and parks with its node waiting. */
  lemma AwaitAlone(sched: Schedule, t: Tid) returns (k: nat)
    requires t != 0 && Th(Run(INIT, sched), t).pc == Held
    ensures var s := Run(INIT, sched);
      var u := Run(Step(s, t, Await), Alone(t, k));
      var n := Th(u, t).n;
      && Th(u, t).pc == Park && u.m.holder == 0
      && u.m.waiters == Cleaned(s.m) + [n] && Ws(u.m, n) == CONDITION
  {
    hide Sane, Run, Step, Resting, AwaitPath, Cleaned;
    Reaches(sched);
    var s := Run(INIT, sched);
    var v := Step(s, t, Await);
    SaneStep(s, t, Await);
    assert AwaitPath(s.m, v, t) by { AwaitStarts(s, t); }
    forall w | Sane(w) && AwaitPath(s.m, w, t) && !Resting(w.m, Th(w, t))
      ensures AwaitPath(s.m, Step(w, t, Go), t)
    {
      AwaitStep(s.m, w, t);
    }
    k := RestsWith(v, t, w => AwaitPath(s.m, w, t));
    AwaitRests(s.m, Run(v, Alone(t, k)), t);
  }

  lemma AwaitStarts(s: State, t: Tid)
    requires t != 0 && Th(s, t).pc == Held
    ensures AwaitPath(s.m, Step(s, t, Await), t)
  {
  }

  lemma AwaitRests(m0: Mem, u: State, t: Tid)
    requires AwaitPath(m0, u, t) && Resting(u.m, Th(u, t))
    ensures var n := Th(u, t).n;
      && Th(u, t).pc == Park && u.m.holder == 0
      && u.m.waiters == Cleaned(m0) + [n] && Ws(u.m, n) == CONDITION
  {
  }

  // ------------------------------------------------------------ signal

  /** The predecessor of `e` will wake its thread, or is cancelled, and then its thread is unparked. */
  ghost predicate Promised(m: Mem, e: Ref) {
    e in m.log && (Ws(m, PrevOf(m, e)) == SIGNAL || Ws(m, PrevOf(m, e)) > 0)
  }

  /** `e` is the first node that waits in `m0`, and it is the one signalled since. */
  ghost predicate TheFirst(m0: Mem, m: Mem, e: Ref) {
    Ws(m0, e) == CONDITION && m.sig == m0.sig + {e} && forall y :: y in m0.own && y < e ==> Ws(m0, y) != CONDITION
  }

  ghost predicate SignalPath(m0: Mem, s: State, t: Tid) {
    var m, f := s.m, Th(s, t);
    match f.pc
    case SigTake => m == m0.(waiters := m.waiters)
    case SigCas => m == m0.(waiters := m.waiters)
    case Enq(pc) => f.how == BySignal && TheFirst(m0, m, f.e) && (pc == SetNext ==> f.p == PrevOf(m, f.e))
    case PredStatus => f.how == BySignal && TheFirst(m0, m, f.e) && f.p == PrevOf(m, f.e) && f.e in m.log
    case PredCas =>
      f.how == BySignal && TheFirst(m0, m, f.e) && f.p == PrevOf(m, f.e) && f.e in m.log && f.ws == Ws(m, f.p)
    case SigDone => TheFirst(m0, m, f.e) && Promised(m, f.e)
    case Held => TheFirst(m0, m, f.e) && Promised(m, f.e)
    case _ => false
  }

  lemma SignalKnows(s: State, t: Tid, x: Ref)
    requires Sane(s) && t != 0 && (Th(s, t).pc == SigTake || Th(s, t).pc == SigCas) && Ws(s.m, x) == CONDITION
    ensures Th(s, t).pc == SigTake ==> s.m.waiters != []
    ensures Th(s, t).pc == SigCas ==> NobodyBefore(s.m, Th(s, t).e)
    ensures Th(s, t).pc == SigCas && Ws(s.m, Th(s, t).e) != CONDITION ==> x != Th(s, t).e
  {
    assert FrameOk(s, t);
    assert Waiting(s.m, x);
  }

  lemma SignalChooses(m0: Mem, s: State, t: Tid, x: Ref)
    requires Sane(s) && t != 0 && SignalPath(m0, s, t) && Ws(m0, x) == CONDITION
    requires Th(s, t).pc == SigTake || Th(s, t).pc == SigCas
    ensures SignalPath(m0, Step(s, t, Go), t)
  {
    hide Sane;
    StepIs(s, t, Go);
    SignalKnows(s, t, x);
  }

  lemma SignalEnqueues(m0: Mem, s: State, t: Tid)
    requires Sane(s) && t != 0 && SignalPath(m0, s, t) && Th(s, t).pc.Enq?
    ensures SignalPath(m0, Step(s, t, Go), t)
  {
    hide Sane, TheFirst, Down, Found, NodeOk, LogOk;
    StepIs(s, t, Go);
    Knows(s, t);
    SameSig(m0, s.m, Step(s, t, Go).m, Th(s, t).e);
  }

  lemma SameSig(m0: Mem, m: Mem, w: Mem, e: Ref)
    ensures w.sig == m.sig && TheFirst(m0, m, e) ==> TheFirst(m0, w, e)
  {
  }

  lemma SignalPromises(m0: Mem, s: State, t: Tid)
    requires t != 0 && SignalPath(m0, s, t) && (Th(s, t).pc == PredStatus || Th(s, t).pc == PredCas)
    ensures SignalPath(m0, Step(s, t, Go), t)
  {
    hide TheFirst;
    StepIs(s, t, Go);
    SameSig(m0, s.m, Step(s, t, Go).m, Th(s, t).e);
    assert PrevOf(Step(s, t, Go).m, Th(s, t).e) == PrevOf(s.m, Th(s, t).e);
  }

  lemma SignalStep(m0: Mem, s: State, t: Tid, x: Ref)
    requires Sane(s) && t != 0 && SignalPath(m0, s, t) && !Resting(s.m, Th(s, t)) && Ws(m0, x) == CONDITION
    ensures SignalPath(m0, Step(s, t, Go), t)
  {
    hide Sane, Step;
    match Th(s, t).pc
    case SigTake => SignalChooses(m0, s, t, x);
    case SigCas => SignalChooses(m0, s, t, x);
    case Enq(_) => SignalEnqueues(m0, s, t);
    case PredStatus => SignalPromises(m0, s, t);
    case PredCas => SignalPromises(m0, s, t);
    case SigDone => StepIs(s, t, Go); SignalEnds(m0, s, t);
    case Held =>
  }

  lemma SignalEnds(m0: Mem, s: State, t: Tid)
    requires t != 0 && SignalPath(m0, s, t) && Th(s, t).pc == SigDone
    ensures SignalPath(m0, Step(s, t, Go), t)
  {
    StepIs(s, t, Go);
  }

  /** A holder that signals while somebody waits has queued the first waiter, with a promise to wake it,
      and holds the lock; or it waits for another thread to create the queue. */
  lemma SignalAlone(sched: Schedule, t: Tid, x: Ref) returns (k: nat)
    requires t != 0 && Th(Run(INIT, sched), t).pc == Held && Ws(Run(INIT, sched).m, x) == CONDITION
    ensures var s := Run(INIT, sched);
      var u := Run(Step(s, t, Signal), Alone(t, k));
      var e := Th(u, t).e;
      TheFirst(s.m, u.m, e) && ((Th(u, t).pc == Held && Promised(u.m, e)) || (Th(u, t).pc.Enq? && u.m.tail == NULL))
  {
    hide Sane, Run, Step, Resting, SignalPath, TheFirst, Promised;
    Reaches(sched);
    var s := Run(INIT, sched);
    var v := Step(s, t, Signal);
    SaneStep(s, t, Signal);
    assert SignalPath(s.m, v, t) by { SignalStarts(s, t); }
    forall w | Sane(w) && SignalPath(s.m, w, t) && !Resting(w.m, Th(w, t))
      ensures SignalPath(s.m, Step(w, t, Go), t)
    {
      SignalStep(s.m, w, t, x);
    }
    k := RestsWith(v, t, w => SignalPath(s.m, w, t));
    SignalRests(s.m, Run(v, Alone(t, k)), t);
  }

  lemma SignalStarts(s: State, t: Tid)
    requires t != 0 && Th(s, t).pc == Held
    ensures SignalPath(s.m, Step(s, t, Signal), t)
  {
  }

  lemma SignalRests(m0: Mem, u: State, t: Tid)
    requires SignalPath(m0, u, t) && Resting(u.m, Th(u, t))
    ensures var e := Th(u, t).e;
      TheFirst(m0, u.m, e) && ((Th(u, t).pc == Held && Promised(u.m, e)) || (Th(u, t).pc.Enq? && u.m.tail == NULL))
  {
  }

  // ------------------------------------------------------------ signalAll

  /** `x` has been signalled and queued, is just being queued, or is still to come. */
  ghost predicate AllPath(s: State, t: Tid, x: Ref) {
    var m, f := s.m, Th(s, t);
    match f.pc
    case AllTake => x in m.waiters && Ws(m, x) == CONDITION
    case AllNext => (x in m.log && x in m.sig) || (x in f.chain && Ws(m, x) == CONDITION)
    case AllCas => (x in m.log && x in m.sig) || ((x == f.e || x in f.chain) && Ws(m, x) == CONDITION)
    case Enq(_) =>
      f.how == BySignalAll && x in m.own &&
      ((x in m.log && x in m.sig) || (x == f.e && x in m.sig) || (x in f.chain && Ws(m, x) == CONDITION))
    case PredStatus => f.how == BySignalAll && ((x in m.log && x in m.sig) || (x in f.chain && Ws(m, x) == CONDITION))
    case PredCas => f.how == BySignalAll && ((x in m.log && x in m.sig) || (x in f.chain && Ws(m, x) == CONDITION))
    case AllDone => x in m.log && x in m.sig
    case Held => x in m.log && x in m.sig
    case _ => false
  }

  lemma AllSignal(s: State, t: Tid, x: Ref)
    requires Sane(s) && t != 0 && AllPath(s, t, x) && !Th(s, t).pc.Enq? && !Resting(s.m, Th(s, t))
    ensures AllPath(Step(s, t, Go), t, x)
  {
    hide Inv, ReturnInv;
    var m, f := s.m, Th(s, t);
    StepIs(s, t, Go);
    Owns(s, x);
    if f.pc == AllNext && f.chain != [] { assert f.chain == [f.chain[0]] + f.chain[1..]; }
    if f.pc == PredCas { QueuedStatus(s, t, x); }
  }

  lemma Owns(s: State, x: Ref)
    requires Sane(s)
    ensures Ws(s.m, x) == CONDITION || x in s.m.sig ==> x in s.m.own
  {
    assert Waiting(s.m, x) ==> x in s.m.own;
    assert x in s.m.sig ==> Won(s.m, x);
  }

  lemma QueuedStatus(s: State, t: Tid, x: Ref)
    requires Sane(s) && t != 0 && Th(s, t).pc == PredCas
    ensures Ws(s.m, x) == CONDITION ==> x != Th(s, t).p
  {
    Knows(s, t);
    assert Waiting(s.m, x) ==> x in s.m.own;
    assert Th(s, t).p in s.m.log;
  }

  lemma AllEnqueues(s: State, t: Tid, x: Ref)
    requires Sane(s) && t != 0 && AllPath(s, t, x) && Th(s, t).pc.Enq?
    ensures AllPath(Step(s, t, Go), t, x)
  {
    hide Sane, Down, Found, NodeOk, LogOk;
    StepIs(s, t, Go);
    Knows(s, t);
  }

  lemma AllStep(s: State, t: Tid, x: Ref)
    requires Sane(s) && t != 0 && AllPath(s, t, x) && !Resting(s.m, Th(s, t))
    ensures AllPath(Step(s, t, Go), t, x)
  {
    hide Sane, Step, AllPath;
    if Th(s, t).pc.Enq? { AllEnqueues(s, t, x); } else { AllSignal(s, t, x); }
  }

  lemma AllStarts(s: State, t: Tid, x: Ref)
    requires Sane(s) && t != 0 && Th(s, t).pc == Held && Ws(s.m, x) == CONDITION
    ensures AllPath(Step(s, t, SignalAll), t, x)
  {
    hide ReturnInv;
    StepIs(s, t, SignalAll);
    assert FrameOk(s, t);
    assert Waiting(s.m, x);
  }

  /** A holder that calls signalAll has queued everyone who waited, and holds the lock; or it waits for
      another thread to create the queue. */
  lemma SignalAllAlone(sched: Schedule, t: Tid, x: Ref) returns (k: nat)
    requires t != 0 && Th(Run(INIT, sched), t).pc == Held && Ws(Run(INIT, sched).m, x) == CONDITION
    ensures var u := Run(Step(Run(INIT, sched), t, SignalAll), Alone(t, k));
      (Th(u, t).pc == Held && x in u.m.sig && x in u.m.log) || (Th(u, t).pc.Enq? && u.m.tail == NULL)
  {
    hide Sane, Run, Step, Resting, AllPath;
    Reaches(sched);
    var s := Run(INIT, sched);
    var v := Step(s, t, SignalAll);
    SaneStep(s, t, SignalAll);
    AllStarts(s, t, x);
    forall w | Sane(w) && AllPath(w, t, x) && !Resting(w.m, Th(w, t))
      ensures AllPath(Step(w, t, Go), t, x)
    {
      AllStep(w, t, x);
    }
    k := RestsWith(v, t, w => AllPath(w, t, x));
    AllRests(Run(v, Alone(t, k)), t, x);
  }

  lemma AllRests(u: State, t: Tid, x: Ref)
    requires AllPath(u, t, x) && Resting(u.m, Th(u, t))
    ensures (Th(u, t).pc == Held && x in u.m.sig && x in u.m.log) || (Th(u, t).pc.Enq? && u.m.tail == NULL)
  {
  }

  // ------------------------------------------------------------ giving up

  ghost predicate GiveUpPath(s: State, t: Tid, n: Ref) {
    var m, f := s.m, Th(s, t);
    && f.n == n
    && (f.pc == CancelCas ||
        (Ws(m, n) != CONDITION &&
         ((f.pc.On? && f.spin) || (f.pc.Enq? && f.how == ByCancel) || f.pc == Acquire || f.pc == Clean
          || f.pc == Unlink(false) || f.pc == Held)))
  }

  lemma GiveUpStep(s: State, t: Tid, n: Ref)
    requires t != 0 && GiveUpPath(s, t, n) && !Resting(s.m, Th(s, t))
    ensures GiveUpPath(Step(s, t, Go), t, n)
  {
    StepIs(s, t, Go);
  }

  /** A waiter that is interrupted or times out stops waiting for the signal: it takes the lock or finds
      it taken, or waits for a signaller that came first to queue it, or for the queue to be created. */
  lemma GivesUpAlone(sched: Schedule, t: Tid, cause: Cause) returns (k: nat)
    requires t != 0 && Th(Run(INIT, sched), t).pc == Park
    ensures var s := Run(INIT, sched);
      var u := Run(Step(s, t, Abort(cause)), Alone(t, k));
      var f := Th(u, t);
      && Ws(u.m, Th(s, t).n) != CONDITION
      && (f.pc == Held || (f.pc == Acquire && u.m.holder != 0) || (f.pc.On? && f.spin && f.n !in u.m.log)
          || (f.pc.Enq? && u.m.tail == NULL))
  {
    hide Sane, Run, Step, Resting, GiveUpPath;
    Reaches(sched);
    var s := Run(INIT, sched);
    var n, v := Th(s, t).n, Step(s, t, Abort(cause));
    SaneStep(s, t, Abort(cause));
    assert GiveUpPath(v, t, n) by { GiveUpStarts(s, t, cause); }
    forall w | Sane(w) && GiveUpPath(w, t, n) && !Resting(w.m, Th(w, t))
      ensures GiveUpPath(Step(w, t, Go), t, n)
    {
      GiveUpStep(w, t, n);
    }
    k := RestsWith(v, t, w => GiveUpPath(w, t, n));
    GiveUpRests(Run(v, Alone(t, k)), t, n);
  }

  lemma GiveUpStarts(s: State, t: Tid, cause: Cause)
    requires t != 0 && Th(s, t).pc == Park
    ensures GiveUpPath(Step(s, t, Abort(cause)), t, Th(s, t).n)
  {
  }

  lemma GiveUpRests(u: State, t: Tid, n: Ref)
    requires GiveUpPath(u, t, n) && Resting(u.m, Th(u, t))
    ensures var f := Th(u, t);
      && Ws(u.m, n) != CONDITION
      && (f.pc == Held || (f.pc == Acquire && u.m.holder != 0) || (f.pc.On? && f.spin && f.n !in u.m.log)
          || (f.pc.Enq? && u.m.tail == NULL))
  {
  }

  // ------------------------------------------------------------ the end of await

  /** The list as await leaves it when its node, still listed because the wait was cancelled, is not the
      last one. */
  function Left(m: Mem, n: Ref): seq<Ref> {
    if n in m.waiters && m.waiters[|m.waiters| - 1] != n then Waiters(m, m.waiters) else m.waiters
  }

  ghost predicate CleanPath(m0: Mem, s: State, t: Tid, n: Ref) {
    var m, f := s.m, Th(s, t);
    match f.pc
    case Acquire => m == m0 && m.holder == 0 && f.n == n
    case Clean => m == m0.(holder := t) && f.n == n
    case Unlink(adding) =>
      !adding && n in m0.waiters && m0.waiters[|m0.waiters| - 1] != n && Walking(m0, m, f.i) && m.holder == t
    case Held => m.waiters == Left(m0, n) && m.holder == t
    case _ => false
  }

  lemma CleanStep(m0: Mem, s: State, t: Tid, n: Ref)
    requires t != 0 && CleanPath(m0, s, t, n) && !Resting(s.m, Th(s, t))
    ensures CleanPath(m0, Step(s, t, Go), t, n)
  {
    hide Walking, Waiters;
    var m, f := s.m, Th(s, t);
    StepIs(s, t, Go);
    match f.pc
    case Clean => WalkingFrom(m0, m);
    case Unlink(_) => if f.i < |m.waiters| { WalkingOn(m0, m, f.i); } else { WalkingAll(m0, m, f.i); }
    case _ =>
  }

  lemma WalkingFrom(m0: Mem, m: Mem)
    requires m == m0.(holder := m.holder)
    ensures Walking(m0, m, 0)
  {
    WalkedNone(m0);
    assert Walked(m0, m, 0, 0);
  }

  /** A waiter that finds the lock free takes it and returns, and cleans the list if its wait was
      cancelled and others came after it. */
  lemma TakesLockAlone(sched: Schedule, t: Tid) returns (k: nat)
    requires t != 0 && Th(Run(INIT, sched), t).pc == Acquire && Run(INIT, sched).m.holder == 0
    ensures var s := Run(INIT, sched);
      var u := Run(s, Alone(t, k));
      Th(u, t).pc == Held && u.m.holder == t && u.m.waiters == Left(s.m, Th(s, t).n)
  {
    hide Sane, Run, Step, Resting, CleanPath, Left;
    Reaches(sched);
    var s := Run(INIT, sched);
    var n := Th(s, t).n;
    assert CleanPath(s.m, s, t, n) by { CleanStarts(s, t); }
    forall w | Sane(w) && CleanPath(s.m, w, t, n) && !Resting(w.m, Th(w, t))
      ensures CleanPath(s.m, Step(w, t, Go), t, n)
    {
      CleanStep(s.m, w, t, n);
    }
    k := RestsWith(s, t, w => CleanPath(s.m, w, t, n));
    CleanRests(s.m, Run(s, Alone(t, k)), t, n);
  }

  lemma CleanStarts(s: State, t: Tid)
    requires Th(s, t).pc == Acquire && s.m.holder == 0
    ensures CleanPath(s.m, s, t, Th(s, t).n)
  {
  }

  lemma CleanRests(m0: Mem, u: State, t: Tid, n: Ref)
    requires CleanPath(m0, u, t, n) && Resting(u.m, Th(u, t))
    ensures Th(u, t).pc == Held && u.m.holder == t && u.m.waiters == Left(m0, n)
  {
  }

  /** An idle thread takes the lock if it is free. */
  lemma TakesLock(s: State, t: Tid)
    requires t != 0 && Th(s, t).pc == Idle && s.m.holder == 0
    ensures Th(Step(s, t, Go), t).pc == Held && Step(s, t, Go).m == s.m.(holder := t)
  {
  }
}
