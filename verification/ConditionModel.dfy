/** The conditions of JDK/concurrent/AbstractQueuedSynchronizer.java as a state machine: threads
    that wait on one condition, signal it, and give up waiting.  A step is one access to a volatile
    field; firstWaiter, lastWaiter and nextWaiter are only touched while holding the lock, and
    stand here as the list `waiters` (module ConditionQueue has the links).

    The lock itself is an owner.  What the rest of the synchronizer does to its queue meanwhile is
    any of the moves of thread 0, each of them one write. */
module ConditionModel {

  type Ref = int // 0 is null
  type Tid = int

  const NULL: Ref := 0

  const SIGNAL: int := -1
  const CONDITION: int := -2

  /** On whose behalf a node is handed to enq. */
  datatype How = BySignal | BySignalAll | ByCancel

  datatype EnqPc = ReadTail | InitHead | InitRead | InitTail | SetPrev | CasTail | SetNext

  /** isOnSyncQueue and findNodeFromTail. */
  datatype OnPc = Status | Prev | Next | Tail | Walk

  datatype Pc =
    | Idle | Held
    | AddStatus | AddLink | Release | Unlink(adding: bool) // addConditionWaiter, fullyRelease, unlinkCancelledWaiters
    | SigTake | SigCas | SigDone // doSignal
    | AllTake | AllNext | AllCas | AllDone // doSignalAll
    | PredStatus | PredCas // the end of transferForSignal
    | Enq(e: EnqPc)
    | On(o: OnPc) | Park | CancelCas | Acquire | Clean // await

  /** How a wait ends: THROW_IE and REINTERRUPT of the source, and the local timedout. */
  datatype Mode = Normal | ThrowIe | Reinterrupt | TimedOut

  /** Why a parked thread gives up. */
  datatype Cause = Interrupt | Timeout

  /** The locals: the thread's own node, the node being transferred, the predecessor or cursor, a
      status, the place in the loop of unlinkCancelledWaiters and the chain doSignalAll still has to
      walk.  `cause` is why the thread gives up, and `spin` says that isOnSyncQueue is called by
      transferAfterCancelledWait.  `moved` counts the transfers of a call of signal, and `before` is
      the set of signalled nodes at its start. */
  datatype Frame = Frame(
    pc: Pc, n: Ref, e: Ref, p: Ref, ws: int, i: nat, chain: seq<Ref>, how: How, cause: Cause, spin: bool,
    mode: Mode, moved: nat, before: set<Ref>)

  const IDLE_FRAME: Frame :=
    Frame(Idle, NULL, NULL, NULL, 0, 0, [], BySignal, Interrupt, false, Normal, 0, {})

  /** What the threads share.  `log` is the order of successful tail CASes.  `envInit`, `own`, `sig`,
      `can` and `carrier` are history: thread 0 has won the CAS of head and not written tail yet, the
      thread that made a condition node, the nodes of which a signal or a cancellation won the status
      CAS, and the thread that won it. */
  datatype Mem = Mem(
    holder: Tid, head: Ref, tail: Ref, ws: map<Ref, int>, prev: map<Ref, Ref>, next: map<Ref, Ref>,
    nextRef: Ref, waiters: seq<Ref>, log: seq<Ref>, envInit: bool, own: map<Ref, Tid>, sig: set<Ref>,
    can: set<Ref>, carrier: map<Ref, Tid>)

  datatype State = State(m: Mem, th: map<Tid, Frame>)

  const INIT: State := State(Mem(0, NULL, NULL, map[], map[], map[], 1, [], [], false, map[], {}, {}, map[]), map[])

  function Ws(m: Mem, r: Ref): int { if r in m.ws then m.ws[r] else 0 }
  function PrevOf(m: Mem, r: Ref): Ref { if r in m.prev then m.prev[r] else NULL }
  function NextOf(m: Mem, r: Ref): Ref { if r in m.next then m.next[r] else NULL }
  function Carrier(m: Mem, r: Ref): Tid { if r in m.carrier then m.carrier[r] else 0 }
  function Th(s: State, t: Tid): Frame { if t in s.th then s.th[t] else IDLE_FRAME }

  /** Choices of a thread: take the lock or a step (Go), call await, signal or signalAll, or, when
      parked, return because of an interrupt or a timeout (Abort).  The others are writes of the rest
      of the synchronizer: a new node; the two steps that create the queue; the head moved to another
      queued node; any status but CONDITION, any next and any earlier prev of a queued node; a prev of
      a node that is neither queued nor a condition's; the tail moved back; such a node queued. */
  datatype Choice =
    | Go | Await | Signal | SignalAll | Abort(cause: Cause)
    | EnvAlloc | EnvInitHead | EnvInitTail | EnvHead(i: nat)
    | EnvStatus(r: Ref, ws: int) | EnvNext(r: Ref, v: Ref) | EnvPrev(i: nat, j: int)
    | EnvFreshPrev(r: Ref, v: Ref) | EnvTail(i: nat) | EnvAppend(r: Ref)

  /** A node that the rest of the synchronizer has made and not queued. */
  predicate Fresh(m: Mem, r: Ref) { r < m.nextRef && r !in m.own && r !in m.log }

  /** The node of the CAS of head in enq. */
  function NewDummy(m: Mem): Mem {
    m.(head := m.nextRef, nextRef := m.nextRef + 1, prev := m.prev[m.nextRef := NULL], log := m.log + [m.nextRef])
  }

  function ActEnv(m: Mem, c: Choice): Mem {
    match c
    case EnvAlloc => m.(nextRef := m.nextRef + 1)
    case EnvInitHead => if m.head == NULL then NewDummy(m).(envInit := true) else m
    case EnvInitTail => if m.envInit then m.(tail := m.head, envInit := false) else m
    case EnvHead(i) => if i < |m.log| && m.tail != NULL then m.(head := m.log[i]) else m
    case EnvStatus(r, v) => if r in m.log && v != CONDITION then m.(ws := m.ws[r := v]) else m
    case EnvNext(r, v) => if r in m.log || v == NULL then m.(next := m.next[r := v]) else m
    case EnvPrev(i, j) =>
      if i < |m.log| && j < i then m.(prev := m.prev[m.log[i] := if j < 0 then NULL else m.log[j]]) else m
    case EnvFreshPrev(r, v) => if Fresh(m, r) then m.(prev := m.prev[r := v]) else m
    case EnvTail(i) => if i < |m.log| && m.tail != NULL then m.(tail := m.log[i]) else m
    case EnvAppend(r) =>
      if NULL < r && Fresh(m, r) && m.tail != NULL && PrevOf(m, r) == m.tail then m.(tail := r, log := m.log + [r])
      else m
    case _ => m
  }

  function ActOutside(m: Mem, t: Tid, f: Frame, c: Choice): (Mem, Frame) {
    match f.pc
    case Idle => if m.holder == 0 && c == Go then (m.(holder := t), f.(pc := Held)) else (m, f)
    case Held =>
      (match c
       case Go => (m.(holder := 0), f.(pc := Idle))
       case Await => (m, f.(pc := AddStatus, mode := Normal, spin := false))
       case Signal => (m, f.(pc := SigTake, moved := 0, before := m.sig))
       case SignalAll => (m, f.(pc := AllTake, moved := 0, before := m.sig))
       case _ => (m, f))
    case _ => (m, f)
  }

  function ActAdd(m: Mem, t: Tid, f: Frame): (Mem, Frame) {
    match f.pc
    case AddStatus =>
      if m.waiters != [] && Ws(m, m.waiters[|m.waiters| - 1]) != CONDITION
      then (m, f.(pc := Unlink(true), i := 0))
      else (m, f.(pc := AddLink))
    case AddLink =>
      var n := m.nextRef;
      (m.(nextRef := n + 1, own := m.own[n := t], ws := m.ws[n := CONDITION], waiters := m.waiters + [n]),
       f.(pc := Release, n := n))
    case Release => (m.(holder := 0), f.(pc := On(Status)))
    case Unlink(adding) =>
      if f.i >= |m.waiters| then (m, f.(pc := if adding then AddLink else Held))
      else if Ws(m, m.waiters[f.i]) == CONDITION then (m, f.(i := f.i + 1))
      else (m.(waiters := m.waiters[..f.i] + m.waiters[f.i + 1..]), f)
    case _ => (m, f)
  }

  /** The CAS from CONDITION to 0 succeeds for a signal. */
  function WinSignal(m: Mem, t: Tid, e: Ref): Mem {
    m.(ws := m.ws[e := 0], sig := m.sig + {e}, carrier := m.carrier[e := t])
  }

  function WinCancel(m: Mem, t: Tid, e: Ref): Mem {
    m.(ws := m.ws[e := 0], can := m.can + {e}, carrier := m.carrier[e := t])
  }

  function Handed(f: Frame, how: How): Frame { f.(pc := Enq(ReadTail), how := how, moved := f.moved + 1) }

  function Transferred(f: Frame): Frame { f.(pc := if f.how == BySignal then SigDone else AllNext) }

  function ActSignal(m: Mem, t: Tid, f: Frame): (Mem, Frame) {
    match f.pc
    case SigTake =>
      if m.waiters == [] then (m, f.(pc := SigDone))
      else (m.(waiters := m.waiters[1..]), f.(pc := SigCas, e := m.waiters[0]))
    case SigCas =>
      if Ws(m, f.e) == CONDITION then (WinSignal(m, t, f.e), Handed(f, BySignal)) else (m, f.(pc := SigTake))
    case SigDone => (m, f.(pc := Held))
    case AllTake => (m.(waiters := []), f.(pc := AllNext, chain := m.waiters))
    case AllNext =>
      if f.chain == [] then (m, f.(pc := AllDone))
      else (m, f.(pc := AllCas, e := f.chain[0], chain := f.chain[1..]))
    case AllCas =>
      if Ws(m, f.e) == CONDITION then (WinSignal(m, t, f.e), Handed(f, BySignalAll)) else (m, f.(pc := AllNext))
    case AllDone => (m, f.(pc := Held))
    case PredStatus => (m, if Ws(m, f.p) > 0 then Transferred(f) else f.(pc := PredCas, ws := Ws(m, f.p)))
    case PredCas => (if Ws(m, f.p) == f.ws then m.(ws := m.ws[f.p := SIGNAL]) else m, Transferred(f))
    case _ => (m, f)
  }

  function ActEnq(m: Mem, f: Frame, pc: EnqPc): (Mem, Frame) {
    match pc
    case ReadTail =>
      if m.tail == NULL then (m, f.(pc := Enq(InitHead))) else (m, f.(pc := Enq(SetPrev), p := m.tail))
    case InitHead =>
      if m.head == NULL then
        (NewDummy(m), f.(pc := Enq(InitRead)))
      else (m, f.(pc := Enq(ReadTail)))
    case InitRead => (m, f.(pc := Enq(InitTail), p := m.head))
    case InitTail => (m.(tail := f.p), f.(pc := Enq(ReadTail)))
    case SetPrev => (m.(prev := m.prev[f.e := f.p]), f.(pc := Enq(CasTail)))
    case CasTail =>
      if m.tail == f.p then (m.(tail := f.e, log := m.log + [f.e]), f.(pc := Enq(SetNext)))
      else (m, f.(pc := Enq(ReadTail)))
    case SetNext => (m.(next := m.next[f.p := f.e]), f.(pc := if f.how == ByCancel then Acquire else PredStatus))
  }

  function IsOn(f: Frame): Frame {
    f.(pc := Acquire, mode := if f.spin && f.cause == Interrupt then Reinterrupt else Normal)
  }

  function NotOn(f: Frame): Frame { f.(pc := if f.spin then On(Status) else Park) }

  function ActOn(m: Mem, f: Frame, pc: OnPc): Frame {
    match pc
    case Status => if Ws(m, f.n) == CONDITION then NotOn(f) else f.(pc := On(Prev))
    case Prev => if PrevOf(m, f.n) == NULL then NotOn(f) else f.(pc := On(Next))
    case Next => if NextOf(m, f.n) != NULL then IsOn(f) else f.(pc := On(Tail))
    case Tail => f.(pc := On(Walk), p := m.tail)
    case Walk => if f.p == f.n then IsOn(f) else if f.p == NULL then NotOn(f) else f.(p := PrevOf(m, f.p))
  }

  function GaveUp(f: Frame): Frame {
    Handed(f, ByCancel).(e := f.n, mode := if f.cause == Interrupt then ThrowIe else TimedOut)
  }

  function ActAwait(m: Mem, t: Tid, f: Frame, c: Choice): (Mem, Frame) {
    match f.pc
    case Park => (m, if c.Abort? then f.(pc := CancelCas, cause := c.cause) else f.(pc := On(Status)))
    case CancelCas =>
      if Ws(m, f.n) == CONDITION then (WinCancel(m, t, f.n), GaveUp(f))
      else (m, f.(pc := On(Status), spin := true))
    case Acquire => if m.holder == 0 then (m.(holder := t), f.(pc := Clean)) else (m, f)
    case Clean =>
      // The node's nextWaiter is not null exactly if it is listed and not the last one.
      if f.n in m.waiters && m.waiters[|m.waiters| - 1] != f.n then (m, f.(pc := Unlink(false), i := 0))
      else (m, f.(pc := Held))
    case _ => (m, f)
  }

  function Act(m: Mem, t: Tid, f: Frame, c: Choice): (Mem, Frame) {
    match f.pc
    case Idle => ActOutside(m, t, f, c)
    case Held => ActOutside(m, t, f, c)
    case AddStatus => ActAdd(m, t, f)
    case AddLink => ActAdd(m, t, f)
    case Release => ActAdd(m, t, f)
    case Unlink(_) => ActAdd(m, t, f)
    case Enq(pc) => ActEnq(m, f, pc)
    case On(pc) => (m, ActOn(m, f, pc))
    case Park => ActAwait(m, t, f, c)
    case CancelCas => ActAwait(m, t, f, c)
    case Acquire => ActAwait(m, t, f, c)
    case Clean => ActAwait(m, t, f, c)
    case _ => ActSignal(m, t, f)
  }

  /** The thread is in await and has not found `x`, its node, on the queue yet. */
  predicate Unaware(f: Frame, x: Ref) {
    f.n == x && (f.pc == Release || f.pc.On? || f.pc == Park || f.pc == CancelCas)
  }

  /** Following at most `k` prev links from `r` meets `x`. */
  predicate Meets(m: Mem, r: Ref, x: Ref, k: nat)
    decreases k
  {
    r == x || (r != NULL && k > 0 && Meets(m, PrevOf(m, r), x, k - 1))
  }

  /** A walk from tail meets `x`, which has a predecessor. */
  predicate Found(m: Mem, x: Ref) { PrevOf(m, x) != NULL && Meets(m, m.tail, x, |m.log|) }

  /** Queued waiters can still be found from tail; see ConditionEnvironment for why the rest of the
      synchronizer leaves it so. */
  predicate KeepsWaiters(s: State, w: Mem) {
    forall x :: x in w.log && x in w.own && Unaware(Th(s, w.own[x]), x) ==> Found(w, x)
  }

  /** One step of thread `t`, or of the rest of the synchronizer if `t` is 0. */
  function Step(s: State, t: Tid, c: Choice): State {
    if t == 0 then
      var w := ActEnv(s.m, c);
      if KeepsWaiters(s, w) then s.(m := w) else s
    else
      var (m, f) := Act(s.m, t, Th(s, t), c);
      State(m, s.th[t := f])
  }

  type Schedule = seq<(Tid, Choice)>

  function Run(s: State, sched: Schedule): State
    decreases |sched|
  {
    if sched == [] then s else Run(Step(s, sched[0].0, sched[0].1), sched[1..])
  }
}
