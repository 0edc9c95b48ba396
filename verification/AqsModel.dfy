/** The wait queue of JDK/concurrent/AbstractQueuedSynchronizer.java as a state
    machine.  Every step of a thread is one access to a shared variable (all the
    fields involved are volatile), so a run is any interleaving of such steps.

    The synchronizer built on top of the queue is one of three kinds: the `Mutex`
    and the `BooleanLatch` of the class comment, and a counting semaphore, which is
    the client the PROPAGATE status exists for.  A thread in an acquire
    method may abort (interrupt or timeout) and then runs `cancelAcquire`.

    Holders of the Mutex also wait on conditions and signal: a waiter's node is then queued by the
    thread that signals it, or by itself if it gives up first.  The conditions' own lists are in
    module ConditionModel; here a signal may pick any node that waits. */
module AqsModel {

  // Nodes and threads are numbered; 0 is the null reference.
  type Ref = int
  type Tid = int

  const NULL: Ref := 0

  // Values of Node.waitStatus.
  const CANCELLED: int := 1
  const SIGNAL: int := -1
  const PROPAGATE: int := -3

  datatype Kind = Mutex | Latch | Counting

  /** Program points.  The prefix names the source method (Enq: addWaiter and enq, Aq:
      acquireQueued and doAcquireShared, SetHead and Prop: setHeadAndPropagate, Sp:
      shouldParkAfterFailedAcquire, Ca: cancelAcquire, Re: release, Dr: doReleaseShared, Us:
      unparkSuccessor, Co: await, Sig: transferForSignal after its CAS of tail); the groups say what
      the thread's own node is to the queue. */
  datatype EnqPc = EnqReadTail | EnqInitHead | EnqInitRead | EnqInitTail | EnqSetPrev | EnqCasTail
  datatype WaitPc =
    | EnqSetNext | AqReadPrev | AqCheckHead | AqTry | SetHeadOld | SetHead
    | SpStatus | SpCas | SpReadPrev | SpWritePrev | SpPredStatus | SpSetNext | Park | CaThread
  datatype QuitPc = CaReadPrev | CaSkipStatus | CaSkipRead | CaSkipWrite | CaPredNext | CaMark
  datatype LeadPc = SetHeadThread | SetHeadPrev | PropOldStatus | PropReadHead | PropStatus | PropNext | ClearNext
  datatype GonePc =
    | CaTail | CaTailCas | CaNullNext | CaHead | CaStatus | CaCas | CaPredThread
    | CaNext | CaNextStatus | CaSplice | CaSelf
  datatype RelPc = ReCheck | ReSet | ReHead | ReStatus | ReleaseShared
  datatype DrPc = DrHead | DrTail | DrStatus | DrCasSignal | DrCasPropagate | DrCheck
  datatype UsPc =
    | UsStatus | UsCas | UsNext | UsNextStatus | UsTail | UsScanStatus | UsScanPrev | UsThread | UsUnpark

  datatype CondPc = CoCheck | CoPark | CoCancel | CoSpin
  datatype SigPc = SigSetNext | SigStatus | SigCas | SigThread | SigUnpark

  datatype Pc =
    | Idle | Held | TryAcquire | AddWaiter
    | Enq(e: EnqPc)   // the node is not queued yet, or it is the node of a signalled waiter
    | Cond(c: CondPc) // the node waits for a signal or is being transferred
    | Sig(g: SigPc)   // the node of a signalled waiter has been queued
    | Wait(w: WaitPc) // the node is queued behind head
    | Quit(q: QuitPc) // so it is, but the thread is in cancelAcquire
    | Lead(l: LeadPc) // the node has become head
    | Gone(o: GonePc) // the node is cancelled
    | Rel(r: RelPc) | Dr(d: DrPc) | Us(u: UsPc)

  /** The method `unparkSuccessor` returns to. */
  datatype Caller = ByRelease | ByAwait | ByCancel | ByShared

  /** The locals of a thread: its own node `n`, the node `e` it queues, which is its own or that of a
      waiter it signals, the predecessor `p` it looks at, the saved successor `q` of a cancelling
      thread (predNext), the node `y` whose successor is to be unparked (also the local h), the
      candidate `s`, the cursor `c` of the backward scan, a scratch reference `x`, a status read
      earlier, the result of tryAcquireShared, and who called release, unparkSuccessor and
      doReleaseShared. */
  datatype Frame = Frame(
    pc: Pc, n: Ref, e: Ref, p: Ref, q: Ref, y: Ref, s: Ref, c: Ref, x: Ref,
    ws: int, r: int, caller: Caller, acquiring: bool)

  const IDLE_FRAME: Frame :=
    Frame(Idle, NULL, NULL, NULL, NULL, NULL, NULL, NULL, NULL, 0, 0, ByRelease, false)

  /** The thread queues the node of another thread; it has no node itself then. */
  predicate Signalling(f: Frame) { f.pc.Enq? && f.n == NULL }

  /** Shared memory.  `waiting` holds the nodes of status CONDITION.  `own`, `mover`, `ord`, `log` and
      `heads` are history: the thread a node was made for, the thread that won the CAS of its status
      CONDITION, the position of a node in the order of successful tail CASes, that order itself, and
      the successive values of head. */
  datatype Mem = Mem(
    kind: Kind, st: nat, head: Ref, tail: Ref,
    ws: map<Ref, int>, prev: map<Ref, Ref>, next: map<Ref, Ref>, thr: map<Ref, Tid>,
    shared: set<Ref>, waiting: set<Ref>, permits: set<Tid>, nextRef: Ref,
    own: map<Ref, Tid>, mover: map<Ref, Tid>, ord: map<Ref, nat>, log: seq<Ref>, heads: seq<Ref>)

  /** `stale` is history too: the step described by `StaleSignal` has happened since head changed
      last and since the synchronizer became available. */
  datatype State = State(m: Mem, th: map<Tid, Frame>, stale: bool)

  function Init(kind: Kind, st: nat): State {
    State(Mem(kind, st, NULL, NULL, map[], map[], map[], map[], {}, {}, {}, 1,
              map[], map[], map[], [], []), map[], false)
  }

  // Fields of nodes are 0 or null until they are written.
  function Ws(m: Mem, r: Ref): int { if r in m.ws then m.ws[r] else 0 }
  function Prev(m: Mem, r: Ref): Ref { if r in m.prev then m.prev[r] else NULL }
  function Next(m: Mem, r: Ref): Ref { if r in m.next then m.next[r] else NULL }
  function Thr(m: Mem, r: Ref): Tid { if r in m.thr then m.thr[r] else 0 }
  function Own(m: Mem, r: Ref): Tid { if r in m.own then m.own[r] else 0 }
  function Mover(m: Mem, r: Ref): Tid { if r in m.mover then m.mover[r] else Own(m, r) }
  function Th(s: State, t: Tid): Frame { if t in s.th then s.th[t] else IDLE_FRAME }

  /** Would tryAcquire (or tryAcquireShared) succeed now? */
  predicate Available(m: Mem) {
    if m.kind == Mutex then m.st == 0 else m.st != 0
  }

  function AfterAcquire(m: Mem): nat
    requires Available(m)
  {
    match m.kind
    case Mutex => 1
    case Latch => m.st
    case Counting => m.st - 1
  }

  /** The value tryAcquireShared returns on success. */
  function AcquireResult(m: Mem): int {
    match m.kind
    case Mutex => 0
    case Latch => 1
    case Counting => m.st - 1
  }

  /** The write, if any, a step performs. */
  datatype Effect =
    | Nothing
    | SetState(st: nat)
    | Alloc
    | AllocWaiting
    | Claim(r: Ref)
    | InitHead
    | WriteHead(r: Ref)
    | WriteTail(r: Ref)
    | Append(r: Ref)
    | WriteStatus(r: Ref, ws: int)
    | WritePrev(r: Ref, v: Ref)
    | WriteNext(r: Ref, v: Ref)
    | ClearThread(r: Ref)
    | Unpark(t: Tid)
    | TakePermit(t: Tid)

  function Write(m: Mem, t: Tid, e: Effect): Mem {
    match e
    case Nothing => m
    case SetState(st) => m.(st := st)
    case Alloc =>
      m.(thr := m.thr[m.nextRef := t], own := m.own[m.nextRef := t], nextRef := m.nextRef + 1,
      shared := if m.kind == Mutex then m.shared else m.shared + {m.nextRef})
    case AllocWaiting =>
      m.(thr := m.thr[m.nextRef := t], own := m.own[m.nextRef := t], nextRef := m.nextRef + 1,
      waiting := m.waiting + {m.nextRef})
    case Claim(r) => m.(waiting := m.waiting - {r}, mover := m.mover[r := t])
    case InitHead =>
      m.(head := m.nextRef, own := m.own[m.nextRef := 0], nextRef := m.nextRef + 1,
      ord := m.ord[m.nextRef := |m.log|], log := m.log + [m.nextRef], heads := m.heads + [m.nextRef])
    case WriteHead(r) => m.(head := r, heads := m.heads + [r])
    case WriteTail(r) => m.(tail := r)
    case Append(r) => m.(tail := r, ord := m.ord[r := |m.log|], log := m.log + [r])
    case WriteStatus(r, v) => m.(ws := m.ws[r := v])
    case WritePrev(r, v) => m.(prev := m.prev[r := v])
    case WriteNext(r, v) => m.(next := m.next[r := v])
    case ClearThread(r) => m.(thr := m.thr[r := 0])
    case Unpark(x) => m.(permits := m.permits + {x})
    case TakePermit(x) => m.(permits := m.permits - {x})
  }

  /** What a thread does where it has a choice: at Idle, call acquire (Go) or releaseShared
      (Alt); at Held, call release (Go), await or signal; while parked, return because of a permit
      (Go), spuriously (Alt) or because of an interrupt (Abort); in the acquire loop, give up (Abort);
      in await, give up (Interrupt). */
  datatype Choice = Go | Alt | Abort | Await | Signal(r: Ref) | Interrupt

  /** Await takes the lock again without giving up. */
  predicate GivesUp(f: Frame, c: Choice) { c == Abort && f.caller != ByAwait }

  /** The end of release, which await calls too. */
  function Released(f: Frame): Frame { f.(pc := if f.caller == ByAwait then Cond(CoCheck) else Idle) }

  function Return(f: Frame): Frame {
    match f.caller
    case ByRelease => Released(f)
    case ByAwait => Released(f)
    case ByCancel => f.(pc := Gone(CaSelf))
    case ByShared => f.(pc := Dr(DrCheck))
  }

  /** The loop test of the backward scan in unparkSuccessor and what follows it. */
  function ScanTest(f: Frame): Frame {
    if f.c != NULL && f.c != f.y then f.(pc := Us(UsScanStatus))
    else if f.s != NULL then f.(pc := Us(UsThread))
    else Return(f)
  }

  function EnterUnpark(f: Frame, y: Ref, caller: Caller): Frame {
    f.(pc := Us(UsStatus), y := y, caller := caller)
  }

  function ActOutside(m: Mem, t: Tid, f: Frame, c: Choice): (Frame, Effect) {
    match f.pc
    case Idle =>
      if c == Go then (f.(pc := TryAcquire), Nothing)
      else if m.kind != Mutex then (f.(pc := Rel(ReleaseShared), caller := ByRelease), Nothing)
      else (f, Nothing)
    case Held =>
      (match c
       case Go => (f.(pc := Rel(ReCheck), caller := ByRelease), Nothing)
       case Await => (f.(pc := Rel(ReCheck), n := m.nextRef, caller := ByAwait), AllocWaiting)
       case Signal(r) =>
         if r in m.waiting && Own(m, r) != t then (f.(pc := Enq(EnqReadTail), n := NULL, e := r), Claim(r))
         else (f, Nothing)
       case _ => (f, Nothing))
    case TryAcquire =>
      if Available(m) then (f.(pc := if m.kind == Mutex then Held else Idle), SetState(AfterAcquire(m)))
      else (f.(pc := AddWaiter), Nothing)
    case AddWaiter =>
      if m.tail == NULL then (f.(pc := Enq(EnqReadTail), n := m.nextRef, e := m.nextRef, caller := ByRelease), Alloc)
      else (f.(pc := Enq(EnqSetPrev), n := m.nextRef, e := m.nextRef, p := m.tail, caller := ByRelease), Alloc)
    case _ => (f, Nothing)
  }

  function ActEnq(m: Mem, f: Frame, pc: EnqPc): (Frame, Effect) {
    match pc
    case EnqReadTail =>
      if m.tail == NULL then (f.(pc := Enq(EnqInitHead)), Nothing)
      else (f.(pc := Enq(EnqSetPrev), p := m.tail), Nothing)
    case EnqInitHead =>
      if m.head == NULL then (f.(pc := Enq(EnqInitRead)), InitHead) else (f.(pc := Enq(EnqReadTail)), Nothing)
    case EnqInitRead => (f.(pc := Enq(EnqInitTail), x := m.head), Nothing)
    case EnqInitTail => (f.(pc := Enq(EnqReadTail)), WriteTail(f.x))
    case EnqSetPrev => (f.(pc := Enq(EnqCasTail)), WritePrev(f.e, f.p))
    case EnqCasTail =>
      if m.tail == f.p then (f.(pc := if Signalling(f) then Sig(SigSetNext) else Wait(EnqSetNext)), Append(f.e))
      else (f.(pc := Enq(EnqReadTail)), Nothing)
  }

  /** isOnSyncQueue is one step: it answers as of one of its reads. */
  function ActCond(m: Mem, t: Tid, f: Frame, pc: CondPc, c: Choice): (Frame, Effect) {
    match pc
    case CoCheck => (f.(pc := if f.n in m.ord then Wait(AqReadPrev) else Cond(CoPark)), Nothing)
    case CoPark =>
      (match c
       case Go => if t in m.permits then (f.(pc := Cond(CoCheck)), TakePermit(t)) else (f, Nothing)
       case Alt => (f.(pc := Cond(CoCheck)), Nothing)
       case Interrupt => (f.(pc := Cond(CoCancel)), Nothing)
       case _ => (f, Nothing))
    case CoCancel =>
      if f.n in m.waiting then (f.(pc := Enq(EnqReadTail), e := f.n), Claim(f.n)) else (f.(pc := Cond(CoSpin)), Nothing)
    case CoSpin => (f.(pc := if f.n in m.ord then Wait(AqReadPrev) else Cond(CoSpin)), Nothing)
  }

  function ActSig(m: Mem, f: Frame, pc: SigPc): (Frame, Effect) {
    match pc
    case SigSetNext => (f.(pc := Sig(SigStatus)), WriteNext(f.p, f.e))
    case SigStatus =>
      var ws := Ws(m, f.p);
      (f.(pc := if ws > 0 then Sig(SigThread) else Sig(SigCas), ws := ws), Nothing)
    case SigCas =>
      if Ws(m, f.p) == f.ws then (f.(pc := Held), WriteStatus(f.p, SIGNAL)) else (f.(pc := Sig(SigThread)), Nothing)
    case SigThread => (f.(pc := Sig(SigUnpark), x := Thr(m, f.e)), Nothing)
    case SigUnpark => (f.(pc := Held), if f.x != 0 then Unpark(f.x) else Nothing)
  }

  function ActWait(m: Mem, t: Tid, f: Frame, pc: WaitPc, c: Choice): (Frame, Effect) {
    match pc
    case EnqSetNext => (f.(pc := Wait(AqReadPrev)), WriteNext(f.p, f.n))
    case AqReadPrev =>
      if GivesUp(f, c) then (f.(pc := Wait(CaThread)), Nothing)
      else (f.(pc := Wait(AqCheckHead), p := Prev(m, f.n)), Nothing)
    case AqCheckHead => (f.(pc := if f.p == m.head then Wait(AqTry) else Wait(SpStatus)), Nothing)
    case AqTry =>
      if Available(m) then
        (f.(pc := if m.kind == Mutex then Wait(SetHead) else Wait(SetHeadOld), r := AcquireResult(m)),
         SetState(AfterAcquire(m)))
      else (f.(pc := Wait(SpStatus)), Nothing)
    case SetHeadOld => (f.(pc := Wait(SetHead), y := m.head), Nothing)
    case SetHead => (f.(pc := Lead(SetHeadThread)), WriteHead(f.n))
    case SpStatus =>
      if GivesUp(f, c) then (f.(pc := Wait(CaThread)), Nothing)
      else
        var ws := Ws(m, f.p);
        (f.(pc := if ws == SIGNAL then Wait(Park) else if ws > 0 then Wait(SpReadPrev) else Wait(SpCas), ws := ws),
         Nothing)
    case SpCas => (f.(pc := Wait(AqReadPrev)), if Ws(m, f.p) == f.ws then WriteStatus(f.p, SIGNAL) else Nothing)
    case SpReadPrev => (f.(pc := Wait(SpWritePrev), x := Prev(m, f.p)), Nothing)
    case SpWritePrev => (f.(pc := Wait(SpPredStatus), p := f.x), WritePrev(f.n, f.x))
    case SpPredStatus => (f.(pc := if Ws(m, f.p) > 0 then Wait(SpReadPrev) else Wait(SpSetNext)), Nothing)
    case SpSetNext => (f.(pc := Wait(AqReadPrev)), WriteNext(f.p, f.n))
    case Park =>
      (match c
       case Go => if t in m.permits then (f.(pc := Wait(AqReadPrev)), TakePermit(t)) else (f, Nothing)
       case Alt => (f.(pc := Wait(AqReadPrev)), Nothing)
       case Abort => (f.(pc := if GivesUp(f, c) then Wait(CaThread) else Wait(AqReadPrev)), Nothing)
       case _ => (f, Nothing))
    case CaThread => (f.(pc := Quit(CaReadPrev)), ClearThread(f.n))
  }

  function ActQuit(m: Mem, f: Frame, pc: QuitPc): (Frame, Effect) {
    match pc
    case CaReadPrev => (f.(pc := Quit(CaSkipStatus), p := Prev(m, f.n)), Nothing)
    case CaSkipStatus => (f.(pc := if Ws(m, f.p) > 0 then Quit(CaSkipRead) else Quit(CaPredNext)), Nothing)
    case CaSkipRead => (f.(pc := Quit(CaSkipWrite), x := Prev(m, f.p)), Nothing)
    case CaSkipWrite => (f.(pc := Quit(CaSkipStatus), p := f.x), WritePrev(f.n, f.x))
    case CaPredNext => (f.(pc := Quit(CaMark), q := Next(m, f.p)), Nothing)
    case CaMark => (f.(pc := Gone(CaTail)), WriteStatus(f.n, CANCELLED))
  }

  function ActLead(m: Mem, f: Frame, pc: LeadPc): (Frame, Effect) {
    match pc
    case SetHeadThread => (f.(pc := Lead(SetHeadPrev)), ClearThread(f.n))
    case SetHeadPrev =>
      (f.(pc := if m.kind == Mutex then Lead(ClearNext) else Lead(PropOldStatus)), WritePrev(f.n, NULL))
    case PropOldStatus =>
      (f.(pc := if f.r > 0 || f.y == NULL || Ws(m, f.y) < 0 then Lead(PropNext) else Lead(PropReadHead)), Nothing)
    case PropReadHead => (f.(pc := if m.head == NULL then Lead(PropNext) else Lead(PropStatus), y := m.head), Nothing)
    case PropStatus => (f.(pc := if Ws(m, f.y) < 0 then Lead(PropNext) else Lead(ClearNext)), Nothing)
    case PropNext =>
      var s := Next(m, f.n);
      (if s == NULL || s in m.shared then f.(pc := Dr(DrHead), acquiring := true) else f.(pc := Lead(ClearNext)),
       Nothing)
    case ClearNext => (f.(pc := if m.kind == Mutex then Held else Idle), WriteNext(f.p, NULL))
  }

  function ActGone(m: Mem, f: Frame, pc: GonePc): (Frame, Effect) {
    match pc
    case CaTail => (f.(pc := if m.tail == f.n then Gone(CaTailCas) else Gone(CaHead)), Nothing)
    case CaTailCas =>
      if m.tail == f.n then (f.(pc := Gone(CaNullNext)), WriteTail(f.p)) else (f.(pc := Gone(CaHead)), Nothing)
    case CaNullNext => (f.(pc := Idle), if Next(m, f.p) == f.q then WriteNext(f.p, NULL) else Nothing)
    case CaHead => (if f.p != m.head then f.(pc := Gone(CaStatus)) else EnterUnpark(f, f.n, ByCancel), Nothing)
    case CaStatus =>
      var ws := Ws(m, f.p);
      (if ws == SIGNAL then f.(pc := Gone(CaPredThread))
       else if ws <= 0 then f.(pc := Gone(CaCas), ws := ws)
       else EnterUnpark(f, f.n, ByCancel), Nothing)
    case CaCas =>
      if Ws(m, f.p) == f.ws then (f.(pc := Gone(CaPredThread)), WriteStatus(f.p, SIGNAL))
      else (EnterUnpark(f, f.n, ByCancel), Nothing)
    case CaPredThread => (if Thr(m, f.p) != 0 then f.(pc := Gone(CaNext)) else EnterUnpark(f, f.n, ByCancel), Nothing)
    case CaNext =>
      var x := Next(m, f.n);
      (f.(pc := if x == NULL then Gone(CaSelf) else Gone(CaNextStatus), x := x), Nothing)
    case CaNextStatus => (f.(pc := if Ws(m, f.x) <= 0 then Gone(CaSplice) else Gone(CaSelf)), Nothing)
    case CaSplice => (f.(pc := Gone(CaSelf)), if Next(m, f.p) == f.q then WriteNext(f.p, f.x) else Nothing)
    case CaSelf => (f.(pc := Idle), WriteNext(f.n, f.n))
  }

  function ActRel(m: Mem, f: Frame, pc: RelPc): (Frame, Effect) {
    match pc
    case ReCheck =>
      if m.st != 0 then (f.(pc := Rel(ReSet)), Nothing)
      else if f.caller == ByAwait then (f, Nothing) // never happens to a holder: see MutualExclusion
      else (f.(pc := Idle), Nothing) // IllegalMonitorStateException
    case ReSet => (f.(pc := Rel(ReHead)), SetState(0))
    case ReHead => (if m.head == NULL then Released(f) else f.(pc := Rel(ReStatus), y := m.head), Nothing)
    case ReStatus =>
      (if Ws(m, f.y) == 0 then Released(f)
       else EnterUnpark(f, f.y, if f.caller == ByAwait then ByAwait else ByRelease), Nothing)
    case ReleaseShared =>
      (f.(pc := Dr(DrHead), acquiring := false), SetState(if m.kind == Latch then 1 else m.st + 1))
  }

  function ActDr(m: Mem, f: Frame, pc: DrPc): (Frame, Effect) {
    match pc
    case DrHead => (f.(pc := if m.head == NULL then Dr(DrCheck) else Dr(DrTail), y := m.head), Nothing)
    case DrTail => (f.(pc := if f.y == m.tail then Dr(DrCheck) else Dr(DrStatus)), Nothing)
    case DrStatus =>
      var ws := Ws(m, f.y);
      (f.(pc := if ws == SIGNAL then Dr(DrCasSignal) else if ws == 0 then Dr(DrCasPropagate) else Dr(DrCheck)), Nothing)
    case DrCasSignal =>
      if Ws(m, f.y) == SIGNAL then (EnterUnpark(f, f.y, ByShared), WriteStatus(f.y, 0))
      else (f.(pc := Dr(DrHead)), Nothing)
    case DrCasPropagate =>
      if Ws(m, f.y) == 0 then (f.(pc := Dr(DrCheck)), WriteStatus(f.y, PROPAGATE))
      else (f.(pc := Dr(DrHead)), Nothing)
    case DrCheck =>
      (f.(pc := if m.head != f.y then Dr(DrHead) else if f.acquiring then Lead(ClearNext) else Idle), Nothing)
  }

  function ActUs(m: Mem, f: Frame, pc: UsPc): (Frame, Effect) {
    match pc
    case UsStatus =>
      var ws := Ws(m, f.y);
      (f.(pc := if ws < 0 then Us(UsCas) else Us(UsNext), ws := ws), Nothing)
    case UsCas => (f.(pc := Us(UsNext)), if Ws(m, f.y) == f.ws then WriteStatus(f.y, 0) else Nothing)
    case UsNext =>
      var s := Next(m, f.y);
      (f.(pc := if s == NULL then Us(UsTail) else Us(UsNextStatus), s := s), Nothing)
    case UsNextStatus => (f.(pc := if Ws(m, f.s) > 0 then Us(UsTail) else Us(UsThread)), Nothing)
    case UsTail => (ScanTest(f.(c := m.tail, s := NULL)), Nothing)
    case UsScanStatus => (f.(pc := Us(UsScanPrev), s := if Ws(m, f.c) <= 0 then f.c else f.s), Nothing)
    case UsScanPrev => (ScanTest(f.(c := Prev(m, f.c))), Nothing)
    case UsThread => (f.(pc := Us(UsUnpark), x := Thr(m, f.s)), Nothing)
    case UsUnpark => (Return(f), if f.x != 0 then Unpark(f.x) else Nothing)
  }

  function Act(m: Mem, t: Tid, f: Frame, c: Choice): (Frame, Effect) {
    match f.pc
    case Enq(pc) => ActEnq(m, f, pc)
    case Wait(pc) => ActWait(m, t, f, pc, c)
    case Quit(pc) => ActQuit(m, f, pc)
    case Lead(pc) => ActLead(m, f, pc)
    case Gone(pc) => ActGone(m, f, pc)
    case Rel(pc) => ActRel(m, f, pc)
    case Dr(pc) => ActDr(m, f, pc)
    case Us(pc) => ActUs(m, f, pc)
    case Cond(pc) => ActCond(m, t, f, pc, c)
    case Sig(pc) => ActSig(m, f, pc)
    case _ => ActOutside(m, t, f, c)
  }

  /** Following prev links from `n` meets `y`. */
  ghost predicate Reaches(prev: map<Ref, Ref>, ord: map<Ref, nat>, n: Ref, y: Ref)
    decreases if n in ord then ord[n] else 0
  {
    n == y ||
    (n in ord && n in prev && prev[n] in ord && ord[prev[n]] < ord[n] && Reaches(prev, ord, prev[n], y))
  }

  /** Every node queued strictly between positions `lo` and `hi` is cancelled. */
  ghost predicate Gap(m: Mem, lo: nat, hi: nat) {
    forall k :: k in m.ord && lo < m.ord[k] < hi ==> Ws(m, k) == CANCELLED
  }

  /** `n` is queued behind `y` and all nodes between them are cancelled. */
  ghost predicate Behind(m: Mem, y: Ref, n: Ref) {
    y in m.ord && n in m.ord && m.ord[y] < m.ord[n] && Gap(m, m.ord[y], m.ord[n])
  }

  /** The status CAS of cancelAcquire (line 731) is about to succeed on a predecessor that
      has become head since the test `pred != head`, while the synchronizer is available and
      the first waiter, which already links to that head, is about to read the status in
      shouldParkAfterFailedAcquire, and the cancelled node's next does not lead to that waiter. */
  ghost predicate StaleSignal(s: State, t: Tid) {
    var f := Th(s, t);
    && f.pc == Gone(CaCas)
    && f.p == s.m.head
    && Ws(s.m, f.p) == f.ws
    && Available(s.m)
    && exists n :: AboutToRead(s, n) && Next(s.m, f.n) != n
  }

  ghost predicate AboutToRead(s: State, n: Ref) {
    && Behind(s.m, s.m.head, n)
    && Prev(s.m, n) == s.m.head
    && Th(s, Own(s.m, n)).n == n
    && Th(s, Own(s.m, n)).pc == Wait(SpStatus)
    && Own(s.m, n) !in s.m.permits
  }

  /** One step of thread `t`; 0 is not a thread. */
  ghost function Step(s: State, t: Tid, c: Choice): State {
    if t == 0 then s
    else
      var (f, e) := Act(s.m, t, Th(s, t), c);
      State(Write(s.m, t, e), s.th[t := f],
            StaleSignal(s, t) || (s.stale && Available(s.m) && Write(s.m, t, e).head == s.m.head))
  }

  type Schedule = seq<(Tid, Choice)>

  ghost function Run(s: State, sched: Schedule): State
    decreases |sched|
  {
    if sched == [] then s else Run(Step(s, sched[0].0, sched[0].1), sched[1..])
  }
}
