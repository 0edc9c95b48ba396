/** What releases and acquires do to the state over all runs, and what it means to wait at rest. */
module AqsRelease {
  import opened AqsModel
  import opened AqsQueue
  import opened AqsPreserve
  import opened AqsTheorems
  import opened AqsWakeup

  /** Program points of the latch and of the semaphore. */
  predicate SharedPoint(f: Frame) { !MutexOnly(f) && (f.pc.Rel? ==> f.pc.r == ReleaseShared) }

  ghost predicate AllShared(s: State) { s.m.kind != Mutex && forall t :: SharedPoint(Th(s, t)) }

  /** The step is the one in which an acquire succeeds. */
  predicate Passes(f: Frame, g: Frame) {
    (f.pc == TryAcquire && g.pc == Idle) || (f.pc == Wait(AqTry) && g.pc == Wait(SetHeadOld))
  }

  predicate Releasing(f: Frame) { f.pc == Rel(ReleaseShared) }

  /** How many releases and how many successful acquires a run has. */
  ghost function Releases(s: State, sched: Schedule): nat
    decreases |sched|
  {
    if sched == [] then 0
    else
      var (t, c) := sched[0];
      (if t != 0 && Releasing(Th(s, t)) then 1 else 0) + Releases(Step(s, t, c), sched[1..])
  }

  ghost function Acquires(s: State, sched: Schedule): nat
    decreases |sched|
  {
    if sched == [] then 0
    else
      var (t, c) := sched[0];
      (if t != 0 && Passes(Th(s, t), Th(Step(s, t, c), t)) then 1 else 0) + Acquires(Step(s, t, c), sched[1..])
  }

  /** What one step of the latch or the semaphore does to the state. */
  ghost predicate Counts(m: Mem, f: Frame, g: Frame, w: Mem) {
    && SharedPoint(g) && w.kind == m.kind
    && (Passes(f, g) ==> m.st > 0)
    && w.st == (if Releasing(f) then (if m.kind == Latch then 1 else m.st + 1)
                else if Passes(f, g) && m.kind == Counting then m.st - 1 else m.st)
  }

  lemma CountsWait(m: Mem, t: Tid, f: Frame, pc: WaitPc, c: Choice)
    requires m.kind != Mutex && f.pc == Wait(pc)
    ensures var (g, e) := ActWait(m, t, f, pc, c); Counts(m, f, g, Write(m, t, e))
  {
    hide Write;
    WriteState(m, t, ActWait(m, t, f, pc, c).1);
  }

  lemma CountsLead(m: Mem, t: Tid, f: Frame, pc: LeadPc)
    requires m.kind != Mutex && f.pc == Lead(pc)
    ensures var (g, e) := ActLead(m, f, pc); Counts(m, f, g, Write(m, t, e))
  {
    hide Write;
    WriteState(m, t, ActLead(m, f, pc).1);
  }

  lemma CountsGone(m: Mem, t: Tid, f: Frame, pc: GonePc)
    requires m.kind != Mutex && f.pc == Gone(pc)
    ensures var (g, e) := ActGone(m, f, pc); Counts(m, f, g, Write(m, t, e))
  {
    hide Write;
    WriteState(m, t, ActGone(m, f, pc).1);
  }

  lemma CountsUs(m: Mem, t: Tid, f: Frame, pc: UsPc)
    requires m.kind != Mutex && f.pc == Us(pc) && SharedPoint(f)
    ensures var (g, e) := ActUs(m, f, pc); Counts(m, f, g, Write(m, t, e))
  {
    hide ActUs, Write;
    UsFrame(m, f, pc);
    WriteState(m, t, ActUs(m, f, pc).1);
  }

  lemma CountsDr(m: Mem, t: Tid, f: Frame, pc: DrPc)
    requires m.kind != Mutex && f.pc == Dr(pc)
    ensures var (g, e) := ActDr(m, f, pc); Counts(m, f, g, Write(m, t, e))
  {
    hide Write;
    WriteState(m, t, ActDr(m, f, pc).1);
  }

  lemma CountsEnq(m: Mem, t: Tid, f: Frame, pc: EnqPc)
    requires m.kind != Mutex && SharedPoint(f) && f.pc == Enq(pc)
    ensures var (g, e) := ActEnq(m, f, pc); Counts(m, f, g, Write(m, t, e))
  {
    hide Write;
    WriteState(m, t, ActEnq(m, f, pc).1);
  }

  lemma CountsQuit(m: Mem, t: Tid, f: Frame, pc: QuitPc)
    requires m.kind != Mutex && f.pc == Quit(pc)
    ensures var (g, e) := ActQuit(m, f, pc); Counts(m, f, g, Write(m, t, e))
  {
    hide Write;
    WriteState(m, t, ActQuit(m, f, pc).1);
  }

  lemma CountsOutside(m: Mem, t: Tid, f: Frame, c: Choice)
    requires m.kind != Mutex && SharedPoint(f) && m.nextRef != NULL
    requires f.pc == Idle || f.pc == TryAcquire || f.pc == AddWaiter || f.pc.Rel?
    ensures var (g, e) := Act(m, t, f, c); Counts(m, f, g, Write(m, t, e))
  {
    hide Write;
    WriteState(m, t, Act(m, t, f, c).1);
  }

  lemma CountsStep(m: Mem, t: Tid, f: Frame, c: Choice)
    requires m.kind != Mutex && SharedPoint(f) && m.nextRef != NULL
    ensures var (g, e) := Act(m, t, f, c); Counts(m, f, g, Write(m, t, e))
  {
    hide Counts, ActEnq, ActWait, ActQuit, ActLead, ActGone, ActRel, ActDr, ActUs, ActCond, ActSig, ActOutside, Write;
    match f.pc
    case Wait(pc) => CountsWait(m, t, f, pc, c);
    case Lead(pc) => CountsLead(m, t, f, pc);
    case Gone(pc) => CountsGone(m, t, f, pc);
    case Us(pc) => CountsUs(m, t, f, pc);
    case Dr(pc) => CountsDr(m, t, f, pc);
    case Enq(pc) => CountsEnq(m, t, f, pc);
    case Quit(pc) => CountsQuit(m, t, f, pc);
    case _ => CountsOutside(m, t, f, c);
  }

  lemma SharedCounts(s: State, t: Tid, c: Choice)
    requires Inv(s) && AllShared(s) && t != 0
    ensures var u := Step(s, t, c); AllShared(u) && Counts(s.m, Th(s, t), Th(u, t), u.m)
  {
    hide Act, Inv, SharedPoint, Write, StaleSignal;
    HasNode(s, t);
    StepFrames(s, t, c);
    assert SharedPoint(Th(s, t));
    CountsStep(s.m, t, Th(s, t), c);
  }

  /** The semaphore: permits at the start and released are permits acquired and left. */
  lemma {:induction false} Balance(s: State, sched: Schedule)
    requires Inv(s) && AllShared(s) && s.m.kind == Counting
    ensures Run(s, sched).m.st + Acquires(s, sched) == s.m.st + Releases(s, sched)
    decreases |sched|
  {
    hide Inv, AllShared, Step;
    if sched != [] {
      var (t, c) := sched[0];
      if t == 0 { StepZero(s, c); } else { SharedCounts(s, t, c); InvStep(s, t, c); }
      Balance(Step(s, t, c), sched[1..]);
    }
  }

  lemma StepZero(s: State, c: Choice)
    ensures Step(s, 0, c) == s
  {
  }

  /** The latch is open from the first release on, and not before. */
  lemma {:induction false} LatchIs(s: State, sched: Schedule)
    requires Inv(s) && AllShared(s) && s.m.kind == Latch
    ensures var st := Run(s, sched).m.st; if Releases(s, sched) > 0 then st == 1 else st == s.m.st
    ensures Acquires(s, sched) > 0 ==> s.m.st > 0 || Releases(s, sched) > 0
    decreases |sched|
  {
    hide Inv, AllShared, Step;
    if sched != [] {
      var (t, c) := sched[0];
      if t == 0 { StepZero(s, c); } else { SharedCounts(s, t, c); InvStep(s, t, c); }
      LatchIs(Step(s, t, c), sched[1..]);
    }
  }

  lemma SharedInit(kind: Kind, st: nat)
    requires kind != Mutex
    ensures Inv(Init(kind, st)) && AllShared(Init(kind, st))
  {
    InvInit(kind, st);
  }

  /** In every run of the semaphore: what is left is what there was and what was released, less what
      was acquired. */
  lemma PermitsBalance(st: nat, sched: Schedule)
    ensures var s := Init(Counting, st); Run(s, sched).m.st + Acquires(s, sched) == st + Releases(s, sched)
  {
    hide Run, Inv, AllShared;
    SharedInit(Counting, st);
    Balance(Init(Counting, st), sched);
  }

  /** In every run of the latch: it is open from the first release on for ever, and nobody passes before
      that unless it was open at the start. */
  lemma LatchGate(st: nat, sched: Schedule)
    ensures var s := Init(Latch, st);
      && (Releases(s, sched) > 0 ==> Run(s, sched).m.st == 1)
      && (Releases(s, sched) == 0 ==> Run(s, sched).m.st == st)
      && (Acquires(s, sched) > 0 ==> st > 0 || Releases(s, sched) > 0)
  {
    hide Run, Inv, AllShared;
    SharedInit(Latch, st);
    LatchIs(Init(Latch, st), sched);
  }

  // ------------------------------------------------------------ calls

  lemma {:induction false} NotMoved(s: State, sched: Schedule, t: Tid)
    requires forall i :: 0 <= i < |sched| ==> sched[i].0 != t
    ensures Th(Run(s, sched), t) == Th(s, t)
    decreases |sched|
  {
    hide Step;
    if sched != [] {
      var (u, c) := sched[0];
      if u == 0 { StepZero(s, c); } else { StepFrames(s, u, c); }
      NotMoved(Step(s, u, c), sched[1..], t);
    }
  }

  /** A call of releaseShared releases in the next step of its thread, whatever the others do first. */
  lemma ReleaseTakesEffect(s: State, t: Tid, mid: Schedule, c: Choice)
    requires s.m.kind != Mutex && t != 0 && Th(s, t).pc == Idle
    requires forall i :: 0 <= i < |mid| ==> mid[i].0 != t
    ensures var u := Run(Step(s, t, Alt), mid);
      && Releasing(Th(u, t))
      && Step(u, t, c).m.st == if u.m.kind == Latch then 1 else u.m.st + 1
  {
    var v := Step(s, t, Alt);
    NotMoved(v, mid, t);
  }

  /** A call of acquire succeeds in the next step of its thread if it can, and queues otherwise. */
  lemma AcquireTakesEffect(s: State, t: Tid, mid: Schedule, c: Choice)
    requires t != 0 && Th(s, t).pc == Idle && forall i :: 0 <= i < |mid| ==> mid[i].0 != t
    ensures var u := Run(Step(s, t, Go), mid);
      var v := Step(u, t, c);
      if Available(u.m)
      then v.m == u.m.(st := AfterAcquire(u.m)) && Th(v, t).pc == if u.m.kind == Mutex then Held else Idle
      else v.m == u.m && Th(v, t).pc == AddWaiter
  {
    hide StaleSignal;
    var v := Step(s, t, Go);
    NotMoved(v, mid, t);
  }

  // ------------------------------------------------------------ at rest

  /** When all threads have come to rest and somebody is left waiting, without a stale signal, there
      is nothing to be had: the Mutex is held, the latch was never opened, or the semaphore has handed
      out all its permits. */
  lemma WaitingMeansUsedUp(kind: Kind, st: nat, sched: Schedule, t: Tid)
    requires kind == Mutex ==> st == 0
    requires var s := Run(Init(kind, st), sched); Quiescent(s) && !s.stale && Lost(s, t)
    ensures var s := Init(kind, st);
      match kind
      case Mutex => exists u :: Th(Run(s, sched), u).pc == Held
      case Latch => st == 0 && Releases(s, sched) == 0
      case Counting => Acquires(s, sched) == st + Releases(s, sched)
  {
    hide Run, Quiescent, Lost, Inv, AllShared;
    var s := Run(Init(kind, st), sched);
    if Available(s.m) { NoLostWakeup(kind, st, sched, t); }
    KindRuns(kind, st, sched);
    match kind
    case Mutex => HeldAtRest(sched);
    case Latch => LatchGate(st, sched);
    case Counting => PermitsBalance(st, sched);
  }

  lemma HeldAtRest(sched: Schedule)
    requires var s := Run(Init(Mutex, 0), sched); Quiescent(s) && !Available(s.m)
    ensures exists u :: Th(Run(Init(Mutex, 0), sched), u).pc == Held
  {
    hide Run, Inv;
    InvInit(Mutex, 0);
    MutexInit();
    MutexRun(Init(Mutex, 0), sched);
    var s := Run(Init(Mutex, 0), sched);
    var u :| Holds(Th(s, u));
    assert Th(s, u).pc == Held;
  }

  lemma {:induction false} KindKept(s: State, sched: Schedule)
    ensures Run(s, sched).m.kind == s.m.kind
    decreases |sched|
  {
    hide Act, StaleSignal;
    if sched != [] {
      var (t, c) := sched[0];
      if t != 0 { WriteState(s.m, t, Act(s.m, t, Th(s, t), c).1); }
      KindKept(Step(s, t, c), sched[1..]);
    }
  }

  lemma KindRuns(kind: Kind, st: nat, sched: Schedule)
    ensures Run(Init(kind, st), sched).m.kind == kind
  {
    KindKept(Init(kind, st), sched);
  }

  /** With the uninterruptible and untimed methods alone a stale signal cannot have happened. */
  lemma WaitingMeansUsedUpUninterrupted(kind: Kind, st: nat, sched: Schedule, t: Tid)
    requires kind == Mutex ==> st == 0
    requires forall i :: 0 <= i < |sched| ==> sched[i].1 != Abort
    requires var s := Run(Init(kind, st), sched); Quiescent(s) && Lost(s, t)
    ensures var s := Init(kind, st);
      match kind
      case Mutex => exists u :: Th(Run(s, sched), u).pc == Held
      case Latch => st == 0 && Releases(s, sched) == 0
      case Counting => Acquires(s, sched) == st + Releases(s, sched)
  {
    hide Run, Quiescent, Lost;
    NoCancelRun(Init(kind, st), sched);
    WaitingMeansUsedUp(kind, st, sched, t);
  }
}
