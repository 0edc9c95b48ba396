/** A thread left alone comes to rest: it returns, or it parks without a permit, or it waits for
    another thread to finish what only that thread can. */
module AqsProgress {
  import opened AqsModel
  import opened AqsQueue
  import opened AqsPreserve
  import opened AqsTheorems
  import opened AqsWakeup

  /** Prev links lead to nodes that were queued earlier, past head too. */
  ghost predicate PrevDown(m: Mem) {
    forall k {:trigger Prev(m, k)} ::
      k in m.ord && Prev(m, k) != NULL ==> Prev(m, k) in m.ord && m.ord[Prev(m, k)] < m.ord[k]
  }

  lemma PrevDownKept(m: Mem, t: Tid, e: Effect)
    requires Shape(m) && Legit(m, t, e) && PrevDown(m)
    ensures PrevDown(Write(m, t, e))
  {
    hide LinksOk;
    var w := Write(m, t, e);
    forall k | k in w.ord && Prev(w, k) != NULL
      ensures Prev(w, k) in w.ord && w.ord[Prev(w, k)] < w.ord[k]
    {
      FieldsKept(m, t, e, k);
    }
  }

  function Pos(m: Mem, k: Ref): nat { if k in m.ord then m.ord[k] else 0 }

  /** The thread can go no further by itself. */
  predicate Resting(m: Mem, t: Tid, f: Frame) {
    match f.pc
    case Idle => true
    case Held => true
    case Wait(pc) => pc == Park && t !in m.permits
    case Cond(pc) => (pc == CoPark && t !in m.permits) || (pc == CoSpin && f.n !in m.ord)
    case Enq(pc) => (pc == EnqReadTail || pc == EnqInitHead) && m.tail == NULL && m.head != NULL
    case _ => false
  }

  // How far the thread has to go: the part of its call, and the steps left in that part.

  function Part(m: Mem, t: Tid, f: Frame): nat {
    match f.pc
    case Idle => 0
    case Held => 0
    case TryAcquire => 30
    case AddWaiter => 29
    case Enq(_) => 28
    case Wait(_) => if t in m.permits then 27 else 26
    case Lead(pc) => if pc == ClearNext then 5 else 25
    case Quit(_) => 24
    case Gone(pc) => if pc == CaSelf then 5 else 23
    case Rel(_) => if f.caller == ByAwait then 40 else 22
    case Us(_) => if f.caller == ByAwait then 39 else if f.caller == ByShared then 20 else 21
    case Dr(_) => 20
    case Cond(_) => if t in m.permits then 36 else 35
    case Sig(_) => 10
  }

  function Round(m: Mem): nat { 3 * |m.log| + 30 }

  /** The rounds of the acquire loop that still go by before the predecessor's status is SIGNAL: one to
      set it, and one more to skip a cancelled predecessor. */
  function Rounds(m: Mem, p: Ref): nat {
    if Ws(m, p) == SIGNAL then 0 else if Ws(m, p) > 0 then Round(m) + Round(m) else Round(m)
  }

  function StepsWait(m: Mem, f: Frame, pc: WaitPc): nat {
    match pc
    case EnqSetNext => Rounds(m, Prev(m, f.n)) + 12
    case AqReadPrev => Rounds(m, Prev(m, f.n)) + 10
    case AqCheckHead => Rounds(m, f.p) + 9
    case AqTry => Rounds(m, f.p) + 8
    case SetHeadOld => 2
    case SetHead => 1
    case SpStatus => Rounds(m, f.p) + 7
    case SpCas => if Ws(m, f.p) == f.ws then 11 else Rounds(m, f.p) + 11
    case SpReadPrev => Round(m) + 3 * Pos(m, f.p) + 14
    case SpWritePrev => Round(m) + 3 * Pos(m, f.p) + 13
    case SpPredStatus => Round(m) + 3 * Pos(m, f.p) + 15
    case SpSetNext => Rounds(m, f.p) + 11
    case Park => 0
    case CaThread => 0
  }

  function StepsEnq(m: Mem, f: Frame, pc: EnqPc): nat {
    match pc
    case EnqReadTail => if m.tail != NULL then 3 else if m.head == NULL then 9 else 0
    case EnqInitHead => if m.head == NULL then 8 else 4
    case EnqInitRead => 7
    case EnqInitTail => 6
    case EnqSetPrev => if m.tail == f.p then 2 else 5
    case EnqCasTail => if m.tail == f.p then 1 else 4
  }

  function StepsQuit(m: Mem, f: Frame, pc: QuitPc): nat {
    match pc
    case CaReadPrev => 3 * |m.log| + 10
    case CaSkipStatus => 3 * Pos(m, f.p) + 5
    case CaSkipRead => 3 * Pos(m, f.p) + 4
    case CaSkipWrite => 3 * Pos(m, f.p) + 3
    case CaPredNext => 2
    case CaMark => 1
  }

  function StepsGone(pc: GonePc): nat {
    match pc
    case CaTail => 12
    case CaTailCas => 11
    case CaHead => 10
    case CaStatus => 9
    case CaCas => 8
    case CaPredThread => 7
    case CaNext => 6
    case CaNextStatus => 5
    case CaSplice => 4
    case CaNullNext => 1
    case CaSelf => 0
  }

  function StepsLead(pc: LeadPc): nat {
    match pc
    case SetHeadThread => 6
    case SetHeadPrev => 5
    case PropOldStatus => 4
    case PropReadHead => 3
    case PropStatus => 2
    case PropNext => 1
    case ClearNext => 0
  }

  function StepsUs(m: Mem, f: Frame, pc: UsPc): nat {
    match pc
    case UsStatus => 2 * |m.log| + 12
    case UsCas => 2 * |m.log| + 11
    case UsNext => 2 * |m.log| + 10
    case UsNextStatus => 2 * |m.log| + 9
    case UsTail => 2 * |m.log| + 8
    case UsScanStatus => 2 * Pos(m, f.c) + 5
    case UsScanPrev => 2 * Pos(m, f.c) + 4
    case UsThread => 2
    case UsUnpark => 1
  }

  function StepsDr(m: Mem, f: Frame, pc: DrPc): nat {
    var again := 2 * |m.log| + 30;
    var stale := if f.y == m.head then 0 else again + 10;
    match pc
    case DrHead => again
    case DrTail => stale + 2 * |m.log| + 25
    case DrStatus => stale + 2 * |m.log| + 24
    case DrCasSignal => if Ws(m, f.y) == SIGNAL then stale + 2 * |m.log| + 20 else again + 1
    case DrCasPropagate => if Ws(m, f.y) == 0 then stale + 2 else again + 1
    case DrCheck => stale + 1
  }

  function Steps(m: Mem, f: Frame): nat {
    match f.pc
    case Wait(pc) => StepsWait(m, f, pc)
    case Enq(pc) => StepsEnq(m, f, pc)
    case Quit(pc) => StepsQuit(m, f, pc)
    case Gone(pc) => StepsGone(pc)
    case Lead(pc) => StepsLead(pc)
    case Us(pc) =>
      StepsUs(m, f, pc) + if f.caller == ByShared then (if f.y == m.head then 2 else 2 * |m.log| + 42) else 0
    case Dr(pc) => StepsDr(m, f, pc)
    case Rel(pc) =>
      (match pc case ReCheck => 4 case ReSet => 3 case ReHead => 2 case ReStatus => 1 case ReleaseShared => 5)
    case Cond(pc) => (match pc case CoCancel => 3 case CoSpin => 2 case CoCheck => 1 case CoPark => 0)
    case Sig(pc) =>
      (match pc case SigSetNext => 5 case SigStatus => 4 case SigCas => 3 case SigThread => 2 case SigUnpark => 1)
    case _ => 0
  }

  predicate Falls(m: Mem, t: Tid, f: Frame, w: Mem, g: Frame) {
    Part(w, t, g) < Part(m, t, f) || (Part(w, t, g) == Part(m, t, f) && Steps(w, g) < Steps(m, f))
  }

  lemma FallsEnq(m: Mem, t: Tid, f: Frame, pc: EnqPc)
    requires Shape(m) && ThreadOk(m, t, f) && t != 0 && f.pc == Enq(pc) && !Resting(m, t, f)
    ensures var (g, e) := ActEnq(m, f, pc); Falls(m, t, f, Write(m, t, e), g)
  {
    hide LinksOk;
  }

  lemma FallsQuit(m: Mem, t: Tid, f: Frame, pc: QuitPc)
    requires Shape(m) && PrevDown(m) && ThreadOk(m, t, f) && t != 0 && f.pc == Quit(pc)
    ensures var (g, e) := ActQuit(m, f, pc); Falls(m, t, f, Write(m, t, e), g)
  {
    hide Write, Shape, OwnNodeOk, PrevDown;
    var (g, e) := ActQuit(m, f, pc);
    if pc == CaSkipWrite { QuitsDown(m, t, f); }
    PosLess(m, Prev(m, f.n));
    EndsAre(m, t, e);
    FieldsKept(m, t, e, f.p);
  }

  lemma QuitsDown(m: Mem, t: Tid, f: Frame)
    requires Shape(m) && PrevDown(m) && ThreadOk(m, t, f) && f.pc == Quit(CaSkipWrite)
    ensures Pos(m, f.x) < Pos(m, f.p)
  {
    SeesPrev(m, t, f);
    SkipOk(m, f.n, f.p);
    hide Numbered, EndsOk;
  }

  lemma FallsGone(m: Mem, t: Tid, f: Frame, pc: GonePc)
    requires f.pc == Gone(pc)
    ensures var (g, e) := ActGone(m, f, pc); Falls(m, t, f, Write(m, t, e), g)
  {
  }

  lemma FallsLead(m: Mem, t: Tid, f: Frame, pc: LeadPc)
    requires f.pc == Lead(pc)
    ensures var (g, e) := ActLead(m, f, pc); Falls(m, t, f, Write(m, t, e), g)
  {
  }

  lemma UsDown(m: Mem, t: Tid, f: Frame, pc: UsPc)
    requires Shape(m) && PrevDown(m) && UsOk(m, f, pc) && f.pc == Us(pc)
    ensures var (g, e) := ActUs(m, f, pc);
      && (g.pc.Us? ==> g.y == f.y && StepsUs(m, g, g.pc.u) < StepsUs(m, f, pc))
  {
    hide Shape;
    LinksIn(m, f.c);
    PosLess(m, m.tail);
    PosLess(m, f.c);
  }

  lemma PosLess(m: Mem, k: Ref)
    requires Shape(m)
    ensures Pos(m, k) <= |m.log| && (k in m.ord ==> m.ord[k] < |m.log|)
  {
  }

  lemma FallsUs(m: Mem, t: Tid, f: Frame, pc: UsPc)
    requires Shape(m) && PrevDown(m) && ThreadOk(m, t, f) && t != 0 && f.pc == Us(pc)
    ensures var (g, e) := ActUs(m, f, pc); Falls(m, t, f, Write(m, t, e), g)
  {
    hide Shape, PrevDown, OwnNodeOk, UsOk, ActUs, Write, StepsUs, ThreadOk;
    assert UsOk(m, f, pc) by { UsKnows(m, t, f, pc); }
    var (g, e) := ActUs(m, f, pc);
    UsDown(m, t, f, pc);
    UsReturns(m, f, pc);
    UsSame(m, t, e, g, pc);
    StepsLow(m, f, pc);
  }

  lemma UsKnows(m: Mem, t: Tid, f: Frame, pc: UsPc)
    requires ThreadOk(m, t, f) && f.pc == Us(pc)
    ensures UsOk(m, f, pc)
  {
  }

  lemma UsReturns(m: Mem, f: Frame, pc: UsPc)
    ensures var (g, e) := ActUs(m, f, pc);
      && g.caller == f.caller && (g.pc.Us? || g == Return(f).(s := g.s, c := g.c, x := g.x, ws := g.ws))
      && (e == Nothing || e.Unpark? || (e.WriteStatus? && e.ws == 0))
  {
  }

  /** The writes of unparkSuccessor do not change how far it has to go. */
  lemma UsSame(m: Mem, t: Tid, e: Effect, g: Frame, pc: UsPc)
    requires e == Nothing || e.Unpark? || (e.WriteStatus? && e.ws == 0)
    ensures var w := Write(m, t, e);
      w.head == m.head && |w.log| == |m.log| && (g.pc.Us? ==> StepsUs(w, g, g.pc.u) == StepsUs(m, g, g.pc.u))
  {
  }

  lemma StepsLow(m: Mem, f: Frame, pc: UsPc)
    ensures StepsUs(m, f, pc) > 0
  {
  }

  lemma FallsDr(m: Mem, t: Tid, f: Frame, pc: DrPc)
    requires f.pc == Dr(pc)
    ensures var (g, e) := ActDr(m, f, pc); Falls(m, t, f, Write(m, t, e), g)
  {
    hide Write;
    var (g, e) := ActDr(m, f, pc);
    EndsAre(m, t, e);
    FieldsKept(m, t, e, f.y);
  }

  /** A holder that waits finds the state taken. */
  lemma FallsRel(m: Mem, t: Tid, f: Frame, pc: RelPc)
    requires f.pc == Rel(pc) && (pc == ReCheck && f.caller == ByAwait ==> m.st != 0)
    ensures var (g, e) := ActRel(m, f, pc); Falls(m, t, f, Write(m, t, e), g)
  {
  }

  lemma FallsCond(m: Mem, t: Tid, f: Frame, pc: CondPc)
    requires f.pc == Cond(pc) && !Resting(m, t, f)
    ensures var (g, e) := ActCond(m, t, f, pc, Go); Falls(m, t, f, Write(m, t, e), g)
  {
  }

  lemma FallsSig(m: Mem, t: Tid, f: Frame, pc: SigPc)
    requires f.pc == Sig(pc)
    ensures var (g, e) := ActSig(m, f, pc); Falls(m, t, f, Write(m, t, e), g)
  {
  }

  lemma FallsOutside(m: Mem, t: Tid, f: Frame)
    requires f.pc == TryAcquire || f.pc == AddWaiter
    ensures var (g, e) := ActOutside(m, t, f, Go); Falls(m, t, f, Write(m, t, e), g)
  {
  }

  lemma FallsAq(m: Mem, t: Tid, f: Frame, pc: WaitPc)
    requires ThreadOk(m, t, f) && f.pc == Wait(pc) && (pc == EnqSetNext || pc == AqReadPrev || pc == AqCheckHead)
    ensures var (g, e) := ActWait(m, t, f, pc, Go); Falls(m, t, f, Write(m, t, e), g)
  {
    hide OwnNodeOk, Write;
    var (g, e) := ActWait(m, t, f, pc, Go);
    EndsAre(m, t, e);
    PermitsAre(m, t, e);
    FieldsKept(m, t, e, f.n);
    FieldsKept(m, t, e, Prev(m, f.n));
  }

  lemma FallsTry(m: Mem, t: Tid, f: Frame, pc: WaitPc)
    requires f.pc == Wait(pc) && !Resting(m, t, f) && pc in {AqTry, SetHeadOld, SetHead, Park, CaThread}
    ensures var (g, e) := ActWait(m, t, f, pc, Go); Falls(m, t, f, Write(m, t, e), g)
  {
    hide Write;
    var (g, e) := ActWait(m, t, f, pc, Go);
    EndsAre(m, t, e);
    PermitsAre(m, t, e);
    FieldsKept(m, t, e, f.p);
  }

  lemma PermitsAre(m: Mem, t: Tid, e: Effect)
    ensures !e.Unpark? && !e.TakePermit? ==> Write(m, t, e).permits == m.permits
    ensures e.TakePermit? ==> Write(m, t, e).permits == m.permits - {e.t}
  {
  }

  lemma FallsSp(m: Mem, t: Tid, f: Frame, pc: WaitPc)
    requires Shape(m) && ThreadOk(m, t, f) && t != 0 && f.pc == Wait(pc)
    requires pc == SpStatus || pc == SpCas || pc == SpSetNext
    ensures var (g, e) := ActWait(m, t, f, pc, Go); Falls(m, t, f, Write(m, t, e), g)
  {
    hide Write, Shape, OwnNodeOk;
    var (g, e) := ActWait(m, t, f, pc, Go);
    PosLess(m, f.p);
    EndsAre(m, t, e);
    PermitsAre(m, t, e);
    FieldsKept(m, t, e, f.n);
    FieldsKept(m, t, e, f.p);
  }

  lemma FallsSkip(m: Mem, t: Tid, f: Frame, pc: WaitPc)
    requires Shape(m) && PrevDown(m) && ThreadOk(m, t, f) && t != 0 && f.pc == Wait(pc)
    requires pc == SpReadPrev || pc == SpWritePrev || pc == SpPredStatus
    ensures var (g, e) := ActWait(m, t, f, pc, Go); Falls(m, t, f, Write(m, t, e), g)
  {
    hide Write, Shape, OwnNodeOk, PrevDown;
    var (g, e) := ActWait(m, t, f, pc, Go);
    if pc == SpWritePrev { SkipsDown(m, t, f); }
    EndsAre(m, t, e);
    PermitsAre(m, t, e);
    FieldsKept(m, t, e, f.p);
  }

  /** The predecessor of a skipped node was queued earlier. */
  lemma SkipsDown(m: Mem, t: Tid, f: Frame)
    requires Shape(m) && PrevDown(m) && ThreadOk(m, t, f) && f.pc == Wait(SpWritePrev)
    ensures Pos(m, f.x) < Pos(m, f.p)
  {
    assert BehindHead(m, f.n) by { WaitsBehind(m, t, f); }
    SkipOk(m, f.n, f.p);
    hide Numbered, EndsOk, OwnNodeOk;
  }

  lemma WaitsBehind(m: Mem, t: Tid, f: Frame)
    requires ThreadOk(m, t, f) && f.pc.Wait?
    ensures BehindHead(m, f.n)
  {
  }

  /** A state from which a thread goes on by itself. */
  ghost predicate Sane(s: State) { Inv(s) && PrevDown(s.m) && KindOk(s) }

  lemma FallsStep(s: State, t: Tid)
    requires Sane(s) && t != 0 && !Resting(s.m, t, Th(s, t))
    ensures var u := Step(s, t, Go); Falls(s.m, t, Th(s, t), u.m, Th(u, t))
  {
    hide Falls, StaleSignal, Resting, ActEnq, ActWait, ActQuit, ActLead, ActGone, ActRel, ActDr, ActUs, ActOutside,
      ActCond, ActSig, Write, Shape, KindOk, PrevDown, Owned, OneInitialiser;
    var m, f := s.m, Th(s, t);
    assert ThreadOk(m, t, f);
    StepFrames(s, t, Go);
    hide ThreadOk;
    match f.pc
    case Enq(pc) => FallsEnq(m, t, f, pc);
    case Wait(pc) =>
      if pc in {SpReadPrev, SpWritePrev, SpPredStatus} { FallsSkip(m, t, f, pc); }
      else if pc in {SpStatus, SpCas, SpSetNext} { FallsSp(m, t, f, pc); }
      else if pc in {EnqSetNext, AqReadPrev, AqCheckHead} { FallsAq(m, t, f, pc); }
      else { FallsTry(m, t, f, pc); }
    case Quit(pc) => FallsQuit(m, t, f, pc);
    case Lead(pc) => FallsLead(m, t, f, pc);
    case Gone(pc) => FallsGone(m, t, f, pc);
    case Rel(pc) =>
      if pc == ReCheck && f.caller == ByAwait { HolderChecks(s, t); }
      FallsRel(m, t, f, pc);
    case Dr(pc) => FallsDr(m, t, f, pc);
    case Us(pc) => FallsUs(m, t, f, pc);
    case Cond(pc) => FallsCond(m, t, f, pc);
    case Sig(pc) => FallsSig(m, t, f, pc);
    case TryAcquire => FallsOutside(m, t, f);
    case AddWaiter => FallsOutside(m, t, f);
    case Idle => AtRest(m, t, f);
    case Held => AtRest(m, t, f);
  }

  lemma AtRest(m: Mem, t: Tid, f: Frame)
    requires f.pc == Idle || f.pc == Held
    ensures Resting(m, t, f)
  {
  }

  lemma HolderChecks(s: State, t: Tid)
    requires KindOk(s) && Th(s, t).pc == Rel(ReCheck) && Th(s, t).caller == ByAwait
    ensures s.m.st != 0
  {
  }

  lemma SaneStep(s: State, t: Tid, c: Choice)
    requires Sane(s)
    ensures Sane(Step(s, t, c))
  {
    hide Inv, KindOk, PrevDown, Act, Write, StaleSignal;
    if t == 0 { return; }
    InvStep(s, t, c);
    KindStep(s, t, c);
    StepFrames(s, t, c);
    StepLegit(s, t, c);
    PrevDownKept(s.m, t, Act(s.m, t, Th(s, t), c).1);
  }

  lemma StepLegit(s: State, t: Tid, c: Choice)
    requires Inv(s) && t != 0
    ensures Shape(s.m) && Legit(s.m, t, Act(s.m, t, Th(s, t), c).1)
  {
    hide Act, Shape, Legit, Owned, OneInitialiser;
    assert ThreadOk(s.m, t, Th(s, t));
    StepThread(s.m, t, Th(s, t), c);
  }

  lemma {:induction false} SaneRun(s: State, sched: Schedule)
    requires Sane(s)
    ensures Sane(Run(s, sched))
    decreases |sched|
  {
    hide Sane, Step;
    if sched != [] {
      SaneStep(s, sched[0].0, sched[0].1);
      SaneRun(Step(s, sched[0].0, sched[0].1), sched[1..]);
    }
  }

  lemma SaneInit(kind: Kind, st: nat)
    requires kind == Mutex ==> st == 0
    ensures Sane(Init(kind, st))
  {
    InvInit(kind, st);
  }

  function Alone(t: Tid, k: nat): Schedule { seq(k, _ => (t, Go)) }

  lemma AloneFirst(s: State, t: Tid, k: nat)
    requires k > 0
    ensures Run(s, Alone(t, k)) == Run(Step(s, t, Go), Alone(t, k - 1))
  {
    assert Alone(t, k)[1..] == Alone(t, k - 1);
  }

  lemma AloneNone(s: State, t: Tid)
    ensures Run(s, Alone(t, 0)) == s
  {
  }

  lemma {:induction false} RestsAlone(s: State, t: Tid) returns (k: nat)
    requires Sane(s) && t != 0
    ensures var u := Run(s, Alone(t, k)); Resting(u.m, t, Th(u, t))
    decreases Part(s.m, t, Th(s, t)), Steps(s.m, Th(s, t))
  {
    hide Sane, Step, Run, Part, Steps, Resting;
    if Resting(s.m, t, Th(s, t)) {
      AloneNone(s, t);
      k := 0;
    } else {
      FallsStep(s, t);
      SaneStep(s, t, Go);
      k := RestsAlone(Step(s, t, Go), t);
      k := k + 1;
      AloneFirst(s, t, k);
    }
  }

  /** From every reachable state, whatever the others have left half done, a thread that runs by itself
      comes to rest: it is out of all methods, holds the Mutex, is parked without a permit, waits for a
      signaller to queue its node, or waits for another thread to create the queue. */
  lemma ComesToRest(kind: Kind, st: nat, sched: Schedule, t: Tid) returns (k: nat)
    requires t != 0 && (kind == Mutex ==> st == 0)
    ensures var u := Run(Run(Init(kind, st), sched), Alone(t, k)); Resting(u.m, t, Th(u, t))
  {
    hide Sane, Run, Resting;
    SaneInit(kind, st);
    SaneRun(Init(kind, st), sched);
    k := RestsAlone(Run(Init(kind, st), sched), t);
  }
}
