/** What a call achieves when its thread is left alone, from every reachable state. */
module AqsOutcome {
  import opened AqsModel
  import opened AqsQueue
  import opened AqsPreserve
  import opened AqsTheorems
  import opened AqsWakeup
  import opened AqsProgress

  /** The thread's own steps keep `inv` until it rests. */
  ghost predicate Keeps(t: Tid, inv: State -> bool) {
    forall s :: Sane(s) && inv(s) && !Resting(s.m, t, Th(s, t)) ==> inv(Step(s, t, Go))
  }

  lemma {:induction false} RestsWith(s: State, t: Tid, inv: State -> bool) returns (k: nat)
    requires Sane(s) && t != 0 && inv(s) && Keeps(t, inv)
    ensures var u := Run(s, Alone(t, k)); Resting(u.m, t, Th(u, t)) && inv(u) && Sane(u)
    decreases Part(s.m, t, Th(s, t)), Steps(s.m, Th(s, t))
  {
    hide Sane, Step, Run, Part, Steps, Resting;
    if Resting(s.m, t, Th(s, t)) {
      AloneNone(s, t);
      k := 0;
    } else {
      FallsStep(s, t);
      SaneStep(s, t, Go);
      k := RestsWith(Step(s, t, Go), t, inv);
      k := k + 1;
      AloneFirst(s, t, k);
    }
  }

  /** Reachable by some schedule. */
  ghost predicate Reached(s: State) {
    exists kind, st, sched: Schedule :: (kind == Mutex ==> st == 0) && s == Run(Init(kind, st), sched)
  }

  lemma ReachedSane(s: State)
    requires Reached(s)
    ensures Sane(s)
  {
    hide Sane, Run;
    var kind, st, sched: Schedule :| (kind == Mutex ==> st == 0) && s == Run(Init(kind, st), sched);
    SaneInit(kind, st);
    SaneRun(Init(kind, st), sched);
  }

  // ------------------------------------------------------------ await

  ghost predicate AwaitPath(s: State, t: Tid, n: Ref) {
    var f := Th(s, t);
    && f.n == n && StageOf(f) == Awaiting && n in s.m.waiting && f.pc != Cond(CoCancel) && f.pc != Cond(CoSpin)
    && (f.pc == Rel(ReCheck) || f.pc == Rel(ReSet) || s.m.st == 0)
  }

  lemma AwaitStep(s: State, t: Tid, n: Ref)
    requires Sane(s) && t != 0 && AwaitPath(s, t, n) && !Resting(s.m, t, Th(s, t))
    ensures AwaitPath(Step(s, t, Go), t, n)
  {
    hide StaleSignal, PrevDown, KindOk, LinksOk, EndsOk, Owned, OneInitialiser, Write, Act, Resting, StageOf;
    var m, f := s.m, Th(s, t);
    var e := Act(m, t, f, Go).1;
    if f.pc == Rel(ReCheck) { HolderChecks(s, t) by { AwaitCaller(f); } }
    StepFrames(s, t, Go);
    WriteState(m, t, e);
    MoverKept(m, t, e, n);
    AwaitFrame(m, t, f);
  }

  lemma AwaitCaller(f: Frame)
    requires StageOf(f) == Awaiting && f.pc.Rel?
    ensures f.caller == ByAwait
  {
  }

  /** What the waiter does next. */
  lemma AwaitFrame(m: Mem, t: Tid, f: Frame)
    requires StageOf(f) == Awaiting && f.pc != Cond(CoCancel) && f.pc != Cond(CoSpin) && f.n !in m.ord
    requires f.pc == Rel(ReCheck) ==> m.st != 0
    ensures var (g, e) := Act(m, t, f, Go);
      && g.n == f.n && StageOf(g) == Awaiting && g.pc != Cond(CoCancel) && g.pc != Cond(CoSpin) && !e.Claim?
      && (if f.pc == Rel(ReCheck) then g.pc == Rel(ReSet)
          else g.pc != Rel(ReCheck) && g.pc != Rel(ReSet) && (e.SetState? ==> e.st == 0)
               && (f.pc == Rel(ReSet) ==> e == SetState(0)))
  {
    hide ActUs;
    if f.pc.Us? { UsFrame(m, f, f.pc.u); }
  }

  /** A holder that calls await gives up the lock and parks, and its node waits for a signal. */
  lemma AwaitReleases(s: State, t: Tid) returns (k: nat)
    requires Reached(s) && t != 0 && Th(s, t).pc == Held
    ensures var u := Run(Step(s, t, Await), Alone(t, k));
      Th(u, t).pc == Cond(CoPark) && t !in u.m.permits && u.m.st == 0 && Th(u, t).n in u.m.waiting
  {
    hide Sane, Run, Step, Reached, Resting, AwaitPath;
    ReachedSane(s);
    var n, v := s.m.nextRef, Step(s, t, Await);
    SaneStep(s, t, Await);
    assert AwaitPath(v, t, n) by { AwaitStarts(s, t); }
    forall w | Sane(w) && AwaitPath(w, t, n) && !Resting(w.m, t, Th(w, t))
      ensures AwaitPath(Step(w, t, Go), t, n)
    {
      AwaitStep(w, t, n);
    }
    k := RestsWith(v, t, w => AwaitPath(w, t, n));
    AwaitRests(Run(v, Alone(t, k)), t, n);
  }

  lemma AwaitStarts(s: State, t: Tid)
    requires t != 0 && Th(s, t).pc == Held
    ensures AwaitPath(Step(s, t, Await), t, s.m.nextRef)
  {
    hide StaleSignal;
  }

  lemma AwaitRests(u: State, t: Tid, n: Ref)
    requires AwaitPath(u, t, n) && Resting(u.m, t, Th(u, t))
    ensures Th(u, t).pc == Cond(CoPark) && t !in u.m.permits && u.m.st == 0 && Th(u, t).n in u.m.waiting
  {
  }

  // ------------------------------------------------------------ signal

  ghost predicate SignalPath(s: State, t: Tid, r: Ref) {
    var f := Th(s, t);
    && r !in s.m.waiting
    && (if f.pc.Enq? then Signalling(f) && f.e == r else (f.pc.Sig? || f.pc == Held) && r in s.m.ord)
  }

  lemma SignalPathStep(s: State, t: Tid, r: Ref)
    requires Sane(s) && t != 0 && SignalPath(s, t, r) && !Resting(s.m, t, Th(s, t))
    ensures SignalPath(Step(s, t, Go), t, r)
  {
    hide StaleSignal, PrevDown, KindOk, Shape, Owned, OneInitialiser, ThreadOk, Write, Act, Legit, Resting;
    var m, f := s.m, Th(s, t);
    var (g, e) := Act(m, t, f, Go);
    assert ThreadOk(m, t, f);
    StepLegit(s, t, Go);
    StepFrames(s, t, Go);
    EndsAre(m, t, e);
    MoverKept(m, t, e, r);
    SignalFrame(m, t, f, r);
  }

  /** What the signaller does next. */
  lemma SignalFrame(m: Mem, t: Tid, f: Frame, r: Ref)
    requires (f.pc.Enq? && Signalling(f) && f.e == r) || f.pc.Sig? || f.pc == Held
    ensures var (g, e) := Act(m, t, f, Go);
      && !e.AllocWaiting?
      && (f.pc.Enq? ==> (g.pc.Enq? && Signalling(g) && g.e == r) || (g.pc.Sig? && e == Append(r)))
      && (f.pc.Sig? ==> g.pc.Sig? || g.pc == Held)
      && (f.pc == Held ==> Resting(m, t, f))
  {
  }

  lemma SignalStarts(s: State, t: Tid, r: Ref)
    requires t != 0 && Th(s, t).pc == Held && r in s.m.waiting && Own(s.m, r) != t
    ensures SignalPath(Step(s, t, Signal(r)), t, r)
  {
    hide StaleSignal;
  }

  /** A holder that signals a waiter has queued its node when it is done, unless it waits for another
      thread to create the queue. */
  lemma SignalQueues(s: State, t: Tid, r: Ref) returns (k: nat)
    requires Reached(s) && t != 0 && Th(s, t).pc == Held && r in s.m.waiting && Own(s.m, r) != t
    ensures var u := Run(Step(s, t, Signal(r)), Alone(t, k));
      r !in u.m.waiting && ((Th(u, t).pc == Held && r in u.m.ord) || (Th(u, t).pc.Enq? && u.m.tail == NULL))
  {
    hide Sane, Run, Step, Reached, Resting, SignalPath;
    ReachedSane(s);
    var v := Step(s, t, Signal(r));
    SaneStep(s, t, Signal(r));
    SignalStarts(s, t, r);
    forall w | Sane(w) && SignalPath(w, t, r) && !Resting(w.m, t, Th(w, t))
      ensures SignalPath(Step(w, t, Go), t, r)
    {
      SignalPathStep(w, t, r);
    }
    k := RestsWith(v, t, w => SignalPath(w, t, r));
    SignalRests(Run(v, Alone(t, k)), t, r);
  }

  lemma SignalRests(u: State, t: Tid, r: Ref)
    requires SignalPath(u, t, r) && Resting(u.m, t, Th(u, t))
    ensures r !in u.m.waiting && ((Th(u, t).pc == Held && r in u.m.ord) || (Th(u, t).pc.Enq? && u.m.tail == NULL))
  {
  }

  // ------------------------------------------------------------ an interrupted wait

  ghost predicate InterruptPath(s: State, t: Tid, n: Ref, waited: bool) {
    var f := Th(s, t);
    && f.n == n && f.caller == ByAwait
    && (f.pc == Cond(CoCancel) ==> (waited ==> n in s.m.waiting))
    && (f.pc == Cond(CoCancel) || (f.pc == Cond(CoSpin) && !waited) || f.pc.Enq?
        || (f.pc.Wait? && f.pc != Wait(CaThread)) || f.pc == Held
        || (f.pc.Lead? && f.pc.l in {SetHeadThread, SetHeadPrev, ClearNext}))
  }

  lemma InterruptStep(s: State, t: Tid, n: Ref, waited: bool)
    requires Sane(s) && s.m.kind == Mutex && t != 0 && InterruptPath(s, t, n, waited) && !Resting(s.m, t, Th(s, t))
    requires n != NULL
    ensures InterruptPath(Step(s, t, Go), t, n, waited) && Step(s, t, Go).m.kind == Mutex
  {
    hide StaleSignal, PrevDown, KindOk, Shape, Owned, OneInitialiser, ThreadOk, Write;
    var m, f := s.m, Th(s, t);
    var e := Act(m, t, f, Go).1;
    StepFrames(s, t, Go);
    WriteState(m, t, e);
  }

  lemma InterruptStarts(s: State, t: Tid)
    requires Inv(s) && t != 0 && Th(s, t).pc == Cond(CoPark)
    ensures var f, u := Th(s, t), Step(s, t, Interrupt);
      f.n != NULL && InterruptPath(u, t, f.n, f.n in s.m.waiting) && u.m == s.m
  {
    hide StaleSignal, Shape, LocalsOk;
    assert ThreadOk(s.m, t, Th(s, t));
  }

  /** An interrupted waiter leaves the condition: it takes the lock or waits for it in the lock queue.
      Only if a signal came first it waits until the signaller has queued its node, and in any case
      until the queue has been created. */
  lemma InterruptLeaves(s: State, t: Tid) returns (k: nat)
    requires Reached(s) && s.m.kind == Mutex && t != 0 && Th(s, t).pc == Cond(CoPark)
    ensures var u := Run(Step(s, t, Interrupt), Alone(t, k));
      var f := Th(u, t);
      || f.pc == Held || (f.pc == Wait(Park) && t !in u.m.permits) || (f.pc.Enq? && u.m.tail == NULL)
      || (f.pc == Cond(CoSpin) && f.n !in u.m.ord && Th(s, t).n !in s.m.waiting)
  {
    hide Sane, Run, Step, Reached, Resting, InterruptPath;
    ReachedSane(s);
    var n, waited, v := Th(s, t).n, Th(s, t).n in s.m.waiting, Step(s, t, Interrupt);
    SaneStep(s, t, Interrupt);
    assert Inv(s) by { SaneInv(s); }
    InterruptStarts(s, t);
    forall w | Sane(w) && (InterruptPath(w, t, n, waited) && w.m.kind == Mutex) && !Resting(w.m, t, Th(w, t))
      ensures InterruptPath(Step(w, t, Go), t, n, waited) && Step(w, t, Go).m.kind == Mutex
    {
      InterruptStep(w, t, n, waited);
    }
    k := RestsWith(v, t, w => InterruptPath(w, t, n, waited) && w.m.kind == Mutex);
    InterruptRests(Run(v, Alone(t, k)), t, n, waited);
  }

  lemma SaneInv(s: State)
    requires Sane(s)
    ensures Inv(s)
  {
  }

  lemma InterruptRests(u: State, t: Tid, n: Ref, waited: bool)
    requires InterruptPath(u, t, n, waited) && Resting(u.m, t, Th(u, t))
    ensures var f := Th(u, t);
      || f.pc == Held || (f.pc == Wait(Park) && t !in u.m.permits) || (f.pc.Enq? && u.m.tail == NULL)
      || (f.pc == Cond(CoSpin) && f.n !in u.m.ord && !waited)
  {
  }

  // ------------------------------------------------------------ release

  /** `x` is the first waiter, head carries SIGNAL for it, and its thread is not giving up. */
  ghost predicate Owed(m: Mem, t: Tid, x: Ref) {
    Behind(m, m.head, x) && Waiter(m, t, x) && Ws(m, m.head) == SIGNAL
  }

  /** Before head's status is taken back, in unparkSuccessor, and after it. */
  ghost predicate ReleasePath(s: State, t: Tid, h: Ref, x: Ref) {
    var m, f := s.m, Th(s, t);
    && m.head == h && Waiter(m, t, x) && Covers(m, h, x)
    && (f.pc == Rel(ReCheck) || f.pc == Rel(ReSet) || m.kind != Mutex || m.st == 0)
    && f.caller != ByAwait && (f.pc.Dr? || f.pc.Us? ==> !f.acquiring || (f.caller == ByRelease && f.pc.Us?))
    && match f.pc
       case Rel(pc) => Ws(m, h) == SIGNAL && (pc == ReStatus ==> f.y == h) && (pc == ReCheck ==> m.st != 0)
                       && (pc == ReleaseShared ==> m.kind != Mutex)
       case Dr(pc) =>
         if pc == DrCheck then f.y == h && Own(m, x) in m.permits && Ws(m, h) == 0
         else Ws(m, h) == SIGNAL && pc != DrCasPropagate && (pc != DrHead ==> f.y == h)
       case Us(pc) =>
         && f.y == h && Unparks(m, f, x) && f.caller != ByCancel
         && Ws(m, h) == (if f.caller == ByRelease && (pc == UsStatus || pc == UsCas) then SIGNAL else 0)
         && (pc == UsCas ==> f.ws == Ws(m, h))
       case Idle => Own(m, x) in m.permits && Ws(m, h) == 0
       case _ => false
  }

  /** What a release may write: the state, head's status and permits. */
  lemma ReleaseKeeps(m: Mem, t: Tid, e: Effect, h: Ref, x: Ref)
    requires Shape(m) && Legit(m, t, e) && Covers(m, h, x) && Waiter(m, t, x) && m.head == h
    requires e == Nothing || e.SetState? || e.Unpark? || (e.WriteStatus? && e.r == h && e.ws <= 0)
    ensures var w := Write(m, t, e);
      && w.head == h && Waiter(w, t, x) && Covers(w, h, x) && Own(w, x) == Own(m, x)
      && w.permits == (if e.Unpark? then m.permits + {e.t} else m.permits)
      && Ws(w, h) == if e.WriteStatus? then e.ws else Ws(m, h)
  {
    CoversKept(m, t, e, h, x);
    hide Covers, LinksOk, Legit;
    FieldsKept(m, t, e, x);
    FieldsKept(m, t, e, h);
  }

  lemma ReleaseRel(s: State, t: Tid, h: Ref, x: Ref)
    requires Sane(s) && t != 0 && ReleasePath(s, t, h, x) && Th(s, t).pc.Rel?
    ensures ReleasePath(Step(s, t, Go), t, h, x)
  {
    hide StaleSignal, PrevDown, KindOk, Shape, Owned, OneInitialiser, ThreadOk, Write, Covers, Waiter, Legit;
    var m, f := s.m, Th(s, t);
    StepFrames(s, t, Go);
    StepLegit(s, t, Go);
    ReleaseKeeps(m, t, Act(m, t, f, Go).1, h, x);
    WriteState(m, t, Act(m, t, f, Go).1);
    NotNull(m, h, x);
    assert Shape(Step(s, t, Go).m) by { InvStep(s, t, Go); }
    NotNull(Step(s, t, Go).m, h, x);
  }

  lemma NotNull(m: Mem, h: Ref, x: Ref)
    requires Shape(m) && Covers(m, h, x)
    ensures h in m.ord && x in m.ord && h != NULL
  {
  }

  lemma ReleaseDr(s: State, t: Tid, h: Ref, x: Ref)
    requires Sane(s) && t != 0 && ReleasePath(s, t, h, x) && Th(s, t).pc.Dr?
    ensures ReleasePath(Step(s, t, Go), t, h, x)
  {
    hide StaleSignal, PrevDown, KindOk, Owned, OneInitialiser, ThreadOk, Write, Legit, LinksOk, Reaches;
    var m, f := s.m, Th(s, t);
    StepFrames(s, t, Go);
    StepLegit(s, t, Go);
    NotLast(m, h, x);
    ReleaseKeeps(m, t, Act(m, t, f, Go).1, h, x);
    WriteState(m, t, Act(m, t, f, Go).1);
  }

  lemma ReleaseUs(s: State, t: Tid, h: Ref, x: Ref)
    requires Sane(s) && t != 0 && ReleasePath(s, t, h, x) && Th(s, t).pc.Us?
    ensures ReleasePath(Step(s, t, Go), t, h, x)
  {
    hide StaleSignal, PrevDown, KindOk, Shape, Owned, OneInitialiser, ThreadOk, Write, Covers, Waiter, Legit, Unparks;
    var m, f := s.m, Th(s, t);
    assert ThreadOk(m, t, f);
    StepFrames(s, t, Go);
    StepLegit(s, t, Go);
    ReleaseKeeps(m, t, Act(m, t, f, Go).1, h, x);
    WriteState(m, t, Act(m, t, f, Go).1);
    UnparksStep(m, t, f, Go, x);
    UnparkedOnce(m, t, f, x);
    NotNull(m, h, x);
  }

  /** unparkSuccessor returns with the unpark of the waiter it was to unpark. */
  lemma UnparkedOnce(m: Mem, t: Tid, f: Frame, x: Ref)
    requires f.pc.Us?
    ensures var (g, e) := Act(m, t, f, Go);
      && (!g.pc.Us? ==> !Unparks(Write(m, t, e), g, x))
      && (e.Unpark? ==> f.pc == Us(UsUnpark) && !g.pc.Us?)
  {
  }

  lemma ReleaseStep(s: State, t: Tid, h: Ref, x: Ref)
    requires Sane(s) && t != 0 && ReleasePath(s, t, h, x) && !Resting(s.m, t, Th(s, t))
    ensures ReleasePath(Step(s, t, Go), t, h, x)
  {
    hide Sane, Step;
    match Th(s, t).pc
    case Rel(_) => ReleaseRel(s, t, h, x);
    case Dr(_) => ReleaseDr(s, t, h, x);
    case Us(_) => ReleaseUs(s, t, h, x);
    case _ =>
  }

  lemma ReleaseRests(u: State, t: Tid, h: Ref, x: Ref)
    requires ReleasePath(u, t, h, x) && Resting(u.m, t, Th(u, t))
    ensures Th(u, t).pc == Idle && Own(u.m, x) in u.m.permits && Ws(u.m, h) == 0 && (u.m.kind == Mutex ==> u.m.st == 0)
  {
  }

  lemma {:induction false} ReleaseRuns(v: State, t: Tid, h: Ref, x: Ref) returns (k: nat)
    requires Sane(v) && t != 0 && ReleasePath(v, t, h, x)
    ensures var u := Run(v, Alone(t, k));
      Th(u, t).pc == Idle && Own(u.m, x) in u.m.permits && Ws(u.m, h) == 0 && (u.m.kind == Mutex ==> u.m.st == 0)
  {
    hide Sane, Run, Step, Resting, ReleasePath;
    forall w | Sane(w) && ReleasePath(w, t, h, x) && !Resting(w.m, t, Th(w, t))
      ensures ReleasePath(Step(w, t, Go), t, h, x)
    {
      ReleaseStep(w, t, h, x);
    }
    k := RestsWith(v, t, w => ReleasePath(w, t, h, x));
    ReleaseRests(Run(v, Alone(t, k)), t, h, x);
  }

  lemma ReleaseStarts(s: State, t: Tid, x: Ref)
    requires Sane(s) && t != 0 && Owed(s.m, t, x)
    requires Th(s, t).pc == if s.m.kind == Mutex then Held else Idle
    ensures ReleasePath(Step(s, t, if s.m.kind == Mutex then Go else Alt), t, s.m.head, x)
  {
    hide StaleSignal, PrevDown, LinksOk, Owned, OneInitialiser;
    HeadCovers(s.m, s.m.head, x);
    if s.m.kind == Mutex { assert Holds(Th(s, t)); }
  }

  /** A release that finds SIGNAL on head takes it back and unparks the first waiter; of the Mutex it
      leaves the state free. */
  lemma ReleaseUnparks(s: State, t: Tid, x: Ref) returns (k: nat)
    requires Reached(s) && t != 0 && Owed(s.m, t, x)
    requires Th(s, t).pc == if s.m.kind == Mutex then Held else Idle
    ensures var u := Run(Step(s, t, if s.m.kind == Mutex then Go else Alt), Alone(t, k));
      && Th(u, t).pc == Idle && Own(u.m, x) in u.m.permits && Ws(u.m, s.m.head) == 0
      && (u.m.kind == Mutex ==> u.m.st == 0)
  {
    hide Sane, Run, Step, Reached, Resting, ReleasePath, Owed;
    ReachedSane(s);
    ReleaseStarts(s, t, x);
    SaneStep(s, t, if s.m.kind == Mutex then Go else Alt);
    k := ReleaseRuns(Step(s, t, if s.m.kind == Mutex then Go else Alt), t, s.m.head, x);
  }

  ghost predicate PropagatePath(s: State, t: Tid, h: Ref) {
    var m, f := s.m, Th(s, t);
    && m.kind != Mutex && m.head == h != NULL && m.tail != h
    && match f.pc
       case Rel(pc) => pc == ReleaseShared && Ws(m, h) == 0
       case Dr(pc) =>
         && !f.acquiring && (pc != DrHead ==> f.y == h) && pc != DrCasSignal
         && Ws(m, h) == if pc == DrCheck then PROPAGATE else 0
       case Idle => Ws(m, h) == PROPAGATE
       case _ => false
  }

  lemma PropagateStep(s: State, t: Tid, h: Ref)
    requires t != 0 && PropagatePath(s, t, h) && !Resting(s.m, t, Th(s, t))
    ensures PropagatePath(Step(s, t, Go), t, h)
  {
    hide StaleSignal, Write;
    var m, f := s.m, Th(s, t);
    var e := Act(m, t, f, Go).1;
    StepFrames(s, t, Go);
    EndsAre(m, t, e);
    FieldsKept(m, t, e, h);
    WriteState(m, t, e);
  }

  /** A releaseShared that finds status 0 on a head that others are queued behind leaves PROPAGATE. */
  lemma ReleasePropagates(s: State, t: Tid) returns (k: nat)
    requires Reached(s) && s.m.kind != Mutex && t != 0 && Th(s, t).pc == Idle
    requires s.m.head != NULL && s.m.tail != s.m.head && Ws(s.m, s.m.head) == 0
    ensures var u := Run(Step(s, t, Alt), Alone(t, k));
      Th(u, t).pc == Idle && u.m.head == s.m.head && Ws(u.m, u.m.head) == PROPAGATE
  {
    hide Sane, Run, Step, Reached, Resting, PropagatePath;
    ReachedSane(s);
    var h, v := s.m.head, Step(s, t, Alt);
    SaneStep(s, t, Alt);
    PropagateStarts(s, t);
    forall w | Sane(w) && PropagatePath(w, t, h) && !Resting(w.m, t, Th(w, t))
      ensures PropagatePath(Step(w, t, Go), t, h)
    {
      PropagateStep(w, t, h);
    }
    k := RestsWith(v, t, w => PropagatePath(w, t, h));
    PropagateRests(Run(v, Alone(t, k)), t, h);
  }

  lemma PropagateStarts(s: State, t: Tid)
    requires s.m.kind != Mutex && t != 0 && Th(s, t).pc == Idle
    requires s.m.head != NULL && s.m.tail != s.m.head && Ws(s.m, s.m.head) == 0
    ensures PropagatePath(Step(s, t, Alt), t, s.m.head)
  {
    hide StaleSignal;
  }

  lemma PropagateRests(u: State, t: Tid, h: Ref)
    requires PropagatePath(u, t, h) && Resting(u.m, t, Th(u, t))
    ensures Th(u, t).pc == Idle && u.m.head == h && Ws(u.m, u.m.head) == PROPAGATE
  {
  }

  // ------------------------------------------------------------ acquire

  /** The first waiter in the acquire loop while the synchronizer is available. */
  ghost predicate FirstAt(m: Mem, f: Frame, pc: WaitPc) {
    && Available(m) && Behind(m, m.head, f.n)
    && pc != Park && pc != CaThread && pc != SpCas && pc != SetHeadOld && pc != SetHead
    && (pc == SpStatus ==> Ws(m, f.p) == CANCELLED)
  }

  /** It goes through the loop, acquires and returns. */
  ghost predicate FirstPath(s: State, t: Tid, n: Ref) {
    var m, f := s.m, Th(s, t);
    && f.n == n
    && match f.pc
       case Wait(pc) => pc == SetHeadOld || pc == SetHead || FirstAt(m, f, pc)
       case Lead(_) => true
       case Dr(_) => f.acquiring
       case Us(_) => f.caller == ByShared && f.acquiring
       case Held => m.kind == Mutex
       case Idle => m.kind != Mutex
       case _ => false
  }

  /** What lies in front of the first waiter is head or cancelled. */
  lemma WaitFirst(m: Mem, t: Tid, f: Frame)
    requires Shape(m) && ThreadOk(m, t, f) && f.pc.Wait? && Behind(m, m.head, f.n)
    ensures Prev(m, f.n) == m.head || Ws(m, Prev(m, f.n)) == CANCELLED
  {
    SeesPrev(m, t, f);
    if Ws(m, Prev(m, f.n)) <= 0 { SameLivePredecessor(m, m.head, Prev(m, f.n), f.n); }
  }

  lemma FirstFrame(m: Mem, t: Tid, f: Frame, pc: WaitPc)
    requires ThreadOk(m, t, f) && f.pc == Wait(pc) && FirstAt(m, f, pc)
    requires Prev(m, f.n) == m.head || Ws(m, Prev(m, f.n)) == CANCELLED
    ensures var (g, e) := ActWait(m, t, f, pc, Go);
      && g.n == f.n
      && (g.pc == Wait(SetHeadOld) || g.pc == Wait(SetHead) ||
          (g.pc.Wait? && FirstAt(m, g, g.pc.w) && !e.SetState? && !e.WriteStatus? && !e.WriteHead? && e != InitHead))
  {
    hide OwnNodeOk, Behind;
  }

  lemma FirstStays(m: Mem, t: Tid, e: Effect, g: Frame, pc: WaitPc)
    requires Shape(m) && Legit(m, t, e) && FirstAt(m, g, pc)
    requires !e.SetState? && !e.WriteStatus? && !e.WriteHead? && e != InitHead
    ensures FirstAt(Write(m, t, e), g, pc)
  {
    hide Shape, Legit, Write, Behind;
    BehindStays(m, t, e, m.head, g.n);
    EndsAre(m, t, e);
    WriteState(m, t, e);
    FieldsKept(m, t, e, g.p);
  }

  lemma FirstWait(s: State, t: Tid, n: Ref)
    requires Sane(s) && t != 0 && FirstPath(s, t, n) && Th(s, t).pc.Wait?
    ensures FirstPath(Step(s, t, Go), t, n)
  {
    hide StaleSignal, PrevDown, KindOk, Shape, Owned, OneInitialiser, ThreadOk, Write, Legit, FirstAt;
    var m, f := s.m, Th(s, t);
    assert ThreadOk(m, t, f);
    StepFrames(s, t, Go);
    StepLegit(s, t, Go);
    if f.pc == Wait(SetHeadOld) || f.pc == Wait(SetHead) {
    } else {
      WaitFirst(m, t, f) by { FirstBehind(m, f, f.pc.w); }
      FirstFrame(m, t, f, f.pc.w);
      var (g, e) := ActWait(m, t, f, f.pc.w, Go);
      hide ActWait;
      if g.pc != Wait(SetHeadOld) && g.pc != Wait(SetHead) { FirstStays(m, t, e, g, g.pc.w); }
    }
  }

  lemma FirstBehind(m: Mem, f: Frame, pc: WaitPc)
    requires FirstAt(m, f, pc)
    ensures Behind(m, m.head, f.n)
  {
  }

  lemma FirstStep(s: State, t: Tid, n: Ref)
    requires Sane(s) && t != 0 && FirstPath(s, t, n) && !Resting(s.m, t, Th(s, t))
    ensures FirstPath(Step(s, t, Go), t, n)
  {
    if Th(s, t).pc.Wait? {
      hide Sane, Step, FirstPath;
      FirstWait(s, t, n);
    } else {
      hide Sane, Write, StaleSignal, ActUs, FirstAt;
      var f := Th(s, t);
      StepFrames(s, t, Go);
      WriteState(s.m, t, Act(s.m, t, f, Go).1);
      if f.pc.Us? { UsFrame(s.m, f, f.pc.u); }
    }
  }

  lemma FirstRests(u: State, t: Tid, n: Ref)
    requires FirstPath(u, t, n) && Resting(u.m, t, Th(u, t))
    ensures Th(u, t).n == n && Th(u, t).pc == if u.m.kind == Mutex then Held else Idle
  {
  }

  /** While the synchronizer is available, the first waiter that looks acquires it and returns. */
  lemma FirstWaiterAcquires(s: State, t: Tid) returns (k: nat)
    requires Reached(s) && t != 0 && Th(s, t).pc == Wait(AqReadPrev) && Available(s.m)
    requires Behind(s.m, s.m.head, Th(s, t).n)
    ensures var u := Run(s, Alone(t, k)); Th(u, t).pc == if u.m.kind == Mutex then Held else Idle
  {
    hide Sane, Run, Step, Reached, Resting, FirstPath, Behind, Available;
    ReachedSane(s);
    var n := Th(s, t).n;
    assert FirstPath(s, t, n) by { FirstStarts(s, t); }
    forall w | Sane(w) && FirstPath(w, t, n) && !Resting(w.m, t, Th(w, t))
      ensures FirstPath(Step(w, t, Go), t, n)
    {
      FirstStep(w, t, n);
    }
    k := RestsWith(s, t, w => FirstPath(w, t, n));
    FirstRests(Run(s, Alone(t, k)), t, n);
  }

  lemma FirstStarts(s: State, t: Tid)
    requires Th(s, t).pc == Wait(AqReadPrev) && Available(s.m) && Behind(s.m, s.m.head, Th(s, t).n)
    ensures FirstPath(s, t, Th(s, t).n)
  {
    hide Behind, Available;
  }

  /** A thread in the acquire loop that has come to park has SIGNAL on the live node in front of it. */
  ghost predicate ParkPath(s: State, t: Tid) {
    Th(s, t).pc == Wait(Park) ==> Signalled(s.m, Prev(s.m, Th(s, t).n), Th(s, t).n)
  }

  lemma ParkStep(s: State, t: Tid)
    requires Sane(s) && t != 0 && ParkPath(s, t) && !Resting(s.m, t, Th(s, t))
    ensures ParkPath(Step(s, t, Go), t)
  {
    hide Act, StaleSignal, PrevDown, KindOk, EndsOk, Numbered, Owned, OneInitialiser, Write, Resting;
    var m, f := s.m, Th(s, t);
    assert ThreadOk(m, t, f);
    StepFrames(s, t, Go);
    StepSignals(m, t, f, Go);
    ParkedSelfRests(m, t, f);
    if f.pc == Wait(SpStatus) { SeesPrev(m, t, f); }
  }

  lemma ParkedSelfRests(m: Mem, t: Tid, f: Frame)
    ensures var (g, e) := Act(m, t, f, Go); f.pc == Wait(Park) && !Resting(m, t, f) ==> g.pc != Wait(Park)
    ensures Write(m, t, Nothing) == m
  {
  }

  /** From every reachable state, a thread that comes to rest in the lock queue by itself has been
      promised a signal: its predecessor is not cancelled and carries SIGNAL. */
  lemma ParksWithSignal(s: State, t: Tid) returns (k: nat)
    requires Reached(s) && t != 0 && Th(s, t).pc != Wait(Park)
    ensures var u := Run(s, Alone(t, k));
      var n := Th(u, t).n;
      Resting(u.m, t, Th(u, t)) && (Th(u, t).pc == Wait(Park) ==> Signalled(u.m, Prev(u.m, n), n))
  {
    hide Sane, Run, Step, Reached, Resting, Signalled;
    ReachedSane(s);
    forall w | Sane(w) && ParkPath(w, t) && !Resting(w.m, t, Th(w, t))
      ensures ParkPath(Step(w, t, Go), t)
    {
      ParkStep(w, t);
    }
    k := RestsWith(s, t, w => ParkPath(w, t));
  }
}
