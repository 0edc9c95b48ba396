/** A waiter whose node has been queued finds it: isOnSyncQueue answers as of the queue, however it
    reads status, prev, next and tail one after the other. */
module ConditionReturn {
  import opened ConditionModel
  import opened ConditionProof

  predicate Initialising(f: Frame) { f.pc == Enq(InitRead) || f.pc == Enq(InitTail) }

  /** The queue is created once: by the winner of the CAS of head, which writes tail. */
  ghost predicate Created(s: State) {
    && (s.m.head == NULL ==> s.m.tail == NULL && s.m.log == [])
    && (s.m.tail == NULL ==> forall x :: x in s.m.log ==> x !in s.m.own)
    && (s.m.envInit ==> s.m.tail == NULL)
    && (forall t :: Initialising(Th(s, t)) ==> s.m.head != NULL && s.m.tail == NULL && !s.m.envInit)
    && (forall t, u :: Initialising(Th(s, t)) && Initialising(Th(s, u)) ==> t == u)
  }

  /** The prev of a queued node was queued before it. */
  ghost predicate Below(m: Mem, i: nat)
    requires i < |m.log|
  {
    PrevOf(m, m.log[i]) == NULL || PrevOf(m, m.log[i]) in m.log[..i]
  }

  ghost predicate Down(m: Mem) { forall i :: 0 <= i < |m.log| ==> Below(m, i) }

  ghost predicate Findable(s: State) {
    forall x :: x in s.m.log && x in s.m.own && Unaware(Th(s, s.m.own[x]), x) ==> Found(s.m, x)
  }

  ghost predicate ReturnInv(s: State) { Created(s) && Down(s.m) && Findable(s) }

  // ---- Steps that are not in enq leave the queue

  ghost predicate SameQueue(m: Mem, w: Mem) {
    && w.head == m.head && w.tail == m.tail && w.log == m.log && w.prev == m.prev && w.envInit == m.envInit
    && (forall x :: x in m.own ==> x in w.own && w.own[x] == m.own[x])
    && (forall x :: x in w.own && x !in m.own ==> x == m.nextRef)
  }

  ghost predicate SameAwait(m: Mem, f: Frame, g: Frame) {
    && !Initialising(g)
    && forall x :: Unaware(g, x) ==> Unaware(f, x) || x == m.nextRef
  }

  lemma AddQueue(m: Mem, t: Tid, f: Frame)
    requires m.nextRef !in m.own
    requires f.pc == AddStatus || f.pc == AddLink || f.pc == Release || f.pc.Unlink?
    ensures var (w, g) := ActAdd(m, t, f); SameQueue(m, w) && SameAwait(m, f, g)
  {
  }

  lemma SignalQueue(m: Mem, t: Tid, f: Frame)
    requires f.pc in {SigTake, SigCas, SigDone, AllTake}
    ensures var (w, g) := ActSignal(m, t, f); SameQueue(m, w) && SameAwait(m, f, g)
  {
  }

  lemma SignalAllQueue(m: Mem, t: Tid, f: Frame)
    requires f.pc in {AllNext, AllCas, AllDone, PredStatus, PredCas}
    ensures var (w, g) := ActSignal(m, t, f); SameQueue(m, w) && SameAwait(m, f, g)
  {
  }

  lemma AwaitQueue(m: Mem, t: Tid, f: Frame, c: Choice)
    requires f.pc == Park || f.pc == CancelCas || f.pc == Acquire || f.pc == Clean
    ensures var (w, g) := ActAwait(m, t, f, c); SameQueue(m, w) && SameAwait(m, f, g)
  {
  }

  lemma OutsideQueue(m: Mem, t: Tid, f: Frame, c: Choice)
    requires f.pc == Idle || f.pc == Held
    ensures var (w, g) := ActOutside(m, t, f, c); SameQueue(m, w) && SameAwait(m, f, g)
  {
  }

  lemma OnQueue(m: Mem, f: Frame, pc: OnPc)
    requires f.pc == On(pc)
    ensures SameAwait(m, f, ActOn(m, f, pc))
  {
  }

  lemma OtherQueue(m: Mem, t: Tid, f: Frame, c: Choice)
    requires !f.pc.Enq? && m.nextRef !in m.own
    ensures var (w, g) := Act(m, t, f, c); SameQueue(m, w) && SameAwait(m, f, g)
  {
    hide SameQueue, SameAwait, ActEnq, ActSignal, ActAdd, ActAwait, ActOutside, ActOn;
    match f.pc
    case Idle => OutsideQueue(m, t, f, c);
    case Held => OutsideQueue(m, t, f, c);
    case AddStatus => AddQueue(m, t, f);
    case AddLink => AddQueue(m, t, f);
    case Release => AddQueue(m, t, f);
    case Unlink(_) => AddQueue(m, t, f);
    case On(pc) => OnQueue(m, f, pc); SameSelf(m);
    case Park => AwaitQueue(m, t, f, c);
    case CancelCas => AwaitQueue(m, t, f, c);
    case Acquire => AwaitQueue(m, t, f, c);
    case Clean => AwaitQueue(m, t, f, c);
    case AllNext => SignalAllQueue(m, t, f);
    case AllCas => SignalAllQueue(m, t, f);
    case AllDone => SignalAllQueue(m, t, f);
    case PredStatus => SignalAllQueue(m, t, f);
    case PredCas => SignalAllQueue(m, t, f);
    case _ => SignalQueue(m, t, f);
  }

  lemma SameSelf(m: Mem)
    ensures SameQueue(m, m)
  {
  }

  // ---- Walks

  lemma {:induction false} MeetsSame(m: Mem, w: Mem, r: Ref, x: Ref, k: nat)
    requires Meets(m, r, x, k) && (r == NULL || r in m.log)
    requires forall y :: y in m.log && PrevOf(m, y) != NULL ==> PrevOf(m, y) in m.log
    requires forall y :: y in m.log ==> PrevOf(w, y) == PrevOf(m, y)
    ensures Meets(w, r, x, k)
    decreases k
  {
    if r != x { MeetsSame(m, w, PrevOf(m, r), x, k - 1); }
  }

  /** Another thread's frame, and prev links of queued nodes, as they were. */
  lemma FoundSame(s: State, u: State)
    requires Findable(s) && LogOk(s.m) && u.m.log == s.m.log && u.m.tail == s.m.tail
    requires forall x :: x in s.m.own ==> x in u.m.own && u.m.own[x] == s.m.own[x]
    requires forall x :: x in u.m.own && x !in s.m.own ==> x !in s.m.log
    requires forall y :: y in s.m.log ==> PrevOf(u.m, y) == PrevOf(s.m, y)
    requires forall v, x :: x in s.m.log && Unaware(Th(u, v), x) ==> Unaware(Th(s, v), x)
    ensures Findable(u)
  {
    forall x | x in u.m.log && x in u.m.own && Unaware(Th(u, u.m.own[x]), x)
      ensures Found(u.m, x)
    {
      assert Found(s.m, x);
      MeetsSame(s.m, u.m, s.m.tail, x, |s.m.log|);
    }
  }

  lemma DownSame(m: Mem, w: Mem)
    requires Down(m) && w.log == m.log && forall y :: y in m.log ==> PrevOf(w, y) == PrevOf(m, y)
    ensures Down(w)
  {
    forall i | 0 <= i < |w.log|
      ensures Below(w, i)
    {
      assert Below(m, i) && m.log[i] in m.log;
    }
  }

  lemma OtherStep(s: State, t: Tid, c: Choice)
    requires Inv(s) && ReturnInv(s) && t != 0 && !Th(s, t).pc.Enq?
    ensures ReturnInv(Step(s, t, c))
  {
    hide Act, Down, Findable, Initialising, Unaware;
    var m, f, u := s.m, Th(s, t), Step(s, t, c);
    OtherQueue(m, t, f, c);
    assert Th(u, t) == Act(m, t, f, c).1 && forall v :: v != t ==> Th(u, v) == Th(s, v);
    assert m.nextRef !in m.log;
    assert forall y :: PrevOf(u.m, y) == PrevOf(m, y);
    FoundSame(s, u);
    DownSame(m, u.m);
  }

  // ---- enq

  lemma Fresher(m: Mem)
    requires MemOk(m)
    ensures LogOk(m) && m.nextRef !in m.log && m.nextRef !in m.own && NULL !in m.log
    ensures m.tail != NULL ==> m.tail in m.log
  {
  }

  lemma InvMem(s: State)
    requires Inv(s)
    ensures MemOk(s.m)
  {
  }

  lemma AppendDown(m: Mem, w: Mem, r: Ref)
    requires Down(m) && w.log == m.log + [r] && r !in m.log
    requires forall y :: y in m.log ==> PrevOf(w, y) == PrevOf(m, y)
    requires PrevOf(w, r) == NULL || PrevOf(w, r) in m.log
    ensures Down(w)
  {
    forall i | 0 <= i < |w.log|
      ensures Below(w, i)
    {
      if i < |m.log| {
        assert Below(m, i) && w.log[..i] == m.log[..i] && m.log[i] in m.log;
      } else {
        assert w.log[..i] == m.log;
      }
    }
  }

  /** Neither is the queue created nor does anyone start to create it. */
  lemma CreatedSame(s: State, u: State, t: Tid)
    requires Created(s) && u.m.head == s.m.head && u.m.envInit == s.m.envInit && u.m.own == s.m.own
    requires u.m.tail == s.m.tail || (s.m.tail != NULL && u.m.tail != NULL)
    requires s.m.tail == NULL ==> u.m.log == s.m.log
    requires forall v :: v != t ==> Th(u, v) == Th(s, v)
    requires !Initialising(Th(u, t))
    ensures Created(u)
  {
    hide Initialising;
  }

  /** A node is queued behind tail. */
  lemma FoundAppended(s: State, u: State, t: Tid, e: Ref)
    requires Findable(s) && LogOk(s.m) && NULL !in s.m.log && s.m.tail in s.m.log && e !in s.m.log
    requires u.m.log == s.m.log + [e] && u.m.tail == e && u.m.own == s.m.own && u.m.prev == s.m.prev && e != NULL
    requires PrevOf(s.m, e) == s.m.tail
    requires forall v :: v != t ==> Th(u, v) == Th(s, v)
    requires forall x :: !Unaware(Th(u, t), x)
    ensures Findable(u)
  {
    hide Unaware;
    forall x | x in u.m.log && x in u.m.own && Unaware(Th(u, u.m.own[x]), x)
      ensures Found(u.m, x)
    {
      if x != e {
        assert x in s.m.log && Found(s.m, x);
        MeetsSame(s.m, u.m, s.m.tail, x, |s.m.log|);
      }
    }
  }

  /** What holds of a thread in enq. */
  lemma EnqKnows(s: State, t: Tid)
    requires Inv(s) && t != 0 && Th(s, t).pc.Enq?
    ensures var m, f := s.m, Th(s, t);
      && f.e in m.own && (f.e in m.log <==> f.pc.e == SetNext)
      && (f.pc.e == SetPrev || f.pc.e == CasTail ==> f.p in m.log && f.p != NULL)
      && (f.pc.e == CasTail ==> PrevOf(m, f.e) == f.p)
      && (f.pc.e == InitTail ==> f.p in m.log && f.p != NULL)
      && (f.pc.e == InitRead ==> m.head != NULL)
  {
    assert FrameOk(s, t);
  }

  /** A step of enq that writes neither the ends nor a prev. */
  lemma EnqQuiet(s: State, t: Tid, c: Choice)
    requires Inv(s) && ReturnInv(s) && t != 0 && Th(s, t).pc.Enq?
    requires var (w, g) := Act(s.m, t, Th(s, t), c);
      && w == s.m.(next := w.next) && (Initialising(g) ==> Initialising(Th(s, t)))
      && forall x :: !Unaware(g, x)
    ensures ReturnInv(Step(s, t, c))
  {
    hide Act, Down, Findable, Initialising, Unaware;
    var u := Step(s, t, c);
    assert forall v :: v != t ==> Th(u, v) == Th(s, v);
    assert forall y :: PrevOf(u.m, y) == PrevOf(s.m, y);
    FoundSame(s, u);
    DownSame(s.m, u.m);
  }

  lemma NotUnaware(f: Frame)
    requires f.pc.Enq? || f.pc == Acquire || f.pc == PredStatus
    ensures forall x :: !Unaware(f, x)
  {
  }

  lemma InitHeadReturn(s: State, t: Tid, c: Choice)
    requires Inv(s) && ReturnInv(s) && t != 0 && Th(s, t).pc == Enq(InitHead) && s.m.head == NULL
    ensures ReturnInv(Step(s, t, c))
  {
    hide Unaware, Found;
    var m, u := s.m, Step(s, t, c);
    var g := Th(s, t).(pc := Enq(InitRead));
    NotUnaware(g);
    assert Th(u, t) == g && forall v :: v != t ==> Th(u, v) == Th(s, v);
    assert u.m.log == m.log + [m.nextRef] && m.nextRef !in m.own && m.nextRef !in m.log;
    assert forall y :: PrevOf(u.m, y) == if y == m.nextRef then NULL else PrevOf(m, y);
  }

  lemma InitTailReturn(s: State, t: Tid, c: Choice)
    requires Inv(s) && ReturnInv(s) && t != 0 && Th(s, t).pc == Enq(InitTail)
    ensures ReturnInv(Step(s, t, c))
  {
    hide Unaware, Found;
    var m, u := s.m, Step(s, t, c);
    var g := Th(s, t).(pc := Enq(ReadTail));
    EnqKnows(s, t);
    assert Initialising(Th(s, t));
    assert Th(u, t) == g && forall v :: v != t ==> Th(u, v) == Th(s, v);
    DownSame(m, u.m);
  }

  lemma SetPrevReturn(s: State, t: Tid, c: Choice)
    requires Inv(s) && ReturnInv(s) && t != 0 && Th(s, t).pc == Enq(SetPrev)
    ensures ReturnInv(Step(s, t, c))
  {
    hide Unaware, Down, Findable, Created, MemOk;
    var m, f, u := s.m, Th(s, t), Step(s, t, c);
    EnqKnows(s, t);
    Fresher(m) by { InvMem(s); }
    var g := f.(pc := Enq(CasTail));
    NotUnaware(g);
    assert Th(u, t) == g && forall v :: v != t ==> Th(u, v) == Th(s, v);
    assert forall y :: PrevOf(u.m, y) == if y == f.e then f.p else PrevOf(m, y);
    hide Inv, PrevOf;
    CreatedSame(s, u, t);
    FoundSame(s, u);
    DownSame(m, u.m);
  }

  lemma CasTailReturn(s: State, t: Tid, c: Choice)
    requires Inv(s) && ReturnInv(s) && t != 0 && Th(s, t).pc == Enq(CasTail) && s.m.tail == Th(s, t).p
    ensures ReturnInv(Step(s, t, c))
  {
    hide Unaware, Down, Findable, Created, MemOk;
    var m, f, u := s.m, Th(s, t), Step(s, t, c);
    EnqKnows(s, t);
    Fresher(m) by { InvMem(s); }
    var g := f.(pc := Enq(SetNext));
    NotUnaware(g);
    assert Th(u, t) == g && forall v :: v != t ==> Th(u, v) == Th(s, v);
    assert f.e != NULL by { OwnNotNull(s, f.e); }
    assert forall y :: PrevOf(u.m, y) == PrevOf(m, y);
    hide Inv, PrevOf;
    CreatedSame(s, u, t);
    FoundAppended(s, u, t, f.e);
    AppendDown(m, u.m, f.e);
  }

  lemma OwnNotNull(s: State, x: Ref)
    requires Inv(s) && x in s.m.own
    ensures x != NULL
  {
  }

  lemma EnqReturn(s: State, t: Tid, c: Choice)
    requires Inv(s) && ReturnInv(s) && t != 0 && Th(s, t).pc.Enq?
    ensures ReturnInv(Step(s, t, c))
  {
    hide ReturnInv, Inv, Step, Unaware;
    var m, f := s.m, Th(s, t);
    NotUnaware(Act(m, t, f, c).1);
    match f.pc.e
    case InitHead => if m.head == NULL { InitHeadReturn(s, t, c); } else { EnqQuiet(s, t, c); }
    case InitTail => InitTailReturn(s, t, c);
    case SetPrev => SetPrevReturn(s, t, c);
    case CasTail => if m.tail == f.p { CasTailReturn(s, t, c); } else { EnqQuiet(s, t, c); }
    case _ => EnqQuiet(s, t, c);
  }

  // ---- The rest of the synchronizer

  lemma EnvPrevDown(m: Mem, i: nat, j: int)
    requires Down(m) && LogOk(m)
    ensures Down(ActEnv(m, EnvPrev(i, j)))
  {
    var w := ActEnv(m, EnvPrev(i, j));
    forall k | 0 <= k < |w.log|
      ensures Below(w, k)
    {
      assert Below(m, k);
      if i < |m.log| && j < i && k == i && j >= 0 { assert m.log[j] == m.log[..i][j]; }
    }
  }

  lemma EnvDown(m: Mem, c: Choice)
    requires Down(m) && MemOk(m)
    ensures Down(ActEnv(m, c))
  {
    hide Down, MemOk;
    var w := ActEnv(m, c);
    Fresher(m);
    match c
    case EnvPrev(i, j) => EnvPrevDown(m, i, j);
    case EnvInitHead =>
      if m.head == NULL { AppendDown(m, w, m.nextRef); } else { DownSame(m, w); }
    case EnvAppend(r) => if w.log != m.log { AppendDown(m, w, r); } else { DownSame(m, w); }
    case _ => DownSame(m, w);
  }

  lemma EnvCreated(s: State, w: Mem, c: Choice)
    requires Created(s) && MemOk(s.m) && w == ActEnv(s.m, c)
    ensures Created(s.(m := w))
  {
    hide Initialising, PrevOf;
    var u := s.(m := w);
    Fresher(s.m);
    hide MemOk;
    assert forall t :: Th(u, t) == Th(s, t);
  }

  lemma EnvReturn(s: State, c: Choice)
    requires Inv(s) && ReturnInv(s)
    ensures ReturnInv(Step(s, 0, c))
  {
    hide ActEnv, Created, Down, Found, MemOk;
    var w := ActEnv(s.m, c);
    assert MemOk(s.m) by { InvMem(s); }
    if KeepsWaiters(s, w) {
      EnvCreated(s, w, c);
      EnvDown(s.m, c);
      assert forall t :: Th(s.(m := w), t) == Th(s, t);
    }
  }

  lemma ReturnStep(s: State, t: Tid, c: Choice)
    requires Inv(s) && ReturnInv(s)
    ensures ReturnInv(Step(s, t, c))
  {
    hide Inv, ReturnInv, Step;
    if t == 0 { EnvReturn(s, c); }
    else if Th(s, t).pc.Enq? { EnqReturn(s, t, c); }
    else { OtherStep(s, t, c); }
  }

  lemma {:induction false} ReturnRun(s: State, sched: Schedule)
    requires Inv(s) && ReturnInv(s)
    ensures Inv(Run(s, sched)) && ReturnInv(Run(s, sched))
    decreases |sched|
  {
    hide Inv, ReturnInv, Step;
    if sched != [] {
      var (t, c) := sched[0];
      InvStep(s, t, c);
      ReturnStep(s, t, c);
      ReturnRun(Step(s, t, c), sched[1..]);
    }
  }

  // ---- A thread by itself

  function Alone(t: Tid, k: nat): Schedule { seq(k, _ => (t, Go)) }

  lemma AloneFirst(s: State, t: Tid, k: nat)
    requires k > 0
    ensures Run(s, Alone(t, k)) == Run(Step(s, t, Go), Alone(t, k - 1))
  {
    assert Alone(t, k)[1..] == Alone(t, k - 1);
  }

  lemma AloneOn(s: State, t: Tid)
    requires t != 0 && Th(s, t).pc.On?
    ensures var u := Step(s, t, Go); u.m == s.m && Th(u, t) == ActOn(s.m, Th(s, t), Th(s, t).pc.o)
  {
  }

  /** The walk from `p` gets to the node. */
  lemma {:induction false} WalkFinds(s: State, t: Tid, k: nat)
    requires t != 0 && Th(s, t).pc == On(Walk) && Meets(s.m, Th(s, t).p, Th(s, t).n, k)
    ensures exists j: nat :: j <= k + 1 && Th(Run(s, Alone(t, j)), t).pc == Acquire
    decreases k
  {
    hide Step, Run;
    var u := Step(s, t, Go);
    AloneOn(s, t);
    var j: nat := 1;
    if Th(s, t).p == Th(s, t).n {
      AloneFirst(s, t, 1);
      AloneNone(u, t);
    } else {
      WalkFinds(u, t, k - 1);
      var i: nat :| i <= k && Th(Run(u, Alone(t, i)), t).pc == Acquire;
      j := i + 1;
      AloneFirst(s, t, j);
    }
    assert Th(Run(s, Alone(t, j)), t).pc == Acquire;
  }

  lemma AloneNone(s: State, t: Tid)
    ensures Run(s, Alone(t, 0)) == s
  {
  }

  /** One step that does not change memory. */
  lemma Onwards(s: State, t: Tid, k: nat)
    requires t != 0 && exists j: nat :: j <= k && Th(Run(Step(s, t, Go), Alone(t, j)), t).pc == Acquire
    ensures exists j: nat :: j <= k + 1 && Th(Run(s, Alone(t, j)), t).pc == Acquire
  {
    hide Step, Run;
    var j: nat :| j <= k && Th(Run(Step(s, t, Go), Alone(t, j)), t).pc == Acquire;
    AloneFirst(s, t, j + 1);
    assert Th(Run(s, Alone(t, j + 1)), t).pc == Acquire;
  }

  lemma FromTail(s: State, t: Tid)
    requires t != 0 && Th(s, t).pc == On(Tail) && Found(s.m, Th(s, t).n)
    ensures exists j: nat :: j <= |s.m.log| + 2 && Th(Run(s, Alone(t, j)), t).pc == Acquire
  {
    hide Step, Run;
    AloneOn(s, t);
    WalkFinds(Step(s, t, Go), t, |s.m.log|);
    Onwards(s, t, |s.m.log| + 1);
  }

  lemma FromNext(s: State, t: Tid)
    requires t != 0 && Th(s, t).pc == On(Next) && Found(s.m, Th(s, t).n)
    ensures exists j: nat :: j <= |s.m.log| + 3 && Th(Run(s, Alone(t, j)), t).pc == Acquire
  {
    hide Step, Run;
    var u := Step(s, t, Go);
    AloneOn(s, t);
    if NextOf(s.m, Th(s, t).n) != NULL {
      AloneNone(u, t);
      assert Th(Run(u, Alone(t, 0)), t).pc == Acquire;
    } else {
      FromTail(u, t);
    }
    Onwards(s, t, |s.m.log| + 2);
  }

  /** A waiter that looks for its node while that is queued goes on to take the lock, left alone, within
      five steps more than there are nodes; one whose node is not queued never does, and parks again
      unless it spins to wait for the signaller. */
  lemma FindsItself(sched: Schedule, t: Tid)
    requires t != 0 && Th(Run(INIT, sched), t).pc == On(Status)
    ensures var s := Run(INIT, sched);
      if Th(s, t).n in s.m.log
      then exists j: nat :: j <= |s.m.log| + 5 && Th(Run(s, Alone(t, j)), t).pc == Acquire
      else
        && (forall j: nat :: Th(Run(s, Alone(t, j)), t).pc != Acquire)
        && (!Th(s, t).spin ==> exists j: nat :: j <= |s.m.log| + 6 && Th(Run(s, Alone(t, j)), t).pc == Park)
  {
    hide Run, ReturnInv, Inv, Step;
    var s := Run(INIT, sched);
    InvInit();
    ReturnInit();
    ReturnRun(INIT, sched);
    if Th(s, t).n in s.m.log {
      OnKnows(s, t);
      var u := Step(s, t, Go);
      var v := Step(u, t, Go);
      AloneOn(s, t);
      AloneOn(u, t);
      FromNext(v, t);
      Onwards(u, t, |s.m.log| + 3);
      Onwards(s, t, |s.m.log| + 4);
    } else {
      forall j: nat
        ensures Th(Run(s, Alone(t, j)), t).pc != Acquire
      {
        WalkOk(s, t);
        NeverFinds(s, t, j);
      }
      WalkOk(s, t);
      if !Th(s, t).spin { Parks(s, t); }
    }
  }

  /** The walk from a node among the first `k` falls off the queue. */
  lemma {:induction false} WalkEnds(s: State, t: Tid, k: nat)
    requires t != 0 && Looking(s, t) && Down(s.m) && Th(s, t).pc == On(Walk) && !Th(s, t).spin && k <= |s.m.log|
    requires Th(s, t).p == NULL || Th(s, t).p in s.m.log[..k]
    ensures exists j: nat :: j <= k + 1 && Th(Run(s, Alone(t, j)), t).pc == Park
    decreases k
  {
    hide Run, Step;
    var f, u := Th(s, t), Step(s, t, Go);
    AloneOn(s, t);
    LooksOn(s, t);
    assert f.p != f.n;
    if f.p == NULL {
      AloneNone(u, t);
      assert Th(Run(u, Alone(t, 0)), t).pc == Park;
      OnwardsPark(s, t, 0);
    } else {
      var i :| 0 <= i < k && s.m.log[i] == f.p;
      assert Below(s.m, i) && s.m.log[..i] <= s.m.log[..k - 1];
      WalkEnds(u, t, k - 1);
      OnwardsPark(s, t, k);
    }
  }

  lemma OnwardsPark(s: State, t: Tid, k: nat)
    requires t != 0 && exists j: nat :: j <= k && Th(Run(Step(s, t, Go), Alone(t, j)), t).pc == Park
    ensures exists j: nat :: j <= k + 1 && Th(Run(s, Alone(t, j)), t).pc == Park
  {
    hide Step, Run;
    var j: nat :| j <= k && Th(Run(Step(s, t, Go), Alone(t, j)), t).pc == Park;
    AloneFirst(s, t, j + 1);
    assert Th(Run(s, Alone(t, j + 1)), t).pc == Park;
  }

  /** The reads before the walk. */
  lemma {:induction false} ParksFrom(s: State, t: Tid, o: OnPc, k: nat)
    requires t != 0 && Looking(s, t) && Down(s.m) && Th(s, t).pc == On(o) && !Th(s, t).spin && o != Walk
    requires k == (match o case Status => 4 case Prev => 3 case Next => 2 case _ => 1)
    ensures exists j: nat :: j <= |s.m.log| + 2 + k && Th(Run(s, Alone(t, j)), t).pc == Park
    decreases k
  {
    hide Run, Step;
    var u := Step(s, t, Go);
    AloneOn(s, t);
    LooksOn(s, t);
    if Th(u, t).pc == Park {
      AloneNone(u, t);
      assert Th(Run(u, Alone(t, 0)), t).pc == Park;
    } else if o == Tail {
      assert u.m.log[..|u.m.log|] == u.m.log;
      WalkEnds(u, t, |u.m.log|);
    } else {
      ParksFrom(u, t, Th(u, t).pc.o, k - 1);
    }
    OnwardsPark(s, t, |s.m.log| + 1 + k);
  }

  lemma Parks(s: State, t: Tid)
    requires t != 0 && Looking(s, t) && ReturnInv(s) && Th(s, t).pc == On(Status) && !Th(s, t).spin
    ensures exists j: nat :: j <= |s.m.log| + 6 && Th(Run(s, Alone(t, j)), t).pc == Park
  {
    hide Run, Down, Looking;
    ParksFrom(s, t, Status, 4);
  }

  lemma ReturnInit()
    ensures ReturnInv(INIT)
  {
  }

  lemma OnKnows(s: State, t: Tid)
    requires Inv(s) && ReturnInv(s) && t != 0 && Th(s, t).pc.On? && Th(s, t).n in s.m.log
    ensures Found(s.m, Th(s, t).n) && Ws(s.m, Th(s, t).n) != CONDITION
  {
    hide Found;
    var n := Th(s, t).n;
    assert FrameOk(s, t);
    assert n in s.m.own && s.m.own[n] == t && Unaware(Th(s, t), n);
    assert Won(s.m, n);
  }

  /** Looking for a node that is not queued. */
  ghost predicate Looking(s: State, t: Tid) {
    var f := Th(s, t);
    && (f.pc.On? || f.pc == Park) && f.n !in s.m.log && (f.pc == On(Walk) ==> f.p == NULL || f.p in s.m.log)
    && f.n != NULL && LogOk(s.m)
  }

  lemma WalkOk(s: State, t: Tid)
    requires Inv(s) && t != 0 && Th(s, t).pc == On(Status) && Th(s, t).n !in s.m.log
    ensures Looking(s, t)
  {
    assert FrameOk(s, t);
  }

  lemma {:induction false} NeverFinds(s: State, t: Tid, j: nat)
    requires t != 0 && Looking(s, t)
    ensures Th(Run(s, Alone(t, j)), t).pc != Acquire
    decreases j
  {
    hide Run;
    if j == 0 {
      AloneNone(s, t);
    } else {
      AloneFirst(s, t, j);
      LooksOn(s, t);
      NeverFinds(Step(s, t, Go), t, j - 1);
    }
  }

  lemma LooksOn(s: State, t: Tid)
    requires t != 0 && Looking(s, t)
    ensures Looking(Step(s, t, Go), t)
  {
  }
}
