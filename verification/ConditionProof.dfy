/** The invariant of the condition protocol and its preservation by every step. */
module ConditionProof {
  import opened ConditionModel

  ghost predicate Waiting(m: Mem, x: Ref) { Ws(m, x) == CONDITION }

  /** A wait that has ended, by a signal or a cancellation. */
  ghost predicate Won(m: Mem, x: Ref) { x in m.sig || x in m.can }

  ghost predicate Holding(f: Frame) {
    match f.pc
    case Idle => false
    case On(_) => false
    case Park => false
    case CancelCas => false
    case Acquire => false
    case Enq(_) => f.how != ByCancel
    case _ => true
  }

  ghost predicate Increasing(q: seq<Ref>) { forall i, j :: 0 <= i < j < |q| ==> q[i] < q[j] }

  /** The thread is about to queue `x`. */
  ghost predicate Carrying(f: Frame, x: Ref) { f.pc.Enq? && f.pc.e != SetNext && f.e == x }

  /** The lock holder has taken `x` off the list and not decided on it yet. */
  ghost predicate InHand(f: Frame, x: Ref) {
    || (f.pc == SigCas && x == f.e)
    || (f.pc == AllCas && (x == f.e || x in f.chain))
    || ((f.pc == AllNext || ((f.pc.Enq? || f.pc == PredStatus || f.pc == PredCas) && f.how == BySignalAll))
        && x in f.chain)
  }

  // ---- Shared state

  ghost predicate Numbered(m: Mem) {
    && m.nextRef > 0
    && (forall x :: x in m.own ==> 0 < x < m.nextRef)
    && (forall x :: x in m.log ==> 0 < x < m.nextRef)
  }

  /** A node has status CONDITION exactly until one of the two CASes succeeds. */
  ghost predicate StatusOk(m: Mem) {
    && (forall x :: x in m.own ==> (Waiting(m, x) <==> !Won(m, x)))
    && (forall x :: Waiting(m, x) ==> x in m.own)
    && (forall x :: Won(m, x) ==> x in m.own)
    && m.sig !! m.can
  }

  ghost predicate LogOk(m: Mem) {
    && (forall i, j :: 0 <= i < j < |m.log| ==> m.log[i] != m.log[j])
    && (forall x :: x in m.log && x in m.own ==> Won(m, x))
    && (m.tail != NULL ==> m.tail in m.log)
    && (m.head != NULL ==> m.head in m.log)
    && (m.envInit ==> m.head != NULL)
    && (forall x :: x in m.log && PrevOf(m, x) != NULL ==> PrevOf(m, x) in m.log)
    && (forall x :: NextOf(m, x) != NULL ==> x in m.log)
  }

  ghost predicate ListOk(s: State) {
    && Increasing(s.m.waiters)
    && (forall x :: x in s.m.waiters ==> x in s.m.own)
    && (forall x :: Waiting(s.m, x) ==> x in s.m.waiters || (s.m.holder != 0 && InHand(Th(s, s.m.holder), x)))
  }

  /** No waiter is overtaken: whoever came before a signalled one no longer waits. */
  ghost predicate Fifo(m: Mem) {
    forall x, y :: y in m.sig && x in m.own && x < y ==> !Waiting(m, x)
  }

  ghost predicate Carried(s: State) {
    forall x :: Won(s.m, x) && x !in s.m.log ==> Carrier(s.m, x) != 0 && Carrying(Th(s, Carrier(s.m, x)), x)
  }

  ghost predicate OneHolder(s: State) {
    forall t :: t != 0 ==> (Holding(Th(s, t)) <==> t == s.m.holder)
  }

  // ---- Threads

  ghost predicate Mine(m: Mem, t: Tid, n: Ref) { n in m.own && m.own[n] == t }

  /** The thread's own node. */
  ghost predicate NodeOk(m: Mem, t: Tid, f: Frame) {
    match f.pc
    case Release => Mine(m, t, f.n) && f.n !in m.can
    case On(o) => Mine(m, t, f.n) && f.n !in m.can && (o == Walk && f.p != NULL ==> f.p in m.log)
    case Park => Mine(m, t, f.n) && f.n !in m.can && !f.spin
    case CancelCas => Mine(m, t, f.n) && f.n !in m.can
    case Acquire => Mine(m, t, f.n) && f.n in m.log && Ended(m, f)
    case Clean => Mine(m, t, f.n) && f.n in m.log && Ended(m, f)
    case _ => true
  }

  /** The wait ends as interrupted or timed out exactly if the cancellation won. */
  ghost predicate Ended(m: Mem, f: Frame) {
    && (f.mode == ThrowIe <==> f.n in m.can && f.cause == Interrupt)
    && (f.mode == TimedOut <==> f.n in m.can && f.cause == Timeout)
    && (f.mode == Reinterrupt <==> f.n !in m.can && f.spin && f.cause == Interrupt)
  }

  /** The node being transferred. */
  ghost predicate EnqOk(m: Mem, t: Tid, f: Frame) {
    && (f.pc.Enq? ==>
          && Won(m, f.e) && Carrier(m, f.e) == t
          && (f.e in m.log <==> f.pc.e == SetNext)
          && (f.pc.e == SetPrev || f.pc.e == CasTail || f.pc.e == SetNext ==> f.p in m.log)
          && (f.pc.e == CasTail ==> PrevOf(m, f.e) == f.p)
          && (f.pc.e == InitRead ==> m.head != NULL)
          && (f.pc.e == InitTail ==> f.p in m.log)
          && (f.how == ByCancel ==> f.e in m.can && f.e == f.n && Mine(m, t, f.n) && Ended(m, f))
          && (f.how != ByCancel ==> f.e in m.sig))
    && (f.pc == PredStatus || f.pc == PredCas ==> f.p in m.log && f.how != ByCancel)
  }

  ghost predicate NobodyBefore(m: Mem, y: Ref) { forall x :: x in m.own && x < y ==> !Waiting(m, x) }
  ghost predicate NobodyWaits(m: Mem) { forall x :: x in m.own ==> !Waiting(m, x) }

  /** The signalled nodes are those at the start of the call and the one it moved. */
  ghost predicate MovedOne(m: Mem, f: Frame) {
    f.moved == 1 && f.e !in f.before && m.sig == f.before + {f.e}
  }

  ghost predicate ChainOk(m: Mem, f: Frame) {
    m.waiters == [] && Increasing(f.chain) && forall x :: x in f.chain ==> x in m.own
  }

  /** The progress of a call of signal or signalAll. */
  ghost predicate SignalOk(m: Mem, f: Frame) {
    && (f.pc == SigTake ==> f.moved == 0 && m.sig == f.before)
    && (f.pc == SigCas ==> f.moved == 0 && m.sig == f.before && f.e in m.own && NobodyBefore(m, f.e))
    && ((f.pc.Enq? || f.pc == PredStatus || f.pc == PredCas) && f.how == BySignal ==> MovedOne(m, f))
    && (f.pc == SigDone ==> MovedOne(m, f) || (f.moved == 0 && m.sig == f.before && NobodyWaits(m)))
    && (f.pc == AllCas ==>
          ChainOk(m, f) && f.e in m.own && NobodyBefore(m, f.e))
    && ((f.pc.Enq? || f.pc == PredStatus || f.pc == PredCas) && f.how == BySignalAll ==> ChainOk(m, f))
    && (f.pc == AllNext ==> ChainOk(m, f))
    && (f.pc == AllDone ==> NobodyWaits(m))
  }

  ghost predicate FrameOk(s: State, t: Tid) {
    NodeOk(s.m, t, Th(s, t)) && EnqOk(s.m, t, Th(s, t)) && SignalOk(s.m, Th(s, t))
  }

  ghost predicate Shared(s: State) {
    Numbered(s.m) && StatusOk(s.m) && LogOk(s.m) && Fifo(s.m) && ListOk(s) && Carried(s) && OneHolder(s)
  }

  ghost predicate Inv(s: State) {
    Shared(s) && (forall t :: FrameOk(s, t)) && Th(s, 0) == IDLE_FRAME
  }

  // ---- What a step leaves to the others

  /** What a step of `t` that turns `m` into `w` may do to what other threads rely on. */
  ghost predicate Kept(m: Mem, w: Mem, t: Tid) {
    && (forall x :: x in m.own ==> x in w.own && w.own[x] == m.own[x])
    && (forall x :: x in m.own && Waiting(w, x) ==> Waiting(m, x))
    && m.sig <= w.sig && m.can <= w.can
    && (forall x :: x in w.can && x !in m.can ==> Mine(m, t, x))
    && (forall x :: x in m.log ==> x in w.log)
    && (forall x :: Won(m, x) ==> Carrier(w, x) == Carrier(m, x))
    && (forall x :: Won(m, x) && x !in m.log && Carrier(m, x) != t ==> x !in w.log && PrevOf(w, x) == PrevOf(m, x))
    && (m.head != NULL ==> w.head != NULL)
    && (t != m.holder ==> w.waiters == m.waiters && w.sig == m.sig && w.own == m.own)
  }

  lemma SignalKept(m: Mem, w: Mem, t: Tid, f: Frame)
    requires Kept(m, w, t) && SignalOk(m, f) && (t == m.holder ==> !Holding(f))
    ensures SignalOk(w, f)
  {
    if t != m.holder {
      assert forall y :: NobodyBefore(m, y) ==> NobodyBefore(w, y);
      assert NobodyWaits(m) ==> NobodyWaits(w);
      assert ChainOk(m, f) ==> ChainOk(w, f);
    }
  }

  lemma FrameKept(m: Mem, w: Mem, t: Tid, v: Tid, f: Frame)
    requires Kept(m, w, t) && v != t && (t == m.holder ==> !Holding(f))
    requires NodeOk(m, v, f) && EnqOk(m, v, f) && SignalOk(m, f)
    ensures NodeOk(w, v, f) && EnqOk(w, v, f) && SignalOk(w, f)
  {
    SignalKept(m, w, t, f);
    hide SignalOk;
  }

  // ---- One step, seen from the thread that takes it

  ghost predicate MemOk(m: Mem) { Numbered(m) && StatusOk(m) && LogOk(m) && Fifo(m) }
  ghost predicate OwnOk(m: Mem, t: Tid, f: Frame) { NodeOk(m, t, f) && EnqOk(m, t, f) && SignalOk(m, f) }

  /** What the thread knows about the list, the lock and the nodes it has to queue. */
  ghost predicate Local(m: Mem, t: Tid, f: Frame) {
    && Increasing(m.waiters)
    && (forall x :: x in m.waiters ==> x in m.own)
    && (t == m.holder ==> forall x :: Waiting(m, x) ==> x in m.waiters || InHand(f, x))
    && (m.holder == 0 ==> forall x :: Waiting(m, x) ==> x in m.waiters)
    && (Holding(f) <==> t == m.holder)
    && (forall x :: Won(m, x) && x !in m.log && Carrier(m, x) == t ==> Carrying(f, x))
  }

  /** The lock and the list change only by their holder. */
  ghost predicate Handover(m: Mem, w: Mem, t: Tid) {
    && (w.holder == m.holder || (m.holder == 0 && w.holder == t) || (m.holder == t && w.holder == 0))
    && (w.holder != t && m.holder != t ==> w.waiters == m.waiters)
    && (forall x :: Waiting(w, x) && !Waiting(m, x) ==> t == m.holder)
    && (forall x :: Won(w, x) && !Won(m, x) ==> Carrier(w, x) == t)
  }

  ghost predicate Fine(m: Mem, t: Tid, f: Frame) { MemOk(m) && OwnOk(m, t, f) && Local(m, t, f) }

  ghost predicate Sound(m: Mem, w: Mem, t: Tid, g: Frame) { Fine(w, t, g) && Kept(m, w, t) && Handover(m, w, t) }

  lemma FineFrom(s: State, t: Tid)
    requires Inv(s) && t != 0
    ensures Fine(s.m, t, Th(s, t))
  {
    assert FrameOk(s, t);
  }

  lemma Assemble(s: State, t: Tid, w: Mem, g: Frame)
    requires Inv(s) && t != 0 && Sound(s.m, w, t, g)
    ensures Inv(State(w, s.th[t := g]))
  {
    var u := State(w, s.th[t := g]);
    assert Th(u, t) == g && forall v :: v != t ==> Th(u, v) == Th(s, v);
    forall v
      ensures FrameOk(u, v)
    {
      assert FrameOk(s, v);
      if v == 0 { ZeroFrame(w); } else if v != t { FrameKept(s.m, w, t, v, Th(s, v)); }
    }
    assert OneHolder(u) by { HolderKept(s, t, u); }
    assert Carried(u) by { CarriedKept(s, t, u); }
    assert ListOk(u) by { ListKept(s, t, u); }
  }

  lemma ZeroFrame(m: Mem)
    ensures OwnOk(m, 0, IDLE_FRAME) && !Holding(IDLE_FRAME)
  {
  }

  lemma HolderKept(s: State, t: Tid, u: State)
    requires OneHolder(s) && t != 0 && Handover(s.m, u.m, t) && (Holding(Th(u, t)) <==> t == u.m.holder)
    requires forall v :: v != t ==> Th(u, v) == Th(s, v)
    ensures OneHolder(u)
  {
    hide Holding;
  }

  lemma CarriedKept(s: State, t: Tid, u: State)
    requires Carried(s) && t != 0 && Kept(s.m, u.m, t) && Handover(s.m, u.m, t) && Local(u.m, t, Th(u, t))
    requires forall v :: v != t ==> Th(u, v) == Th(s, v)
    ensures Carried(u)
  {
    hide Holding, InHand, Carrying;
  }

  lemma ListKept(s: State, t: Tid, u: State)
    requires ListOk(s) && t != 0 && Kept(s.m, u.m, t) && Handover(s.m, u.m, t) && Local(u.m, t, Th(u, t))
    requires forall v :: v != t ==> Th(u, v) == Th(s, v)
    ensures ListOk(u)
  {
    hide Holding, InHand, Carrying;
  }

  // ---- The steps of the source methods

  /** Nothing shared changes. */
  lemma Still(m: Mem, t: Tid, f: Frame, g: Frame)
    requires Fine(m, t, f) && OwnOk(m, t, g) && Holding(g) == Holding(f)
    requires forall x :: InHand(f, x) && Waiting(m, x) ==> InHand(g, x)
    requires forall x :: Carrying(f, x) ==> Carrying(g, x)
    ensures Sound(m, m, t, g)
  {
    hide MemOk, OwnOk, Holding, InHand, Carrying;
  }

  /** A thread that neither holds the lock nor transfers a node. */
  ghost predicate Aside(f: Frame) { f.pc.On? || f.pc == Park || f.pc == CancelCas || f.pc == Acquire }

  lemma AsideFrame(m: Mem, t: Tid, f: Frame)
    requires Aside(f)
    ensures EnqOk(m, t, f) && SignalOk(m, f) && !Holding(f) && forall x :: !InHand(f, x) && !Carrying(f, x)
  {
  }

  lemma AsideStill(m: Mem, t: Tid, f: Frame, g: Frame)
    requires Fine(m, t, f) && Aside(f) && Aside(g) && NodeOk(m, t, g)
    ensures Sound(m, m, t, g)
  {
    AsideFrame(m, t, f);
    AsideFrame(m, t, g);
    hide MemOk, Holding, InHand, Carrying, NodeOk, EnqOk, SignalOk, Aside;
    Still(m, t, f, g);
  }

  lemma OnFrame(m: Mem, t: Tid, f: Frame)
    requires Numbered(m) && LogOk(m) && NodeOk(m, t, f) && f.pc.On?
    ensures var g := ActOn(m, f, f.pc.o); Aside(g) && NodeOk(m, t, g)
  {
  }

  lemma OnStep(m: Mem, t: Tid, f: Frame)
    requires Fine(m, t, f) && f.pc.On?
    ensures Sound(m, m, t, ActOn(m, f, f.pc.o))
  {
    OnFrame(m, t, f);
    hide MemOk, NodeOk, ActOn;
    AsideStill(m, t, f, ActOn(m, f, f.pc.o));
  }

  lemma ParkStep(m: Mem, t: Tid, f: Frame, c: Choice)
    requires Fine(m, t, f) && f.pc == Park
    ensures Sound(m, m, t, ActAwait(m, t, f, c).1)
  {
    hide MemOk;
    AsideStill(m, t, f, ActAwait(m, t, f, c).1);
  }

  /** One of the two CASes from CONDITION to 0 succeeds. */
  lemma WinMem(m: Mem, w: Mem, t: Tid, n: Ref)
    requires MemOk(m) && Waiting(m, n) && (w == WinCancel(m, t, n) || (w == WinSignal(m, t, n) && NobodyBefore(m, n)))
    ensures MemOk(w)
    ensures forall x :: Waiting(w, x) <==> Waiting(m, x) && x != n
    ensures forall x :: Won(w, x) <==> Won(m, x) || x == n
    ensures n !in m.log && !Won(m, n)
  {
    assert forall x :: PrevOf(w, x) == PrevOf(m, x) && NextOf(w, x) == NextOf(m, x);
  }

  lemma WinKept(m: Mem, w: Mem, t: Tid, n: Ref)
    requires MemOk(m) && Waiting(m, n)
    requires (w == WinCancel(m, t, n) && Mine(m, t, n)) || (w == WinSignal(m, t, n) && t == m.holder)
    requires forall x :: Waiting(w, x) <==> Waiting(m, x) && x != n
    requires forall x :: Won(w, x) <==> Won(m, x) || x == n
    ensures Kept(m, w, t) && Handover(m, w, t)
  {
  }

  lemma WinLocal(m: Mem, w: Mem, t: Tid, n: Ref, f: Frame, g: Frame)
    requires Local(m, t, f) && (w == WinCancel(m, t, n) || w == WinSignal(m, t, n))
    requires forall x :: Waiting(w, x) <==> Waiting(m, x) && x != n
    requires forall x :: Won(w, x) <==> Won(m, x) || x == n
    requires Holding(g) == Holding(f) && Carrying(g, n)
    requires forall x :: !Carrying(f, x)
    requires forall x :: InHand(f, x) ==> x == n || InHand(g, x)
    ensures Local(w, t, g)
  {
    hide Holding, InHand, Carrying;
  }

  lemma CancelStep(m: Mem, t: Tid, f: Frame)
    requires Fine(m, t, f) && f.pc == CancelCas && Waiting(m, f.n) && t != 0
    ensures Sound(m, WinCancel(m, t, f.n), t, GaveUp(f))
  {
    var w, g := WinCancel(m, t, f.n), GaveUp(f);
    WinMem(m, w, t, f.n);
    WinKept(m, w, t, f.n);
    CancelFrame(m, w, t, f, g);
    WinLocal(m, w, t, f.n, f, g);
    hide MemOk, OwnOk, Local, Kept, Handover, Waiting;
  }

  lemma CancelFrame(m: Mem, w: Mem, t: Tid, f: Frame, g: Frame)
    requires NodeOk(m, t, f) && f.pc == CancelCas && f.n !in m.log && w == WinCancel(m, t, f.n)
    requires g == GaveUp(f)
    ensures OwnOk(w, t, g) && !Holding(g) && !Holding(f) && Carrying(g, f.n)
    ensures forall x :: !InHand(f, x) && !Carrying(f, x)
  {
  }

  lemma LoseStep(m: Mem, t: Tid, f: Frame)
    requires Fine(m, t, f) && f.pc == CancelCas && !Waiting(m, f.n)
    ensures Sound(m, m, t, f.(pc := On(Status), spin := true))
  {
    hide MemOk;
    AsideStill(m, t, f, f.(pc := On(Status), spin := true));
  }

  /** The thread takes or gives up the lock and does nothing else. */
  lemma LockStep(m: Mem, t: Tid, f: Frame, holder: Tid, g: Frame)
    requires Fine(m, t, f) && t != 0
    requires (m.holder == 0 && holder == t) || (m.holder == t && holder == 0)
    requires OwnOk(m, t, g) && (Holding(g) <==> holder == t)
    requires forall x :: !InHand(f, x) && !Carrying(f, x)
    ensures Sound(m, m.(holder := holder), t, g)
  {
    var w := m.(holder := holder);
    SameMem(m, w);
    SameOwn(m, w, t, g);
    hide Holding, InHand, Carrying, MemOk, OwnOk;
  }

  lemma SameMem(m: Mem, w: Mem)
    requires MemOk(m) && w == m.(holder := w.holder)
    ensures MemOk(w)
    ensures forall x :: Waiting(w, x) == Waiting(m, x) && Won(w, x) == Won(m, x) && PrevOf(w, x) == PrevOf(m, x)
    ensures forall x :: Carrier(w, x) == Carrier(m, x)
  {
    assert forall x :: Waiting(w, x) == Waiting(m, x) && Won(w, x) == Won(m, x);
    assert forall x :: PrevOf(w, x) == PrevOf(m, x) && NextOf(w, x) == NextOf(m, x);
  }

  lemma SameOwn(m: Mem, w: Mem, t: Tid, g: Frame)
    requires OwnOk(m, t, g) && w == m.(holder := w.holder)
    ensures OwnOk(w, t, g)
  {
    assert forall x :: Waiting(w, x) == Waiting(m, x) && Won(w, x) == Won(m, x) && PrevOf(w, x) == PrevOf(m, x);
    assert forall y :: NobodyBefore(w, y) == NobodyBefore(m, y);
    assert NobodyWaits(w) == NobodyWaits(m) && ChainOk(w, g) == ChainOk(m, g) && MovedOne(w, g) == MovedOne(m, g);
  }

  /** A step of the lock holder that changes neither memory nor what it has in hand. */
  ghost predicate Plain(f: Frame) {
    f.pc == Held || f.pc == AddStatus || f.pc == AddLink || f.pc.Unlink? || f.pc == Clean
  }

  lemma PlainFrame(m: Mem, t: Tid, f: Frame)
    requires Plain(f)
    ensures EnqOk(m, t, f) && SignalOk(m, f) && Holding(f) && forall x :: !InHand(f, x) && !Carrying(f, x)
    ensures f.pc != Clean ==> NodeOk(m, t, f)
  {
  }

  lemma PlainStill(m: Mem, t: Tid, f: Frame, g: Frame)
    requires Fine(m, t, f) && Plain(f) && Plain(g) && g.pc != Clean
    ensures Sound(m, m, t, g)
  {
    PlainFrame(m, t, f);
    PlainFrame(m, t, g);
    hide MemOk, Holding, InHand, Carrying, NodeOk, EnqOk, SignalOk, Plain;
    Still(m, t, f, g);
  }

  /** unlinkCancelledWaiters drops a node that no longer waits. */
  lemma UnlinkStep(m: Mem, t: Tid, f: Frame)
    requires Fine(m, t, f) && t != 0 && f.pc.Unlink? && f.i < |m.waiters| && !Waiting(m, m.waiters[f.i])
    ensures Sound(m, m.(waiters := m.waiters[..f.i] + m.waiters[f.i + 1..]), t, f)
  {
    var w := m.(waiters := m.waiters[..f.i] + m.waiters[f.i + 1..]);
    PlainFrame(m, t, f);
    PlainFrame(w, t, f);
    SameExceptList(m, w);
    ListLocal(m, w, t, f, f, f.i);
    assert Kept(m, w, t) && Handover(m, w, t) by { hide MemOk, OwnOk, Local; }
  }

  function Drop(q: seq<Ref>, i: nat): seq<Ref>
    requires i < |q|
  {
    q[..i] + q[i + 1..]
  }

  lemma DropKeeps(q: seq<Ref>, i: nat)
    requires i < |q| && Increasing(q)
    ensures Increasing(Drop(q, i))
    ensures forall x :: x in Drop(q, i) ==> x in q
    ensures forall x :: x in q && x != q[i] ==> x in Drop(q, i)
  {
    assert forall k :: 0 <= k < |Drop(q, i)| ==> Drop(q, i)[k] == q[if k < i then k else k + 1];
    assert q == q[..i] + [q[i]] + q[i + 1..];
  }

  /** The lock holder takes a node off the list; if it still waits, it has it in hand. */
  lemma ListLocal(m: Mem, w: Mem, t: Tid, f: Frame, g: Frame, i: nat)
    requires Local(m, t, f) && Holding(f) && Holding(g) && t != 0
    requires i < |m.waiters| && w == m.(waiters := Drop(m.waiters, i))
    requires forall x :: Waiting(w, x) == Waiting(m, x) && Won(w, x) == Won(m, x) && Carrier(w, x) == Carrier(m, x)
    requires forall x :: !InHand(f, x) && !Carrying(f, x)
    requires Waiting(m, m.waiters[i]) ==> InHand(g, m.waiters[i])
    ensures Local(w, t, g)
  {
    DropKeeps(m.waiters, i);
    hide Holding, InHand, Carrying, Waiting, Won, Carrier, Drop, Increasing;
  }

  lemma SameExceptList(m: Mem, w: Mem)
    requires MemOk(m) && w == m.(waiters := w.waiters)
    ensures MemOk(w)
    ensures forall x :: Waiting(w, x) == Waiting(m, x) && Won(w, x) == Won(m, x) && PrevOf(w, x) == PrevOf(m, x)
    ensures forall x :: Carrier(w, x) == Carrier(m, x)
  {
    assert forall x :: Waiting(w, x) == Waiting(m, x) && Won(w, x) == Won(m, x);
    assert forall x :: PrevOf(w, x) == PrevOf(m, x) && NextOf(w, x) == NextOf(m, x);
  }

  /** addConditionWaiter links a new node. */
  lemma LinkStep(m: Mem, t: Tid, f: Frame)
    requires Fine(m, t, f) && f.pc == AddLink && t != 0
    ensures var (w, g) := ActAdd(m, t, f); Sound(m, w, t, g)
  {
    var (w, g) := ActAdd(m, t, f);
    var n := m.nextRef;
    PlainFrame(m, t, f);
    LinkMem(m, w, t);
    LinkLocal(m, w, t, f, g);
    LinkKept(m, w, t);
    assert OwnOk(w, t, g);
  }

  lemma LinkLocal(m: Mem, w: Mem, t: Tid, f: Frame, g: Frame)
    requires Local(m, t, f) && Holding(f) && Holding(g) && t != 0
    requires w == m.(nextRef := w.nextRef, own := m.own[m.nextRef := t], ws := w.ws, waiters := m.waiters + [m.nextRef])
    requires forall x :: Waiting(w, x) <==> Waiting(m, x) || x == m.nextRef
    requires forall x :: Won(w, x) == Won(m, x) && Carrier(w, x) == Carrier(m, x)
    requires forall x :: x in m.own ==> x < m.nextRef
    requires forall x :: !InHand(f, x) && !Carrying(f, x)
    ensures Local(w, t, g)
  {
    hide Holding, InHand, Carrying, Waiting, Won, Carrier;
    assert forall i :: 0 <= i < |m.waiters| ==> m.waiters[i] in m.waiters;
    assert forall x :: x in w.waiters <==> x in m.waiters || x == m.nextRef;
  }

  lemma LinkKept(m: Mem, w: Mem, t: Tid)
    requires t == m.holder
    requires w == m.(nextRef := w.nextRef, own := m.own[m.nextRef := t], ws := w.ws, waiters := m.waiters + [m.nextRef])
    requires forall x :: Waiting(w, x) <==> Waiting(m, x) || x == m.nextRef
    requires forall x :: Won(w, x) == Won(m, x) && PrevOf(w, x) == PrevOf(m, x) && Carrier(w, x) == Carrier(m, x)
    requires forall x :: x in m.own ==> x < m.nextRef
    ensures Kept(m, w, t) && Handover(m, w, t)
  {
    hide Waiting, Won, PrevOf, Carrier;
  }

  lemma LinkMem(m: Mem, w: Mem, t: Tid)
    requires MemOk(m)
    requires w == m.(nextRef := m.nextRef + 1, own := m.own[m.nextRef := t], ws := m.ws[m.nextRef := CONDITION],
                     waiters := m.waiters + [m.nextRef])
    ensures MemOk(w)
    ensures forall x :: Waiting(w, x) <==> Waiting(m, x) || x == m.nextRef
    ensures forall x :: Won(w, x) == Won(m, x) && PrevOf(w, x) == PrevOf(m, x) && Carrier(w, x) == Carrier(m, x)
    ensures !Won(m, m.nextRef) && forall x :: x in m.own ==> x < m.nextRef
  {
    assert forall x :: Waiting(w, x) <==> Waiting(m, x) || x == m.nextRef;
    forall y | y in m.sig
      ensures y < m.nextRef
    {
      assert Won(m, y);
      assert y in m.own;
    }
    forall x, y | y in w.sig && x in w.own && x < y
      ensures !Waiting(w, x)
    {
      assert y in m.sig && y < m.nextRef && x in m.own;
    }
    assert forall x :: PrevOf(w, x) == PrevOf(m, x) && NextOf(w, x) == NextOf(m, x);
  }

  /** doSignal takes the first waiter off the list. */
  lemma TakeStep(m: Mem, t: Tid, f: Frame)
    requires Fine(m, t, f) && f.pc == SigTake && m.waiters != [] && t != 0
    ensures Sound(m, m.(waiters := m.waiters[1..]), t, f.(pc := SigCas, e := m.waiters[0]))
  {
    var w, g := m.(waiters := m.waiters[1..]), f.(pc := SigCas, e := m.waiters[0]);
    SameExceptList(m, w);
    assert Drop(m.waiters, 0) == w.waiters;
    ListLocal(m, w, t, f, g, 0);
    assert NobodyBefore(w, g.e);
    assert m.waiters[0] in m.waiters;
    assert OwnOk(w, t, g);
    assert Kept(m, w, t) && Handover(m, w, t) by { hide MemOk, OwnOk, Local; }
  }

  lemma TakeAllStep(m: Mem, t: Tid, f: Frame)
    requires Fine(m, t, f) && f.pc == AllTake && t != 0
    ensures Sound(m, m.(waiters := []), t, f.(pc := AllNext, chain := m.waiters))
  {
    var w, g := m.(waiters := []), f.(pc := AllNext, chain := m.waiters);
    SameExceptList(m, w);
    assert OwnOk(w, t, g);
    assert Local(w, t, g);
    assert Kept(m, w, t) && Handover(m, w, t) by { hide MemOk, OwnOk, Local; }
  }

  /** A signal wins the node it has in hand. */
  lemma SignalStep(m: Mem, t: Tid, f: Frame)
    requires Fine(m, t, f) && (f.pc == SigCas || f.pc == AllCas) && Waiting(m, f.e) && t != 0
    ensures Sound(m, WinSignal(m, t, f.e), t, Handed(f, if f.pc == SigCas then BySignal else BySignalAll))
  {
    var w, g := WinSignal(m, t, f.e), Handed(f, if f.pc == SigCas then BySignal else BySignalAll);
    WinMem(m, w, t, f.e);
    WinKept(m, w, t, f.e);
    SignalFrame(m, w, t, f, g);
    WinLocal(m, w, t, f.e, f, g);
    hide MemOk, OwnOk, Local, Kept, Handover, Waiting;
  }

  lemma SignalFrame(m: Mem, w: Mem, t: Tid, f: Frame, g: Frame)
    requires OwnOk(m, t, f) && (f.pc == SigCas || f.pc == AllCas)
    requires f.e !in m.log && !Won(m, f.e) && w == WinSignal(m, t, f.e)
    requires g == Handed(f, if f.pc == SigCas then BySignal else BySignalAll)
    ensures OwnOk(w, t, g) && Holding(g) && Holding(f) && Carrying(g, f.e)
    ensures forall x :: !Carrying(f, x)
    ensures forall x :: InHand(f, x) ==> x == f.e || InHand(g, x)
  {
  }

  /** The steps of signal and signalAll that only move on. */
  lemma MoveOnStep(m: Mem, t: Tid, f: Frame)
    requires Fine(m, t, f) && t == m.holder
    requires f.pc == SigTake ==> m.waiters == []
    requires f.pc == SigCas || f.pc == AllCas ==> !Waiting(m, f.e)
    requires f.pc in {SigTake, SigCas, SigDone, AllNext, AllCas, AllDone, PredStatus}
    ensures ActSignal(m, t, f).0 == m && Sound(m, m, t, ActSignal(m, t, f).1)
  {
    var g := ActSignal(m, t, f).1;
    MoveOnFrame(m, t, f);
    hide MemOk, OwnOk, Holding, InHand, Carrying, Waiting;
    Still(m, t, f, g);
  }

  lemma MoveOnFrame(m: Mem, t: Tid, f: Frame)
    requires OwnOk(m, t, f) && Local(m, t, f) && StatusOk(m) && t == m.holder
    requires f.pc == SigTake ==> m.waiters == []
    requires f.pc == SigCas || f.pc == AllCas ==> !Waiting(m, f.e)
    requires f.pc in {SigTake, SigCas, SigDone, AllNext, AllCas, AllDone, PredStatus}
    ensures var g := ActSignal(m, t, f).1;
      OwnOk(m, t, g) && Holding(g) && Holding(f)
      && (forall x :: InHand(f, x) && Waiting(m, x) ==> InHand(g, x)) && (forall x :: !Carrying(f, x))
  {
    if f.pc == AllNext {
      AllNextFrame(m, t, f);
    } else if f.pc == PredStatus {
      PredStatusFrame(m, t, f);
    }
  }

  lemma AllNextFrame(m: Mem, t: Tid, f: Frame)
    requires OwnOk(m, t, f) && Local(m, t, f) && t == m.holder && f.pc == AllNext
    ensures var g := ActSignal(m, t, f).1;
      OwnOk(m, t, g) && Holding(g) && Holding(f)
      && (forall x :: InHand(f, x) && Waiting(m, x) ==> InHand(g, x)) && (forall x :: !Carrying(f, x))
  {
    if f.chain != [] {
      assert forall x :: Waiting(m, x) ==> x in f.chain;
      assert f.chain[0] in f.chain && NobodyBefore(m, f.chain[0]);
      assert forall x :: x in f.chain ==> x == f.chain[0] || x in f.chain[1..];
    }
  }

  lemma PredStatusFrame(m: Mem, t: Tid, f: Frame)
    requires OwnOk(m, t, f) && f.pc == PredStatus
    ensures var g := ActSignal(m, t, f).1;
      OwnOk(m, t, g) && Holding(g) && Holding(f)
      && (forall x :: InHand(f, x) && Waiting(m, x) ==> InHand(g, x)) && (forall x :: !Carrying(f, x))
  {
  }

  /** A step that only writes to the lock queue. */
  ghost predicate Writes(m: Mem, w: Mem, t: Tid) {
    && w == m.(ws := w.ws, prev := w.prev, next := w.next, tail := w.tail, head := w.head, log := w.log,
               nextRef := w.nextRef, envInit := w.envInit)
    && (forall x :: Waiting(w, x) == Waiting(m, x))
    && (forall x :: x in m.log ==> x in w.log)
    && (forall x :: Won(m, x) && x !in m.log && Carrier(m, x) != t ==> x !in w.log && PrevOf(w, x) == PrevOf(m, x))
    && (m.head != NULL ==> w.head != NULL)
  }

  lemma WriteSound(m: Mem, w: Mem, t: Tid, f: Frame, g: Frame)
    requires Fine(m, t, f) && Writes(m, w, t) && MemOk(w) && OwnOk(w, t, g) && Holding(g) == Holding(f)
    requires forall x :: InHand(f, x) && Waiting(m, x) ==> InHand(g, x)
    requires forall x :: Carrying(f, x) && x !in w.log ==> Carrying(g, x)
    ensures Sound(m, w, t, g)
  {
    assert forall x :: Won(w, x) == Won(m, x) && Carrier(w, x) == Carrier(m, x);
    hide MemOk, OwnOk, Holding, InHand, Carrying, Waiting, Won, PrevOf, Carrier;
  }

  /** The status CAS on the predecessor. */
  lemma PredStep(m: Mem, w: Mem, t: Tid, f: Frame)
    requires Fine(m, t, f) && f.pc == PredCas && t == m.holder
    requires w == m || w == m.(ws := m.ws[f.p := SIGNAL])
    ensures Sound(m, w, t, Transferred(f))
  {
    StatusMem(m, w, f.p, SIGNAL);
    PredFrame(m, w, t, f, Transferred(f));
    hide MemOk, OwnOk, Holding, InHand, Carrying, Waiting, Won, PrevOf, Carrier;
    WriteSound(m, w, t, f, Transferred(f));
  }

  /** A status other than CONDITION is written to a queued node. */
  lemma StatusMem(m: Mem, w: Mem, r: Ref, v: int)
    requires MemOk(m) && r in m.log && v != CONDITION && (w == m || w == m.(ws := m.ws[r := v]))
    ensures MemOk(w)
    ensures forall x :: Waiting(w, x) == Waiting(m, x) && Won(w, x) == Won(m, x) && PrevOf(w, x) == PrevOf(m, x)
    ensures forall x :: Carrier(w, x) == Carrier(m, x)
  {
    assert forall x :: Waiting(w, x) == Waiting(m, x) && Won(w, x) == Won(m, x);
    assert forall x :: PrevOf(w, x) == PrevOf(m, x) && NextOf(w, x) == NextOf(m, x);
  }

  lemma PredFrame(m: Mem, w: Mem, t: Tid, f: Frame, g: Frame)
    requires OwnOk(m, t, f) && Local(m, t, f) && f.pc == PredCas && t == m.holder && g == Transferred(f)
    requires w == m.(ws := w.ws) && forall x :: Waiting(w, x) == Waiting(m, x)
    ensures OwnOk(w, t, g) && Holding(g) && Holding(f)
    ensures forall x :: InHand(f, x) && Waiting(m, x) ==> InHand(g, x)
    ensures forall x :: !Carrying(f, x)
  {
    hide Waiting;
  }

  // enq

  lemma EnqFrame(m: Mem, w: Mem, t: Tid, f: Frame, g: Frame)
    requires OwnOk(m, t, f) && f.pc.Enq? && Writes(m, w, t)
    requires g == f.(pc := g.pc, p := g.p)
    requires g.pc.Enq? ||
             (f.pc.e == SetNext && g.pc == (if f.how == ByCancel then Acquire else PredStatus) && g.p == f.p)
    requires EnqOk(w, t, g)
    ensures OwnOk(w, t, g) && Holding(g) == Holding(f) && forall x :: InHand(f, x) ==> InHand(g, x)
  {
    hide Waiting;
  }

  lemma EnqStill(m: Mem, t: Tid, f: Frame, g: Frame)
    requires Fine(m, t, f) && f.pc.Enq? && f.pc.e != SetNext
    requires g == f.(pc := g.pc, p := g.p) && g.pc.Enq? && g.pc.e != SetNext
    requires EnqOk(m, t, g)
    ensures Sound(m, m, t, g)
  {
    EnqFrame(m, m, t, f, g);
    hide MemOk, OwnOk, Holding, InHand, Waiting;
    WriteSound(m, m, t, f, g);
  }

  lemma EnqWrite(m: Mem, w: Mem, t: Tid, f: Frame, g: Frame)
    requires Fine(m, t, f) && f.pc.Enq? && Writes(m, w, t) && MemOk(w)
    requires g == f.(pc := g.pc, p := g.p)
    requires g.pc.Enq? ||
             (f.pc.e == SetNext && g.pc == (if f.how == ByCancel then Acquire else PredStatus) && g.p == f.p)
    requires EnqOk(w, t, g)
    requires (g.pc.Enq? && g.pc.e != SetNext) || f.e in w.log
    ensures Sound(m, w, t, g)
  {
    EnqFrame(m, w, t, f, g);
    hide MemOk, OwnOk, Holding, InHand, Waiting, Writes;
    WriteSound(m, w, t, f, g);
  }

  lemma InitHeadStep(m: Mem, t: Tid, f: Frame)
    requires Fine(m, t, f) && f.pc == Enq(InitHead) && m.head == NULL
    ensures Sound(m, NewDummy(m), t, f.(pc := Enq(InitRead)))
  {
    hide SignalOk, NodeOk, Local, Holding, InHand;
    var w, g := NewDummy(m), f.(pc := Enq(InitRead));
    assert forall x :: PrevOf(w, x) == (if x == m.nextRef then NULL else PrevOf(m, x));
    AppendMem(m, w, m.nextRef);
    assert EnqOk(w, t, g);
    hide MemOk, EnqOk;
    EnqWrite(m, w, t, f, g);
  }

  /** A node is queued that was not: one of no condition, or one whose wait has ended. */
  lemma AppendMem(m: Mem, w: Mem, r: Ref)
    requires MemOk(m) && r !in m.log && 0 < r < w.nextRef && w.nextRef >= m.nextRef
    requires r in m.own ==> Won(m, r)
    requires w == m.(head := w.head, tail := w.tail, nextRef := w.nextRef, prev := w.prev, log := m.log + [r],
                     envInit := w.envInit) && (w.envInit ==> w.head != NULL)
    requires (w.head == m.head || w.head == r) && (w.tail == m.tail || w.tail == r)
    requires forall x :: x != r ==> PrevOf(w, x) == PrevOf(m, x)
    requires PrevOf(w, r) == NULL || PrevOf(w, r) in m.log
    ensures MemOk(w)
    ensures forall x :: Waiting(w, x) == Waiting(m, x) && Won(w, x) == Won(m, x) && NextOf(w, x) == NextOf(m, x)
  {
    assert forall x :: Waiting(w, x) == Waiting(m, x) && Won(w, x) == Won(m, x) && NextOf(w, x) == NextOf(m, x);
    assert forall x :: x in w.log <==> x in m.log || x == r;
  }

  lemma InitTailStep(m: Mem, t: Tid, f: Frame)
    requires Fine(m, t, f) && f.pc == Enq(InitTail)
    ensures Sound(m, m.(tail := f.p), t, f.(pc := Enq(ReadTail)))
  {
    hide SignalOk, NodeOk, Local, Holding, InHand;
    var w, g := m.(tail := f.p), f.(pc := Enq(ReadTail));
    assert forall x :: PrevOf(w, x) == PrevOf(m, x) && NextOf(w, x) == NextOf(m, x);
    QueueMem(m, w);
    assert EnqOk(w, t, g);
    hide MemOk, EnqOk;
    EnqWrite(m, w, t, f, g);
  }

  /** Tail, prev and next of queued nodes change within the queue; a prev of a node that is not
      queued changes to a queued one. */
  lemma QueueMem(m: Mem, w: Mem)
    requires MemOk(m)
    requires w == m.(tail := w.tail, prev := w.prev, next := w.next)
    requires w.tail != NULL ==> w.tail in m.log
    requires forall x :: x in m.log && PrevOf(w, x) != NULL ==> PrevOf(w, x) in m.log
    requires forall x :: NextOf(w, x) != NULL ==> x in m.log
    ensures MemOk(w)
    ensures forall x :: Waiting(w, x) == Waiting(m, x) && Won(w, x) == Won(m, x)
  {
    assert forall x :: Waiting(w, x) == Waiting(m, x) && Won(w, x) == Won(m, x);
  }

  lemma SetPrevStep(m: Mem, t: Tid, f: Frame)
    requires Fine(m, t, f) && f.pc == Enq(SetPrev)
    ensures Sound(m, m.(prev := m.prev[f.e := f.p]), t, f.(pc := Enq(CasTail)))
  {
    hide SignalOk, NodeOk, Local, Holding, InHand;
    var w, g := m.(prev := m.prev[f.e := f.p]), f.(pc := Enq(CasTail));
    assert forall x :: PrevOf(w, x) == (if x == f.e then f.p else PrevOf(m, x));
    QueueMem(m, w);
    assert EnqOk(w, t, g);
    hide MemOk, EnqOk;
    EnqWrite(m, w, t, f, g);
  }

  lemma CasTailStep(m: Mem, t: Tid, f: Frame)
    requires Fine(m, t, f) && f.pc == Enq(CasTail)
    ensures Sound(m, m.(tail := f.e, log := m.log + [f.e]), t, f.(pc := Enq(SetNext)))
  {
    hide SignalOk, NodeOk, Local, Holding, InHand;
    var w, g := m.(tail := f.e, log := m.log + [f.e]), f.(pc := Enq(SetNext));
    assert Won(m, f.e) && f.e in m.own;
    AppendMem(m, w, f.e);
    assert EnqOk(w, t, g);
    hide MemOk, EnqOk;
    EnqWrite(m, w, t, f, g);
  }

  lemma SetNextStep(m: Mem, t: Tid, f: Frame)
    requires Fine(m, t, f) && f.pc == Enq(SetNext)
    ensures Sound(m, m.(next := m.next[f.p := f.e]), t, f.(pc := if f.how == ByCancel then Acquire else PredStatus))
  {
    hide SignalOk, NodeOk, Local, Holding, InHand;
    var w, g := m.(next := m.next[f.p := f.e]), f.(pc := if f.how == ByCancel then Acquire else PredStatus);
    assert forall x :: NextOf(w, x) == (if x == f.p then f.e else NextOf(m, x));
    assert forall x :: PrevOf(w, x) == PrevOf(m, x);
    QueueMem(m, w);
    assert EnqOk(w, t, g);
    hide MemOk, EnqOk;
    EnqWrite(m, w, t, f, g);
  }

  // ---- All steps

  lemma EnqSound(m: Mem, t: Tid, f: Frame)
    requires Fine(m, t, f) && f.pc.Enq?
    ensures var (w, g) := ActEnq(m, f, f.pc.e); Sound(m, w, t, g)
  {
    hide SignalOk, NodeOk, Local, Holding, InHand, Sound;
    match f.pc.e
    case ReadTail => EnqStill(m, t, f, ActEnq(m, f, ReadTail).1);
    case InitHead =>
      if m.head == NULL { InitHeadStep(m, t, f); } else { EnqStill(m, t, f, f.(pc := Enq(ReadTail))); }
    case InitRead => EnqStill(m, t, f, f.(pc := Enq(InitTail), p := m.head));
    case InitTail => InitTailStep(m, t, f);
    case SetPrev => SetPrevStep(m, t, f);
    case CasTail => if m.tail == f.p { CasTailStep(m, t, f); } else { EnqStill(m, t, f, f.(pc := Enq(ReadTail))); }
    case SetNext => SetNextStep(m, t, f);
  }

  lemma Holds(m: Mem, t: Tid, f: Frame)
    requires Local(m, t, f) && Holding(f)
    ensures m.holder == t
  {
  }

  lemma SignalSound(m: Mem, t: Tid, f: Frame)
    requires Fine(m, t, f) && t != 0
    requires f.pc in {SigTake, SigCas, SigDone, AllTake, AllNext, AllCas, AllDone, PredStatus, PredCas}
    ensures var (w, g) := ActSignal(m, t, f); Sound(m, w, t, g)
  {
    Holds(m, t, f);
    hide MemOk, OwnOk, Local, Holding, InHand, Sound;
    match f.pc
    case SigTake => if m.waiters == [] { MoveOnStep(m, t, f); } else { TakeStep(m, t, f); }
    case AllTake => TakeAllStep(m, t, f);
    case SigCas => if Waiting(m, f.e) { SignalStep(m, t, f); } else { MoveOnStep(m, t, f); }
    case AllCas => if Waiting(m, f.e) { SignalStep(m, t, f); } else { MoveOnStep(m, t, f); }
    case PredCas => PredStep(m, ActSignal(m, t, f).0, t, f);
    case _ => MoveOnStep(m, t, f);
  }

  lemma AddSound(m: Mem, t: Tid, f: Frame)
    requires Fine(m, t, f) && t != 0 && (f.pc == AddStatus || f.pc == AddLink || f.pc == Release || f.pc.Unlink?)
    ensures var (w, g) := ActAdd(m, t, f); Sound(m, w, t, g)
  {
    hide MemOk, Local, InHand, Sound;
    match f.pc
    case AddStatus => PlainStill(m, t, f, ActAdd(m, t, f).1);
    case AddLink => LinkStep(m, t, f);
    case Unlink(_) =>
      if f.i < |m.waiters| && !Waiting(m, m.waiters[f.i]) { UnlinkStep(m, t, f); }
      else { PlainStill(m, t, f, ActAdd(m, t, f).1); }
    case Release => ReleaseStep(m, t, f);
  }

  lemma ReleaseStep(m: Mem, t: Tid, f: Frame)
    requires Fine(m, t, f) && t != 0 && f.pc == Release
    ensures Sound(m, m.(holder := 0), t, f.(pc := On(Status)))
  {
    var g := f.(pc := On(Status));
    AsideFrame(m, t, g);
    assert NodeOk(m, t, g) && Holding(f) && forall x :: !InHand(f, x) && !Carrying(f, x);
    Holds(m, t, f);
    hide MemOk, NodeOk, EnqOk, SignalOk, Holding, InHand, Carrying, Sound;
    LockStep(m, t, f, 0, g);
  }

  lemma AcquireStep(m: Mem, t: Tid, f: Frame)
    requires Fine(m, t, f) && t != 0 && f.pc == Acquire && m.holder == 0
    ensures Sound(m, m.(holder := t), t, f.(pc := Clean))
  {
    var g := f.(pc := Clean);
    AsideFrame(m, t, f);
    PlainFrame(m, t, g);
    assert NodeOk(m, t, g);
    hide MemOk, NodeOk, EnqOk, SignalOk, Holding, InHand, Carrying, Sound;
    LockStep(m, t, f, t, g);
  }

  lemma AwaitSound(m: Mem, t: Tid, f: Frame, c: Choice)
    requires Fine(m, t, f) && t != 0 && (f.pc == Park || f.pc == CancelCas || f.pc == Acquire || f.pc == Clean)
    ensures var (w, g) := ActAwait(m, t, f, c); Sound(m, w, t, g)
  {
    hide MemOk, OwnOk, Local, Holding, InHand, Sound;
    match f.pc
    case Park => ParkStep(m, t, f, c);
    case CancelCas => if Waiting(m, f.n) { CancelStep(m, t, f); } else { LoseStep(m, t, f); }
    case Acquire => if m.holder == 0 { AcquireStep(m, t, f); } else { Stutter(m, t, f); }
    case Clean => PlainStill(m, t, f, ActAwait(m, t, f, c).1);
  }

  lemma Stutter(m: Mem, t: Tid, f: Frame)
    requires Fine(m, t, f)
    ensures Sound(m, m, t, f)
  {
    hide MemOk, OwnOk, Holding, InHand, Carrying;
    Still(m, t, f, f);
  }

  lemma OutsideSound(m: Mem, t: Tid, f: Frame, c: Choice)
    requires Fine(m, t, f) && t != 0 && (f.pc == Idle || f.pc == Held)
    ensures var (w, g) := ActOutside(m, t, f, c); Sound(m, w, t, g)
  {
    var (w, g) := ActOutside(m, t, f, c);
    assert OwnOk(m, t, g) && (forall x :: !InHand(f, x) && !Carrying(f, x));
    assert Holding(f) <==> m.holder == t;
    assert Holding(g) <==> w.holder == t;
    hide MemOk, OwnOk, Local, Holding, InHand, Carrying, Sound;
    if g == f { Stutter(m, t, f); }
    else if w == m { Still(m, t, f, g); }
    else { LockStep(m, t, f, w.holder, g); }
  }

  lemma ActSound(m: Mem, t: Tid, f: Frame, c: Choice)
    requires Fine(m, t, f) && t != 0
    ensures var (w, g) := Act(m, t, f, c); Sound(m, w, t, g)
  {
    hide Fine, Sound, ActEnq, ActSignal, ActAdd, ActAwait, ActOutside;
    match f.pc
    case Idle => OutsideSound(m, t, f, c);
    case Held => OutsideSound(m, t, f, c);
    case AddStatus => AddSound(m, t, f);
    case AddLink => AddSound(m, t, f);
    case Release => AddSound(m, t, f);
    case Unlink(_) => AddSound(m, t, f);
    case Enq(pc) => EnqSound(m, t, f);
    case On(pc) => OnStep(m, t, f);
    case Park => AwaitSound(m, t, f, c);
    case CancelCas => AwaitSound(m, t, f, c);
    case Acquire => AwaitSound(m, t, f, c);
    case Clean => AwaitSound(m, t, f, c);
    case _ => SignalSound(m, t, f);
  }

  lemma EnvLinks(m: Mem, w: Mem)
    requires MemOk(m) && w == m.(tail := w.tail, prev := w.prev, next := w.next)
    requires w.tail != NULL ==> w.tail in m.log
    requires forall x :: x in m.log && PrevOf(w, x) != NULL ==> PrevOf(w, x) in m.log
    requires forall x :: x !in m.log && PrevOf(w, x) != PrevOf(m, x) ==> x !in m.own
    requires forall x :: NextOf(w, x) != NULL ==> x in m.log
    ensures MemOk(w) && Writes(m, w, 0)
  {
    QueueMem(m, w);
    assert forall x :: Won(m, x) ==> x in m.own;
    hide MemOk;
  }

  lemma EnvNextMem(m: Mem, r: Ref, v: Ref)
    requires MemOk(m)
    ensures var w := ActEnv(m, EnvNext(r, v)); MemOk(w) && Writes(m, w, 0)
  {
    hide ActEnv;
    var w := ActEnv(m, EnvNext(r, v));
    EnvNextFields(m, r, v);
    EnvLinks(m, w);
  }

  lemma EnvNextFields(m: Mem, r: Ref, v: Ref)
    ensures var w := ActEnv(m, EnvNext(r, v));
      && w == m.(next := w.next)
      && (forall x :: PrevOf(w, x) == PrevOf(m, x))
      && (forall x :: NextOf(w, x) == NextOf(m, x) || (x == r && (r in m.log || v == NULL) && NextOf(w, x) == v))
  {
  }

  lemma EnvPrevMem(m: Mem, i: nat, j: int)
    requires MemOk(m)
    ensures var w := ActEnv(m, EnvPrev(i, j)); MemOk(w) && Writes(m, w, 0)
  {
    var w := ActEnv(m, EnvPrev(i, j));
    if i < |m.log| && j < i {
      var r, v := m.log[i], if j < 0 then NULL else m.log[j];
      assert forall x :: PrevOf(w, x) == (if x == r then v else PrevOf(m, x));
    }
    assert forall x :: NextOf(w, x) == NextOf(m, x);
    EnvLinks(m, w);
  }

  lemma EnvFreshPrevMem(m: Mem, r: Ref, v: Ref)
    requires MemOk(m)
    ensures var w := ActEnv(m, EnvFreshPrev(r, v)); MemOk(w) && Writes(m, w, 0)
  {
    var w := ActEnv(m, EnvFreshPrev(r, v));
    assert forall x :: x != r || !Fresh(m, r) ==> PrevOf(w, x) == PrevOf(m, x);
    assert forall x :: NextOf(w, x) == NextOf(m, x);
    EnvLinks(m, w);
  }

  lemma EnvTailMem(m: Mem, i: nat)
    requires MemOk(m)
    ensures var w := ActEnv(m, EnvTail(i)); MemOk(w) && Writes(m, w, 0)
  {
    var w := ActEnv(m, EnvTail(i));
    assert forall x :: PrevOf(w, x) == PrevOf(m, x) && NextOf(w, x) == NextOf(m, x);
    EnvLinks(m, w);
  }

  lemma EnvAppendMem(m: Mem, r: Ref)
    requires MemOk(m)
    ensures var w := ActEnv(m, EnvAppend(r)); MemOk(w) && Writes(m, w, 0)
  {
    var w := ActEnv(m, EnvAppend(r));
    assert forall x :: PrevOf(w, x) == PrevOf(m, x);
    if w != m {
      AppendMem(m, w, r);
      assert forall x :: Won(m, x) ==> x in m.own;
    }
    hide MemOk;
  }

  lemma EnvInitHeadMem(m: Mem)
    requires MemOk(m)
    ensures var w := ActEnv(m, EnvInitHead); MemOk(w) && Writes(m, w, 0)
  {
    var w := ActEnv(m, EnvInitHead);
    assert forall x :: PrevOf(w, x) == (if w != m && x == m.nextRef then NULL else PrevOf(m, x));
    if w != m {
      AppendMem(m, w, m.nextRef);
      assert forall x :: Won(m, x) ==> x in m.own;
    }
    hide MemOk;
  }

  /** Only the ends of the queue or the number of nodes change. */
  lemma EnvEndsMem(m: Mem, w: Mem)
    requires MemOk(m) && w == m.(nextRef := w.nextRef, head := w.head, tail := w.tail, envInit := w.envInit)
    requires w.nextRef >= m.nextRef
    requires w.head == m.head || w.head in m.log
    requires w.tail == m.tail || w.tail in m.log
    requires w.envInit ==> w.head != NULL
    ensures MemOk(w) && Writes(m, w, 0)
  {
    assert forall x :: PrevOf(w, x) == PrevOf(m, x) && NextOf(w, x) == NextOf(m, x);
    assert forall x :: Waiting(w, x) == Waiting(m, x) && Won(w, x) == Won(m, x) && Carrier(w, x) == Carrier(m, x);
    assert NULL !in m.log;
    hide Waiting, Won, PrevOf, NextOf, Carrier;
  }

  lemma EnvAllocMem(m: Mem)
    requires MemOk(m)
    ensures var w := ActEnv(m, EnvAlloc); MemOk(w) && Writes(m, w, 0)
  {
    hide Writes;
    EnvEndsMem(m, ActEnv(m, EnvAlloc));
  }

  lemma EnvInitTailMem(m: Mem)
    requires MemOk(m)
    ensures var w := ActEnv(m, EnvInitTail); MemOk(w) && Writes(m, w, 0)
  {
    hide Writes;
    assert m.envInit ==> m.head in m.log;
    EnvEndsMem(m, ActEnv(m, EnvInitTail));
  }

  lemma EnvHeadMem(m: Mem, i: nat)
    requires MemOk(m)
    ensures var w := ActEnv(m, EnvHead(i)); MemOk(w) && Writes(m, w, 0)
  {
    hide Writes;
    assert i < |m.log| ==> m.log[i] in m.log && 0 < m.log[i];
    hide MemOk;
    EnvEndsMem(m, ActEnv(m, EnvHead(i)));
  }

  /** Whatever the rest of the synchronizer does to its queue. */
  lemma EnvMem(m: Mem, c: Choice)
    requires MemOk(m)
    ensures MemOk(ActEnv(m, c)) && Writes(m, ActEnv(m, c), 0)
  {
    hide MemOk, Writes;
    match c
    case EnvAlloc => EnvAllocMem(m);
    case EnvInitHead => EnvInitHeadMem(m);
    case EnvInitTail => EnvInitTailMem(m);
    case EnvHead(i) => EnvHeadMem(m, i);
    case EnvStatus(r, v) => EnvStatusMem(m, r, v);
    case EnvNext(r, v) => EnvNextMem(m, r, v);
    case EnvPrev(i, j) => EnvPrevMem(m, i, j);
    case EnvFreshPrev(r, v) => EnvFreshPrevMem(m, r, v);
    case EnvTail(i) => EnvTailMem(m, i);
    case EnvAppend(r) => EnvAppendMem(m, r);
    case _ => EnvTailMem(m, |m.log|);
  }

  lemma EnvStatusMem(m: Mem, r: Ref, v: int)
    requires MemOk(m)
    ensures var w := ActEnv(m, EnvStatus(r, v)); MemOk(w) && Writes(m, w, 0)
  {
    if r in m.log && v != CONDITION { StatusMem(m, ActEnv(m, EnvStatus(r, v)), r, v); }
    hide MemOk;
  }

  lemma EnvStep(s: State, c: Choice)
    requires Inv(s)
    ensures Inv(Step(s, 0, c))
  {
    if !KeepsWaiters(s, ActEnv(s.m, c)) { return; }
    var m, w, u := s.m, ActEnv(s.m, c), Step(s, 0, c);
    hide KeepsWaiters;
    EnvMem(m, c);
    assert forall v :: Th(u, v) == Th(s, v);
    assert forall x :: Won(w, x) == Won(m, x) && Carrier(w, x) == Carrier(m, x);
    assert Kept(m, w, 0);
    forall v
      ensures FrameOk(u, v)
    {
      assert FrameOk(s, v);
      if v == 0 { ZeroFrame(w); } else { FrameKept(m, w, 0, v, Th(s, v)); }
    }
    EnvShared(s, u);
  }

  lemma EnvShared(s: State, u: State)
    requires Shared(s) && MemOk(u.m) && Writes(s.m, u.m, 0) && forall v :: Th(u, v) == Th(s, v)
    ensures Shared(u)
  {
    assert forall x :: Won(u.m, x) == Won(s.m, x) && Carrier(u.m, x) == Carrier(s.m, x);
    hide Holding, InHand, Carrying, Waiting, Won;
  }

  lemma InvStep(s: State, t: Tid, c: Choice)
    requires Inv(s)
    ensures Inv(Step(s, t, c))
  {
    if t == 0 {
      EnvStep(s, c);
    } else {
      hide Inv, Fine, Sound, Act;
      FineFrom(s, t);
      ActSound(s.m, t, Th(s, t), c);
      Assemble(s, t, Act(s.m, t, Th(s, t), c).0, Act(s.m, t, Th(s, t), c).1);
    }
  }

  lemma {:induction false} InvRun(s: State, sched: Schedule)
    requires Inv(s)
    ensures Inv(Run(s, sched))
    decreases |sched|
  {
    hide Inv, Step;
    if sched != [] {
      InvStep(s, sched[0].0, sched[0].1);
      InvRun(Step(s, sched[0].0, sched[0].1), sched[1..]);
    }
  }

  lemma InvInit()
    ensures Inv(INIT)
  {
  }
}
