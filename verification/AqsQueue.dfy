/** Integrity of the wait queue under enqueuing, dequeuing and cancellation: what every
    step of every thread keeps. */
module AqsQueue {
  import opened AqsModel

  /** What the thread's own node is to the queue. */
  datatype Stage = Outside | Enqueuing | Awaiting | Waiting | Leading | Cancelled

  function StageOf(f: Frame): Stage {
    match f.pc
    case Enq(_) => if Signalling(f) then Outside else Enqueuing
    case Cond(_) => Awaiting
    case Rel(pc) => if f.caller == ByAwait && pc != ReleaseShared then Awaiting else Outside
    case Wait(_) | Quit(_) => Waiting
    case Lead(_) => Leading
    case Gone(_) => Cancelled
    case Dr(_) => if f.acquiring then Leading else Outside
    case Us(_) =>
      (match f.caller
       case ByRelease => Outside
       case ByAwait => Awaiting
       case ByCancel => Cancelled
       case ByShared => if f.acquiring then Leading else Outside)
    case _ => Outside
  }

  predicate Initialising(pc: Pc) { pc == Enq(EnqInitRead) || pc == Enq(EnqInitTail) }

  /** The thread has seen its predecessor be head and has not changed head yet. */
  predicate AboutToLead(pc: Pc) { pc == Wait(AqTry) || pc == Wait(SetHeadOld) || pc == Wait(SetHead) }

  /** `n` is queued behind the current head. */
  predicate BehindHead(m: Mem, n: Ref) {
    m.head in m.ord && n in m.ord && m.ord[m.head] < m.ord[n]
  }

  /** A next link leads forward and skips only cancelled nodes, or is the self link of a
      cancelled node. */
  ghost predicate NextOk(m: Mem, n: Ref, x: Ref) {
    && n in m.ord && x in m.ord
    && ((x == n && Ws(m, n) == CANCELLED) || Behind(m, n, x))
  }

  ghost predicate Numbered(m: Mem) {
    && NULL !in m.ord
    && NULL < m.nextRef
    && (forall k :: k in m.ord ==> k < m.nextRef && m.ord[k] < |m.log| && m.log[m.ord[k]] == k)
    && (forall i :: 0 <= i < |m.log| ==> m.log[i] in m.ord && m.ord[m.log[i]] == i)
    && (forall k {:trigger Ws(m, k)} :: Ws(m, k) <= CANCELLED && (k !in m.ord ==> Ws(m, k) == 0))
    && (forall k {:trigger Next(m, k)} :: k !in m.ord ==> Next(m, k) == NULL)
    && (forall k {:trigger Thr(m, k)} :: k >= m.nextRef ==> Thr(m, k) == 0)
    && (forall k {:trigger Prev(m, k)} :: k >= m.nextRef ==> Prev(m, k) == NULL)
    && (forall k :: k in m.waiting ==> NULL < k < m.nextRef && k !in m.ord && k !in m.mover && Own(m, k) != 0)
    && (forall k {:trigger Own(m, k)} :: k >= m.nextRef ==> Own(m, k) == 0)
    && (forall k :: k in m.mover ==> NULL < k < m.nextRef && Ws(m, k) <= 0 && Own(m, k) != 0)
  }

  ghost predicate EndsOk(m: Mem) {
    && (m.head == NULL ==> m.tail == NULL && m.log == [] && forall k :: k !in m.ord)
    && (m.head != NULL ==> m.head in m.ord && Ws(m, m.head) <= 0)
    && (m.head != NULL && m.tail == NULL ==> forall k :: k in m.ord ==> k == m.head)
    && (m.tail != NULL ==>
          && m.head != NULL && m.tail in m.ord && m.ord[m.head] <= m.ord[m.tail]
          && Gap(m, m.ord[m.tail], |m.log|))
  }

  ghost predicate LinksOk(m: Mem) {
    && (forall k {:trigger BehindHead(m, k)} :: BehindHead(m, k) ==> Behind(m, Prev(m, k), k))
    && (forall k {:trigger Prev(m, k)} :: k in m.ord && Prev(m, k) != NULL ==> Prev(m, k) in m.ord)
    && (forall k {:trigger Next(m, k)} :: Next(m, k) != NULL ==> NextOk(m, k, Next(m, k)))
    && (forall k {:trigger Thr(m, k)} :: k in m.ord && Ws(m, k) == CANCELLED ==> Thr(m, k) == 0)
  }

  ghost predicate Shape(m: Mem) {
    Numbered(m) && EndsOk(m) && LinksOk(m)
  }

  /** What holds of a thread's own node, by stage. */
  ghost predicate OwnNodeOk(m: Mem, t: Tid, f: Frame) {
    match StageOf(f)
    case Outside => true
    case Enqueuing =>
      && NULL < f.n < m.nextRef && f.n !in m.ord && Own(m, f.n) == t && Thr(m, f.n) == t
      && (f.n in m.mover ==> f.caller == ByAwait)
    case Awaiting =>
      && NULL < f.n < m.nextRef && Own(m, f.n) == t && Thr(m, f.n) == t && f.caller == ByAwait
      && if f.n in m.ord then BehindHead(m, f.n) && Ws(m, f.n) <= 0 else f.n in m.waiting || Mover(m, f.n) != t
    case Waiting =>
      && BehindHead(m, f.n) && Ws(m, f.n) <= 0 && Own(m, f.n) == t && Thr(m, f.n) == (if f.pc.Quit? then 0 else t)
      && (f.n in m.mover ==> f.caller == ByAwait && !f.pc.Quit? && f.pc != Wait(CaThread))
    case Leading =>
      && f.n in m.ord && m.head in m.ord && m.ord[f.n] <= m.ord[m.head]
      && Ws(m, f.n) <= 0 && Own(m, f.n) == t && Thr(m, f.n) == (if f.pc == Lead(SetHeadThread) then t else 0)
      && f.p in m.ord && m.ord[f.p] < m.ord[f.n] && Ws(m, f.p) <= 0
    case Cancelled => f.n in m.ord && Ws(m, f.n) == CANCELLED && Own(m, f.n) == t
  }

  /** What holds of a thread's other locals, by program point. */
  ghost predicate EnqOk(m: Mem, t: Tid, f: Frame, pc: EnqPc) {
    && NULL < f.e < m.nextRef && f.e !in m.ord && f.e !in m.waiting && Mover(m, f.e) == t
    && (if Signalling(f) then Own(m, f.e) != t else f.e == f.n)
    && match pc
       case EnqSetPrev => f.p in m.ord
       case EnqCasTail => f.p in m.ord && Prev(m, f.e) == f.p
       case EnqInitRead => m.head != NULL && m.tail == NULL
       case EnqInitTail => m.head != NULL && m.tail == NULL && f.x == m.head
       case _ => true
  }

  ghost predicate SigOk(m: Mem, f: Frame, pc: SigPc) {
    match pc
    case SigSetNext | SigStatus => Behind(m, f.p, f.e) && f.e in m.mover
    case SigCas => Behind(m, f.p, f.e) && f.ws <= 0
    case SigThread => f.e in m.ord
    case SigUnpark => true
  }

  ghost predicate WaitOk(m: Mem, f: Frame, pc: WaitPc) {
    match pc
    case AqReadPrev | CaThread => true
    case SpCas => Prev(m, f.n) == f.p && f.ws <= 0
    case AqTry | SetHeadOld | SetHead => Prev(m, f.n) == f.p == m.head
    case SpReadPrev => Prev(m, f.n) == f.p && Ws(m, f.p) == CANCELLED
    case SpWritePrev => Prev(m, f.n) == f.p && Ws(m, f.p) == CANCELLED && Prev(m, f.p) == f.x
    case _ => Prev(m, f.n) == f.p
  }

  ghost predicate QuitOk(m: Mem, f: Frame, pc: QuitPc) {
    match pc
    case CaReadPrev => true
    case CaMark => Prev(m, f.n) == f.p && SavedOk(m, f.n, f.q)
    case CaSkipRead => Prev(m, f.n) == f.p && Ws(m, f.p) == CANCELLED
    case CaSkipWrite => Prev(m, f.n) == f.p && Ws(m, f.p) == CANCELLED && Prev(m, f.p) == f.x
    case _ => Prev(m, f.n) == f.p
  }

  /** The saved next of the predecessor is not behind the cancelled node. */
  ghost predicate SavedOk(m: Mem, n: Ref, q: Ref) {
    q != NULL ==> q in m.ord && n in m.ord && m.ord[q] <= m.ord[n]
  }

  ghost predicate GoneOk(m: Mem, f: Frame, pc: GonePc) {
    (pc != CaSelf ==> SavedOk(m, f.n, f.q)) &&
    match pc
    case CaSelf => true
    case CaNullNext => Behind(m, f.p, f.n)
    case CaCas => Prev(m, f.n) == f.p && Behind(m, f.p, f.n) && f.ws <= 0
    case CaNextStatus => Prev(m, f.n) == f.p && Behind(m, f.p, f.n) && NextOk(m, f.n, f.x)
    case CaSplice => Behind(m, f.p, f.n) && NextOk(m, f.n, f.x) && f.x != f.n
    case _ => Prev(m, f.n) == f.p && Behind(m, f.p, f.n)
  }

  ghost predicate DrOk(m: Mem, f: Frame, pc: DrPc) {
    match pc
    case DrHead | DrCheck => true
    case _ => f.y in m.ord
  }

  ghost predicate UsOk(m: Mem, f: Frame, pc: UsPc) {
    match pc
    case UsCas => f.y in m.ord && f.ws < 0
    case UsNextStatus => f.y in m.ord && f.s in m.ord
    case UsScanStatus | UsScanPrev => f.y in m.ord && f.c in m.ord && f.c != f.y && (f.s == NULL || f.s in m.ord)
    case UsThread => f.s in m.ord
    case UsUnpark => true
    case _ => f.y in m.ord
  }

  ghost predicate LocalsOk(m: Mem, t: Tid, f: Frame) {
    match f.pc
    case Enq(pc) => EnqOk(m, t, f, pc)
    case Sig(pc) => SigOk(m, f, pc)
    case Wait(pc) => WaitOk(m, f, pc)
    case Quit(pc) => QuitOk(m, f, pc)
    case Lead(pc) => pc == PropStatus ==> f.y in m.ord
    case Gone(pc) => GoneOk(m, f, pc)
    case Rel(pc) => pc == ReStatus ==> f.y in m.ord
    case Dr(pc) => DrOk(m, f, pc)
    case Us(pc) => UsOk(m, f, pc)
    case _ => true
  }

  ghost predicate ThreadOk(m: Mem, t: Tid, f: Frame) {
    && (t == 0 ==> f.pc == Idle)
    && OwnNodeOk(m, t, f)
    && LocalsOk(m, t, f)
  }

  /** The thread waits, in the lock queue or for a signal. */
  predicate Waits(f: Frame) { StageOf(f) == Waiting || StageOf(f) == Awaiting }

  /** The node of a waiter that is not queued and that its thread does not queue itself. */
  ghost predicate Unqueued(m: Mem, k: Ref) {
    k !in m.ord && (k in m.waiting || (k in m.mover && Mover(m, k) != Own(m, k)))
  }

  /** Every live node behind head belongs to a thread that still waits with it, and so does every
      node of a condition until it is queued; the thread field of a past head is set only while its
      owner is inside setHead. */
  ghost predicate Owned(s: State) {
    && (forall k :: BehindHead(s.m, k) && Ws(s.m, k) <= 0 ==>
          Th(s, Own(s.m, k)).n == k && Waits(Th(s, Own(s.m, k))))
    && (forall k :: Unqueued(s.m, k) ==>
          Th(s, Own(s.m, k)).n == k && StageOf(Th(s, Own(s.m, k))) == Awaiting)
    && (forall k :: k in s.m.ord && !BehindHead(s.m, k) && Thr(s.m, k) != 0 ==>
          Th(s, Own(s.m, k)).n == k && Th(s, Own(s.m, k)).pc == Lead(SetHeadThread))
  }

  ghost predicate OneInitialiser(s: State) {
    forall t, u :: Initialising(Th(s, t).pc) && Initialising(Th(s, u).pc) ==> t == u
  }

  ghost predicate Inv(s: State) {
    && Shape(s.m)
    && (forall t :: ThreadOk(s.m, t, Th(s, t)))
    && Owned(s)
    && OneInitialiser(s)
  }

  // ---------------------------------------------------------------- small facts

  lemma Positions(m: Mem, a: Ref, b: Ref)
    requires Numbered(m) && a in m.ord && b in m.ord && m.ord[a] == m.ord[b]
    ensures a == b
  {
    assert m.log[m.ord[a]] == a && m.log[m.ord[b]] == b;
  }

  /** A live node is never skipped: behind y means at or before the next live node. */
  lemma LiveNotSkipped(m: Mem, y: Ref, n: Ref, k: Ref)
    requires Numbered(m) && Behind(m, y, n) && k in m.ord && Ws(m, k) <= 0
    ensures m.ord[k] <= m.ord[y] || m.ord[n] <= m.ord[k]
    ensures k != y && k != n ==> m.ord[k] < m.ord[y] || m.ord[n] < m.ord[k]
  {
    if m.ord[k] == m.ord[y] { Positions(m, k, y); }
    if m.ord[k] == m.ord[n] { Positions(m, k, n); }
  }

  lemma BehindTrans(m: Mem, y: Ref, k: Ref, n: Ref)
    requires Numbered(m) && Behind(m, y, k) && Behind(m, k, n) && Ws(m, k) == CANCELLED
    ensures Behind(m, y, n)
  {
    forall j | j in m.ord && m.ord[y] < m.ord[j] < m.ord[n]
      ensures Ws(m, j) == CANCELLED
    {
      if m.ord[j] == m.ord[k] { Positions(m, j, k); }
    }
  }

  /** A cancelled predecessor of a node behind head is itself behind head, so the loops that
      skip cancelled nodes never fall off the queue. */
  lemma SkipOk(m: Mem, n: Ref, p: Ref)
    requires Shape(m) && BehindHead(m, n) && Prev(m, n) == p && Ws(m, p) == CANCELLED
    ensures BehindHead(m, p) && Behind(m, Prev(m, p), n)
  {
    assert Behind(m, p, n);
    LiveNotSkipped(m, p, n, m.head);
    assert BehindHead(m, p);
    assert Behind(m, Prev(m, p), p);
    BehindTrans(m, Prev(m, p), p, n);
  }
}
