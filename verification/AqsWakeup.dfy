/** Who is responsible for waking a parked thread, and that someone always is. */
module AqsWakeup {
  import opened AqsModel
  import opened AqsQueue
  import opened AqsPreserve
  import opened AqsTheorems

  /** `n` is queued behind `y`, only cancelled nodes lie between, and following prev from `n`
      meets `y`: a backward scan that stops at `y` finds `n`. */
  ghost predicate Covers(m: Mem, y: Ref, n: Ref) {
    Behind(m, y, n) && Reaches(m.prev, m.ord, n, y)
  }

  /** `y` is cancelled, and its next link leads to `n` over nothing but cancelled nodes. */
  ghost predicate Named(m: Mem, y: Ref, n: Ref) {
    Behind(m, y, n) && Ws(m, y) == CANCELLED && Next(m, y) == n
  }

  /** The thread is in unparkSuccessor and will unpark the thread of `n`. */
  ghost predicate Unparks(m: Mem, f: Frame, n: Ref) {
    f.pc.Us? && n in m.ord &&
    match f.pc.u
    case UsThread => f.s == n
    case UsUnpark => f.x == Own(m, n)
    case UsNextStatus => f.s == n || (Covers(m, f.y, n) && Ws(m, f.s) == CANCELLED)
    case UsTail => Covers(m, f.y, n)
    case UsScanStatus => Covers(m, f.y, n) && ScanPending(m, f, n)
    case UsScanPrev => Covers(m, f.y, n) && ScanPending(m, f, n) && (f.c == n ==> f.s == n)
    case _ => Covers(m, f.y, n) || (f.caller == ByCancel && f.y == f.n && Named(m, f.n, n))
  }

  /** The scan has not passed `n` yet, or has taken it as its candidate. */
  ghost predicate ScanPending(m: Mem, f: Frame, n: Ref)
    requires n in m.ord
  {
    f.c in m.ord && f.c != f.y &&
    (m.ord[f.c] >= m.ord[n] || (f.s == n && Reaches(m.prev, m.ord, f.c, f.y)))
  }

  /** The thread has cancelled its node, on which `n` relied, and will pass the duty to
      signal `n` on to its predecessor or unpark `n` itself. */
  ghost predicate Hands(m: Mem, f: Frame, n: Ref) {
    f.pc.Gone? &&
    match f.pc.o
    case CaTail | CaTailCas | CaHead | CaStatus | CaCas => Covers(m, f.n, n)
    case CaPredThread => Covers(m, f.n, n) && Thr(m, f.p) == 0
    case _ => false
  }

  /** The same, when it is certain that it will unpark `n`. */
  ghost predicate WillUnpark(m: Mem, f: Frame, n: Ref) {
    f.pc.Gone? &&
    match f.pc.o
    case CaTail | CaTailCas | CaHead => Covers(m, f.n, n)
    case CaStatus | CaCas => Covers(m, f.n, n) && Thr(m, f.p) == 0
    case CaPredThread => (Covers(m, f.n, n) || Named(m, f.n, n)) && Thr(m, f.p) == 0
    case _ => false
  }

  /** The thread has queued the node of a waiter it signals and will set SIGNAL before it or unpark
      the waiter. */
  ghost predicate Delivers(m: Mem, f: Frame, n: Ref) {
    f.pc.Sig? && if f.pc.g == SigUnpark then f.x == Own(m, n) else f.e == n
  }

  /** The thread of `n` is parked in the lock queue, or still in await after its node was queued. */
  ghost predicate Parked(s: State, n: Ref) {
    var f := Th(s, Own(s.m, n));
    f.n == n && Own(s.m, n) !in s.m.permits && (f.pc == Wait(Park) || (f.pc == Cond(CoPark) && n in s.m.ord))
  }

  /** The thread of `n` is about to read SIGNAL from its predecessor and park. */
  ghost predicate AboutToPark(s: State, n: Ref) {
    var f := Th(s, Own(s.m, n));
    f.n == n && f.pc == Wait(SpStatus) && Ws(s.m, Prev(s.m, n)) == SIGNAL && Own(s.m, n) !in s.m.permits
  }

  ghost predicate Signalled(m: Mem, y: Ref, n: Ref) {
    Behind(m, y, n) && Ws(m, y) == SIGNAL
  }

  /** Every parked thread has a live predecessor that must signal it, or a thread that is
      about to. */
  ghost predicate Guarded(s: State, n: Ref) {
    || (exists y :: Signalled(s.m, y, n))
    || (exists a :: Unparks(s.m, Th(s, a), n))
    || (exists a :: Hands(s.m, Th(s, a), n))
    || (exists a :: Delivers(s.m, Th(s, a), n))
  }

  ghost predicate ParkedGuarded(s: State) {
    forall n :: Parked(s, n) ==> Guarded(s, n)
  }

  /** While the head still carries SIGNAL, the thread will get to unparking the first waiter. */
  ghost predicate Obliged(m: Mem, f: Frame, n: Ref) {
    match f.pc
    case Rel(pc) => pc == ReHead || (pc == ReStatus && f.y == m.head)
    case Dr(pc) => pc == DrHead || ((pc == DrTail || pc == DrStatus || pc == DrCasSignal) && f.y == m.head)
    case Lead(pc) => m.kind != Mutex && pc != ClearNext && (pc == PropStatus ==> f.y == m.head)
    case Us(_) => Unparks(m, f, n)
    case Gone(_) => WillUnpark(m, f, n)
    case _ => false
  }

  /** The first waiter waits, or is about to, although it could acquire. */
  ghost predicate Neglected(s: State, n: Ref) {
    && (Parked(s, n) || AboutToPark(s, n))
    && Behind(s.m, s.m.head, n)
    && Available(s.m)
    && Ws(s.m, s.m.head) == SIGNAL
  }

  ghost predicate FirstServed(s: State) {
    forall n :: Neglected(s, n) ==> exists a :: Obliged(s.m, Th(s, a), n)
  }

  /** All queued nodes but the dummy are in shared mode when the synchronizer is. */
  ghost predicate ModesOk(m: Mem) {
    && (forall k {:trigger Own(m, k)} :: m.kind != Mutex && Own(m, k) != 0 ==> k in m.shared)
    && (forall k :: k in m.ord && m.ord[k] > 0 ==> Own(m, k) != 0)
  }

  /** Program points only threads of the Mutex reach. */
  predicate MutexOnly(f: Frame) {
    f.pc == Held || f.pc.Sig? || Signalling(f) || StageOf(f) == Awaiting
  }

  /** A signalled node that is not queued yet is in the hands of the thread that won its status. */
  ghost predicate Carried(s: State) {
    forall k :: k in s.m.mover && k !in s.m.ord ==> Carries(Th(s, Mover(s.m, k)), k)
  }

  predicate Carries(f: Frame, k: Ref) { f.pc.Enq? && f.e == k }

  ghost predicate KindOk(s: State) {
    if s.m.kind == Mutex then MutexOk(s) else forall t :: !MutexOnly(Th(s, t))
  }

  ghost predicate WakeInv(s: State) {
    && Inv(s)
    && ModesOk(s.m)
    && KindOk(s)
    && Carried(s)
    && ParkedGuarded(s)
    && (!s.stale ==> FirstServed(s))
  }

  // ------------------------------------------------------------ frames

  lemma {:induction false} ReachesFrame(m: Mem, m': Mem, n: Ref, y: Ref)
    requires y in m.ord && n in m.ord && Reaches(m.prev, m.ord, n, y)
    requires forall k :: k in m.ord ==> k in m'.ord && m'.ord[k] == m.ord[k]
    requires forall k {:trigger Prev(m', k)} ::
               k in m.ord && m.ord[y] < m.ord[k] <= m.ord[n] ==> Prev(m', k) == Prev(m, k)
    requires NULL !in m.ord
    ensures Reaches(m'.prev, m'.ord, n, y)
    decreases m.ord[n]
  {
    if n != y {
      ReachesDown(m, m.prev[n], y);
      ReachesFrame(m, m', m.prev[n], y);
      assert Prev(m', n) == Prev(m, n);
    }
  }

  /** A step by a thread other than the owner of `n` leaves what covers `n` covering it. */
  lemma CoversKept(m: Mem, t: Tid, e: Effect, y: Ref, n: Ref)
    requires Shape(m) && Legit(m, t, e) && Covers(m, y, n) && Own(m, n) != t
    ensures Covers(Write(m, t, e), y, n)
  {
    var m' := Write(m, t, e);
    BehindKept(m, t, e, y, n);
    forall k | k in m.ord && m.ord[y] < m.ord[k] <= m.ord[n]
      ensures Prev(m', k) == Prev(m, k)
    {
      FieldsKept(m, t, e, k);
      if k != n && m.ord[k] == m.ord[n] { Positions(m, k, n); }
    }
    ReachesFrame(m, m', n, y);
  }

  lemma ReachKept(m: Mem, t: Tid, e: Effect, c: Ref, y: Ref, n: Ref)
    requires Shape(m) && Legit(m, t, e) && Covers(m, y, n)
    requires c in m.ord && m.ord[c] < m.ord[n] && Reaches(m.prev, m.ord, c, y)
    ensures Reaches(Write(m, t, e).prev, Write(m, t, e).ord, c, y)
  {
    var m' := Write(m, t, e);
    forall k | k in m.ord && m.ord[y] < m.ord[k] <= m.ord[c]
      ensures Prev(m', k) == Prev(m, k)
    {
      FieldsKept(m, t, e, k);
    }
    ReachesFrame(m, m', c, y);
  }

  lemma ScanKept(m: Mem, t: Tid, e: Effect, f: Frame, n: Ref)
    requires Shape(m) && Legit(m, t, e) && Covers(m, f.y, n) && ScanPending(m, f, n)
    requires n in m.ord && n in Write(m, t, e).ord && OrderSame(m, Write(m, t, e))
    ensures ScanPending(Write(m, t, e), f, n)
  {
    hide Shape, Legit, Covers, Reaches, Write;
    if m.ord[f.c] < m.ord[n] { ReachKept(m, t, e, f.c, f.y, n); }
  }

  ghost predicate OrderSame(m: Mem, w: Mem) {
    forall k :: k in m.ord ==> k in w.ord && w.ord[k] == m.ord[k]
  }

  lemma OrderIsKept(m: Mem, t: Tid, e: Effect)
    requires Shape(m) && Legit(m, t, e)
    ensures OrderSame(m, Write(m, t, e))
  {
  }

  /** The write leaves the next link from `y` to `n` alone. */
  predicate Spares(e: Effect, y: Ref, n: Ref) { e.WriteNext? && e.r == y ==> e.v == n }

  lemma NamedKept(m: Mem, t: Tid, e: Effect, y: Ref, n: Ref)
    requires Shape(m) && Legit(m, t, e) && Named(m, y, n) && Spares(e, y, n)
    ensures Named(Write(m, t, e), y, n)
  {
    hide Shape, Legit, Behind, Write;
    BehindStays(m, t, e, y, n);
    FieldsKept(m, t, e, y);
    CancelledKept(m, t, e, y);
  }

  lemma UnparksKept(m: Mem, t: Tid, e: Effect, f: Frame, n: Ref)
    requires Shape(m) && Legit(m, t, e) && Unparks(m, f, n) && Own(m, n) != t
    requires f.caller == ByCancel && Named(m, f.n, n) ==> Spares(e, f.n, n)
    ensures Unparks(Write(m, t, e), f, n)
  {
    FieldsKept(m, t, e, n);
    CancelledKept(m, t, e, f.s);
    OrderIsKept(m, t, e);
    OwnKept(m, t, e, n);
    hide Shape, Legit, Covers, ScanPending, Write, Ws, Own, Named;
    if Covers(m, f.y, n) {
      CoversKept(m, t, e, f.y, n);
      if ScanPending(m, f, n) { ScanKept(m, t, e, f, n); }
    }
    if f.caller == ByCancel && Named(m, f.n, n) { NamedKept(m, t, e, f.n, n); }
  }

  lemma CancelledKept(m: Mem, t: Tid, e: Effect, k: Ref)
    requires Legit(m, t, e)
    ensures Ws(m, k) == CANCELLED ==> Ws(Write(m, t, e), k) == CANCELLED
  {
    FieldsKept(m, t, e, k);
  }

  lemma OwnKept(m: Mem, t: Tid, e: Effect, k: Ref)
    requires Shape(m) && k in m.ord
    ensures Own(Write(m, t, e), k) == Own(m, k)
  {
    FieldsKept(m, t, e, k);
  }

  lemma HandsKept(m: Mem, t: Tid, e: Effect, u: Tid, f: Frame, n: Ref)
    requires Shape(m) && Legit(m, t, e) && ThreadOk(m, u, f) && Own(m, n) != t
    requires Named(m, f.n, n) ==> Spares(e, f.n, n)
    ensures Hands(m, f, n) ==> Hands(Write(m, t, e), f, n)
    ensures WillUnpark(m, f, n) ==> WillUnpark(Write(m, t, e), f, n)
  {
    hide Shape, Legit, Covers, Named, Write;
    if Covers(m, f.n, n) { CoversKept(m, t, e, f.n, n); }
    if Named(m, f.n, n) { NamedKept(m, t, e, f.n, n); }
    ThrCleared(m, t, e, u, f);
  }

  /** The thread field of a queued node is never set again. */
  lemma ThrCleared(m: Mem, t: Tid, e: Effect, u: Tid, f: Frame)
    requires Shape(m) && ThreadOk(m, u, f)
    ensures f.pc.Gone? && f.pc.o in {CaStatus, CaCas, CaPredThread} && Thr(m, f.p) == 0 ==>
              Thr(Write(m, t, e), f.p) == 0
  {
    FieldsKept(m, t, e, f.p);
  }

  /** A thread writes the next of another thread's cancelled node only to the first live node behind
      it, which is its own. */
  lemma SparesNamed(m: Mem, t: Tid, f: Frame, c: Choice, y: Ref, n: Ref)
    requires Shape(m) && ThreadOk(m, t, f) && t != 0 && Named(m, y, n) && Waiter(m, t, n) && Own(m, y) != t
    ensures Spares(Act(m, t, f, c).1, y, n)
  {
    hide Shape, OwnNodeOk, LocalsOk, Act, Waiter;
    var e := Act(m, t, f, c).1;
    if e.WriteNext? && e.r == y {
      NextWriters(m, t, f, c);
      NotThis(m, t, f, y, n);
    }
  }

  /** Where and how next is written. */
  lemma NextWriters(m: Mem, t: Tid, f: Frame, c: Choice)
    ensures var e := Act(m, t, f, c).1;
      e.WriteNext? ==>
        || (e.r == f.p && e.v == f.n && (f.pc == Wait(EnqSetNext) || f.pc == Wait(SpSetNext)))
        || (e.r == f.p && f.pc == Lead(ClearNext))
        || (e.r == f.p && Next(m, f.p) == f.q && (f.pc == Gone(CaNullNext) || f.pc == Gone(CaSplice)))
        || (e.r == f.n && f.pc == Gone(CaSelf))
        || (e.r == f.p && e.v == f.e && f.pc == Sig(SigSetNext))
  {
  }

  lemma NotThis(m: Mem, t: Tid, f: Frame, y: Ref, n: Ref)
    requires Shape(m) && ThreadOk(m, t, f) && Named(m, y, n) && Waiter(m, t, n) && Own(m, y) != t
    ensures f.pc == Wait(EnqSetNext) || f.pc == Wait(SpSetNext) ==> f.p != y
    ensures f.pc == Lead(ClearNext) ==> f.p != y
    ensures f.pc == Gone(CaNullNext) || f.pc == Gone(CaSplice) ==> f.p != y || Next(m, f.p) != f.q
    ensures f.pc == Gone(CaSelf) ==> f.n != y
    ensures f.pc == Sig(SigSetNext) && f.p == y ==> f.e == n
  {
    hide LinksOk, EndsOk;
    if (f.pc == Wait(EnqSetNext) || f.pc == Wait(SpSetNext)) && f.p == y {
      SeesPrev(m, t, f);
      LiveNotSkipped(m, y, n, f.n);
      LiveNotSkipped(m, y, f.n, n);
      Positions(m, f.n, n);
      assert false;
    }
    if (f.pc == Gone(CaNullNext) || f.pc == Gone(CaSplice)) && f.p == y && Next(m, f.p) == f.q {
      LiveNotSkipped(m, y, f.n, n);
      assert false;
    }
    if f.pc == Sig(SigSetNext) && f.p == y {
      SignalledFirst(m, y, f.e, n);
    }
  }

  /** The node of a signalled waiter is never cancelled, so it is the first live one if only cancelled
      nodes lie in front. */
  lemma SignalledFirst(m: Mem, y: Ref, k: Ref, n: Ref)
    requires Numbered(m) && Behind(m, y, k) && k in m.mover && Behind(m, y, n) && Ws(m, n) <= 0
    ensures k == n
  {
    assert Ws(m, k) <= 0;
    LiveNotSkipped(m, y, k, n);
    LiveNotSkipped(m, y, n, k);
    if m.ord[k] == m.ord[n] { Positions(m, k, n); }
  }

  // -------------------------------------- the responsible thread's own steps

  /** `n` is a live waiting node whose thread, not `t`, has not begun to cancel. */
  ghost predicate Waiter(m: Mem, t: Tid, n: Ref) {
    BehindHead(m, n) && Ws(m, n) <= 0 && Own(m, n) != t && Thr(m, n) == Own(m, n) != 0
  }

  lemma UnparksEnter(m: Mem, t: Tid, f: Frame, pc: UsPc, n: Ref)
    requires Shape(m) && ThreadOk(m, t, f) && f.pc == Us(pc) && Unparks(m, f, n) && Waiter(m, t, n)
    requires pc == UsStatus || pc == UsCas || pc == UsThread
    ensures var (g, e) := ActUs(m, f, pc); Unparks(Write(m, t, e), g, n)
  {
    hide LinksOk, EndsOk, Numbered;
    var (g, e) := ActUs(m, f, pc);
    UsLegit(m, t, f, pc);
    if Covers(m, f.y, n) { CoversKept(m, t, e, f.y, n); }
    if f.caller == ByCancel && Named(m, f.n, n) { NamedKept(m, t, e, f.n, n); }
  }

  lemma NextIsFirst(m: Mem, y: Ref, n: Ref)
    requires Shape(m) && Behind(m, y, n) && Ws(m, n) <= 0 && Next(m, y) != NULL
    ensures Next(m, y) == n || Ws(m, Next(m, y)) == CANCELLED
  {
    var s := Next(m, y);
    assert NextOk(m, y, s);
    if Behind(m, y, s) && Ws(m, s) <= 0 {
      LiveNotSkipped(m, y, s, n);
      LiveNotSkipped(m, y, n, s);
    }
  }

  lemma UnparksNext(m: Mem, t: Tid, f: Frame, pc: UsPc, n: Ref)
    requires Shape(m) && ThreadOk(m, t, f) && f.pc == Us(pc) && Unparks(m, f, n) && Waiter(m, t, n)
    requires pc == UsNext || pc == UsNextStatus
    ensures var (g, e) := ActUs(m, f, pc); Unparks(m, g, n)
  {
    hide LinksOk, EndsOk;
    if pc == UsNext && Next(m, f.y) != NULL { NextIsFirst(m, f.y, n); }
  }

  lemma UnparksTail(m: Mem, t: Tid, f: Frame, n: Ref)
    requires Shape(m) && ThreadOk(m, t, f) && f.pc == Us(UsTail) && Unparks(m, f, n) && Waiter(m, t, n)
    ensures var (g, e) := ActUs(m, f, UsTail); Unparks(m, g, n)
  {
    assert m.tail != NULL && m.ord[n] <= m.ord[m.tail];
  }

  lemma UnparksScanStatus(m: Mem, t: Tid, f: Frame, n: Ref)
    requires Shape(m) && ThreadOk(m, t, f) && f.pc == Us(UsScanStatus) && Unparks(m, f, n) && Waiter(m, t, n)
    ensures var (g, e) := ActUs(m, f, UsScanStatus); Unparks(m, g, n)
  {
    if m.ord[f.c] < m.ord[n] {
      ReachesDown(m, f.c, f.y);
      if m.ord[f.c] == m.ord[f.y] { Positions(m, f.c, f.y); }
      assert Ws(m, f.c) == CANCELLED;
    }
  }

  /** One move of the cursor. */
  lemma ScanMoves(m: Mem, f: Frame, n: Ref)
    requires Shape(m) && BehindHead(m, n) && Ws(m, n) <= 0 && Covers(m, f.y, n) && ScanPending(m, f, n)
    requires f.c == n ==> f.s == n
    ensures var c := Prev(m, f.c);
      c in m.ord &&
      (if c == f.y then f.s == n else m.ord[c] >= m.ord[n] || (f.s == n && Reaches(m.prev, m.ord, c, f.y)))
  {
    if m.ord[f.c] > m.ord[n] {
      assert BehindHead(m, f.c) && Behind(m, Prev(m, f.c), f.c);
      LiveNotSkipped(m, Prev(m, f.c), f.c, n);
    } else {
      if m.ord[f.c] == m.ord[n] { Positions(m, f.c, n); }
      assert Reaches(m.prev, m.ord, f.c, f.y);
      assert Prev(m, f.c) == m.prev[f.c];
    }
  }

  lemma UnparksScanPrev(m: Mem, t: Tid, f: Frame, n: Ref)
    requires Shape(m) && ThreadOk(m, t, f) && f.pc == Us(UsScanPrev) && Unparks(m, f, n) && Waiter(m, t, n)
    ensures var (g, e) := ActUs(m, f, UsScanPrev); Unparks(m, g, n)
  {
    hide LinksOk, EndsOk, OwnNodeOk;
    ScanMoves(m, f, n);
  }

  /** A thread that is to unpark the thread of `n` goes on to do so. */
  lemma UnparksStep(m: Mem, t: Tid, f: Frame, c: Choice, n: Ref)
    requires Shape(m) && ThreadOk(m, t, f) && Unparks(m, f, n) && Waiter(m, t, n)
    ensures var (g, e) := Act(m, t, f, c); Unparks(Write(m, t, e), g, n) || e == Unpark(Own(m, n))
  {
    hide Shape, ThreadOk;
    var pc := f.pc.u;
    match pc
    case UsStatus | UsCas | UsThread => UnparksEnter(m, t, f, pc, n);
    case UsNext | UsNextStatus => UnparksNext(m, t, f, pc, n);
    case UsTail => UnparksTail(m, t, f, n);
    case UsScanStatus => UnparksScanStatus(m, t, f, n);
    case UsScanPrev => UnparksScanPrev(m, t, f, n);
    case UsUnpark =>
  }

  /** A thread that cancelled the node `n` relied on passes the duty on. */
  lemma HandsStep(m: Mem, t: Tid, f: Frame, c: Choice, n: Ref)
    requires Shape(m) && ThreadOk(m, t, f) && Hands(m, f, n) && Waiter(m, t, n)
    ensures var (g, e) := Act(m, t, f, c);
      var m' := Write(m, t, e);
      Hands(m', g, n) || Unparks(m', g, n) || Signalled(m', f.p, n)
  {
    hide LinksOk, EndsOk, Write, Gap;
    var pc := f.pc.o;
    var (g, e) := ActGone(m, f, pc);
    GoneLegit(m, t, f, pc);
    CoversKept(m, t, e, f.n, n);
    NotLast(m, f.n, n);
    BehindTrans(m, f.p, f.n, n);
    BehindStays(m, t, e, f.p, n);
    FieldsKept(m, t, e, f.p);
  }

  /** The predecessor of a cancelled node before the first waiter is head or cancelled. */
  lemma PredIsHead(m: Mem, c: Ref, p: Ref, n: Ref)
    requires Shape(m) && Behind(m, p, c) && Behind(m, c, n) && Ws(m, c) == CANCELLED && Behind(m, m.head, n)
    ensures p == m.head || Thr(m, p) == 0
  {
    LiveNotSkipped(m, c, n, m.head);
    LiveNotSkipped(m, p, c, m.head);
    if p != m.head {
      assert Ws(m, p) == CANCELLED;
    }
  }

  lemma WillUnparkStep(m: Mem, t: Tid, f: Frame, c: Choice, n: Ref)
    requires Shape(m) && ThreadOk(m, t, f) && WillUnpark(m, f, n) && Waiter(m, t, n) && Behind(m, m.head, n)
    ensures var (g, e) := Act(m, t, f, c);
      var m' := Write(m, t, e);
      WillUnpark(m', g, n) || Unparks(m', g, n)
  {
    hide Shape, Covers, Named, Write, OwnNodeOk, LocalsOk;
    var pc := f.pc.o;
    var (g, e) := ActGone(m, f, pc);
    GoneLegit(m, t, f, pc);
    HandsPred(m, t, f, n);
    OrderIsKept(m, t, e);
    if Covers(m, f.n, n) { CoversKept(m, t, e, f.n, n); }
    if Named(m, f.n, n) && pc == CaPredThread { NamedKept(m, t, e, f.n, n); }
    FieldsKept(m, t, e, f.p);
  }

  /** What a cancelling thread that answers for the first waiter knows. */
  lemma HandsPred(m: Mem, t: Tid, f: Frame, n: Ref)
    requires Shape(m) && ThreadOk(m, t, f) && f.pc.Gone? && Behind(m, m.head, n) && Ws(m, n) <= 0
    requires Covers(m, f.n, n) || Named(m, f.n, n)
    ensures m.tail != f.n
    ensures f.pc.o in {CaTail, CaTailCas, CaHead, CaStatus, CaCas, CaPredThread} ==> f.p == m.head || Thr(m, f.p) == 0
  {
    hide LinksOk, Gap, EndsOk;
    assert Behind(m, f.n, n);
    NotLast(m, f.n, n);
    if f.pc.o in {CaTail, CaTailCas, CaHead, CaStatus, CaCas, CaPredThread} {
      assert Behind(m, f.p, f.n);
      PredIsHead(m, f.n, f.p, n);
    }
  }

  /** Only cancelled nodes are queued behind tail. */
  lemma NotLast(m: Mem, y: Ref, n: Ref)
    requires EndsOk(m) && Behind(m, y, n) && Ws(m, n) <= 0 && NULL !in m.ord
    requires m.ord[n] < |m.log|
    ensures m.tail != y
  {
  }

  lemma HeadCovers(m: Mem, y: Ref, n: Ref)
    requires Shape(m) && BehindHead(m, n) && Behind(m, y, n) && Ws(m, y) <= 0
    ensures Covers(m, y, n)
  {
    LiveNotSkipped(m, y, n, m.head);
    ChainMeetsLive(m, n, y);
  }

  /** What is left of a thread's obligation after its step. */
  ghost predicate StillObliged(m: Mem, m': Mem, g: Frame, e: Effect, n: Ref) {
    Obliged(m', g, n) || e == Unpark(Own(m, n)) || Ws(m', m.head) != SIGNAL
  }

  lemma ObligedRel(m: Mem, t: Tid, f: Frame, pc: RelPc, n: Ref)
    requires Shape(m) && f.pc == Rel(pc) && Obliged(m, f, n) && Waiter(m, t, n) && Behind(m, m.head, n)
    requires Ws(m, m.head) == SIGNAL
    ensures var (g, e) := ActRel(m, f, pc); StillObliged(m, Write(m, t, e), g, e, n)
  {
    HeadCovers(m, m.head, n);
    hide LinksOk;
  }

  lemma ObligedDr(m: Mem, t: Tid, f: Frame, pc: DrPc, n: Ref)
    requires Shape(m) && f.pc == Dr(pc) && Obliged(m, f, n) && Waiter(m, t, n) && Behind(m, m.head, n)
    requires Ws(m, m.head) == SIGNAL
    ensures var (g, e) := ActDr(m, f, pc); StillObliged(m, Write(m, t, e), g, e, n)
  {
    assert m.tail != m.head;
    hide LinksOk, Numbered, Unparks, WillUnpark;
  }

  lemma NextShared(m: Mem, n: Ref)
    requires Shape(m) && ModesOk(m) && m.kind != Mutex && n in m.ord && Ws(m, n) <= 0
    ensures Next(m, n) == NULL || Next(m, n) in m.shared
  {
    if Next(m, n) != NULL { assert NextOk(m, n, Next(m, n)); }
  }

  lemma ObligedLead(m: Mem, t: Tid, f: Frame, pc: LeadPc, n: Ref)
    requires Shape(m) && ModesOk(m) && ThreadOk(m, t, f) && f.pc == Lead(pc) && Obliged(m, f, n)
    requires Waiter(m, t, n) && Behind(m, m.head, n) && Ws(m, m.head) == SIGNAL
    ensures var (g, e) := ActLead(m, f, pc); StillObliged(m, Write(m, t, e), g, e, n)
  {
    hide LinksOk, Numbered, ModesOk, Unparks, WillUnpark;
    NextShared(m, f.n);
  }

  lemma ObligedStep(m: Mem, t: Tid, f: Frame, c: Choice, n: Ref)
    requires Shape(m) && ModesOk(m) && ThreadOk(m, t, f) && Obliged(m, f, n)
    requires Waiter(m, t, n) && Behind(m, m.head, n) && Ws(m, m.head) == SIGNAL
    ensures var (g, e) := Act(m, t, f, c); StillObliged(m, Write(m, t, e), g, e, n)
  {
    hide Shape, ModesOk, ThreadOk, Waiter, ActRel, ActDr, ActLead, ActUs, ActGone;
    match f.pc
    case Rel(pc) => ObligedRel(m, t, f, pc, n);
    case Dr(pc) => ObligedDr(m, t, f, pc, n);
    case Lead(pc) => ObligedLead(m, t, f, pc, n);
    case Us(_) => UnparksStep(m, t, f, c, n);
    case Gone(_) => WillUnparkStep(m, t, f, c, n);
  }

  lemma ModesStep(s: State, t: Tid, c: Choice)
    requires Inv(s) && ModesOk(s.m) && KindOk(s) && t != 0
    ensures ModesOk(Step(s, t, c).m)
  {
    hide Act, StaleSignal, Shape, ThreadOk, ModesOk, Owned, OneInitialiser, Write, Legit, MutexOk;
    var m, f := s.m, Th(s, t);
    assert ThreadOk(m, t, f);
    StepFrames(s, t, c);
    StepThread(m, t, f, c);
    ModesWrite(m, t, f, c);
  }

  lemma ModesWrite(m: Mem, t: Tid, f: Frame, c: Choice)
    requires Shape(m) && Legit(m, t, Act(m, t, f, c).1) && ModesOk(m) && t != 0
    requires m.kind != Mutex ==> !MutexOnly(f)
    ensures ModesOk(Write(m, t, Act(m, t, f, c).1))
  {
    hide Act, Write, Shape, Legit, MutexOnly;
    var e := Act(m, t, f, c).1;
    var m' := Write(m, t, e);
    WaitsInAwait(m, t, f, c);
    forall k
      ensures m'.kind != Mutex && Own(m', k) != 0 ==> k in m'.shared
      ensures k in m'.ord && m'.ord[k] > 0 ==> Own(m', k) != 0
    {
      ModesNode(m, t, e, k);
    }
  }

  lemma ModesNode(m: Mem, t: Tid, e: Effect, k: Ref)
    requires Shape(m) && Legit(m, t, e) && ModesOk(m) && t != 0 && (e.AllocWaiting? ==> m.kind == Mutex)
    ensures var m' := Write(m, t, e);
      && (m'.kind != Mutex && Own(m', k) != 0 ==> k in m'.shared)
      && (k in m'.ord && m'.ord[k] > 0 ==> Own(m', k) != 0)
  {
    hide LinksOk;
    FieldsKept(m, t, e, k);
  }

  lemma WaitsInAwait(m: Mem, t: Tid, f: Frame, c: Choice)
    ensures Act(m, t, f, c).1.AllocWaiting? ==> MutexOnly(f)
  {
  }

  lemma SharedWait(m: Mem, t: Tid, f: Frame, pc: WaitPc, c: Choice)
    requires m.kind != Mutex && f.pc == Wait(pc)
    ensures !MutexOnly(ActWait(m, t, f, pc, c).0)
  {
  }

  lemma SharedLead(m: Mem, f: Frame, pc: LeadPc)
    requires m.kind != Mutex && f.pc == Lead(pc)
    ensures !MutexOnly(ActLead(m, f, pc).0)
  {
  }

  lemma SharedGone(m: Mem, f: Frame, pc: GonePc)
    requires f.pc == Gone(pc)
    ensures !MutexOnly(ActGone(m, f, pc).0)
  {
  }

  lemma SharedOther(m: Mem, t: Tid, f: Frame, c: Choice)
    requires m.kind != Mutex && !MutexOnly(f) && m.nextRef != NULL
    requires !f.pc.Us? && !f.pc.Wait? && !f.pc.Gone? && !f.pc.Lead?
    ensures !MutexOnly(Act(m, t, f, c).0)
  {
  }

  /** A latch or a semaphore has no holder and no conditions. */
  lemma SharedStep(m: Mem, t: Tid, f: Frame, c: Choice)
    requires m.kind != Mutex && !MutexOnly(f) && m.nextRef != NULL
    ensures !MutexOnly(Act(m, t, f, c).0)
  {
    hide ActEnq, ActWait, ActQuit, ActLead, ActGone, ActRel, ActDr, ActUs, ActCond, ActSig, ActOutside;
    match f.pc
    case Us(pc) => UsFrame(m, f, pc);
    case Wait(pc) => SharedWait(m, t, f, pc, c);
    case Lead(pc) => SharedLead(m, f, pc);
    case Gone(pc) => SharedGone(m, f, pc);
    case _ => SharedOther(m, t, f, c);
  }

  lemma KindStep(s: State, t: Tid, c: Choice)
    requires Inv(s) && KindOk(s) && t != 0
    ensures KindOk(Step(s, t, c)) && Step(s, t, c).m.kind == s.m.kind
  {
    hide Act, StaleSignal, Write, MutexOnly, Inv, MutexOk;
    StepFrames(s, t, c);
    WriteState(s.m, t, Act(s.m, t, Th(s, t), c).1);
    HasNode(s, t);
    if s.m.kind == Mutex {
      MutexIs(s);
      MutexStep(s, t, c);
      MutexIs(Step(s, t, c));
    } else {
      SharedStep(s.m, t, Th(s, t), c);
    }
  }

  lemma MutexIs(s: State)
    ensures MutexOk(s) ==> s.m.kind == Mutex
  {
  }

  /** A thread that signals holds the Mutex. */
  lemma SignallerHolds(s: State, t: Tid)
    requires KindOk(s) && (Th(s, t).pc.Sig? || Signalling(Th(s, t)))
    ensures !Available(s.m)
  {
    assert MutexOnly(Th(s, t)) && Holds(Th(s, t));
  }

  lemma CarriesEnq(m: Mem, f: Frame, pc: EnqPc, k: Ref)
    requires f.pc == Enq(pc)
    ensures var (g, e) := ActEnq(m, f, pc); (Carries(f, k) && e != Append(k) ==> Carries(g, k)) && !e.Claim?
  {
  }

  lemma CarriesClaim(m: Mem, t: Tid, f: Frame, c: Choice, k: Ref)
    requires f.pc == Held || f.pc.Cond?
    ensures var (g, e) := Act(m, t, f, c); e == Claim(k) ==> Carries(g, k)
  {
  }

  lemma ClaimsNothing(m: Mem, t: Tid, f: Frame, c: Choice)
    requires f.pc != Held && !f.pc.Cond? && !f.pc.Enq? && !f.pc.Wait?
    ensures !Act(m, t, f, c).1.Claim?
  {
  }

  lemma WaitClaimsNothing(m: Mem, t: Tid, f: Frame, pc: WaitPc, c: Choice)
    ensures !ActWait(m, t, f, pc, c).1.Claim?
  {
  }

  lemma CarriesStep(m: Mem, t: Tid, f: Frame, c: Choice, k: Ref)
    ensures var (g, e) := Act(m, t, f, c); (Carries(f, k) && e != Append(k)) || e == Claim(k) ==> Carries(g, k)
  {
    hide ActEnq, ActWait, ActQuit, ActLead, ActGone, ActRel, ActDr, ActUs, ActCond, ActSig, ActOutside;
    match f.pc
    case Enq(pc) => CarriesEnq(m, f, pc, k);
    case Wait(pc) => WaitClaimsNothing(m, t, f, pc, c);
    case Held => CarriesClaim(m, t, f, c, k);
    case Cond(_) => CarriesClaim(m, t, f, c, k);
    case _ => ClaimsNothing(m, t, f, c);
  }

  lemma CarriedStep(s: State, t: Tid, c: Choice)
    requires Inv(s) && Carried(s) && t != 0
    ensures Carried(Step(s, t, c))
  {
    hide Act, StaleSignal, Write, ThreadOk, Owned, OneInitialiser, EndsOk, LinksOk, Carries;
    var m, f, s' := s.m, Th(s, t), Step(s, t, c);
    var (g, e) := Act(m, t, f, c);
    assert ThreadOk(m, t, f);
    StepThread(m, t, f, c);
    StepFrames(s, t, c);
    EndsAre(m, t, e);
    forall k | k in s'.m.mover && k !in s'.m.ord
      ensures Carries(Th(s', Mover(s'.m, k)), k)
    {
      MoverKept(m, t, e, k);
      CarriesStep(m, t, f, c, k);
    }
  }

  // ---------------------------------------------------- parked threads are guarded

  lemma StuckWaiter(s: State, n: Ref)
    requires Inv(s) && (Parked(s, n) || AboutToPark(s, n))
    ensures var u := Own(s.m, n);
      && u != 0 && BehindHead(s.m, n) && Ws(s.m, n) <= 0 && Thr(s.m, n) == u && Behind(s.m, Prev(s.m, n), n)
    ensures forall t :: t != Own(s.m, n) ==> Waiter(s.m, t, n)
  {
    assert ThreadOk(s.m, Own(s.m, n), Th(s, Own(s.m, n)));
    assert BehindHead(s.m, n);
  }

  /** How a thread comes to park, and which steps write what this depends on. */
  ghost predicate Signals(m: Mem, t: Tid, f: Frame, g: Frame, e: Effect) {
    && (g.pc == Wait(Park) ==>
          && g.n == f.n && e == Nothing
          && (f.pc == Wait(Park) || (f.pc == Wait(SpStatus) && Ws(m, f.p) == SIGNAL)))
    && (g.pc == Wait(SpStatus) ==>
          && g.n == f.n && g.p == f.p && e == Nothing
          && ((f.pc == Wait(AqCheckHead) && f.p != m.head) || (f.pc == Wait(AqTry) && !Available(m))))
    && (g.pc == Cond(CoPark) ==>
          g.n == f.n && e == Nothing && (f.pc == Cond(CoPark) || (f.pc == Cond(CoCheck) && f.n !in m.ord)))
    && (e.TakePermit? ==> e.t == t && (g.pc == Wait(AqReadPrev) || g.pc == Cond(CoCheck)))
    && (e.WriteStatus? ==> WritesStatus(m, f, g, e.r, e.ws))
    && (e.SetState? && Available(Write(m, t, e)) && !Available(m) ==> g.pc == Rel(ReHead) || g.pc == Dr(DrHead))
    && (e.WriteHead? ==> g.pc == Lead(SetHeadThread))
  }

  ghost predicate WritesStatus(m: Mem, f: Frame, g: Frame, y: Ref, v: int) {
    if v == CANCELLED then f.pc == Quit(CaMark) && y == f.n && g.pc == Gone(CaTail) && g.n == y
    else if v == SIGNAL then
      && y == f.p
      && ((f.pc == Wait(SpCas) && g.pc == Wait(AqReadPrev) && g.n == f.n) ||
          (f.pc == Sig(SigCas) && g.pc == Held) ||
          (f.pc == Gone(CaCas) && g.pc == Gone(CaPredThread) && g.p == f.p && g.n == f.n && Ws(m, y) == f.ws))
    else if v == 0 then
      g.y == y && (g.pc == Us(UsNext) || g.pc == Us(UsStatus))
    else Ws(m, y) == 0
  }

  lemma SignalsEnq(m: Mem, t: Tid, f: Frame, pc: EnqPc)
    requires f.pc == Enq(pc)
    ensures var (g, e) := ActEnq(m, f, pc); Signals(m, t, f, g, e)
  {
  }

  lemma SignalsWait(m: Mem, t: Tid, f: Frame, pc: WaitPc, c: Choice)
    requires f.pc == Wait(pc)
    ensures var (g, e) := ActWait(m, t, f, pc, c); Signals(m, t, f, g, e)
  {
  }

  lemma SignalsQuit(m: Mem, t: Tid, f: Frame, pc: QuitPc)
    requires f.pc == Quit(pc)
    ensures var (g, e) := ActQuit(m, f, pc); Signals(m, t, f, g, e)
  {
  }

  lemma SignalsLead(m: Mem, t: Tid, f: Frame, pc: LeadPc)
    requires f.pc == Lead(pc)
    ensures var (g, e) := ActLead(m, f, pc); Signals(m, t, f, g, e)
  {
  }

  lemma SignalsGone(m: Mem, t: Tid, f: Frame, pc: GonePc)
    requires f.pc == Gone(pc)
    ensures var (g, e) := ActGone(m, f, pc); Signals(m, t, f, g, e)
  {
  }

  lemma SignalsUs(m: Mem, t: Tid, f: Frame, pc: UsPc)
    requires f.pc == Us(pc)
    ensures var (g, e) := ActUs(m, f, pc); Signals(m, t, f, g, e)
  {
  }

  lemma SignalsDr(m: Mem, t: Tid, f: Frame, pc: DrPc)
    requires f.pc == Dr(pc)
    ensures var (g, e) := ActDr(m, f, pc); Signals(m, t, f, g, e)
  {
  }

  lemma SignalsCond(m: Mem, t: Tid, f: Frame, pc: CondPc, c: Choice)
    requires f.pc == Cond(pc)
    ensures var (g, e) := ActCond(m, t, f, pc, c); Signals(m, t, f, g, e)
  {
  }

  lemma SignalsRel(m: Mem, t: Tid, f: Frame, pc: RelPc)
    requires f.pc == Rel(pc)
    ensures var (g, e) := ActRel(m, f, pc); Signals(m, t, f, g, e)
  {
  }

  lemma SignalsOther(m: Mem, t: Tid, f: Frame, c: Choice)
    requires f.pc.Idle? || f.pc.Held? || f.pc.TryAcquire? || f.pc.AddWaiter? || f.pc.Sig?
    ensures var (g, e) := Act(m, t, f, c); Signals(m, t, f, g, e)
  {
  }

  lemma StepSignals(m: Mem, t: Tid, f: Frame, c: Choice)
    ensures var (g, e) := Act(m, t, f, c); Signals(m, t, f, g, e)
  {
    hide Signals, ActEnq, ActWait, ActQuit, ActLead, ActGone, ActRel, ActDr, ActUs, ActCond, ActSig, ActOutside;
    match f.pc
    case Enq(pc) => SignalsEnq(m, t, f, pc);
    case Wait(pc) => SignalsWait(m, t, f, pc, c);
    case Quit(pc) => SignalsQuit(m, t, f, pc);
    case Lead(pc) => SignalsLead(m, t, f, pc);
    case Gone(pc) => SignalsGone(m, t, f, pc);
    case Us(pc) => SignalsUs(m, t, f, pc);
    case Dr(pc) => SignalsDr(m, t, f, pc);
    case Cond(pc) => SignalsCond(m, t, f, pc, c);
    case Rel(pc) => SignalsRel(m, t, f, pc);
    case _ => SignalsOther(m, t, f, c);
  }

  /** A thread that parks in this step has just read SIGNAL from its predecessor. */
  lemma ParkedBefore(s: State, t: Tid, c: Choice, n: Ref)
    requires Inv(s) && t != 0 && Parked(Step(s, t, c), n)
    ensures Own(Step(s, t, c).m, n) == Own(s.m, n)
    ensures
      || (Parked(s, n) && Own(s.m, n) != t)
      || (Parked(s, n) && Step(s, t, c).m == s.m)
      || (AboutToPark(s, n) && Step(s, t, c).m == s.m)
      || (Act(s.m, t, Th(s, t), c).1 == Append(n) && Own(s.m, n) != t)
  {
    hide Write, StaleSignal, Shape, Owned, OneInitialiser, Act, Step, Signals, LocalsOk;
    var s' := Step(s, t, c);
    var (g, e) := Act(s.m, t, Th(s, t), c);
    StepFrames(s, t, c);
    InvStep(s, t, c);
    assert ThreadOk(s.m, t, Th(s, t)) && ThreadOk(s'.m, Own(s'.m, n), Th(s', Own(s'.m, n)));
    ParkedOwner(s.m, t, e, n);
    if Own(s'.m, n) == t {
      StepSignals(s.m, t, Th(s, t), c);
      ParkedSelf(s.m, t, Th(s, t), g, e);
      ReadsPredecessor(s.m, t, Th(s, t));
    } else {
      TakesOwnPermit(s.m, t, Th(s, t), g, e, c);
    }
    EndsAre(s.m, t, e);
  }

  /** A waiting node is not made in this step. */
  lemma ParkedOwner(m: Mem, t: Tid, e: Effect, n: Ref)
    requires Shape(m) && n in Write(m, t, e).ord
    requires Own(Write(m, t, e), n) != 0
    ensures Own(Write(m, t, e), n) == Own(m, n)
  {
    FieldsKept(m, t, e, n);
  }

  lemma ParkedSelf(m: Mem, t: Tid, f: Frame, g: Frame, e: Effect)
    requires Signals(m, t, f, g, e) && (g.pc == Wait(Park) || g.pc == Cond(CoPark))
    ensures g.n == f.n && Write(m, t, e) == m
    ensures g.pc == Wait(Park) ==> f.pc == Wait(Park) || (f.pc == Wait(SpStatus) && Ws(m, f.p) == SIGNAL)
    ensures g.pc == Cond(CoPark) ==> f.pc == Cond(CoPark) || f.n !in m.ord
  {
  }

  lemma ReadsPredecessor(m: Mem, t: Tid, f: Frame)
    requires LocalsOk(m, t, f)
    ensures f.pc == Wait(SpStatus) ==> f.p == Prev(m, f.n)
  {
  }

  lemma TakesOwnPermit(m: Mem, t: Tid, f: Frame, g: Frame, e: Effect, c: Choice)
    requires (g, e) == Act(m, t, f, c)
    ensures forall u :: u != t && u in m.permits ==> u in Write(m, t, e).permits
  {
    StepSignals(m, t, f, c);
    hide Act;
  }

  /** The signal on a live predecessor is only taken away by someone who then answers for it. */
  lemma SignalKept(m: Mem, t: Tid, f: Frame, c: Choice, y: Ref, n: Ref)
    requires Shape(m) && ThreadOk(m, t, f) && t != 0 && Signalled(m, y, n) && Waiter(m, t, n)
    ensures var (g, e) := Act(m, t, f, c);
      var m' := Write(m, t, e);
      Signalled(m', y, n) || Hands(m', g, n) || Unparks(m', g, n)
  {
    hide LinksOk, EndsOk, Act, OwnNodeOk, LocalsOk;
    var (g, e) := Act(m, t, f, c);
    StepThread(m, t, f, c);
    StepSignals(m, t, f, c);
    BehindKept(m, t, e, y, n);
    FieldsKept(m, t, e, y);
    HeadCovers(m, y, n);
    CoversKept(m, t, e, y, n);
  }

  /** Someone else's step leaves the threads that answer for `n` answering for it. */
  lemma UnparksOther(s: State, t: Tid, c: Choice, a: Tid, n: Ref)
    requires Inv(s) && t != 0 && a != t && Unparks(s.m, Th(s, a), n) && Waiter(s.m, t, n)
    ensures Unparks(Step(s, t, c).m, Th(Step(s, t, c), a), n)
  {
    hide Act, Write, StaleSignal, Shape, ThreadOk, Owned, OneInitialiser, Unparks, Waiter, Legit, Spares;
    var m, f, h := s.m, Th(s, t), Th(s, a);
    StepFrames(s, t, c);
    assert ThreadOk(m, t, f) && ThreadOk(m, a, h);
    StepThread(m, t, f, c);
    UnparksUs(m, h, n);
    OwnsCancelled(m, a, h);
    WaiterOwn(m, t, n);
    if h.caller == ByCancel && Named(m, h.n, n) { SparesNamed(m, t, f, c, h.n, n); }
    UnparksKept(m, t, Act(m, t, f, c).1, h, n);
  }

  lemma HandsOther(s: State, t: Tid, c: Choice, a: Tid, n: Ref)
    requires Inv(s) && t != 0 && a != t && Waiter(s.m, t, n)
    ensures Hands(s.m, Th(s, a), n) ==> Hands(Step(s, t, c).m, Th(Step(s, t, c), a), n)
    ensures WillUnpark(s.m, Th(s, a), n) ==> WillUnpark(Step(s, t, c).m, Th(Step(s, t, c), a), n)
  {
    hide Act, Write, StaleSignal, Shape, ThreadOk, Owned, OneInitialiser, Hands, WillUnpark, Waiter, Legit, Spares;
    var m, f, h := s.m, Th(s, t), Th(s, a);
    StepFrames(s, t, c);
    assert ThreadOk(m, t, f) && ThreadOk(m, a, h);
    StepThread(m, t, f, c);
    OwnsCancelled(m, a, h);
    HandsGone(m, h, n);
    WaiterOwn(m, t, n);
    if h.pc.Gone? {
      if Named(m, h.n, n) { SparesNamed(m, t, f, c, h.n, n); }
      HandsKept(m, t, Act(m, t, f, c).1, a, h, n);
    }
  }

  lemma ObligedOther(s: State, t: Tid, c: Choice, a: Tid, n: Ref)
    requires Inv(s) && t != 0 && a != t && Obliged(s.m, Th(s, a), n) && Waiter(s.m, t, n)
    requires Step(s, t, c).m.head == s.m.head
    ensures Obliged(Step(s, t, c).m, Th(Step(s, t, c), a), n)
  {
    hide Act, StaleSignal, Inv, Unparks, WillUnpark, Write, Waiter;
    StepFrames(s, t, c);
    WriteState(s.m, t, Act(s.m, t, Th(s, t), c).1);
    if Th(s, a).pc.Us? { UnparksOther(s, t, c, a, n); }
    if Th(s, a).pc.Gone? { HandsOther(s, t, c, a, n); }
  }

  lemma OwnsCancelled(m: Mem, u: Tid, f: Frame)
    requires ThreadOk(m, u, f)
    ensures f.pc.Gone? || (f.pc.Us? && f.caller == ByCancel) ==> Own(m, f.n) == u
  {
  }

  lemma WaiterOwn(m: Mem, t: Tid, n: Ref)
    requires Waiter(m, t, n)
    ensures Own(m, n) != t
  {
  }

  lemma UnparksUs(m: Mem, f: Frame, n: Ref)
    requires Unparks(m, f, n)
    ensures f.pc.Us?
  {
  }

  lemma HandsGone(m: Mem, f: Frame, n: Ref)
    ensures Hands(m, f, n) || WillUnpark(m, f, n) ==> f.pc.Gone?
  {
  }

  lemma DeliversKept(m: Mem, t: Tid, e: Effect, f: Frame, n: Ref)
    requires Shape(m) && n in m.ord && Delivers(m, f, n)
    ensures Delivers(Write(m, t, e), f, n)
  {
    OwnKept(m, t, e, n);
  }

  /** The signaller sets SIGNAL on a live predecessor or goes on to unpark the waiter. */
  lemma DeliversStep(m: Mem, t: Tid, f: Frame, c: Choice, n: Ref)
    requires Shape(m) && ThreadOk(m, t, f) && Delivers(m, f, n) && Waiter(m, t, n)
    ensures var (g, e) := Act(m, t, f, c);
      var m' := Write(m, t, e);
      Delivers(m', g, n) || e == Unpark(Own(m, n)) || Signalled(m', f.p, n)
  {
    hide Shape, OwnNodeOk, Behind, Write;
    var (g, e) := ActSig(m, f, f.pc.g);
    SigLegit(m, t, f, f.pc.g);
    if Behind(m, f.p, n) { BehindStays(m, t, e, f.p, n); }
    FieldsKept(m, t, e, f.p);
    FieldsKept(m, t, e, n);
  }

  /** Whoever queues the node of another thread delivers the signal. */
  lemma DeliversNew(m: Mem, t: Tid, f: Frame, c: Choice, n: Ref)
    requires ThreadOk(m, t, f) && Act(m, t, f, c).1 == Append(n) && Own(m, n) != t
    ensures var (g, e) := Act(m, t, f, c); Delivers(Write(m, t, e), g, n)
  {
    hide Act;
    AppendsE(m, t, f, c);
    SignalledQueued(m, t, f);
  }

  lemma SignalledQueued(m: Mem, t: Tid, f: Frame)
    requires ThreadOk(m, t, f) && f.pc == Enq(EnqCasTail) && Own(m, f.e) != t
    ensures Signalling(f)
    ensures forall c :: var (g, e) := Act(m, t, f, c); e == Append(f.e) ==> g.pc == Sig(SigSetNext) && g.e == f.e
  {
  }

  lemma GuardedKept(s: State, t: Tid, c: Choice, n: Ref)
    requires WakeInv(s) && t != 0 && Parked(s, n) && Own(s.m, n) != t && Parked(Step(s, t, c), n)
    ensures Guarded(Step(s, t, c), n)
  {
    hide Act, Write, StaleSignal, Shape, ThreadOk, Owned, OneInitialiser, ModesOk, MutexOk, FirstServed,
      Signalled, Unparks, Hands, Delivers, Waiter;
    var m, f, s' := s.m, Th(s, t), Step(s, t, c);
    var (g, e) := Act(m, t, f, c);
    StepFrames(s, t, c);
    StuckWaiter(s, n);
    ParkedBefore(s, t, c, n);
    assert ThreadOk(m, t, f);
    StepThread(m, t, f, c);
    if y :| Signalled(m, y, n) {
      SignalKept(m, t, f, c, y, n);
    } else if a :| Unparks(m, Th(s, a), n) {
      if a != t { UnparksOther(s, t, c, a, n); } else { UnparksStep(m, t, f, c, n); }
    } else if a :| Hands(m, Th(s, a), n) {
      if a != t { HandsOther(s, t, c, a, n); } else { HandsStep(m, t, f, c, n); }
    } else {
      var a :| Delivers(m, Th(s, a), n);
      if a != t { DeliversKept(m, t, e, Th(s, a), n); } else { DeliversStep(m, t, f, c, n); }
    }
  }

  /** A parked thread that stays parked in its own step has changed nothing. */
  lemma GuardedStill(s: State, t: Tid, c: Choice, n: Ref)
    requires t != 0 && Parked(s, n) && Own(s.m, n) == t && Guarded(s, n) && Step(s, t, c).m == s.m
    ensures Guarded(Step(s, t, c), n)
  {
    hide Act, Write, StaleSignal, Signalled;
    var s' := Step(s, t, c);
    StepFrames(s, t, c);
    if a :| Unparks(s.m, Th(s, a), n) {
      assert Unparks(s'.m, Th(s', a), n);
    } else if a :| Hands(s.m, Th(s, a), n) {
      assert Hands(s'.m, Th(s', a), n);
    } else if a :| Delivers(s.m, Th(s, a), n) {
      assert Delivers(s'.m, Th(s', a), n);
    }
  }

  lemma ParkedGuardedStep(s: State, t: Tid, c: Choice)
    requires WakeInv(s) && t != 0
    ensures ParkedGuarded(Step(s, t, c))
  {
    hide Act, Write, StaleSignal, Shape, ThreadOk, Owned, OneInitialiser, ModesOk, MutexOk, FirstServed;
    var s' := Step(s, t, c);
    StepFrames(s, t, c);
    forall n | Parked(s', n)
      ensures Guarded(s', n)
    {
      ParkedBefore(s, t, c, n);
      if Parked(s, n) && Own(s.m, n) != t {
        GuardedKept(s, t, c, n);
      } else if Parked(s, n) {
        GuardedStill(s, t, c, n);
      } else if AboutToPark(s, n) && s'.m == s.m {
        StuckWaiter(s, n);
        assert Signalled(s'.m, Prev(s.m, n), n);
      } else {
        assert ThreadOk(s.m, t, Th(s, t));
        DeliversNew(s.m, t, Th(s, t), c, n);
        assert Delivers(s'.m, Th(s', t), n);
      }
    }
  }

  // --------------------------------------- the first waiter is not neglected

  /** A live predecessor with nothing but cancelled nodes between is unique. */
  lemma SameLivePredecessor(m: Mem, a: Ref, b: Ref, n: Ref)
    requires Numbered(m) && Behind(m, a, n) && Behind(m, b, n) && Ws(m, a) <= 0 && Ws(m, b) <= 0
    ensures a == b
  {
    LiveNotSkipped(m, a, n, b);
    LiveNotSkipped(m, b, n, a);
    if m.ord[a] == m.ord[b] { Positions(m, a, b); }
  }

  /** The node cancelled in this step was the only live one between head and `n`. */
  lemma CancelCovers(m: Mem, t: Tid, k: Ref, n: Ref)
    requires Shape(m) && BehindHead(m, n) && BehindHead(m, k) && Ws(m, k) <= 0
    requires m.ord[k] < m.ord[n]
    requires Legit(m, t, WriteStatus(k, CANCELLED))
    requires var m' := Write(m, t, WriteStatus(k, CANCELLED)); Behind(m', m'.head, n)
    ensures Covers(Write(m, t, WriteStatus(k, CANCELLED)), k, n)
  {
    ChainMeetsLive(m, n, k);
  }

  /** While the thread field of head is still set its thread is in setHead. */
  lemma HeadThreadBusy(s: State, n: Ref)
    requires Inv(s) && KindOk(s) && s.m.head in s.m.ord
    requires Thr(s.m, s.m.head) != 0 && Available(s.m)
    ensures exists a :: Obliged(s.m, Th(s, a), n)
  {
    hide Shape, ThreadOk, OneInitialiser;
    var u := Own(s.m, s.m.head);
    assert Th(s, u).pc == Lead(SetHeadThread);
    assert Obliged(s.m, Th(s, u), n);
  }

  lemma HandsToHead(m: Mem, u: Tid, f: Frame, n: Ref)
    requires Shape(m) && ThreadOk(m, u, f) && Hands(m, f, n) && Behind(m, m.head, n) && Thr(m, m.head) == 0
    ensures WillUnpark(m, f, n)
  {
    hide LinksOk;
    PredIsHead(m, f.n, f.p, n);
  }

  /** A waiter that becomes stuck behind head in this step, while the synchronizer stays
      available, is about to read a status that the step set on head. */
  lemma NewlyStuck(s: State, t: Tid, c: Choice, n: Ref)
    requires Inv(s) && KindOk(s) && t != 0 && !(Parked(s, n) || AboutToPark(s, n))
    requires Neglected(Step(s, t, c), n) && Step(s, t, c).m.head == s.m.head && Available(s.m)
    ensures Act(s.m, t, Th(s, t), c).1 == WriteStatus(s.m.head, SIGNAL)
    ensures Own(s.m, n) != t && Prev(s.m, n) == s.m.head && Ws(s.m, s.m.head) != SIGNAL
    ensures Th(s, Own(s.m, n)).n == n && Th(s, Own(s.m, n)).pc == Wait(SpStatus) && Own(s.m, n) !in s.m.permits
  {
    hide Act, StaleSignal, Numbered, EndsOk, LinksOk, Owned, OneInitialiser, ThreadOk, Available, Behind, Write, KindOk;
    var m, s' := s.m, Step(s, t, c);
    var (g, e) := Act(m, t, Th(s, t), c);
    NewlyStuckOwner(s, t, c, n);
    InvStep(s, t, c);
    StepFrames(s, t, c);
    StuckWaiter(s', n);
    SameLivePredecessor(s'.m, s'.m.head, Prev(s'.m, n), n);
    TakesOwnPermit(m, t, Th(s, t), g, e, c);
    FieldsKept(m, t, e, m.head);
  }

  lemma NotSignalledNow(s: State, t: Tid, c: Choice, n: Ref)
    requires Inv(s) && KindOk(s) && t != 0 && Available(s.m) && Own(s.m, n) != t
    ensures Act(s.m, t, Th(s, t), c).1 != Append(n)
  {
    hide Act, Shape, KindOk, Available, Owned, OneInitialiser;
    AppendsE(s.m, t, Th(s, t), c);
    assert ThreadOk(s.m, t, Th(s, t));
    if Signalling(Th(s, t)) { SignallerHolds(s, t); }
  }

  lemma NewlyStuckOwner(s: State, t: Tid, c: Choice, n: Ref)
    requires Inv(s) && KindOk(s) && t != 0 && !(Parked(s, n) || AboutToPark(s, n))
    requires Neglected(Step(s, t, c), n) && Step(s, t, c).m.head == s.m.head && Available(s.m)
    ensures Own(Step(s, t, c).m, n) != t && Own(s.m, n) != t && Own(Step(s, t, c).m, n) == Own(s.m, n)
    ensures Prev(Step(s, t, c).m, n) == Prev(s.m, n) && AboutToPark(Step(s, t, c), n)
  {
    hide Act, StaleSignal, Owned, OneInitialiser, OwnNodeOk, Available, LinksOk, EndsOk;
    var m, f, s' := s.m, Th(s, t), Step(s, t, c);
    var (g, e) := Act(m, t, f, c);
    InvStep(s, t, c);
    StepFrames(s, t, c);
    StepSignals(m, t, f, c);
    StuckWaiter(s', n);
    if Parked(s', n) { ParkedBefore(s, t, c, n); if Own(s.m, n) != t { NotSignalledNow(s, t, c, n); } }
    assert ThreadOk(m, t, f);
    StepThread(m, t, f, c);
    FieldsKept(m, t, e, n);
    if Own(s'.m, n) == t {
      SameLivePredecessor(m, m.head, Prev(m, n), n);
      assert false;
    }
  }

  /** A waiter neglected before the step. */
  lemma StillNeglected(s: State, t: Tid, c: Choice, n: Ref)
    requires WakeInv(s) && t != 0 && !s.stale && Neglected(s, n)
    requires Neglected(Step(s, t, c), n) && Step(s, t, c).m.head == s.m.head
    ensures exists a :: Obliged(Step(s, t, c).m, Th(Step(s, t, c), a), n)
  {
    hide Act, StaleSignal, Shape, Owned, OneInitialiser, ModesOk, MutexOk, ThreadOk, Obliged, Waiter, Write,
      ParkedGuarded, Available;
    var m, f, s' := s.m, Th(s, t), Step(s, t, c);
    var (g, e) := Act(m, t, f, c);
    StepFrames(s, t, c);
    StuckWaiter(s, n);
    assert ThreadOk(m, t, f);
    StepThread(m, t, f, c);
    var a :| Obliged(m, Th(s, a), n);
    assert ThreadOk(m, a, Th(s, a));
    if Own(m, n) == t {
      OwnStepStuck(s, t, c, n);
      ObligedElsewhere(m, Th(s, a), n);
      assert Obliged(s'.m, Th(s', a), n);
    } else if a != t {
      ObligedOther(s, t, c, a, n);
      assert Obliged(s'.m, Th(s', a), n);
    } else {
      ObligedStep(m, t, f, c, n);
      OwnerKept(m, t, e, n);
      assert Obliged(s'.m, Th(s', t), n);
    }
  }

  lemma OwnerKept(m: Mem, t: Tid, e: Effect, n: Ref)
    requires Shape(m) && BehindHead(m, n)
    ensures Own(Write(m, t, e), n) == Own(m, n)
  {
    FieldsKept(m, t, e, n);
  }

  lemma ObligedElsewhere(m: Mem, f: Frame, n: Ref)
    requires Obliged(m, f, n)
    ensures !f.pc.Wait? && !f.pc.Cond?
  {
  }

  /** A stuck thread that takes a step and is still stuck has not touched memory. */
  lemma OwnStepStuck(s: State, t: Tid, c: Choice, n: Ref)
    requires Inv(s) && t != 0 && Own(s.m, n) == t
    requires Parked(s, n) || AboutToPark(s, n)
    requires Parked(Step(s, t, c), n) || AboutToPark(Step(s, t, c), n)
    ensures Step(s, t, c).m == s.m && (Th(s, t).pc.Wait? || Th(s, t).pc.Cond?)
  {
    hide StaleSignal, Act, ThreadOk;
    var (g, e) := Act(s.m, t, Th(s, t), c);
    StuckWaiter(s, n);
    StepFrames(s, t, c);
    StepSignals(s.m, t, Th(s, t), c);
    FieldsKept(s.m, t, e, n);
  }

  /** The only live node between head and the waiter was cancelled in this step. */
  lemma NewlyFirst(s: State, t: Tid, c: Choice, n: Ref)
    requires Inv(s) && t != 0 && (Parked(s, n) || AboutToPark(s, n)) && !Behind(s.m, s.m.head, n)
    requires Neglected(Step(s, t, c), n) && Step(s, t, c).m.head == s.m.head
    ensures exists a :: Obliged(Step(s, t, c).m, Th(Step(s, t, c), a), n)
  {
    hide Act, StaleSignal, Shape, Owned, OneInitialiser, ThreadOk, Available, Write, Legit, Behind, BehindHead;
    var m, f, s' := s.m, Th(s, t), Step(s, t, c);
    var (g, e) := Act(m, t, f, c);
    StepFrames(s, t, c);
    StepSignals(m, t, f, c);
    StuckWaiter(s, n);
    assert ThreadOk(m, t, f);
    StepThread(m, t, f, c);
    var k := CancelledBetween(m, t, e, n);
    CancelCovers(m, t, k, n);
    assert Obliged(s'.m, Th(s', t), n);
  }

  /** The write that makes `n` the first waiter cancels a node in front of it. */
  lemma CancelledBetween(m: Mem, t: Tid, e: Effect, n: Ref) returns (k: Ref)
    requires Shape(m) && Legit(m, t, e) && BehindHead(m, n) && !Behind(m, m.head, n)
    requires Write(m, t, e).head == m.head && Behind(Write(m, t, e), m.head, n)
    ensures e == WriteStatus(k, CANCELLED) && BehindHead(m, k) && Ws(m, k) <= 0 && m.ord[k] < m.ord[n]
  {
    hide LinksOk, EndsOk, Legit, Write;
    k :| k in m.ord && m.ord[m.head] < m.ord[k] < m.ord[n] && Ws(m, k) != CANCELLED;
    FieldsKept(m, t, e, k);
    OrdKept(m, t, e, k);
    OrdKept(m, t, e, n);
    OrdKept(m, t, e, m.head);
    assert Ws(Write(m, t, e), k) == CANCELLED;
  }

  lemma OrdKept(m: Mem, t: Tid, e: Effect, k: Ref)
    requires Numbered(m) && Legit(m, t, e) && k in m.ord
    ensures k in Write(m, t, e).ord && Write(m, t, e).ord[k] == m.ord[k]
  {
  }

  /** Head received its SIGNAL in this step. */
  lemma NewlySignalled(s: State, t: Tid, c: Choice, n: Ref)
    requires WakeInv(s) && WakeInvBut(Step(s, t, c)) && t != 0 && !StaleSignal(s, t)
    requires Behind(s.m, s.m.head, n) && Available(s.m) && Ws(s.m, s.m.head) != SIGNAL
    requires Neglected(Step(s, t, c), n) && Step(s, t, c).m.head == s.m.head
    requires Parked(s, n) || SignalTarget(s, n)
    requires Own(s.m, n) != t
    ensures exists a :: Obliged(Step(s, t, c).m, Th(Step(s, t, c), a), n)
  {
    hide Act, StaleSignal, LinksOk, EndsOk, Numbered, Owned, OneInitialiser, OwnNodeOk, LocalsOk, Available, Write,
      MutexOk, ModesOk, ParkedGuarded, FirstServed, Gap, Hands, Unparks, WillUnpark;
    var m, f, s' := s.m, Th(s, t), Step(s, t, c);
    var (g, e) := Act(m, t, f, c);
    StepFrames(s, t, c);
    StepSignals(m, t, f, c);
    assert ThreadOk(m, t, f);
    StepThread(m, t, f, c);
    FieldsKept(m, t, e, m.head);
    assert e == WriteStatus(m.head, SIGNAL);
    NotOwnSignal(s, t, c, n);
    if Thr(s'.m, s'.m.head) != 0 {
      HeadThreadBusy(s', n);
    } else if SignalTarget(s, n) {
      StaleCase(s, t, n);
      TargetLive(s, n);
      NamedHands(s, t, c, n);
      assert Obliged(s'.m, Th(s', t), n);
    } else {
      ParkedSignalled(s, t, c, n);
    }
  }

  /** `n`, linked to head, is about to read head's status. */
  ghost predicate SignalTarget(s: State, n: Ref) {
    && Prev(s.m, n) == s.m.head
    && Th(s, Own(s.m, n)).n == n && Th(s, Own(s.m, n)).pc == Wait(SpStatus) && Own(s.m, n) !in s.m.permits
  }

  lemma TargetLive(s: State, n: Ref)
    requires Inv(s) && SignalTarget(s, n)
    ensures Ws(s.m, n) <= 0
  {
    assert ThreadOk(s.m, Own(s.m, n), Th(s, Own(s.m, n)));
  }

  /** The part of the invariant that does not speak of the first waiter. */
  ghost predicate WakeInvBut(s: State) {
    Inv(s) && ModesOk(s.m) && KindOk(s) && ParkedGuarded(s)
  }

  lemma StaleCase(s: State, t: Tid, n: Ref)
    requires SignalTarget(s, n) && Behind(s.m, s.m.head, n) && Available(s.m)
    requires Th(s, t).pc == Gone(CaCas) && Th(s, t).p == s.m.head && Ws(s.m, s.m.head) == Th(s, t).ws
    ensures StaleSignal(s, t) || Next(s.m, Th(s, t).n) == n
  {
    assert AboutToRead(s, n);
  }

  /** The same CAS is harmless if the cancelled node's next leads to the waiter: its thread goes on to
      unpark it. */
  lemma NamedHands(s: State, t: Tid, c: Choice, n: Ref)
    requires Inv(s) && t != 0 && Th(s, t).pc == Gone(CaCas) && Next(s.m, Th(s, t).n) == n
    requires Act(s.m, t, Th(s, t), c).1 == WriteStatus(s.m.head, SIGNAL)
    requires Behind(s.m, s.m.head, n) && Ws(s.m, n) <= 0 && Thr(Step(s, t, c).m, s.m.head) == 0
    ensures Obliged(Step(s, t, c).m, Th(Step(s, t, c), t), n)
  {
    hide StaleSignal, EndsOk, Owned, OneInitialiser;
    var m, f := s.m, Th(s, t);
    assert ThreadOk(m, t, f);
    var (g, e) := Act(m, t, f, c);
    StepThread(m, t, f, c);
    NextIsOk(m, f.n);
    NamedKept(m, t, e, f.n, n);
  }

  /** The writer of head's SIGNAL is a cancelling thread: the waiter that links to head is the
      first one, and it is not taking this step. */
  lemma NotOwnSignal(s: State, t: Tid, c: Choice, n: Ref)
    requires Inv(s) && KindOk(s) && Available(s.m) && t != 0 && Behind(s.m, s.m.head, n) && Own(s.m, n) != t
    requires Parked(s, n) || SignalTarget(s, n)
    requires Act(s.m, t, Th(s, t), c).1 == WriteStatus(s.m.head, SIGNAL)
    ensures Th(s, t).pc == Gone(CaCas) && Th(s, t).p == s.m.head && Ws(s.m, s.m.head) == Th(s, t).ws
    ensures Act(s.m, t, Th(s, t), c).0.pc == Gone(CaPredThread)
  {
    hide Act, StaleSignal, EndsOk, Owned, OneInitialiser, KindOk, Available;
    var m, f := s.m, Th(s, t);
    StepSignals(m, t, f, c);
    assert ThreadOk(m, t, f) && ThreadOk(m, Own(m, n), Th(s, Own(m, n)));
    if f.pc.Sig? { SignallerHolds(s, t); }
    if f.pc == Wait(SpCas) {
      assert BehindHead(m, f.n) && Behind(m, m.head, f.n);
      LiveNotSkipped(m, m.head, f.n, n);
      LiveNotSkipped(m, m.head, n, f.n);
      assert false;
    }
  }

  lemma ParkedSignalled(s: State, t: Tid, c: Choice, n: Ref)
    requires WakeInv(s) && WakeInvBut(Step(s, t, c)) && t != 0 && Parked(s, n) && Own(s.m, n) != t
    requires Th(s, t).pc == Gone(CaCas)
    requires Act(s.m, t, Th(s, t), c).1 == WriteStatus(s.m.head, SIGNAL)
    requires Behind(s.m, s.m.head, n) && Ws(s.m, s.m.head) != SIGNAL
    requires Neglected(Step(s, t, c), n) && Step(s, t, c).m.head == s.m.head
    requires Thr(Step(s, t, c).m, s.m.head) == 0
    ensures exists a :: Obliged(Step(s, t, c).m, Th(Step(s, t, c), a), n)
  {
    hide Act, StaleSignal, Owned, OneInitialiser, OwnNodeOk, LocalsOk, Available, Write, LinksOk, EndsOk, Numbered,
      MutexOk, ModesOk, FirstServed, Gap, Hands, Unparks, WillUnpark;
    var m, f, s' := s.m, Th(s, t), Step(s, t, c);
    var (g, e) := Act(m, t, f, c);
    StepFrames(s, t, c);
    StuckWaiter(s, n);
    assert ThreadOk(m, t, f);
    StepThread(m, t, f, c);
    if y :| Signalled(m, y, n) {
      LiveHead(m);
      SameLivePredecessor(m, y, m.head, n);
      assert false;
    } else if a :| Unparks(m, Th(s, a), n) {
      UnparksUs(m, Th(s, a), n);
      UnparksOther(s, t, c, a, n);
      assert Obliged(s'.m, Th(s', a), n);
    } else if a :| Hands(m, Th(s, a), n) {
      HandsGone(m, Th(s, a), n);
      if a != t {
        HandsOther(s, t, c, a, n);
        InvStep(s, t, c);
        assert ThreadOk(s'.m, a, Th(s', a));
        HandsToHead(s'.m, a, Th(s', a), n);
        assert Obliged(s'.m, Th(s', a), n);
      } else {
        CasHands(s, t, c, n);
      }
    } else {
      var a :| Delivers(m, Th(s, a), n);
      SignallerHolds(s, a);
      StateSame(m, t, e);
      assert false;
    }
  }

  lemma StateSame(m: Mem, t: Tid, e: Effect)
    ensures !e.SetState? ==> (Available(Write(m, t, e)) <==> Available(m))
  {
  }

  lemma LiveHead(m: Mem)
    requires Shape(m) && m.head in m.ord
    ensures Ws(m, m.head) <= 0
  {
  }

  lemma CasHands(s: State, t: Tid, c: Choice, n: Ref)
    requires Inv(s) && t != 0 && Hands(s.m, Th(s, t), n) && Th(s, t).pc == Gone(CaCas)
    requires Act(s.m, t, Th(s, t), c).1 == WriteStatus(s.m.head, SIGNAL)
    requires Thr(s.m, s.m.head) == 0 || Thr(Step(s, t, c).m, s.m.head) == 0
    requires Own(s.m, n) != t
    ensures Obliged(Step(s, t, c).m, Th(Step(s, t, c), t), n)
  {
    hide StaleSignal, LinksOk, EndsOk, Owned, OneInitialiser;
    var m, f := s.m, Th(s, t);
    assert ThreadOk(m, t, f);
    var (g, e) := Act(m, t, f, c);
    StepThread(m, t, f, c);
    CoversKept(m, t, e, f.n, n);
    FieldsKept(m, t, e, m.head);
  }

  lemma HeadWritten(s: State, t: Tid, c: Choice, n: Ref)
    requires WakeInvBut(Step(s, t, c)) && t != 0 && Available(Step(s, t, c).m)
    requires Act(s.m, t, Th(s, t), c).1.WriteHead?
    ensures exists a :: Obliged(Step(s, t, c).m, Th(Step(s, t, c), a), n)
  {
    hide Act, StaleSignal, Inv, ModesOk, ParkedGuarded;
    StepFrames(s, t, c);
    StepSignals(s.m, t, Th(s, t), c);
    var s' := Step(s, t, c);
    assert Th(s', t).pc == Lead(SetHeadThread);
    assert Obliged(s'.m, Th(s', t), n);
  }

  lemma HeadNotInitialised(s: State, t: Tid, c: Choice, n: Ref)
    requires Inv(s) && t != 0 && Act(s.m, t, Th(s, t), c).1 == InitHead
    ensures !Behind(Step(s, t, c).m, Step(s, t, c).m.head, n)
  {
    hide Act, StaleSignal, Owned, OneInitialiser;
    StepFrames(s, t, c);
    assert ThreadOk(s.m, t, Th(s, t));
    StepThread(s.m, t, Th(s, t), c);
  }

  lemma NewlyAvailable(s: State, t: Tid, c: Choice, n: Ref)
    requires t != 0 && Available(Step(s, t, c).m) && !Available(s.m)
    ensures exists a :: Obliged(Step(s, t, c).m, Th(Step(s, t, c), a), n)
  {
    hide Act, StaleSignal;
    StepFrames(s, t, c);
    StepSignals(s.m, t, Th(s, t), c);
    WriteState(s.m, t, Act(s.m, t, Th(s, t), c).1);
    var s' := Step(s, t, c);
    assert Obliged(s'.m, Th(s', t), n);
  }

  lemma HeadUnchanged(m: Mem, t: Tid, e: Effect)
    requires !e.WriteHead? && e != InitHead
    ensures Write(m, t, e).head == m.head
  {
  }

  /** Behind head before the step already, if no node was cancelled in it. */
  lemma BehindBefore(s: State, t: Tid, c: Choice, n: Ref)
    requires Inv(s) && t != 0 && Act(s.m, t, Th(s, t), c).1 == WriteStatus(s.m.head, SIGNAL)
    requires Behind(Step(s, t, c).m, s.m.head, n)
    ensures Behind(s.m, s.m.head, n)
  {
    hide Act, StaleSignal, Owned, OneInitialiser, LinksOk;
    StepFrames(s, t, c);
    var m' := Step(s, t, c).m;
    forall k | k in s.m.ord && s.m.ord[s.m.head] < s.m.ord[k] < s.m.ord[n]
      ensures Ws(s.m, k) == CANCELLED
    {
      FieldsKept(s.m, t, Act(s.m, t, Th(s, t), c).1, k);
      assert Ws(m', k) == CANCELLED;
    }
  }

  /** The case analysis over what made the first waiter neglected. */
  lemma FirstServedStep(s: State, t: Tid, c: Choice, n: Ref)
    requires WakeInv(s) && WakeInvBut(Step(s, t, c)) && t != 0 && !Step(s, t, c).stale
    requires Neglected(Step(s, t, c), n)
    ensures exists a :: Obliged(Step(s, t, c).m, Th(Step(s, t, c), a), n)
  {
    hide Act, StaleSignal, Inv, ModesOk, MutexOk, ParkedGuarded, FirstServed, Obliged, Available, Write;
    var m, f, s' := s.m, Th(s, t), Step(s, t, c);
    var (g, e) := Act(m, t, f, c);
    StepFrames(s, t, c);
    if e.WriteHead? {
      HeadWritten(s, t, c, n);
    } else if e == InitHead {
      HeadNotInitialised(s, t, c, n);
    } else if !Available(m) {
      NewlyAvailable(s, t, c, n);
    } else {
      HeadUnchanged(m, t, e);
      StaleKept(s, t, c);
      HeadStays(s, t, c, n);
    }
  }

  lemma StaleKept(s: State, t: Tid, c: Choice)
    requires t != 0 && !Step(s, t, c).stale
    ensures !StaleSignal(s, t) && (Available(s.m) && Step(s, t, c).m.head == s.m.head ==> !s.stale)
  {
    hide Act, StaleSignal, Available, Write;
  }

  lemma HeadStays(s: State, t: Tid, c: Choice, n: Ref)
    requires WakeInv(s) && WakeInvBut(Step(s, t, c)) && t != 0 && !s.stale && !StaleSignal(s, t)
    requires Neglected(Step(s, t, c), n) && Available(s.m) && Step(s, t, c).m.head == s.m.head
    ensures exists a :: Obliged(Step(s, t, c).m, Th(Step(s, t, c), a), n)
  {
    hide Act, StaleSignal, Inv, ModesOk, MutexOk, ParkedGuarded, FirstServed, Obliged, Available, Write, Parked,
      AboutToPark, Behind;
    if !(Parked(s, n) || AboutToPark(s, n)) {
      NewlyStuck(s, t, c, n);
      BehindBefore(s, t, c, n);
      NewlySignalled(s, t, c, n);
    } else if !Behind(s.m, s.m.head, n) {
      NewlyFirst(s, t, c, n);
    } else if Ws(s.m, s.m.head) != SIGNAL {
      StuckSignal(s, t, c, n);
      NewlySignalled(s, t, c, n);
    } else {
      StillNeglected(s, t, c, n);
    }
  }

  /** A stuck thread behind a head without SIGNAL is parked, and not the one that steps. */
  lemma StuckSignal(s: State, t: Tid, c: Choice, n: Ref)
    requires Inv(s) && t != 0 && (Parked(s, n) || AboutToPark(s, n)) && Behind(s.m, s.m.head, n)
    requires Ws(s.m, s.m.head) != SIGNAL && Step(s, t, c).m.head == s.m.head && Neglected(Step(s, t, c), n)
    ensures Parked(s, n) && Own(s.m, n) != t
  {
    hide Act, StaleSignal, Owned, OneInitialiser, ThreadOk, Write, Available;
    StuckWaiter(s, n);
    if AboutToPark(s, n) {
      LiveHead(s.m);
      SameLivePredecessor(s.m, s.m.head, Prev(s.m, n), n);
    }
    if Own(s.m, n) == t {
      StepFrames(s, t, c);
      OwnerSame(s, t, c, n);
      OwnStepStuck(s, t, c, n);
    }
  }

  lemma OwnerSame(s: State, t: Tid, c: Choice, n: Ref)
    requires Inv(s) && t != 0 && BehindHead(s.m, n)
    ensures Own(Step(s, t, c).m, n) == Own(s.m, n)
  {
    hide Act, StaleSignal, LinksOk, ThreadOk, Owned, OneInitialiser, Write;
    StepFrames(s, t, c);
    OwnerKept(s.m, t, Act(s.m, t, Th(s, t), c).1, n);
  }

  lemma WakeStep(s: State, t: Tid, c: Choice)
    requires WakeInv(s)
    ensures WakeInv(Step(s, t, c))
  {
    hide Act, StaleSignal, Inv, ModesOk, MutexOk, ParkedGuarded, Neglected, Obliged, Write;
    if t == 0 { return; }
    var s' := Step(s, t, c);
    StepFrames(s, t, c);
    InvStep(s, t, c);
    ModesStep(s, t, c);
    KindStep(s, t, c);
    CarriedStep(s, t, c);
    ParkedGuardedStep(s, t, c);
    if !s'.stale {
      forall n | Neglected(s', n)
        ensures exists a :: Obliged(s'.m, Th(s', a), n)
      {
        FirstServedStep(s, t, c, n);
      }
    }
  }

  lemma WakeInit(kind: Kind, st: nat)
    requires kind == Mutex ==> st == 0
    ensures WakeInv(Init(kind, st))
  {
    InvInit(kind, st);
  }

  lemma {:induction false} WakeRun(s: State, sched: Schedule)
    requires WakeInv(s)
    ensures WakeInv(Run(s, sched))
    decreases |sched|
  {
    hide WakeInv, Step;
    if sched != [] {
      WakeStep(s, sched[0].0, sched[0].1);
      WakeRun(Step(s, sched[0].0, sched[0].1), sched[1..]);
    }
  }

  // ------------------------------------------------------------ no lost wakeup

  /** Every thread is outside all methods, holds the Mutex, or is parked without a permit. */
  ghost predicate Quiescent(s: State) {
    forall t :: var f := Th(s, t);
      f.pc == Idle || f.pc == Held || ((f.pc == Wait(Park) || f.pc == Cond(CoPark)) && t !in s.m.permits)
  }

  /** The thread is parked in the lock queue, or in await although its node has been signalled. */
  ghost predicate Lost(s: State, t: Tid) {
    var f := Th(s, t);
    f.pc == Wait(Park) || (f.pc == Cond(CoPark) && f.n !in s.m.waiting)
  }

  /** In every run of the Mutex with its conditions, of the latch or of the semaphore, whatever is
      interrupted or times out: when all threads have come to rest, the synchronizer is available and
      no stale signal has happened since head changed last, no thread is parked in the lock queue and
      whoever is parked in await has not been signalled. */
  lemma NoLostWakeup(kind: Kind, st: nat, sched: Schedule, t: Tid)
    requires kind == Mutex ==> st == 0
    requires var s := Run(Init(kind, st), sched); !s.stale && Quiescent(s) && Available(s.m)
    ensures !Lost(Run(Init(kind, st), sched), t)
  {
    hide Run, Available, WakeInv;
    var s := Run(Init(kind, st), sched);
    WakeInit(kind, st);
    WakeRun(Init(kind, st), sched);
    if Lost(s, t) {
      LostQueued(s, t);
      var n := FirstWaiter(s, Th(s, t).n);
      RestingFirst(s, n);
    }
  }

  lemma LostQueued(s: State, t: Tid)
    requires WakeInv(s) && Quiescent(s) && Lost(s, t)
    ensures Inv(s) && BehindHead(s.m, Th(s, t).n) && Ws(s.m, Th(s, t).n) <= 0
  {
    hide Shape, Owned, OneInitialiser, ModesOk, KindOk, ParkedGuarded, FirstServed;
    assert ThreadOk(s.m, t, Th(s, t));
  }

  /** The first live node behind head, given that there is a live one at `k`. */
  lemma {:induction false} FirstWaiter(s: State, k: Ref) returns (n: Ref)
    requires Inv(s) && BehindHead(s.m, k) && Ws(s.m, k) <= 0
    ensures Behind(s.m, s.m.head, n) && Ws(s.m, n) <= 0
    decreases s.m.ord[k]
  {
    if Behind(s.m, s.m.head, k) {
      n := k;
    } else {
      var j :| j in s.m.ord && s.m.ord[s.m.head] < s.m.ord[j] < s.m.ord[k] && Ws(s.m, j) != CANCELLED;
      n := FirstWaiter(s, j);
    }
  }

  lemma RestingNeglected(s: State, n: Ref)
    requires Inv(s) && ParkedGuarded(s) && Quiescent(s) && Behind(s.m, s.m.head, n) && Ws(s.m, n) <= 0
    ensures Available(s.m) ==> Neglected(s, n)
  {
    hide ThreadOk, LinksOk, OneInitialiser, Available;
    assert BehindHead(s.m, n);
    assert Waits(Th(s, Own(s.m, n)));
    assert Parked(s, n) && Guarded(s, n);
    RestingSignal(s, n);
  }

  lemma RestingFirst(s: State, n: Ref)
    requires WakeInv(s) && !s.stale && Quiescent(s)
    requires Behind(s.m, s.m.head, n) && Ws(s.m, n) <= 0
    ensures !Available(s.m)
  {
    hide Inv, ModesOk, MutexOk, ParkedGuarded, Available, Neglected;
    RestingNeglected(s, n);
  }

  lemma RestingSignal(s: State, n: Ref)
    requires Inv(s) && Quiescent(s) && Guarded(s, n) && Behind(s.m, s.m.head, n)
    ensures Ws(s.m, s.m.head) == SIGNAL
  {
    hide ThreadOk, LinksOk, OneInitialiser, Owned;
    if y :| Signalled(s.m, y, n) {
      LiveHead(s.m);
      SameLivePredecessor(s.m, y, s.m.head, n);
    }
  }

  // ----------------------------------------------------- runs without cancellation

  predicate Cancels(f: Frame) {
    f.pc == Wait(CaThread) || f.pc.Quit? || f.pc.Gone? || (f.pc.Us? && f.caller == ByCancel)
  }

  lemma NoCancelWait(m: Mem, t: Tid, f: Frame, pc: WaitPc, c: Choice)
    requires f.pc == Wait(pc) && !Cancels(f) && c != Abort
    ensures !Cancels(ActWait(m, t, f, pc, c).0)
  {
  }

  lemma NoCancelUs(m: Mem, f: Frame, pc: UsPc)
    requires f.pc == Us(pc) && !Cancels(f)
    ensures !Cancels(ActUs(m, f, pc).0)
  {
  }

  lemma NoCancelLead(m: Mem, f: Frame, pc: LeadPc)
    requires f.pc == Lead(pc) && !Cancels(f)
    ensures !Cancels(ActLead(m, f, pc).0)
  {
  }

  lemma NoCancelOther(m: Mem, t: Tid, f: Frame, c: Choice)
    requires f.pc.Enq? || f.pc.Cond? || f.pc.Rel? || f.pc.Dr?
    ensures !Cancels(Act(m, t, f, c).0)
  {
  }

  lemma NoCancelStep(m: Mem, t: Tid, f: Frame, c: Choice)
    requires !Cancels(f) && c != Abort
    ensures !Cancels(Act(m, t, f, c).0)
  {
    hide ActWait, ActUs, ActLead, ActEnq, ActCond, ActRel, ActDr;
    match f.pc
    case Enq(_) => NoCancelOther(m, t, f, c);
    case Cond(_) => NoCancelOther(m, t, f, c);
    case Rel(_) => NoCancelOther(m, t, f, c);
    case Dr(_) => NoCancelOther(m, t, f, c);
    case Wait(pc) => NoCancelWait(m, t, f, pc, c);
    case Lead(pc) => NoCancelLead(m, f, pc);
    case Us(pc) => NoCancelUs(m, f, pc);
    case _ =>
  }

  lemma {:induction false} NoCancelRun(s: State, sched: Schedule)
    requires !s.stale && forall t :: !Cancels(Th(s, t))
    requires forall i :: 0 <= i < |sched| ==> sched[i].1 != Abort
    ensures !Run(s, sched).stale
    decreases |sched|
  {
    hide Act;
    if sched != [] {
      var (t, c) := sched[0];
      if t != 0 {
        StepFrames(s, t, c);
        NoCancelStep(s.m, t, Th(s, t), c);
      }
      NoCancelRun(Step(s, t, c), sched[1..]);
    }
  }

  /** With the uninterruptible and untimed acquire methods alone no wakeup is ever lost: if a
      free synchronizer has come to rest, nobody waits for it. */
  lemma NoLostWakeupUninterrupted(kind: Kind, st: nat, sched: Schedule, t: Tid)
    requires kind == Mutex ==> st == 0
    requires forall i :: 0 <= i < |sched| ==> sched[i].1 != Abort
    requires var s := Run(Init(kind, st), sched); Quiescent(s) && Available(s.m)
    ensures !Lost(Run(Init(kind, st), sched), t)
  {
    hide Run, Available, Quiescent;
    NoCancelRun(Init(kind, st), sched);
    NoLostWakeup(kind, st, sched, t);
  }
}
