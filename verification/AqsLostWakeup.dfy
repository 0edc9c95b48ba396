/** A run of the Mutex in which cancellation loses a wakeup: the lock is free, every thread
    is outside all methods except one, and that one is parked without a permit.  The theorem
    `NoLostWakeup` says that such a run needs the stale signal of `StaleSignal`.

    Thread 1 holds the lock; threads 2 to 5 queue nodes 1, 3, 4 and 5 behind the dummy 2.
    Thread 4 times out while thread 5 has not yet linked its node from node 4, so node 3 keeps
    node 4 as its next; thread 3 times out and stops just before its status CAS on node 1;
    thread 5 skips both; node 1 becomes head and is released with status 0; thread 3's CAS now
    sets SIGNAL on it, thread 5 reads that and parks, and the backward scan of thread 3,
    looking for node 3, runs past it. */
module AqsLostWakeup {
  import opened AqsModel
  import opened AqsQueue
  import opened AqsPreserve
  import opened AqsTheorems
  import opened AqsWakeup

  /** The schedule uses only choices that are allowed. */
  ghost predicate Uses(sched: Schedule, allowed: iset<Choice>) {
    forall i :: 0 <= i < |sched| ==> sched[i].1 in allowed
  }

  const ACQUIRING: iset<Choice> := iset{Go, Abort}

  ghost predicate RunsTo(s: State) {
    exists sched: Schedule :: Uses(sched, ACQUIRING) && s == Run(Init(Mutex, 0), sched)
  }

  lemma {:induction false} RunAppend(s: State, a: Schedule, t: Tid, c: Choice)
    ensures Run(s, a + [(t, c)]) == Step(Run(s, a), t, c)
    decreases |a|
  {
    hide Step;
    if a == [] {
      assert a + [(t, c)] == [(t, c)];
    } else {
      assert (a + [(t, c)])[1..] == a[1..] + [(t, c)];
      RunAppend(Step(s, a[0].0, a[0].1), a[1..], t, c);
    }
  }

  /** What a state of this run looks like: the lock, the fields of nodes 0 to 5 and the frames of
      threads 0 to 5; the other threads have not done anything. */
  datatype View = View(
    st: nat, head: Ref, tail: Ref, nextRef: Ref,
    ws: seq<int>, prev: seq<Ref>, next: seq<Ref>, thr: seq<Tid>, fs: seq<Frame>)

  ghost predicate Shows(s: State, v: View) {
    && RunsTo(s) && Sized(v)
    && s.m.kind == Mutex && s.m.permits == {}
    && s.m.st == v.st && s.m.head == v.head && s.m.tail == v.tail && s.m.nextRef == v.nextRef
    && (forall k :: 0 <= k < 6 ==> Ws(s.m, k) == v.ws[k])
    && (forall k :: 0 <= k < 6 ==> Prev(s.m, k) == v.prev[k])
    && (forall k :: 0 <= k < 6 ==> Next(s.m, k) == v.next[k])
    && (forall k :: 0 <= k < 6 ==> Thr(s.m, k) == v.thr[k])
    && (forall t :: Th(s, t) == if 0 < t < 6 then v.fs[t] else IDLE_FRAME)
  }

  predicate Sized(v: View) { |v.ws| == |v.prev| == |v.next| == |v.thr| == |v.fs| == 6 }

  /** The view after thread `t` has come to frame `g` with effect `e`. */
  function Put(v: View, t: Tid, g: Frame, e: Effect): View
    requires Sized(v) && 0 < t < 6 && Fits(v, e)
  {
    var x := v.(fs := v.fs[t := g]);
    match e
    case SetState(st) => x.(st := st)
    case Alloc => x.(thr := v.thr[v.nextRef := t], nextRef := v.nextRef + 1)
    case InitHead => x.(head := v.nextRef, nextRef := v.nextRef + 1)
    case WriteHead(r) => x.(head := r)
    case WriteTail(r) => x.(tail := r)
    case Append(r) => x.(tail := r)
    case WriteStatus(r, w) => x.(ws := v.ws[r := w])
    case WritePrev(r, w) => x.(prev := v.prev[r := w])
    case WriteNext(r, w) => x.(next := v.next[r := w])
    case ClearThread(r) => x.(thr := v.thr[r := 0])
    case _ => x
  }

  predicate Fits(v: View, e: Effect) {
    match e
    case Alloc => 0 < v.nextRef < 6
    case WriteStatus(r, _) => 0 < r < 6
    case WritePrev(r, _) => 0 < r < 6
    case WriteNext(r, _) => 0 < r < 6
    case ClearThread(r) => 0 < r < 6
    case AllocWaiting | Claim(_) | Unpark(_) | TakePermit(_) => false
    case _ => true
  }

  /** Memory agrees with the view on the lock and on node `k`. */
  ghost predicate Agrees(m: Mem, v: View, k: Ref)
    requires Sized(v) && 0 <= k < 6
  {
    && m.kind == Mutex && m.permits == {}
    && m.st == v.st && m.head == v.head && m.tail == v.tail && m.nextRef == v.nextRef
    && Ws(m, k) == v.ws[k] && Prev(m, k) == v.prev[k] && Next(m, k) == v.next[k] && Thr(m, k) == v.thr[k]
  }

  /** Looking at no node but `k`, thread `t` comes to frame `g` with effect `e`. */
  ghost predicate Does(v: View, t: Tid, c: Choice, k: Ref, g: Frame, e: Effect)
    requires Sized(v) && 0 < t < 6 && 0 <= k < 6
  {
    forall m :: Agrees(m, v, k) ==> Act(m, t, v.fs[t], c) == (g, e)
  }

  /** One step of the run. */
  lemma Move(s: State, v: View, t: Tid, c: Choice, k: Ref, g: Frame, e: Effect) returns (u: State, w: View)
    requires Shows(s, v) && Sized(v) && 0 < t < 6 && 0 <= k < 6 && (c == Go || c == Abort) && Fits(v, e)
    requires Does(v, t, c, k, g, e)
    ensures w == Put(v, t, g, e) && Shows(u, w) && Sized(w)
  {
    hide Act, Write, StaleSignal, RunsTo;
    u, w := Step(s, t, c), Put(v, t, g, e);
    assert Agrees(s.m, v, k);
    RunGoesOn(s, t, c);
    StepFrames(s, t, c);
    Writes(s.m, t, e);
    forall a ensures Th(u, a) == if 0 < a < 6 then w.fs[a] else IDLE_FRAME { }
    NodesShown(s.m, v, t, g, e);
  }

  lemma RunGoesOn(s: State, t: Tid, c: Choice)
    requires RunsTo(s) && t != 0 && (c == Go || c == Abort)
    ensures RunsTo(Step(s, t, c))
  {
    hide Step, Run;
    var sched: Schedule :| Uses(sched, ACQUIRING) && s == Run(Init(Mutex, 0), sched);
    RunAppend(Init(Mutex, 0), sched, t, c);
    assert Uses(sched + [(t, c)], ACQUIRING);
  }

  lemma NodesShown(m: Mem, v: View, t: Tid, g: Frame, e: Effect)
    requires Sized(v) && 0 < t < 6 && Fits(v, e) && m.nextRef == v.nextRef
    requires forall k :: 0 <= k < 6 ==> Ws(m, k) == v.ws[k]
    requires forall k :: 0 <= k < 6 ==> Prev(m, k) == v.prev[k]
    requires forall k :: 0 <= k < 6 ==> Next(m, k) == v.next[k]
    requires forall k :: 0 <= k < 6 ==> Thr(m, k) == v.thr[k]
    ensures var w, x := Write(m, t, e), Put(v, t, g, e);
      forall k :: 0 <= k < 6 ==>
        Ws(w, k) == x.ws[k] && Prev(w, k) == x.prev[k] && Next(w, k) == x.next[k] && Thr(w, k) == x.thr[k]
  {
    hide Write;
    forall k | 0 <= k < 6
      ensures var w, x := Write(m, t, e), Put(v, t, g, e);
        Ws(w, k) == x.ws[k] && Prev(w, k) == x.prev[k] && Next(w, k) == x.next[k] && Thr(w, k) == x.thr[k]
    {
      FieldsKept(m, t, e, k);
    }
  }

  lemma Writes(m: Mem, t: Tid, e: Effect)
    ensures var w := Write(m, t, e);
      && w.kind == m.kind && (!e.Unpark? && !e.TakePermit? ==> w.permits == m.permits)
      && w.st == (if e.SetState? then e.st else m.st)
      && w.head == (if e.WriteHead? then e.r else if e.InitHead? then m.nextRef else m.head)
      && w.tail == (if e.WriteTail? || e.Append? then e.r else m.tail)
      && w.nextRef == (if e.Alloc? || e.AllocWaiting? || e.InitHead? then m.nextRef + 1 else m.nextRef)
  {
  }

  /** A thread finds the lock taken and queues a node, which its predecessor does not link to yet. */
  lemma Queue(s: State, v: View, t: Tid) returns (u: State, w: View)
    requires Shows(s, v) && Sized(v) && 0 < t < 6 && v.fs[t] == IDLE_FRAME && v.st == 1 && v.tail != NULL
    requires 0 < v.nextRef < 6
    ensures Shows(u, w) && Sized(w)
    ensures var k := v.nextRef;
      w == v.(nextRef := k + 1, tail := k, thr := v.thr[k := t], prev := v.prev[k := v.tail],
      fs := v.fs[t := IDLE_FRAME.(pc := Wait(EnqSetNext), n := k, e := k, p := v.tail)])
  {
    hide Shows;
    var f := IDLE_FRAME.(n := v.nextRef, e := v.nextRef, p := v.tail);
    u, w := Ask(s, v, t);
    u, w := Move(u, w, t, Go, 0, f.(pc := Enq(EnqSetPrev)), Alloc);
    u, w := Move(u, w, t, Go, 0, f.(pc := Enq(EnqCasTail)), WritePrev(f.n, f.p));
    u, w := Move(u, w, t, Go, 0, f.(pc := Wait(EnqSetNext)), Append(f.n));
  }

  /** A thread finds the lock taken. */
  lemma Ask(s: State, v: View, t: Tid) returns (u: State, w: View)
    requires Shows(s, v) && Sized(v) && 0 < t < 6 && v.fs[t] == IDLE_FRAME && v.st == 1
    ensures Shows(u, w) && Sized(w) && w == v.(fs := v.fs[t := IDLE_FRAME.(pc := AddWaiter)])
  {
    hide Shows;
    u, w := Move(s, v, t, Go, 0, IDLE_FRAME.(pc := TryAcquire), Nothing);
    u, w := Move(u, w, t, Go, 0, IDLE_FRAME.(pc := AddWaiter), Nothing);
  }

  /** It is linked and looks at its predecessor's status next. */
  lemma Link(s: State, v: View, t: Tid) returns (u: State, w: View)
    requires Shows(s, v) && Sized(v) && 0 < t < 6 && v.fs[t].pc == Wait(EnqSetNext) && 0 < v.fs[t].p < 6
    ensures Shows(u, w) && Sized(w)
    ensures var f := v.fs[t]; w == v.(next := v.next[f.p := f.n], fs := v.fs[t := f.(pc := Wait(AqReadPrev))])
  {
    hide Shows;
    u, w := Move(s, v, t, Go, 0, v.fs[t].(pc := Wait(AqReadPrev)), WriteNext(v.fs[t].p, v.fs[t].n));
  }

  /** A thread whose predecessor is not head times out. */
  lemma TimeOut(s: State, v: View, t: Tid) returns (u: State, w: View)
    requires Shows(s, v) && Sized(v) && 0 < t < 6 && v.fs[t].pc == Wait(AqReadPrev) && v.fs[t].caller == ByRelease
    requires 0 < v.fs[t].n < 6 && v.prev[v.fs[t].n] == v.fs[t].p != v.head
    ensures Shows(u, w) && Sized(w) && w == v.(fs := v.fs[t := v.fs[t].(pc := Wait(CaThread))])
  {
    hide Shows;
    var f := v.fs[t];
    u, w := Move(s, v, t, Go, f.n, f.(pc := Wait(AqCheckHead)), Nothing);
    u, w := Move(u, w, t, Go, 0, f.(pc := Wait(SpStatus)), Nothing);
    u, w := Move(u, w, t, Abort, 0, f.(pc := Wait(CaThread)), Nothing);
  }

  /** It saves the next of its predecessor, which is not cancelled. */
  lemma Withdraw(s: State, v: View, t: Tid) returns (u: State, w: View)
    requires Shows(s, v) && Sized(v) && 0 < t < 6 && v.fs[t].pc == Wait(CaThread)
    requires 0 < v.fs[t].n < 6 && 0 < v.fs[t].p < 6 && v.prev[v.fs[t].n] == v.fs[t].p && v.ws[v.fs[t].p] == 0
    ensures Shows(u, w) && Sized(w)
    ensures var f := v.fs[t];
      w == v.(thr := v.thr[f.n := 0], fs := v.fs[t := f.(pc := Quit(CaMark), q := v.next[f.p])])
  {
    hide Shows;
    var f := v.fs[t];
    u, w := Move(s, v, t, Go, 0, f.(pc := Quit(CaReadPrev)), ClearThread(f.n));
    u, w := Move(u, w, t, Go, f.n, f.(pc := Quit(CaSkipStatus)), Nothing);
    u, w := Move(u, w, t, Go, f.p, f.(pc := Quit(CaPredNext)), Nothing);
    u, w := Move(u, w, t, Go, f.p, f.(pc := Quit(CaMark), q := v.next[f.p]), Nothing);
  }

  /** It cancels its node, which is not the last one, and has read status 0 of its predecessor. */
  lemma Cancel(s: State, v: View, t: Tid) returns (u: State, w: View)
    requires Shows(s, v) && Sized(v) && 0 < t < 6 && v.fs[t].pc == Quit(CaMark) && v.fs[t].ws == 0
    requires 0 < v.fs[t].n < 6 && 0 < v.fs[t].p < 6 && v.fs[t].n !in {v.fs[t].p, v.tail}
    requires v.fs[t].p != v.head && v.ws[v.fs[t].p] == 0
    ensures Shows(u, w) && Sized(w)
    ensures var f := v.fs[t]; w == v.(ws := v.ws[f.n := CANCELLED], fs := v.fs[t := f.(pc := Gone(CaCas))])
  {
    hide Shows;
    var f := v.fs[t];
    u, w := Move(s, v, t, Go, 0, f.(pc := Gone(CaTail)), WriteStatus(f.n, CANCELLED));
    u, w := Move(u, w, t, Go, 0, f.(pc := Gone(CaHead)), Nothing);
    u, w := Move(u, w, t, Go, 0, f.(pc := Gone(CaStatus)), Nothing);
    u, w := Move(u, w, t, Go, f.p, f.(pc := Gone(CaCas)), Nothing);
  }

  /** A thread skips a cancelled predecessor. */
  lemma Skip(s: State, v: View, t: Tid) returns (u: State, w: View)
    requires Shows(s, v) && Sized(v) && 0 < t < 6 && v.fs[t].pc == Wait(SpReadPrev)
    requires 0 < v.fs[t].n < 6 && 0 < v.fs[t].p < 6
    ensures Shows(u, w) && Sized(w)
    ensures var f, p := v.fs[t], v.prev[v.fs[t].p];
      w == v.(prev := v.prev[f.n := p], fs := v.fs[t := f.(pc := Wait(SpPredStatus), p := p, x := p)])
  {
    hide Shows;
    var f, p := v.fs[t], v.prev[v.fs[t].p];
    u, w := Move(s, v, t, Go, f.p, f.(pc := Wait(SpWritePrev), x := p), Nothing);
    u, w := Move(u, w, t, Go, 0, f.(pc := Wait(SpPredStatus), p := p, x := p), WritePrev(f.n, p));
  }

  /** A holder releases while head has status 0. */
  lemma Release(s: State, v: View, t: Tid) returns (u: State, w: View)
    requires Shows(s, v) && Sized(v) && 0 < t < 6 && v.fs[t].pc == Held && v.fs[t].caller == ByRelease && v.st == 1
    requires 0 < v.head < 6 && v.ws[v.head] == 0
    ensures Shows(u, w) && Sized(w)
    ensures w == v.(st := 0, fs := v.fs[t := v.fs[t].(pc := Idle, y := v.head)])
  {
    hide Shows;
    var f := v.fs[t];
    u, w := Move(s, v, t, Go, 0, f.(pc := Rel(ReCheck)), Nothing);
    u, w := Move(u, w, t, Go, 0, f.(pc := Rel(ReSet)), Nothing);
    u, w := Move(u, w, t, Go, 0, f.(pc := Rel(ReHead)), SetState(0));
    u, w := Move(u, w, t, Go, 0, f.(pc := Rel(ReStatus), y := v.head), Nothing);
    u, w := Move(u, w, t, Go, v.head, f.(pc := Idle, y := v.head), Nothing);
  }

  /** The frame of a queued thread. */
  function Queued(pc: WaitPc, n: Ref, p: Ref): Frame { IDLE_FRAME.(pc := Wait(pc), n := n, e := n, p := p) }

  const HELD: Frame := IDLE_FRAME.(pc := Held)
  const NODE1: Frame := IDLE_FRAME.(n := 1, e := 1)
  const GONE3: Frame := IDLE_FRAME.(n := 3, e := 3, p := 1, q := 3)
  const CALLED: Frame := GONE3.(y := 3, caller := ByCancel)
  const GONE4: Frame := IDLE_FRAME.(n := 4, e := 4, p := 3, q := 4)

  // ------------------------------------------------------------ the phases of the run

  const NONE: seq<Ref> := [0, 0, 0, 0, 0, 0]
  const AT_REST: seq<Frame> := [IDLE_FRAME, IDLE_FRAME, IDLE_FRAME, IDLE_FRAME, IDLE_FRAME, IDLE_FRAME]
  const START: View := View(0, 0, 0, 1, NONE, NONE, NONE, NONE, AT_REST)

  lemma Begin() returns (u: State, w: View)
    ensures Shows(u, w) && Sized(w) && w == START
  {
    u, w := Init(Mutex, 0), START;
    assert Uses([], ACQUIRING) && u == Run(u, []);
  }

  /** Thread 1 holds the lock; thread 2 has made node 1, and the dummy as head. */
  lemma Contend() returns (u: State, w: View)
    ensures Shows(u, w) && Sized(w)
    ensures w == START.(st := 1, head := 2, nextRef := 3, thr := NONE[1 := 2],
                 fs := AT_REST[1 := HELD][2 := NODE1.(pc := Enq(EnqInitRead))])
  {
    u, w := Begin();
    hide Shows;
    u, w := Move(u, w, 1, Go, 0, IDLE_FRAME.(pc := TryAcquire), Nothing);
    u, w := Move(u, w, 1, Go, 0, HELD, SetState(1));
    u, w := Ask(u, w, 2);
    u, w := Move(u, w, 2, Go, 0, NODE1.(pc := Enq(EnqReadTail)), Alloc);
    u, w := Move(u, w, 2, Go, 0, NODE1.(pc := Enq(EnqInitHead)), Nothing);
    u, w := Move(u, w, 2, Go, 0, NODE1.(pc := Enq(EnqInitRead)), InitHead);
  }

  /** Thread 2 makes the dummy the tail. */
  lemma Initialises(s: State, v: View) returns (u: State, w: View)
    requires Shows(s, v) && Sized(v)
    requires v.head == 2 && v.tail == NULL && v.fs[2] == NODE1.(pc := Enq(EnqInitRead))
    ensures Shows(u, w) && Sized(w)
    ensures w == v.(tail := 2, fs := v.fs[2 := NODE1.(pc := Enq(EnqSetPrev), x := 2, p := 2)])
  {
    hide Shows;
    u, w := Move(s, v, 2, Go, 0, NODE1.(pc := Enq(EnqInitTail), x := 2), Nothing);
    u, w := Move(u, w, 2, Go, 0, NODE1.(pc := Enq(EnqReadTail), x := 2), WriteTail(2));
    u, w := Move(u, w, 2, Go, 0, NODE1.(pc := Enq(EnqSetPrev), x := 2, p := 2), Nothing);
  }

  /** It queues node 1. */
  lemma First(s: State, v: View) returns (u: State, w: View)
    requires Shows(s, v) && Sized(v)
    requires v.tail == 2 && v.fs[2] == NODE1.(pc := Enq(EnqSetPrev), x := 2, p := 2)
    ensures Shows(u, w) && Sized(w)
    ensures w == v.(tail := 1, prev := v.prev[1 := 2], fs := v.fs[2 := Queued(EnqSetNext, 1, 2).(x := 2)])
  {
    hide Shows;
    u, w := Move(s, v, 2, Go, 0, NODE1.(pc := Enq(EnqCasTail), x := 2, p := 2), WritePrev(1, 2));
    u, w := Move(u, w, 2, Go, 0, NODE1.(pc := Wait(EnqSetNext), x := 2, p := 2), Append(1));
  }

  /** Thread 4 leaves the duty to signal to node 3, whose next stays at node 4. */
  lemma LeavesDuty(s: State, v: View) returns (u: State, w: View)
    requires Shows(s, v) && Sized(v)
    requires v.fs[4] == GONE4.(pc := Gone(CaCas)) && v.ws[3] == 0 && v.thr[3] != 0 && v.next[4] == NULL
    ensures Shows(u, w) && Sized(w)
    ensures w == v.(ws := v.ws[3 := SIGNAL], next := v.next[4 := 4], fs := v.fs[4 := GONE4])
  {
    hide Shows;
    u, w := Move(s, v, 4, Go, 3, GONE4.(pc := Gone(CaPredThread)), WriteStatus(3, SIGNAL));
    u, w := Move(u, w, 4, Go, 3, GONE4.(pc := Gone(CaNext)), Nothing);
    u, w := Move(u, w, 4, Go, 4, GONE4.(pc := Gone(CaSelf)), Nothing);
    u, w := Move(u, w, 4, Go, 4, GONE4, WriteNext(4, 4));
  }

  /** Thread 5 finds its predecessor cancelled. */
  lemma Skips(s: State, v: View) returns (u: State, w: View)
    requires Shows(s, v) && Sized(v)
    requires v.fs[5] == Queued(AqReadPrev, 5, 4) && v.prev[5] == 4 && v.ws[4] == CANCELLED && v.head != 4
    ensures Shows(u, w) && Sized(w)
    ensures w == v.(fs := v.fs[5 := Queued(SpReadPrev, 5, 4).(ws := 1)])
  {
    hide Shows;
    u, w := Move(s, v, 5, Go, 5, Queued(AqCheckHead, 5, 4), Nothing);
    u, w := Move(u, w, 5, Go, 0, Queued(SpStatus, 5, 4), Nothing);
    u, w := Move(u, w, 5, Go, 4, Queued(SpReadPrev, 5, 4).(ws := 1), Nothing);
  }

  /** It skips the cancelled nodes 4 and 3 and links to node 1. */
  lemma Skipped(s: State, v: View) returns (u: State, w: View)
    requires Shows(s, v) && Sized(v)
    requires v.fs[5] == Queued(SpReadPrev, 5, 4).(ws := 1) && v.prev[4] == 3 && v.prev[3] == 1
    requires v.ws[3] == CANCELLED && v.ws[1] == 0
    ensures Shows(u, w) && Sized(w)
    ensures w == v.(prev := v.prev[5 := 1], next := v.next[1 := 5],
                 fs := v.fs[5 := Queued(AqReadPrev, 5, 1).(x := 1, ws := 1)])
  {
    hide Shows;
    u, w := Skip(s, v, 5);
    u, w := Move(u, w, 5, Go, 3, Queued(SpReadPrev, 5, 3).(x := 3, ws := 1), Nothing);
    u, w := Skip(u, w, 5);
    u, w := Move(u, w, 5, Go, 1, Queued(SpSetNext, 5, 1).(x := 1, ws := 1), Nothing);
    u, w := Move(u, w, 5, Go, 0, Queued(AqReadPrev, 5, 1).(x := 1, ws := 1), WriteNext(1, 5));
  }

  /** Thread 2 acquires. */
  lemma Takes(s: State, v: View) returns (u: State, w: View)
    requires Shows(s, v) && Sized(v)
    requires v.st == 0 && v.head == 2 && v.prev[1] == 2 && v.fs[2] == Queued(AqReadPrev, 1, 2).(x := 2)
    ensures Shows(u, w) && Sized(w)
    ensures w == v.(st := 1, fs := v.fs[2 := Queued(SetHead, 1, 2).(x := 2)])
  {
    hide Shows;
    u, w := Move(s, v, 2, Go, 1, Queued(AqCheckHead, 1, 2).(x := 2), Nothing);
    u, w := Move(u, w, 2, Go, 0, Queued(AqTry, 1, 2).(x := 2), Nothing);
    u, w := Move(u, w, 2, Go, 0, Queued(SetHead, 1, 2).(x := 2), SetState(1));
  }

  /** Node 1 becomes head. */
  lemma Leads(s: State, v: View) returns (u: State, w: View)
    requires Shows(s, v) && Sized(v)
    requires v.fs[2] == Queued(SetHead, 1, 2).(x := 2)
    ensures Shows(u, w) && Sized(w)
    ensures w == v.(head := 1, thr := v.thr[1 := 0], fs := v.fs[2 := NODE1.(pc := Lead(SetHeadPrev), p := 2, x := 2)])
  {
    hide Shows;
    u, w := Move(s, v, 2, Go, 0, NODE1.(pc := Lead(SetHeadThread), p := 2, x := 2), WriteHead(1));
    u, w := Move(u, w, 2, Go, 0, NODE1.(pc := Lead(SetHeadPrev), p := 2, x := 2), ClearThread(1));
  }

  /** Thread 2 completes setHead and clears the link of the old head. */
  lemma Unlinks(s: State, v: View) returns (u: State, w: View)
    requires Shows(s, v) && Sized(v)
    requires v.fs[2] == NODE1.(pc := Lead(SetHeadPrev), p := 2, x := 2)
    ensures Shows(u, w) && Sized(w)
    ensures w == v.(prev := v.prev[1 := 0], next := v.next[2 := 0],
                 fs := v.fs[2 := NODE1.(pc := Held, p := 2, x := 2)])
  {
    hide Shows;
    u, w := Move(s, v, 2, Go, 0, NODE1.(pc := Lead(ClearNext), p := 2, x := 2), WritePrev(1, 0));
    u, w := Move(u, w, 2, Go, 0, NODE1.(pc := Held, p := 2, x := 2), WriteNext(2, 0));
  }

  /** Thread 5 finds node 1 to be head, but the lock taken. */
  lemma Fails(s: State, v: View) returns (u: State, w: View)
    requires Shows(s, v) && Sized(v)
    requires v.fs[5] == Queued(AqReadPrev, 5, 1).(x := 1, ws := 1) && v.prev[5] == 1 == v.head && v.st == 1
    ensures Shows(u, w) && Sized(w)
    ensures w == v.(fs := v.fs[5 := Queued(SpStatus, 5, 1).(x := 1, ws := 1)])
  {
    hide Shows;
    u, w := Move(s, v, 5, Go, 5, Queued(AqCheckHead, 5, 1).(x := 1, ws := 1), Nothing);
    u, w := Move(u, w, 5, Go, 0, Queued(AqTry, 5, 1).(x := 1, ws := 1), Nothing);
    u, w := Move(u, w, 5, Go, 0, Queued(SpStatus, 5, 1).(x := 1, ws := 1), Nothing);
  }

  /** The stale signal: thread 3 sets SIGNAL on head, and thread 5 reads it and parks. */
  lemma Parks(s: State, v: View) returns (u: State, w: View)
    requires Shows(s, v) && Sized(v)
    requires v.fs[3] == GONE3.(pc := Gone(CaCas)) && v.ws[1] == 0 && v.fs[5] == Queued(SpStatus, 5, 1).(x := 1, ws := 1)
    ensures Shows(u, w) && Sized(w)
    ensures w == v.(ws := v.ws[1 := SIGNAL],
                 fs := v.fs[3 := GONE3.(pc := Gone(CaPredThread))][5 := Queued(Park, 5, 1).(x := 1, ws := -1)])
  {
    hide Shows;
    u, w := Move(s, v, 3, Go, 1, GONE3.(pc := Gone(CaPredThread)), WriteStatus(1, SIGNAL));
    u, w := Move(u, w, 5, Go, 1, Queued(Park, 5, 1).(x := 1, ws := -1), Nothing);
  }

  /** Thread 3 finds node 1 without a thread and looks for the successor of node 3, whose next is
      cancelled. */
  lemma Scans(s: State, v: View) returns (u: State, w: View)
    requires Shows(s, v) && Sized(v)
    requires v.fs[3] == GONE3.(pc := Gone(CaPredThread)) && v.thr[1] == 0 && v.next[3] == 4 && v.tail == 5
    requires v.ws[3] == CANCELLED && v.ws[4] == CANCELLED
    ensures Shows(u, w) && Sized(w)
    ensures w == v.(fs := v.fs[3 := CALLED.(pc := Us(UsScanStatus), ws := 1, c := 5)])
  {
    hide Shows;
    u, w := Move(s, v, 3, Go, 1, CALLED.(pc := Us(UsStatus)), Nothing);
    u, w := Move(u, w, 3, Go, 3, CALLED.(pc := Us(UsNext), ws := 1), Nothing);
    u, w := Move(u, w, 3, Go, 3, CALLED.(pc := Us(UsNextStatus), ws := 1, s := 4), Nothing);
    u, w := Move(u, w, 3, Go, 4, CALLED.(pc := Us(UsTail), ws := 1, s := 4), Nothing);
    u, w := Move(u, w, 3, Go, 0, CALLED.(pc := Us(UsScanStatus), ws := 1, c := 5), Nothing);
  }

  /** The scan passes nodes 5 and 1 and falls off the chain. */
  lemma FallsOff(s: State, v: View) returns (u: State, w: View)
    requires Shows(s, v) && Sized(v)
    requires v.fs[3] == CALLED.(pc := Us(UsScanStatus), ws := 1, c := 5)
    requires v.ws[5] == 0 && v.prev[5] == 1 && v.ws[1] == SIGNAL && v.prev[1] == NULL
    ensures Shows(u, w) && Sized(w)
    ensures w == v.(fs := v.fs[3 := CALLED.(pc := Us(UsThread), ws := 1, s := 1)])
  {
    hide Shows;
    u, w := Move(s, v, 3, Go, 5, CALLED.(pc := Us(UsScanPrev), ws := 1, c := 5, s := 5), Nothing);
    u, w := Move(u, w, 3, Go, 5, CALLED.(pc := Us(UsScanStatus), ws := 1, c := 1, s := 5), Nothing);
    u, w := Move(u, w, 3, Go, 1, CALLED.(pc := Us(UsScanPrev), ws := 1, c := 1, s := 1), Nothing);
    u, w := Move(u, w, 3, Go, 1, CALLED.(pc := Us(UsThread), ws := 1, s := 1), Nothing);
  }

  /** Thread 3 unparks nobody. */
  lemma Ends(s: State, v: View) returns (u: State, w: View)
    requires Shows(s, v) && Sized(v)
    requires v.fs[3] == CALLED.(pc := Us(UsThread), ws := 1, s := 1) && v.thr[1] == 0
    ensures Shows(u, w) && Sized(w)
    ensures w == v.(next := v.next[3 := 3], fs := v.fs[3 := CALLED.(ws := 1, s := 1)])
  {
    hide Shows;
    u, w := Move(s, v, 3, Go, 1, CALLED.(pc := Us(UsUnpark), ws := 1, s := 1), Nothing);
    u, w := Move(u, w, 3, Go, 0, CALLED.(pc := Gone(CaSelf), ws := 1, s := 1), Nothing);
    u, w := Move(u, w, 3, Go, 0, CALLED.(ws := 1, s := 1), WriteNext(3, 3));
  }

  // ------------------------------------------------------------ the whole run

  /** All are queued; thread 5 has not linked its node from node 4 yet. */
  lemma AllQueued() returns (u: State, w: View)
    ensures Shows(u, w)
    ensures w == View(1, 2, 5, 6, NONE, [0, 2, 0, 1, 3, 4], [0, 3, 1, 4, 0, 0], [0, 2, 0, 3, 4, 5],
                      [IDLE_FRAME, HELD, Queued(AqReadPrev, 1, 2).(x := 2), Queued(AqReadPrev, 3, 1),
                       Queued(AqReadPrev, 4, 3), Queued(EnqSetNext, 5, 4)])
  {
    hide Shows;
    u, w := Contend();
    u, w := Initialises(u, w);
    u, w := First(u, w);
    u, w := Link(u, w, 2);
    u, w := Queue(u, w, 3);
    u, w := Link(u, w, 3);
    u, w := Queue(u, w, 4);
    u, w := Link(u, w, 4);
    u, w := Queue(u, w, 5);
  }

  /** Thread 5 links to node 1; thread 3 has cancelled node 3 and is about to signal node 1. */
  lemma AllSkipped() returns (u: State, w: View)
    ensures Shows(u, w)
    ensures w == View(1, 2, 5, 6, [0, 0, 0, 1, 1, 0], [0, 2, 0, 1, 3, 1], [0, 5, 1, 4, 5, 0], [0, 2, 0, 0, 0, 5],
                      [IDLE_FRAME, HELD, Queued(AqReadPrev, 1, 2).(x := 2), GONE3.(pc := Gone(CaCas)),
                       GONE4, Queued(AqReadPrev, 5, 1).(x := 1, ws := 1)])
  {
    hide Shows;
    u, w := AllQueued();
    u, w := TimeOut(u, w, 4);
    u, w := Withdraw(u, w, 4);
    u, w := Cancel(u, w, 4);
    u, w := LeavesDuty(u, w);
    u, w := Link(u, w, 5);
    u, w := TimeOut(u, w, 3);
    u, w := Withdraw(u, w, 3);
    u, w := Cancel(u, w, 3);
    u, w := Skips(u, w);
    u, w := Skipped(u, w);
  }

  /** All are idle but thread 5, which is parked. */
  lemma AllDone() returns (u: State, w: View)
    ensures Shows(u, w) && Sized(w) && w.st == 0 && w.fs[5].pc == Wait(Park)
    ensures w.fs[1].pc == w.fs[2].pc == w.fs[3].pc == w.fs[4].pc == Idle
  {
    hide Shows;
    u, w := AllSkipped();
    u, w := Release(u, w, 1);
    u, w := Takes(u, w);
    u, w := Leads(u, w);
    u, w := Unlinks(u, w);
    u, w := Fails(u, w);
    u, w := Release(u, w, 2);
    u, w := Parks(u, w);
    u, w := Scans(u, w);
    u, w := FallsOff(u, w);
    u, w := Ends(u, w);
  }

  /** The state this run ends in contradicts the conclusion of `NoLostWakeup`. */
  lemma {:induction false} LostWakeup()
    ensures exists sched: Schedule ::
              var s := Run(Init(Mutex, 0), sched);
              Uses(sched, ACQUIRING) && Quiescent(s) && Available(s.m) && Lost(s, 5) && s.stale
  {
    hide Run;
    var u, w := AllDone();
    var sched: Schedule :| Uses(sched, ACQUIRING) && u == Run(Init(Mutex, 0), sched);
    assert Th(u, 5) == w.fs[5];
    assert Quiescent(u) && Available(u.m) && Lost(u, 5);
    if !u.stale { NoLostWakeup(Mutex, 0, sched, 5); }
  }

  /** The run comes to rest with the synchronizer available and yet leaves a waiter behind. */
  ghost predicate Loses(sched: Schedule) {
    var s := Run(Init(Mutex, 0), sched);
    Quiescent(s) && Available(s.m) && exists t :: Lost(s, t)
  }

  /** Threads that may call acquire and release lose wakeups exactly if they may also give up. */
  lemma {:induction false} LostExactlyIfAborts(allowed: iset<Choice>)
    requires Go in allowed
    ensures Abort in allowed <==> exists sched :: Uses(sched, allowed) && Loses(sched)
  {
    hide Run, Available, Quiescent, Lost;
    if Abort in allowed {
      LostWakeup();
      var sched: Schedule :|
        var s := Run(Init(Mutex, 0), sched);
        Uses(sched, ACQUIRING) && Quiescent(s) && Available(s.m) && Lost(s, 5);
      assert Uses(sched, allowed) && Loses(sched);
    } else {
      forall sched | Uses(sched, allowed)
        ensures !Loses(sched)
      {
        if Loses(sched) {
          var t :| Lost(Run(Init(Mutex, 0), sched), t);
          NoLostWakeupUninterrupted(Mutex, 0, sched, t);
        }
      }
    }
  }
}
