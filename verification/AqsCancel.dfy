/** What cancelAcquire does when its thread is left alone, from every reachable state. */
module AqsCancel {
  import opened AqsModel
  import opened AqsQueue
  import opened AqsPreserve
  import opened AqsTheorems
  import opened AqsWakeup
  import opened AqsProgress
  import opened AqsOutcome

  /** `x` is the first live node behind `n`, and its thread is not giving up. */
  ghost predicate NextWaiter(m: Mem, t: Tid, n: Ref, x: Ref) { Behind(m, n, x) && Waiter(m, t, x) }

  /** The duty to signal the next waiter has been passed on to the predecessor `p`, which now also links
      to that waiter if `n` did; or else the next waiter has been unparked. */
  ghost predicate PassedOn(m0: Mem, m: Mem, t: Tid, p: Ref, n: Ref, x: Ref) {
    if p != m0.head && Thr(m0, p) != 0 then
      && Ws(m, p) == SIGNAL
      && (Next(m0, n) != NULL && Ws(m, Next(m0, n)) <= 0 ==> Next(m, p) == Next(m0, n))
    else NextWaiter(m0, t, n, x) ==> Own(m, x) in m.permits
  }

  /** `n` is cancelled; if it was the last node the queue now ends with `p`, and otherwise its next is
      itself and the duty has been passed on. */
  ghost predicate Withdrawn(m0: Mem, m: Mem, t: Tid, p: Ref, n: Ref, x: Ref) {
    && Ws(m, n) == CANCELLED && Thr(m, n) == 0
    && if m0.tail == n then m.tail == p && Next(m, p) == NULL
       else m.tail == m0.tail && Next(m, n) == n && PassedOn(m0, m, t, p, n, x)
  }

  // ---- From line to line

  /** What stays during the whole call. */
  ghost predicate Stays(m0: Mem, m: Mem, t: Tid, n: Ref, x: Ref) {
    && m.head == m0.head && m.ord == m0.ord && m.own == m0.own
    && (forall k {:trigger Thr(m, k)} :: k != n ==> Thr(m, k) == Thr(m0, k))
    && (NextWaiter(m0, t, n, x) ==> Covers(m, n, x) && Waiter(m, t, x))
  }

  /** Before the node is marked. */
  ghost predicate Early(m0: Mem, m: Mem, f: Frame, p: Ref, n: Ref) {
    && m.ws == m0.ws && m.next == m0.next && m.tail == m0.tail && Behind(m, p, n) && Ws(m, p) <= 0
    && (f.pc == Quit(CaPredNext) || f.pc == Quit(CaMark) ==> f.p == p)
    && (f.pc == Quit(CaMark) ==> f.q == Next(m0, p))
  }

  /** After that. */
  ghost predicate Late(m0: Mem, m: Mem, t: Tid, f: Frame, pc: GonePc, p: Ref, n: Ref, x: Ref) {
    && Ws(m, n) == CANCELLED && Thr(m, n) == 0 && n != p
    && (pc != CaSelf ==> m.next == m0.next && f.p == p && f.q == Next(m0, p))
    && (if pc == CaTail then m.tail == m0.tail
        else if pc == CaTailCas then m.tail == m0.tail == n
        else if pc == CaNullNext then m0.tail == n && m.tail == p
        else m.tail == m0.tail != n)
    && (pc in {CaTail, CaTailCas, CaNullNext, CaHead, CaStatus, CaCas} ==> Ws(m, p) <= 0)
    && (pc in {CaStatus, CaCas, CaPredThread, CaNext, CaNextStatus, CaSplice} ==> p != m.head)
    && (pc == CaCas ==> f.ws == Ws(m, p))
    && (pc in {CaPredThread, CaNext, CaNextStatus, CaSplice} ==> Ws(m, p) == SIGNAL)
    && (pc in {CaNext, CaNextStatus, CaSplice} ==> Thr(m, p) != 0)
    && (pc in {CaNextStatus, CaSplice} ==> f.x == Next(m0, n) != NULL)
    && (pc == CaSplice ==> Ws(m, f.x) <= 0)
    && (pc == CaSelf ==> PassedOn(m0, m, t, p, n, x))
  }

  ghost predicate CancelPath(m0: Mem, s: State, t: Tid, p: Ref, n: Ref, x: Ref) {
    var m, f := s.m, Th(s, t);
    && f.n == n && Stays(m0, m, t, n, x)
    && match f.pc
       case Wait(pc) => pc == CaThread && Early(m0, m, f, p, n)
       case Quit(pc) => Early(m0, m, f, p, n)
       case Gone(pc) => Late(m0, m, t, f, pc, p, n, x)
       case Us(pc) =>
         && pc != UsCas && f.caller == ByCancel && f.y == n && Ws(m, n) == CANCELLED && Thr(m, n) == 0
         && m.tail == m0.tail != n
         && (p == m.head || Thr(m, p) == 0) && n != p
         && (NextWaiter(m0, t, n, x) ==> Unparks(m, f, x))
       case Idle => Withdrawn(m0, m, t, p, n, x)
       case _ => false
  }

  /** No step of the call touches what stays. */
  lemma StaysKept(m0: Mem, m: Mem, t: Tid, e: Effect, n: Ref, x: Ref)
    requires Shape(m) && Legit(m, t, e) && Stays(m0, m, t, n, x)
    requires !e.Append? && !e.WriteHead? && !e.InitHead? && !e.Alloc? && !e.AllocWaiting?
    requires (e.ClearThread? || (e.WriteStatus? && e.ws > 0)) ==> e.r == n
    requires NextWaiter(m0, t, n, x) ==> n != x
    ensures Stays(m0, Write(m, t, e), t, n, x)
  {
    hide LinksOk, Covers, Write, NextWaiter;
    var w := Write(m, t, e);
    EndsAre(m, t, e);
    OwnStays(m, t, e);
    forall k | k != n
      ensures Thr(w, k) == Thr(m0, k)
    {
      FieldsKept(m, t, e, k);
    }
    if NextWaiter(m0, t, n, x) {
      CoversKept(m, t, e, n, x);
      FieldsKept(m, t, e, x);
    }
  }

  lemma OwnStays(m: Mem, t: Tid, e: Effect)
    requires !e.InitHead? && !e.Alloc? && !e.AllocWaiting?
    ensures Write(m, t, e).own == m.own
  {
  }

  /** At the end of the skipping the predecessor is `p`. */
  lemma SkipsTo(m: Mem, t: Tid, f: Frame, p: Ref)
    requires Shape(m) && ThreadOk(m, t, f) && f.pc.Quit? && Behind(m, p, f.n) && Ws(m, p) <= 0
    ensures Prev(m, f.n) == f.p && Ws(m, f.p) <= 0 ==> f.p == p
  {
    SeesPrev(m, t, f);
    if Prev(m, f.n) == f.p && Ws(m, f.p) <= 0 { SameLivePredecessor(m, f.p, p, f.n); }
  }

  /** The steps before the node is marked. */
  lemma EarlyFrame(m0: Mem, m: Mem, t: Tid, f: Frame, p: Ref, n: Ref)
    requires Shape(m) && ThreadOk(m, t, f) && Early(m0, m, f, p, n) && f.n == n
    requires f.pc == Wait(CaThread) || (f.pc.Quit? && f.pc != Quit(CaMark))
    ensures var (g, e) := Act(m, t, f, Go);
      && g.n == n && g.pc.Quit? && Early(m0, m, g, p, n)
      && (e == Nothing || e == ClearThread(n) || (e.WritePrev? && e.r == n))
  {
    hide OwnNodeOk, Shape, Behind, ThreadOk;
    if f.pc.Quit? {
      SkipsTo(m, t, f, p);
      SkipKnows(m, t, f);
    }
  }

  lemma SkipKnows(m: Mem, t: Tid, f: Frame)
    requires ThreadOk(m, t, f)
    ensures f.pc == Quit(CaSkipStatus) || f.pc == Quit(CaPredNext) ==> Prev(m, f.n) == f.p
  {
  }

  /** A write to the thread field or the prev of the node leaves what holds before it is marked. */
  lemma EarlyStays(m0: Mem, m: Mem, t: Tid, e: Effect, g: Frame, p: Ref, n: Ref)
    requires Shape(m) && Legit(m, t, e) && Early(m0, m, g, p, n)
    requires e == Nothing || e == ClearThread(n) || (e.WritePrev? && e.r == n)
    ensures Early(m0, Write(m, t, e), g, p, n)
  {
    BehindStays(m, t, e, p, n);
    FieldsKept(m, t, e, p);
    hide Shape, Legit, Behind;
  }

  lemma EarlyStep(m0: Mem, s: State, t: Tid, p: Ref, n: Ref, x: Ref)
    requires Sane(s) && t != 0 && CancelPath(m0, s, t, p, n, x) && (Th(s, t).pc.Wait? || Th(s, t).pc.Quit?)
    requires Th(s, t).pc != Quit(CaMark)
    ensures CancelPath(m0, Step(s, t, Go), t, p, n, x)
  {
    hide StaleSignal, PrevDown, KindOk, Shape, Owned, OneInitialiser, ThreadOk, Write, Legit, Act, Early, Stays;
    var m, f := s.m, Th(s, t);
    var (g, e) := Act(m, t, f, Go);
    assert ThreadOk(m, t, f);
    StepFrames(s, t, Go);
    StepLegit(s, t, Go);
    EarlyFrame(m0, m, t, f, p, n);
    EarlyStays(m0, m, t, e, g, p, n);
    NotSelf(m0, t, n, x);
    StaysKept(m0, m, t, e, n, x);
  }

  lemma NotSelf(m0: Mem, t: Tid, n: Ref, x: Ref)
    ensures NextWaiter(m0, t, n, x) ==> n != x
  {
  }

  lemma MarkStep(m0: Mem, s: State, t: Tid, p: Ref, n: Ref, x: Ref)
    requires Sane(s) && t != 0 && CancelPath(m0, s, t, p, n, x) && Th(s, t).pc == Quit(CaMark)
    ensures CancelPath(m0, Step(s, t, Go), t, p, n, x)
  {
    hide StaleSignal, PrevDown, KindOk, Owned, OneInitialiser, Write, Legit, Stays, LinksOk, EndsOk, NextWaiter, Gap;
    var m, f := s.m, Th(s, t);
    var e := WriteStatus(n, CANCELLED);
    assert ThreadOk(m, t, f);
    StepFrames(s, t, Go);
    StepLegit(s, t, Go);
    NotSelf(m0, t, n, x);
    StaysKept(m0, m, t, e, n, x);
    EndsAre(m, t, e);
    NextsAre(m, t, e);
    FieldsKept(m, t, e, n);
    FieldsKept(m, t, e, p);
  }

  lemma NextsAre(m: Mem, t: Tid, e: Effect)
    ensures !e.WriteNext? ==> Write(m, t, e).next == m.next
  {
  }

  /** The steps after that, as far as they do not write. */
  lemma LateQuiet(m0: Mem, m: Mem, t: Tid, f: Frame, pc: GonePc, p: Ref, n: Ref, x: Ref)
    requires Shape(m) && ThreadOk(m, t, f) && Late(m0, m, t, f, pc, p, n, x) && Stays(m0, m, t, n, x) && f.n == n
    requires f.pc == Gone(pc) && pc in {CaTail, CaHead, CaStatus, CaPredThread, CaNext, CaNextStatus}
    ensures var (g, e) := ActGone(m, f, pc);
      && e == Nothing && g.n == n
      && (if g.pc.Gone? then Late(m0, m, t, g, g.pc.o, p, n, x)
          else g == EnterUnpark(f, n, ByCancel) && (p == m.head || Thr(m, p) == 0) && m.tail == m0.tail != n)
  {
    hide Shape, ThreadOk, Covers, Waiter, NextWaiter;
  }

  /** The steps that write. */
  lemma LateWrites(m0: Mem, m: Mem, t: Tid, f: Frame, pc: GonePc, p: Ref, n: Ref, x: Ref)
    requires Shape(m) && ThreadOk(m, t, f) && Late(m0, m, t, f, pc, p, n, x) && Stays(m0, m, t, n, x) && f.n == n
    requires f.pc == Gone(pc) && pc in {CaTailCas, CaCas, CaNullNext, CaSplice}
    ensures var (g, e) := ActGone(m, f, pc);
      var w := Write(m, t, e);
      && g.n == n && (e == Nothing || e.WriteTail? || e.WriteNext? || e == WriteStatus(p, SIGNAL))
      && (if g.pc.Gone? then Late(m0, w, t, g, g.pc.o, p, n, x) else g.pc == Idle && Withdrawn(m0, w, t, p, n, x))
  {
    hide Shape, ThreadOk, Covers, Waiter, NextWaiter, Write;
    var (g, e) := ActGone(m, f, pc);
    EndsAre(m, t, e);
    if !e.WriteNext? { NextsAre(m, t, e); }
    FieldsKept(m, t, e, n);
    FieldsKept(m, t, e, p);
    FieldsKept(m, t, e, f.x);
  }

  lemma SelfWrites(m0: Mem, m: Mem, t: Tid, f: Frame, p: Ref, n: Ref, x: Ref)
    requires Late(m0, m, t, f, CaSelf, p, n, x) && f.n == n && f.pc == Gone(CaSelf)
    ensures ActGone(m, f, CaSelf) == (f.(pc := Idle), WriteNext(n, n))
    ensures Withdrawn(m0, Write(m, t, WriteNext(n, n)), t, p, n, x)
  {
    hide NextWaiter, Write;
    var e := WriteNext(n, n);
    var w := Write(m, t, e);
    EndsAre(m, t, e);
    PermitsAre(m, t, e);
    FieldsKept(m, t, e, n);
    FieldsKept(m, t, e, p);
    FieldsKept(m, t, e, Next(m0, n));
    FieldsKept(m, t, e, x);
  }

  lemma LateStep(m0: Mem, s: State, t: Tid, p: Ref, n: Ref, x: Ref)
    requires Sane(s) && t != 0 && CancelPath(m0, s, t, p, n, x) && Th(s, t).pc.Gone?
    ensures CancelPath(m0, Step(s, t, Go), t, p, n, x)
  {
    hide StaleSignal, PrevDown, KindOk, Shape, Owned, OneInitialiser, ThreadOk, Write, Legit, Stays, Late, ActGone,
      Unparks, NextWaiter, Withdrawn;
    var m, f := s.m, Th(s, t);
    var pc := f.pc.o;
    assert ThreadOk(m, t, f);
    StepFrames(s, t, Go);
    StepLegit(s, t, Go);
    NotSelf(m0, t, n, x);
    var (g, e) := ActGone(m, f, pc);
    if pc == CaSelf {
      SelfWrites(m0, m, t, f, p, n, x);
      StaysKept(m0, m, t, e, n, x);
    } else if pc in {CaTailCas, CaCas, CaNullNext, CaSplice} {
      LateWrites(m0, m, t, f, pc, p, n, x);
      StaysKept(m0, m, t, e, n, x);
    } else {
      LateQuiet(m0, m, t, f, pc, p, n, x);
      assert Write(m, t, Nothing) == m by { WriteNothing(m, t); }
      if !g.pc.Gone? { EntersUnpark(m0, m, t, f, g, pc, p, n, x); }
    }
  }

  lemma WriteNothing(m: Mem, t: Tid)
    ensures Write(m, t, Nothing) == m
  {
  }

  lemma EntersUnpark(m0: Mem, m: Mem, t: Tid, f: Frame, g: Frame, pc: GonePc, p: Ref, n: Ref, x: Ref)
    requires Stays(m0, m, t, n, x) && Late(m0, m, t, f, pc, p, n, x) && g == EnterUnpark(f, n, ByCancel)
    ensures Ws(m, n) == CANCELLED && Thr(m, n) == 0 && n != p
    ensures NextWaiter(m0, t, n, x) ==> Unparks(m, g, x)
  {
    hide Reaches;
  }

  lemma UnparkStep(m0: Mem, s: State, t: Tid, p: Ref, n: Ref, x: Ref)
    requires Sane(s) && t != 0 && CancelPath(m0, s, t, p, n, x) && Th(s, t).pc.Us?
    ensures CancelPath(m0, Step(s, t, Go), t, p, n, x)
  {
    hide StaleSignal, PrevDown, KindOk, Shape, Owned, OneInitialiser, ThreadOk, Write, Legit, Unparks, NextWaiter,
      Stays, PassedOn, ActUs;
    var m, f := s.m, Th(s, t);
    assert ThreadOk(m, t, f);
    StepFrames(s, t, Go);
    StepLegit(s, t, Go);
    NotSelf(m0, t, n, x);
    var (g, e) := Act(m, t, f, Go);
    NoStatus(m, t, f, n);
    StaysKept(m0, m, t, e, n, x);
    EndsAre(m, t, e);
    FieldsKept(m, t, e, n);
    FieldsKept(m, t, e, p);
    if NextWaiter(m0, t, n, x) {
      StaysIs(m0, m, t, n, x);
      UnparksStep(m, t, f, Go, x);
      UnparkedOnce(m, t, f, x);
      UnparkWrites(m, t, e, x);
    }
    Passed(m0, m, Write(m, t, e), t, p, n, x);
  }

  lemma UnparkWrites(m: Mem, t: Tid, e: Effect, x: Ref)
    ensures e == Unpark(Own(m, x)) ==> Own(Write(m, t, e), x) in Write(m, t, e).permits
  {
    FieldsKept(m, t, e, x);
  }

  lemma Passed(m0: Mem, m: Mem, w: Mem, t: Tid, p: Ref, n: Ref, x: Ref)
    requires Stays(m0, m, t, n, x) && (p == m.head || Thr(m, p) == 0) && n != p
    ensures (NextWaiter(m0, t, n, x) ==> Own(w, x) in w.permits) ==> PassedOn(m0, w, t, p, n, x)
  {
    hide NextWaiter, Covers;
  }

  lemma StaysIs(m0: Mem, m: Mem, t: Tid, n: Ref, x: Ref)
    requires Stays(m0, m, t, n, x) && NextWaiter(m0, t, n, x)
    ensures Waiter(m, t, x)
  {
  }

  /** The status of a cancelled node is not touched, and the call goes on in its last line. */
  lemma NoStatus(m: Mem, t: Tid, f: Frame, n: Ref)
    requires f.pc.Us? && f.pc != Us(UsCas) && f.caller == ByCancel && f.y == n && Ws(m, n) == CANCELLED
    ensures var (g, e) := Act(m, t, f, Go);
      && g.n == f.n && g.y == f.y && g.caller == ByCancel && (g.pc == Gone(CaSelf) || (g.pc.Us? && g.pc != Us(UsCas)))
      && (e == Nothing || e.Unpark?)
  {
  }

  lemma CancelStep(m0: Mem, s: State, t: Tid, p: Ref, n: Ref, x: Ref)
    requires Sane(s) && t != 0 && CancelPath(m0, s, t, p, n, x) && !Resting(s.m, t, Th(s, t))
    ensures CancelPath(m0, Step(s, t, Go), t, p, n, x)
  {
    hide Sane, Step;
    match Th(s, t).pc
    case Wait(_) => EarlyStep(m0, s, t, p, n, x);
    case Quit(pc) => if pc == CaMark { MarkStep(m0, s, t, p, n, x); } else { EarlyStep(m0, s, t, p, n, x); }
    case Gone(_) => LateStep(m0, s, t, p, n, x);
    case Us(_) => UnparkStep(m0, s, t, p, n, x);
    case _ =>
  }

  lemma CancelStarts(s: State, t: Tid, p: Ref, x: Ref)
    requires Sane(s) && Th(s, t).pc == Wait(CaThread) && Behind(s.m, p, Th(s, t).n) && Ws(s.m, p) <= 0
    ensures CancelPath(s.m, s, t, p, Th(s, t).n, x)
  {
    hide PrevDown, KindOk, Owned, OneInitialiser, Reaches;
    var m, n := s.m, Th(s, t).n;
    assert ThreadOk(m, t, Th(s, t));
    if NextWaiter(m, t, n, x) { HeadCovers(m, n, x); }
  }

  lemma CancelRests(m0: Mem, u: State, t: Tid, p: Ref, n: Ref, x: Ref)
    requires CancelPath(m0, u, t, p, n, x) && Resting(u.m, t, Th(u, t))
    ensures Th(u, t).pc == Idle && Withdrawn(m0, u.m, t, p, n, x)
  {
  }

  /** From every reachable state: a thread that cancels, left alone, returns with its node cancelled and
      taken off the end of the queue, or spliced out with the duty to signal passed on to the nearest
      node in front that is not cancelled, or else with the next waiter unparked. */
  lemma CancelWithdraws(s: State, t: Tid, p: Ref, x: Ref) returns (k: nat)
    requires Reached(s) && t != 0 && Th(s, t).pc == Wait(CaThread)
    requires Behind(s.m, p, Th(s, t).n) && Ws(s.m, p) <= 0
    ensures var u := Run(s, Alone(t, k)); Th(u, t).pc == Idle && Withdrawn(s.m, u.m, t, p, Th(s, t).n, x)
  {
    hide Sane, Run, Step, Reached, Resting, CancelPath, Behind, Withdrawn;
    ReachedSane(s);
    var m0, n := s.m, Th(s, t).n;
    CancelStarts(s, t, p, x);
    forall w | Sane(w) && CancelPath(m0, w, t, p, n, x) && !Resting(w.m, t, Th(w, t))
      ensures CancelPath(m0, Step(w, t, Go), t, p, n, x)
    {
      CancelStep(m0, w, t, p, n, x);
    }
    k := RestsWith(s, t, w => CancelPath(m0, w, t, p, n, x));
    CancelRests(m0, Run(s, Alone(t, k)), t, p, n, x);
  }
}
