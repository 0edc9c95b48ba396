/** The next links, which the source calls an optimization: as long as nobody gives up an acquire, the
    next of every queued node is the node behind it, except while that one is being linked. */
module AqsLinks {
  import opened AqsModel
  import opened AqsQueue
  import opened AqsPreserve
  import opened AqsTheorems
  import opened AqsWakeup

  /** The thread is about to link `n` from its predecessor. */
  predicate Links(f: Frame, n: Ref) {
    (f.pc == Wait(EnqSetNext) && f.n == n) || (f.pc == Sig(SigSetNext) && f.e == n)
  }

  ghost predicate Linked(s: State, n: Ref) {
    Next(s.m, Prev(s.m, n)) == n || exists a :: Links(Th(s, a), n)
  }

  /** The thread skips cancelled predecessors in the acquire loop. */
  predicate Skipping(f: Frame) { f.pc.Wait? && f.pc.w in {SpReadPrev, SpWritePrev, SpPredStatus, SpSetNext} }

  ghost predicate LinkInv(s: State) {
    && (forall t :: !Cancels(Th(s, t)) && !Skipping(Th(s, t)))
    && (forall k {:trigger Ws(s.m, k)} :: Ws(s.m, k) <= 0)
    && (forall n {:trigger BehindHead(s.m, n)} :: BehindHead(s.m, n) ==> Linked(s, n))
  }

  /** The writes of a step with which nobody cancels. */
  ghost predicate Plain(m: Mem, f: Frame, g: Frame, e: Effect) {
    && !Skipping(g)
    && (e.WriteStatus? ==> e.ws <= 0)
    && (e.WritePrev? ==> (f.pc == Enq(EnqSetPrev) && e.r == f.e) || (f.pc == Lead(SetHeadPrev) && e.r == f.n))
    && (e.WriteNext? ==> Links(f, e.v) || f.pc == Lead(ClearNext))
    && (e.WriteNext? ==> e.r == f.p)
    && (forall n :: Links(f, n) ==> e == WriteNext(f.p, n))
    && (e.Append? ==> Links(g, e.r))
  }

  lemma PlainWait(m: Mem, t: Tid, f: Frame, pc: WaitPc, c: Choice)
    requires f.pc == Wait(pc) && !Skipping(f) && !Cancels(f) && Ws(m, f.p) <= 0
    ensures var (g, e) := ActWait(m, t, f, pc, c); Plain(m, f, g, e)
  {
  }

  lemma PlainEnq(m: Mem, t: Tid, f: Frame, pc: EnqPc)
    requires f.pc == Enq(pc) && ThreadOk(m, t, f)
    ensures var (g, e) := ActEnq(m, f, pc); Plain(m, f, g, e)
  {
  }

  lemma PlainLead(m: Mem, f: Frame, pc: LeadPc)
    requires f.pc == Lead(pc)
    ensures var (g, e) := ActLead(m, f, pc); Plain(m, f, g, e)
  {
  }

  lemma PlainUs(m: Mem, f: Frame, pc: UsPc)
    requires f.pc == Us(pc)
    ensures var (g, e) := ActUs(m, f, pc); Plain(m, f, g, e)
  {
  }

  lemma PlainDr(m: Mem, f: Frame, pc: DrPc)
    requires f.pc == Dr(pc)
    ensures var (g, e) := ActDr(m, f, pc); Plain(m, f, g, e)
  {
  }

  lemma PlainOther(m: Mem, t: Tid, f: Frame, c: Choice)
    requires !f.pc.Wait? && !f.pc.Enq? && !f.pc.Lead? && !f.pc.Us? && !f.pc.Dr? && !f.pc.Quit? && !f.pc.Gone?
    ensures var (g, e) := Act(m, t, f, c); Plain(m, f, g, e)
  {
  }

  lemma PlainStep(m: Mem, t: Tid, f: Frame, c: Choice)
    requires ThreadOk(m, t, f) && !Skipping(f) && !Cancels(f) && Ws(m, f.p) <= 0
    ensures var (g, e) := Act(m, t, f, c); Plain(m, f, g, e)
  {
    hide Plain, ThreadOk, Skipping, ActEnq, ActWait, ActQuit, ActLead, ActGone, ActRel, ActDr, ActUs, ActCond, ActSig,
      ActOutside;
    match f.pc
    case Wait(pc) => PlainWait(m, t, f, pc, c);
    case Enq(pc) => PlainEnq(m, t, f, pc);
    case Lead(pc) => PlainLead(m, f, pc);
    case Us(pc) => PlainUs(m, f, pc);
    case Dr(pc) => PlainDr(m, f, pc);
    case Quit(_) => assert false;
    case Gone(_) => assert false;
    case _ => PlainOther(m, t, f, c);
  }

  /** A thread that links `n` does so from the predecessor of `n`. */
  lemma LinksFromPrev(m: Mem, t: Tid, f: Frame, n: Ref)
    requires Shape(m) && ThreadOk(m, t, f) && Links(f, n) && BehindHead(m, n) && forall k :: Ws(m, k) <= 0
    ensures f.p == Prev(m, n)
  {
    hide EndsOk;
    assert Behind(m, Prev(m, n), n);
    if f.pc.Sig? { SameLivePredecessor(m, f.p, Prev(m, n), n); }
  }

  /** Two nodes directly behind the same live node are one. */
  lemma OneBehind(m: Mem, p: Ref, a: Ref, b: Ref)
    requires Numbered(m) && Behind(m, p, a) && Behind(m, p, b) && Ws(m, a) <= 0 && Ws(m, b) <= 0
    ensures a == b
  {
    LiveNotSkipped(m, p, a, b);
    LiveNotSkipped(m, p, b, a);
    if m.ord[a] == m.ord[b] { Positions(m, a, b); }
  }

  /** The next of the predecessor of `n` is only written to `n`. */
  lemma NextStays(m: Mem, t: Tid, f: Frame, g: Frame, e: Effect, n: Ref)
    requires Shape(m) && ThreadOk(m, t, f) && Plain(m, f, g, e) && BehindHead(m, n)
    requires forall k :: Ws(m, k) <= 0
    ensures e.WriteNext? && e.r == Prev(m, n) ==> e.v == n
  {
    hide EndsOk;
    var p := Prev(m, n);
    assert Behind(m, p, n);
    if e.WriteNext? && e.r == p {
      if f.pc == Lead(ClearNext) {
        LiveNotSkipped(m, p, n, m.head);
        assert false;
      } else {
        LinksBehind(m, t, f, e.v);
        OneBehind(m, p, e.v, n);
      }
    }
  }

  lemma LinksBehind(m: Mem, t: Tid, f: Frame, n: Ref)
    requires Shape(m) && ThreadOk(m, t, f) && Links(f, n)
    ensures Behind(m, f.p, n)
  {
    if f.pc.Wait? { SeesPrev(m, t, f); }
  }

  lemma LinkStep(s: State, t: Tid, c: Choice)
    requires Inv(s) && LinkInv(s) && t != 0 && c != Abort
    ensures LinkInv(Step(s, t, c))
  {
    hide Act, Write, StaleSignal, Shape, ThreadOk, Owned, OneInitialiser, Plain, Skipping, Cancels, Linked, Legit;
    var m, f, u := s.m, Th(s, t), Step(s, t, c);
    var (g, e) := Act(m, t, f, c);
    assert ThreadOk(m, t, f);
    StepFrames(s, t, c);
    StepThread(m, t, f, c);
    PlainStep(m, t, f, c);
    NoCancelStep(m, t, f, c);
    PlainIs(m, f, g, e);
    forall k ensures Ws(u.m, k) <= 0 { FieldsKept(m, t, e, k); }
    forall n | BehindHead(u.m, n)
      ensures Linked(u, n)
    {
      NodeLinked(s, t, c, n);
    }
  }

  lemma PlainIs(m: Mem, f: Frame, g: Frame, e: Effect)
    requires Plain(m, f, g, e)
    ensures !Skipping(g) && (e.WriteStatus? ==> e.ws <= 0)
  {
  }

  lemma NodeLinked(s: State, t: Tid, c: Choice, n: Ref)
    requires Inv(s) && LinkInv(s) && t != 0 && BehindHead(Step(s, t, c).m, n)
    requires var (g, e) := Act(s.m, t, Th(s, t), c); Plain(s.m, Th(s, t), g, e)
    ensures Linked(Step(s, t, c), n)
  {
    hide Act, Write, StaleSignal, Shape, ThreadOk, Owned, OneInitialiser, Legit, Links, Skipping, Cancels;
    var m, f, u := s.m, Th(s, t), Step(s, t, c);
    var (g, e) := Act(m, t, f, c);
    assert ThreadOk(m, t, f);
    StepFrames(s, t, c);
    StepThread(m, t, f, c);
    if e == Append(n) {
      assert Links(Th(u, t), n);
    } else {
      StaysBehind(m, t, e, n);
      PrevStays(m, t, f, g, e, n);
      NextStays(m, t, f, g, e, n);
      FieldsKept(m, t, e, Prev(m, n));
      assert Linked(s, n);
      if Next(m, Prev(m, n)) != n {
        var a :| Links(Th(s, a), n);
        if a == t { LinksFromPrev(m, t, f, n); } else { assert Links(Th(u, a), n); }
      }
    }
  }

  lemma StaysBehind(m: Mem, t: Tid, e: Effect, n: Ref)
    requires Shape(m) && Legit(m, t, e) && BehindHead(Write(m, t, e), n) && e != Append(n)
    ensures BehindHead(m, n)
  {
    hide LinksOk, Write;
    EndsAre(m, t, e);
  }

  lemma PrevStays(m: Mem, t: Tid, f: Frame, g: Frame, e: Effect, n: Ref)
    requires Shape(m) && ThreadOk(m, t, f) && Plain(m, f, g, e) && BehindHead(m, n)
    ensures Prev(Write(m, t, e), n) == Prev(m, n)
  {
    hide Write, LinksOk, EndsOk;
    FieldsKept(m, t, e, n);
  }

  lemma {:induction false} LinkRun(s: State, sched: Schedule)
    requires Inv(s) && LinkInv(s) && forall i :: 0 <= i < |sched| ==> sched[i].1 != Abort
    ensures LinkInv(Run(s, sched))
    decreases |sched|
  {
    hide LinkInv, Inv, Step;
    if sched != [] {
      var (t, c) := sched[0];
      InvStep(s, t, c);
      if t != 0 { LinkStep(s, t, c); } else { assert Step(s, t, c) == s by { StepsNot(s, c); } }
      LinkRun(Step(s, t, c), sched[1..]);
    }
  }

  lemma StepsNot(s: State, c: Choice)
    ensures Step(s, 0, c) == s
  {
  }

  lemma LinkInit(kind: Kind, st: nat)
    ensures LinkInv(Init(kind, st))
  {
  }

  /** In every run in which nobody gives up an acquire, signalled waiters included: the next of the
      predecessor of every node behind head is that node, unless a thread is about to write it. */
  lemma NextLinksFollow(kind: Kind, st: nat, sched: Schedule, n: Ref)
    requires forall i :: 0 <= i < |sched| ==> sched[i].1 != Abort
    requires BehindHead(Run(Init(kind, st), sched).m, n)
    ensures var s := Run(Init(kind, st), sched); Next(s.m, Prev(s.m, n)) == n || exists a :: Links(Th(s, a), n)
  {
    hide Run, Inv, Links;
    InvInit(kind, st);
    LinkInit(kind, st);
    LinkRun(Init(kind, st), sched);
    assert Linked(Run(Init(kind, st), sched), n);
  }
}
