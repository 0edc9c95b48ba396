/** The queue invariant is inductive: it is split into what a write needs (`Legit`), what a
    legitimate write keeps, and what the thread that performed the step then satisfies. */
module AqsPreserve {
  import opened AqsModel
  import opened AqsQueue

  ghost predicate Legit(m: Mem, t: Tid, e: Effect) {
    match e
    case Nothing | SetState(_) | Alloc | Unpark(_) | TakePermit(_) => true
    case AllocWaiting => t != 0
    case Claim(r) => r in m.waiting
    case InitHead => m.head == NULL
    case WriteHead(r) => BehindHead(m, r) && Ws(m, r) <= 0 && Prev(m, r) == m.head && Own(m, r) == t
    case WriteTail(r) =>
      || (r == m.head && m.head != NULL && m.tail == NULL)
      || (m.tail != NULL && Behind(m, r, m.tail) && Ws(m, m.tail) == CANCELLED)
    case Append(r) =>
      && NULL < r < m.nextRef && r !in m.ord && m.tail != NULL && Prev(m, r) == m.tail
      && Mover(m, r) == t && r !in m.waiting
    case WriteStatus(r, v) =>
      && r in m.ord && Ws(m, r) <= 0
      && (v <= 0 || (v == CANCELLED && BehindHead(m, r) && Own(m, r) == t && Thr(m, r) == 0 && r !in m.mover))
    case WritePrev(r, v) =>
      && r < m.nextRef && (if r in m.ord then Own(m, r) == t else Mover(m, r) == t && r !in m.waiting)
      && (r in m.ord ==> Ws(m, r) <= 0 && if BehindHead(m, r) then Behind(m, v, r) else v == NULL)
    case WriteNext(r, v) => v == NULL || NextOk(m, r, v)
    case ClearThread(r) => Own(m, r) == t
  }

  lemma GapKept(m: Mem, t: Tid, e: Effect, lo: nat, hi: nat)
    requires Legit(m, t, e) && Gap(m, lo, hi) && hi <= |m.log|
    ensures Gap(Write(m, t, e), lo, hi)
  {
  }

  lemma BehindKept(m: Mem, t: Tid, e: Effect, y: Ref, n: Ref)
    requires Numbered(m) && EndsOk(m) && Legit(m, t, e) && Behind(m, y, n)
    ensures Behind(Write(m, t, e), y, n)
  {
    GapKept(m, t, e, m.ord[y], m.ord[n]);
  }

  /** What a write does to the fields of one node. */
  lemma FieldsKept(m: Mem, t: Tid, e: Effect, k: Ref)
    ensures Ws(Write(m, t, e), k) == if e.WriteStatus? && e.r == k then e.ws else Ws(m, k)
    ensures Prev(Write(m, t, e), k) == if e.WritePrev? && e.r == k then e.v else Prev(m, k)
    ensures Next(Write(m, t, e), k) == if e.WriteNext? && e.r == k then e.v else Next(m, k)
    ensures Thr(Write(m, t, e), k) ==
            if e.ClearThread? && e.r == k then 0
            else if (e.Alloc? || e.AllocWaiting?) && k == m.nextRef then t else Thr(m, k)
    ensures Own(Write(m, t, e), k) ==
            if (e.Alloc? || e.AllocWaiting?) && k == m.nextRef then t
            else if e.InitHead? && k == m.nextRef then 0 else Own(m, k)
  {
  }

  /** What a write does to the history of waiting for signals. */
  lemma MoverKept(m: Mem, t: Tid, e: Effect, k: Ref)
    ensures k in Write(m, t, e).waiting <==>
            (k in m.waiting && e != Claim(k)) || (e.AllocWaiting? && k == m.nextRef)
    ensures k in Write(m, t, e).mover <==> k in m.mover || e == Claim(k)
    ensures k < m.nextRef ==> Mover(Write(m, t, e), k) == if e == Claim(k) then t else Mover(m, k)
  {
  }

  lemma NumberedKept(m: Mem, t: Tid, e: Effect)
    requires Shape(m) && Legit(m, t, e)
    ensures Numbered(Write(m, t, e))
  {
    hide EndsOk, LinksOk;
    var m' := Write(m, t, e);
    OrderKept(m, t, e);
    forall k
      ensures Ws(m', k) <= CANCELLED && (k !in m'.ord ==> Ws(m', k) == 0 && Next(m', k) == NULL)
      ensures k >= m'.nextRef ==> Thr(m', k) == 0 && Prev(m', k) == NULL && Own(m', k) == 0
    {
      FieldsNumberedKept(m, t, e, k);
    }
    WaitingNumberedKept(m, t, e);
  }

  lemma WaitingNumberedKept(m: Mem, t: Tid, e: Effect)
    requires Shape(m) && Legit(m, t, e)
    ensures var m' := Write(m, t, e);
      && (forall k :: k in m'.waiting ==> NULL < k < m'.nextRef && k !in m'.ord && k !in m'.mover && Own(m', k) != 0)
      && (forall k :: k in m'.mover ==> NULL < k < m'.nextRef && Ws(m', k) <= 0 && Own(m', k) != 0)
  {
    hide EndsOk, LinksOk;
    var m' := Write(m, t, e);
    forall k | k in m'.waiting || k in m'.mover
      ensures NULL < k < m'.nextRef && (k in m'.waiting ==> k !in m'.ord && k !in m'.mover && Own(m', k) != 0)
      ensures k in m'.mover ==> Ws(m', k) <= 0 && Own(m', k) != 0
    {
      MoverKept(m, t, e, k);
      FieldsKept(m, t, e, k);
    }
  }

  lemma FieldsNumberedKept(m: Mem, t: Tid, e: Effect, k: Ref)
    requires Shape(m) && Legit(m, t, e)
    ensures var m' := Write(m, t, e);
      && Ws(m', k) <= CANCELLED && (k !in m'.ord ==> Ws(m', k) == 0 && Next(m', k) == NULL)
      && (k >= m'.nextRef ==> Thr(m', k) == 0 && Prev(m', k) == NULL && Own(m', k) == 0)
  {
    hide EndsOk;
    FieldsKept(m, t, e, k);
  }

  /** Positions are those in the order of tail CASes. */
  lemma OrderKept(m: Mem, t: Tid, e: Effect)
    requires Shape(m) && Legit(m, t, e)
    ensures var m' := Write(m, t, e);
      && NULL !in m'.ord && NULL < m'.nextRef
      && (forall k :: k in m'.ord ==> k < m'.nextRef && m'.ord[k] < |m'.log| && m'.log[m'.ord[k]] == k)
      && (forall i :: 0 <= i < |m'.log| ==> m'.log[i] in m'.ord && m'.ord[m'.log[i]] == i)
  {
    hide LinksOk;
  }

  /** What a write does to the ends of the queue and to the order. */
  lemma EndsAre(m: Mem, t: Tid, e: Effect)
    ensures var m' := Write(m, t, e);
      && m'.head == (if e.WriteHead? then e.r else if e.InitHead? then m.nextRef else m.head)
      && m'.tail == (if e.WriteTail? || e.Append? then e.r else m.tail)
      && m'.log == (if e.Append? then m.log + [e.r] else if e.InitHead? then m.log + [m.nextRef] else m.log)
      && m'.ord == (if e.Append? then m.ord[e.r := |m.log|]
                    else if e.InitHead? then m.ord[m.nextRef := |m.log|] else m.ord)
      && (!e.WriteHead? && !e.InitHead? ==> m'.heads == m.heads)
  {
  }

  lemma EndsKept(m: Mem, t: Tid, e: Effect)
    requires Shape(m) && Legit(m, t, e)
    ensures EndsOk(Write(m, t, e))
  {
    hide LinksOk, Write;
    EndsAre(m, t, e);
    match e
    case InitHead => FieldsKept(m, t, e, m.nextRef);
    case Append(r) => AppendEnds(m, t, r);
    case WriteHead(r) => HeadEnds(m, t, r);
    case WriteTail(r) => TailEnds(m, t, r);
    case _ =>
      FieldsKept(m, t, e, m.head);
      if m.tail != NULL { GapKept(m, t, e, m.ord[m.tail], |m.log|); }
  }

  lemma AppendEnds(m: Mem, t: Tid, r: Ref)
    requires Shape(m) && Legit(m, t, Append(r))
    ensures EndsOk(Write(m, t, Append(r)))
  {
    hide LinksOk, Write, Gap;
    EndsAre(m, t, Append(r));
    FieldsKept(m, t, Append(r), m.head);
    EmptyGap(Write(m, t, Append(r)), |m.log|);
  }

  lemma EmptyGap(m: Mem, i: nat)
    ensures Gap(m, i, i + 1)
  {
  }

  lemma HeadEnds(m: Mem, t: Tid, r: Ref)
    requires Shape(m) && Legit(m, t, WriteHead(r))
    ensures EndsOk(Write(m, t, WriteHead(r)))
  {
    hide LinksOk, Write, Gap;
    EndsAre(m, t, WriteHead(r));
    FieldsKept(m, t, WriteHead(r), r);
    if m.tail != NULL { GapKept(m, t, WriteHead(r), m.ord[m.tail], |m.log|); }
  }

  lemma TailEnds(m: Mem, t: Tid, r: Ref)
    requires Shape(m) && Legit(m, t, WriteTail(r))
    ensures EndsOk(Write(m, t, WriteTail(r)))
  {
    hide LinksOk, Write;
    EndsAre(m, t, WriteTail(r));
    FieldsKept(m, t, WriteTail(r), m.head);
    var m' := Write(m, t, WriteTail(r));
    if m.tail != NULL { LiveNotSkipped(m, r, m.tail, m.head); }
    forall k | k in m.ord && m.ord[r] < m.ord[k]
      ensures Ws(m', k) == CANCELLED
    {
      FieldsKept(m, t, WriteTail(r), k);
      if m.tail != NULL && m.ord[k] == m.ord[m.tail] { Positions(m, k, m.tail); }
    }
  }

  lemma BehindLinksKept(m: Mem, t: Tid, e: Effect, k: Ref)
    requires Shape(m) && Legit(m, t, e) && BehindHead(Write(m, t, e), k)
    ensures var m' := Write(m, t, e); Behind(m', Prev(m', k), k)
  {
    var m' := Write(m, t, e);
    FieldsKept(m, t, e, k);
    if !((e.Append? && k == e.r) || e.InitHead?) {
      var p := Prev(m', k);
      assert BehindHead(m, k);
      assert Behind(m, p, k);
      BehindKept(m, t, e, p, k);
    }
  }

  lemma LinksKept(m: Mem, t: Tid, e: Effect)
    requires Shape(m) && Legit(m, t, e)
    ensures LinksOk(Write(m, t, e))
  {
    var m' := Write(m, t, e);
    forall k | BehindHead(m', k)
      ensures Behind(m', Prev(m', k), k)
    {
      BehindLinksKept(m, t, e, k);
    }
    forall k | k in m'.ord && Prev(m', k) != NULL
      ensures Prev(m', k) in m'.ord
    {
      FieldsKept(m, t, e, k);
    }
    forall k | Next(m', k) != NULL
      ensures NextOk(m', k, Next(m', k))
    {
      NextLinksKept(m, t, e, k);
    }
    forall k | k in m'.ord && Ws(m', k) == CANCELLED
      ensures Thr(m', k) == 0
    {
      FieldsKept(m, t, e, k);
    }
  }

  lemma NextLinksKept(m: Mem, t: Tid, e: Effect, k: Ref)
    requires Shape(m) && Legit(m, t, e) && Next(Write(m, t, e), k) != NULL
    ensures var m' := Write(m, t, e); NextOk(m', k, Next(m', k))
  {
    FieldsKept(m, t, e, k);
    var x := Next(Write(m, t, e), k);
    assert NextOk(m, k, x);
    if Behind(m, k, x) { BehindKept(m, t, e, k, x); }
  }

  /** What a write does to a queued node. */
  lemma NodeKept(m: Mem, t: Tid, e: Effect, n: Ref)
    requires Shape(m) && Legit(m, t, e) && n in m.ord
    ensures var m' := Write(m, t, e);
      && n in m'.ord && m'.ord[n] == m.ord[n]
      && Ws(m', n) == (if e.WriteStatus? && e.r == n then e.ws else Ws(m, n))
      && Thr(m', n) == (if e.ClearThread? && e.r == n then 0 else Thr(m, n))
      && Own(m', n) == Own(m, n) && (n in m'.mover <==> n in m.mover)
      && (!e.WriteHead? ==> m'.head == m.head && (BehindHead(m', n) <==> BehindHead(m, n)))
      && (e.WriteHead? ==> m'.head == e.r && e.r in m'.ord && m'.ord[e.r] == m.ord[e.r])
  {
    hide LinksOk, Write;
    EndsAre(m, t, e);
    FieldsKept(m, t, e, n);
    MoverKept(m, t, e, n);
  }

  /** What another thread's write does to a node that is not queued. */
  lemma UnqueuedKept(m: Mem, t: Tid, e: Effect, n: Ref)
    requires Shape(m) && Legit(m, t, e) && NULL < n < m.nextRef && n !in m.ord && Mover(m, n) != t
    ensures var m' := Write(m, t, e);
      && n !in m'.ord && NULL < n < m'.nextRef && Own(m', n) == Own(m, n)
      && (e != ClearThread(n) ==> Thr(m', n) == Thr(m, n)) && (n !in m.waiting ==> (n in m'.mover <==> n in m.mover))
  {
    hide LinksOk, EndsOk;
    FieldsKept(m, t, e, n);
    MoverKept(m, t, e, n);
  }

  lemma OwnNodeKept(m: Mem, t: Tid, e: Effect, u: Tid, g: Frame)
    requires Shape(m) && Legit(m, t, e) && ThreadOk(m, u, g) && u != t
    ensures OwnNodeOk(Write(m, t, e), u, g)
  {
    hide Shape, Write, LocalsOk;
    if g.n in m.ord && StageOf(g) != Outside {
      NodeKept(m, t, e, g.n);
      if StageOf(g) == Leading { NodeKept(m, t, e, g.p); LeadsBefore(m, t, e, u, g); }
      if Waits(g) { NotPassed(m, t, e, u, g.n); }
      NextRefGrows(m, t, e);
    } else if StageOf(g) == Awaiting {
      AwaitingKept(m, t, e, u, g);
    } else if StageOf(g) == Enqueuing {
      EnqueuingKept(m, t, e, u, g);
    }
  }

  lemma NextRefGrows(m: Mem, t: Tid, e: Effect)
    ensures m.nextRef <= Write(m, t, e).nextRef
  {
  }

  /** A live node behind head that belongs to another thread is not passed by head. */
  lemma NotPassed(m: Mem, t: Tid, e: Effect, u: Tid, n: Ref)
    requires Shape(m) && Legit(m, t, e) && u != t && BehindHead(m, n) && Ws(m, n) <= 0 && Own(m, n) == u
    ensures BehindHead(Write(m, t, e), n) && Ws(Write(m, t, e), n) <= 0
  {
    hide Write;
    NodeKept(m, t, e, n);
    if e.WriteHead? {
      LiveNotSkipped(m, m.head, e.r, n);
    }
  }

  lemma LeadsBefore(m: Mem, t: Tid, e: Effect, u: Tid, g: Frame)
    requires Shape(m) && Legit(m, t, e) && OwnNodeOk(m, u, g) && u != t && StageOf(g) == Leading
    ensures var m' := Write(m, t, e);
      m'.head in m'.ord && m'.ord[g.n] <= m'.ord[m'.head] && Ws(m', g.n) <= 0 && Ws(m', g.p) <= 0
  {
    hide LinksOk, Write;
    NodeKept(m, t, e, g.n);
    NodeKept(m, t, e, g.p);
    NodeKept(m, t, e, m.head);
  }

  lemma AwaitingKept(m: Mem, t: Tid, e: Effect, u: Tid, g: Frame)
    requires Shape(m) && Legit(m, t, e) && OwnNodeOk(m, u, g) && u != t && StageOf(g) == Awaiting && g.n !in m.ord
    ensures OwnNodeOk(Write(m, t, e), u, g)
  {
    hide LinksOk;
    FieldsKept(m, t, e, g.n);
    MoverKept(m, t, e, g.n);
  }

  lemma EnqueuingKept(m: Mem, t: Tid, e: Effect, u: Tid, g: Frame)
    requires Shape(m) && Legit(m, t, e) && ThreadOk(m, u, g) && u != t && StageOf(g) == Enqueuing
    ensures OwnNodeOk(Write(m, t, e), u, g)
  {
    hide LinksOk, EndsOk;
    assert Mover(m, g.n) == u;
    UnqueuedKept(m, t, e, g.n);
  }

  /** The facts about memory the locals of a thread with a node depend on. */
  ghost predicate SameView(m: Mem, m': Mem, g: Frame) {
    && (forall k :: k in m.ord ==> k in m'.ord && m'.ord[k] == m.ord[k])
    && Prev(m', g.n) == Prev(m, g.n)
    && (Ws(m, g.p) == CANCELLED ==> Ws(m', g.p) == CANCELLED && Prev(m', g.p) == Prev(m, g.p))
    && (Behind(m, g.p, g.n) ==> Behind(m', g.p, g.n))
    && (NextOk(m, g.n, g.x) ==> NextOk(m', g.n, g.x))
    && (AboutToLead(g.pc) ==> m'.head == m.head)
  }

  lemma LocalsFrame(m: Mem, m': Mem, u: Tid, g: Frame)
    requires LocalsOk(m, u, g) && (SameView(m, m', g) || StageOf(g) == Outside || StageOf(g) == Awaiting)
    requires forall k :: k in m.ord ==> k in m'.ord
    requires !g.pc.Enq? && !g.pc.Sig?
    ensures LocalsOk(m', u, g)
  {
  }

  lemma EnqFrame(m: Mem, t: Tid, e: Effect, u: Tid, g: Frame)
    requires Shape(m) && Legit(m, t, e) && LocalsOk(m, u, g) && u != t && g.pc.Enq?
    requires e.WriteTail? && m.tail == NULL ==> !Initialising(g.pc)
    ensures LocalsOk(Write(m, t, e), u, g)
  {
    hide Write, LinksOk;
    EndsAre(m, t, e);
    FieldsKept(m, t, e, g.e);
    MoverKept(m, t, e, g.e);
    UnqueuedKept(m, t, e, g.e);
    OrdersKept(m, t, e);
  }

  lemma SigFrame(m: Mem, t: Tid, e: Effect, u: Tid, g: Frame)
    requires Shape(m) && Legit(m, t, e) && LocalsOk(m, u, g) && g.pc.Sig?
    ensures LocalsOk(Write(m, t, e), u, g)
  {
    hide LinksOk;
    if Behind(m, g.p, g.e) { BehindKept(m, t, e, g.p, g.e); }
  }

  lemma HeadKept(m: Mem, t: Tid, e: Effect, u: Tid, g: Frame)
    requires Shape(m) && Legit(m, t, e) && ThreadOk(m, u, g) && u != t
    requires AboutToLead(g.pc)
    ensures Write(m, t, e).head == m.head
  {
    if e.WriteHead? {
      LiveNotSkipped(m, m.head, e.r, g.n);
    }
  }

  lemma PrevsKept(m: Mem, t: Tid, e: Effect, u: Tid, n: Ref, p: Ref)
    requires Shape(m) && Legit(m, t, e) && n in m.ord && Own(m, n) == u && u != t
    ensures Prev(Write(m, t, e), n) == Prev(m, n)
    ensures Ws(m, p) == CANCELLED ==> Ws(Write(m, t, e), p) == CANCELLED && Prev(Write(m, t, e), p) == Prev(m, p)
  {
    FieldsKept(m, t, e, n);
    FieldsKept(m, t, e, p);
  }

  lemma NextOkKept(m: Mem, t: Tid, e: Effect, n: Ref, x: Ref)
    requires Numbered(m) && EndsOk(m) && Legit(m, t, e) && NextOk(m, n, x)
    ensures NextOk(Write(m, t, e), n, x)
  {
    FieldsKept(m, t, e, n);
    if x != n { BehindKept(m, t, e, n, x); }
  }

  lemma ViewKept(m: Mem, t: Tid, e: Effect, u: Tid, g: Frame)
    requires Shape(m) && Legit(m, t, e) && ThreadOk(m, u, g) && u != t
    requires StageOf(g) in {Waiting, Leading, Cancelled}
    ensures SameView(m, Write(m, t, e), g)
  {
    hide Shape, Legit, LocalsOk, NextOk, Behind, Write, Numbered, EndsOk;
    OwnsQueued(m, u, g);
    OrdersKept(m, t, e);
    if AboutToLead(g.pc) { HeadKept(m, t, e, u, g); }
    PrevsKept(m, t, e, u, g.n, g.p);
    if Behind(m, g.p, g.n) { BehindStays(m, t, e, g.p, g.n); }
    if NextOk(m, g.n, g.x) { NextOkStays(m, t, e, g.n, g.x); }
  }

  lemma OwnsQueued(m: Mem, u: Tid, g: Frame)
    requires OwnNodeOk(m, u, g) && StageOf(g) in {Waiting, Leading, Cancelled}
    ensures g.n in m.ord && Own(m, g.n) == u
  {
  }

  lemma BehindStays(m: Mem, t: Tid, e: Effect, y: Ref, n: Ref)
    requires Shape(m) && Legit(m, t, e) && Behind(m, y, n)
    ensures Behind(Write(m, t, e), y, n)
  {
    BehindKept(m, t, e, y, n);
  }

  lemma NextOkStays(m: Mem, t: Tid, e: Effect, n: Ref, x: Ref)
    requires Shape(m) && Legit(m, t, e) && NextOk(m, n, x)
    ensures NextOk(Write(m, t, e), n, x)
  {
    NextOkKept(m, t, e, n, x);
  }

  lemma LocalsKept(m: Mem, t: Tid, e: Effect, u: Tid, g: Frame)
    requires Shape(m) && Legit(m, t, e) && ThreadOk(m, u, g) && u != t
    requires e.WriteTail? && m.tail == NULL ==> !Initialising(g.pc)
    ensures LocalsOk(Write(m, t, e), u, g)
  {
    hide Shape, Legit, SameView, OwnNodeOk, LocalsOk, Write;
    OrdersKept(m, t, e);
    if g.pc.Enq? {
      EnqFrame(m, t, e, u, g);
    } else if g.pc.Sig? {
      SigFrame(m, t, e, u, g);
    } else {
      if StageOf(g) in {Waiting, Leading, Cancelled} { ViewKept(m, t, e, u, g); } else { NoNode(g); }
      LocalsFrame(m, Write(m, t, e), u, g);
    }
  }

  lemma NoNode(g: Frame)
    requires StageOf(g) !in {Waiting, Leading, Cancelled} && !g.pc.Enq?
    ensures StageOf(g) == Outside || StageOf(g) == Awaiting
  {
  }

  /** What the thread's own write leaves of what its locals depend on. */
  lemma OwnView(m: Mem, t: Tid, e: Effect, g: Frame)
    requires Shape(m) && Legit(m, t, e) && g.n in m.ord && !e.WritePrev? && !e.WriteHead? && !e.InitHead?
    ensures SameView(m, Write(m, t, e), g)
  {
    hide LinksOk, NextOk, Behind;
    FieldsKept(m, t, e, g.n);
    FieldsKept(m, t, e, g.p);
    if Behind(m, g.p, g.n) { BehindKept(m, t, e, g.p, g.n); }
    if NextOk(m, g.n, g.x) { NextOkKept(m, t, e, g.n, g.x); }
  }

  lemma OrdersKept(m: Mem, t: Tid, e: Effect)
    requires Shape(m) && Legit(m, t, e)
    ensures forall k :: k in m.ord ==> k in Write(m, t, e).ord && Write(m, t, e).ord[k] == m.ord[k]
  {
  }

  // ------------------------------------------------ the thread that takes the step

  lemma EnqLegit(m: Mem, t: Tid, f: Frame, pc: EnqPc)
    requires Shape(m) && ThreadOk(m, t, f) && t != 0 && f.pc == Enq(pc)
    ensures Legit(m, t, ActEnq(m, f, pc).1)
  {
  }

  lemma WaitLegit(m: Mem, t: Tid, f: Frame, pc: WaitPc, c: Choice)
    requires Shape(m) && ThreadOk(m, t, f) && t != 0 && f.pc == Wait(pc)
    ensures Legit(m, t, ActWait(m, t, f, pc, c).1)
  {
    hide EndsOk;
    assert BehindHead(m, f.n) && Behind(m, Prev(m, f.n), f.n);
    match pc
    case SpWritePrev => SkipOk(m, f.n, f.p);
    case _ =>
  }

  lemma QuitLegit(m: Mem, t: Tid, f: Frame, pc: QuitPc)
    requires Shape(m) && ThreadOk(m, t, f) && t != 0 && f.pc == Quit(pc)
    ensures Legit(m, t, ActQuit(m, f, pc).1)
  {
    assert BehindHead(m, f.n) && Behind(m, Prev(m, f.n), f.n);
    match pc
    case CaSkipWrite => SkipOk(m, f.n, f.p);
    case _ =>
  }

  lemma LeadLegit(m: Mem, t: Tid, f: Frame, pc: LeadPc)
    requires Shape(m) && ThreadOk(m, t, f) && t != 0 && f.pc == Lead(pc)
    ensures Legit(m, t, ActLead(m, f, pc).1)
  {
  }

  lemma GoneLegit(m: Mem, t: Tid, f: Frame, pc: GonePc)
    requires Shape(m) && ThreadOk(m, t, f) && t != 0 && f.pc == Gone(pc)
    ensures Legit(m, t, ActGone(m, f, pc).1)
  {
    hide EndsOk, LinksOk;
    match pc
    case CaSplice => BehindTrans(m, f.p, f.n, f.x);
    case _ =>
  }

  lemma RelLegit(m: Mem, t: Tid, f: Frame, pc: RelPc)
    requires Shape(m) && ThreadOk(m, t, f) && t != 0 && f.pc == Rel(pc)
    ensures Legit(m, t, ActRel(m, f, pc).1)
  {
  }

  lemma DrLegit(m: Mem, t: Tid, f: Frame, pc: DrPc)
    requires Shape(m) && ThreadOk(m, t, f) && t != 0 && f.pc == Dr(pc)
    ensures Legit(m, t, ActDr(m, f, pc).1)
  {
  }

  lemma UsLegit(m: Mem, t: Tid, f: Frame, pc: UsPc)
    requires Shape(m) && ThreadOk(m, t, f) && t != 0 && f.pc == Us(pc)
    ensures Legit(m, t, ActUs(m, f, pc).1)
  {
  }

  lemma CondLegit(m: Mem, t: Tid, f: Frame, pc: CondPc, c: Choice)
    requires Shape(m) && ThreadOk(m, t, f) && t != 0 && f.pc == Cond(pc)
    ensures Legit(m, t, ActCond(m, t, f, pc, c).1)
  {
  }

  lemma SigLegit(m: Mem, t: Tid, f: Frame, pc: SigPc)
    requires Shape(m) && ThreadOk(m, t, f) && t != 0 && f.pc == Sig(pc)
    ensures Legit(m, t, ActSig(m, f, pc).1)
  {
  }

  lemma EnqOwn(m: Mem, t: Tid, f: Frame, pc: EnqPc)
    requires Shape(m) && ThreadOk(m, t, f) && t != 0 && f.pc == Enq(pc)
    ensures var (g, e) := ActEnq(m, f, pc); OwnNodeOk(Write(m, t, e), t, g)
  {
    hide Shape, Write, LocalsOk, Legit;
    EnqLegit(m, t, f, pc);
    if !Signalling(f) {
      if ActEnq(m, f, pc).1.Append? { AppendOwn(m, t, f); } else { EnqueuingStays(m, t, f, ActEnq(m, f, pc).1); }
    }
  }

  lemma EnqueuingStays(m: Mem, t: Tid, f: Frame, e: Effect)
    requires Shape(m) && Legit(m, t, e) && OwnNodeOk(m, t, f) && StageOf(f) == Enqueuing
    requires e == Nothing || e == InitHead || e.WriteTail? || e.WritePrev?
    ensures var w := Write(m, t, e);
      && NULL < f.n < w.nextRef && f.n !in w.ord && Own(w, f.n) == t && Thr(w, f.n) == t
      && (f.n in w.mover <==> f.n in m.mover)
  {
    hide LinksOk, EndsOk;
    FieldsKept(m, t, e, f.n);
    MoverKept(m, t, e, f.n);
  }

  lemma AppendOwn(m: Mem, t: Tid, f: Frame)
    requires Shape(m) && ThreadOk(m, t, f) && f.pc == Enq(EnqCasTail) && !Signalling(f) && Legit(m, t, Append(f.e))
    ensures var w := Write(m, t, Append(f.e));
      && f.n == f.e && BehindHead(w, f.n) && Ws(w, f.n) <= 0 && Own(w, f.n) == t && Thr(w, f.n) == t
      && (f.n in w.mover <==> f.n in m.mover)
  {
    hide LinksOk;
    FieldsKept(m, t, Append(f.e), f.n);
    MoverKept(m, t, Append(f.e), f.n);
  }

  /** The step leaves the node where it is. */
  lemma WaitOwn(m: Mem, t: Tid, f: Frame, pc: WaitPc, c: Choice)
    requires Shape(m) && ThreadOk(m, t, f) && t != 0 && f.pc == Wait(pc)
    ensures var (g, e) := ActWait(m, t, f, pc, c); OwnNodeOk(Write(m, t, e), t, g)
  {
    hide Shape, Write, LocalsOk, Legit;
    WaitLegit(m, t, f, pc, c);
    if pc == SetHead { SetHeadOwn(m, t, f, c); } else { NodeKept(m, t, ActWait(m, t, f, pc, c).1, f.n); }
  }

  lemma SetHeadOwn(m: Mem, t: Tid, f: Frame, c: Choice)
    requires Shape(m) && ThreadOk(m, t, f) && t != 0 && f.pc == Wait(SetHead)
    ensures var (g, e) := ActWait(m, t, f, SetHead, c); OwnNodeOk(Write(m, t, e), t, g)
  {
    hide Write, LinksOk;
    WaitLegit(m, t, f, SetHead, c);
    NodeKept(m, t, WriteHead(f.n), f.n);
    NodeKept(m, t, WriteHead(f.n), f.p);
  }

  lemma QuitOwn(m: Mem, t: Tid, f: Frame, pc: QuitPc)
    requires Shape(m) && ThreadOk(m, t, f) && t != 0 && f.pc == Quit(pc)
    ensures var (g, e) := ActQuit(m, f, pc); OwnNodeOk(Write(m, t, e), t, g)
  {
    hide Shape, Write, LocalsOk, Legit;
    QuitLegit(m, t, f, pc);
    NodeKept(m, t, ActQuit(m, f, pc).1, f.n);
  }

  /** A leading node stays what it is unless its thread field is cleared. */
  lemma LeadingStays(m: Mem, t: Tid, f: Frame, e: Effect)
    requires Shape(m) && Legit(m, t, e) && OwnNodeOk(m, t, f) && StageOf(f) == Leading
    requires !e.WriteHead? && e != WriteStatus(f.n, CANCELLED) && e != WriteStatus(f.p, CANCELLED)
    requires e.WriteStatus? ==> e.ws <= 0
    ensures var m' := Write(m, t, e);
      && f.n in m'.ord && m'.head in m'.ord && m'.ord[f.n] <= m'.ord[m'.head] && Ws(m', f.n) <= 0
      && Own(m', f.n) == t && Thr(m', f.n) == (if e == ClearThread(f.n) then 0 else Thr(m, f.n))
      && f.p in m'.ord && m'.ord[f.p] < m'.ord[f.n] && Ws(m', f.p) <= 0
  {
    hide Shape, Write, Legit;
    NodeKept(m, t, e, f.n);
    NodeKept(m, t, e, f.p);
    NodeKept(m, t, e, m.head);
  }

  lemma LeadOwn(m: Mem, t: Tid, f: Frame, pc: LeadPc)
    requires Shape(m) && ThreadOk(m, t, f) && t != 0 && f.pc == Lead(pc)
    ensures var (g, e) := ActLead(m, f, pc); OwnNodeOk(Write(m, t, e), t, g)
  {
    hide Shape, Write, LocalsOk, Legit;
    LeadLegit(m, t, f, pc);
    LeadingStays(m, t, f, ActLead(m, f, pc).1);
  }

  lemma GoneOwn(m: Mem, t: Tid, f: Frame, pc: GonePc)
    requires Shape(m) && ThreadOk(m, t, f) && t != 0 && f.pc == Gone(pc)
    ensures var (g, e) := ActGone(m, f, pc); OwnNodeOk(Write(m, t, e), t, g)
  {
    hide Shape, Write, LocalsOk;
    GoneLegit(m, t, f, pc);
    NodeKept(m, t, ActGone(m, f, pc).1, f.n);
  }

  /** The node of a thread in await is not touched by its own release. */
  lemma AwaitingStays(m: Mem, t: Tid, f: Frame, e: Effect)
    requires Shape(m) && Legit(m, t, e) && OwnNodeOk(m, t, f) && StageOf(f) == Awaiting
    requires e == Nothing || e.SetState? || e.Unpark? || e.TakePermit? || (e.WriteStatus? && e.ws == 0)
    ensures var m' := Write(m, t, e);
      && NULL < f.n < m'.nextRef && Own(m', f.n) == t && Thr(m', f.n) == t && (f.n in m.ord ==> f.n in m'.ord)
      && if f.n in m'.ord then BehindHead(m', f.n) && Ws(m', f.n) <= 0 else f.n in m'.waiting || Mover(m', f.n) != t
  {
    hide LinksOk;
    FieldsKept(m, t, e, f.n);
    MoverKept(m, t, e, f.n);
  }

  lemma RelOwn(m: Mem, t: Tid, f: Frame, pc: RelPc)
    requires Shape(m) && ThreadOk(m, t, f) && t != 0 && f.pc == Rel(pc)
    ensures var (g, e) := ActRel(m, f, pc); OwnNodeOk(Write(m, t, e), t, g)
  {
    hide Shape, Write, LocalsOk, Legit;
    RelLegit(m, t, f, pc);
    if StageOf(f) == Awaiting { AwaitingStays(m, t, f, ActRel(m, f, pc).1); }
  }

  lemma DrOwn(m: Mem, t: Tid, f: Frame, pc: DrPc)
    requires Shape(m) && ThreadOk(m, t, f) && t != 0 && f.pc == Dr(pc)
    ensures var (g, e) := ActDr(m, f, pc); OwnNodeOk(Write(m, t, e), t, g)
  {
    hide Shape, Write, LocalsOk, Legit;
    DrLegit(m, t, f, pc);
    if f.acquiring { LeadingStays(m, t, f, ActDr(m, f, pc).1); }
  }

  lemma UsOwn(m: Mem, t: Tid, f: Frame, pc: UsPc)
    requires Shape(m) && ThreadOk(m, t, f) && t != 0 && f.pc == Us(pc)
    ensures var (g, e) := ActUs(m, f, pc); OwnNodeOk(Write(m, t, e), t, g)
  {
    hide Shape, Write, LocalsOk, Legit, ActUs;
    UsLegit(m, t, f, pc);
    UsFrame(m, f, pc);
    var (g, e) := ActUs(m, f, pc);
    match f.caller
    case ByRelease =>
    case ByAwait => AwaitingStays(m, t, f, e);
    case ByCancel => NodeKept(m, t, e, f.n);
    case ByShared => if f.acquiring { LeadingStays(m, t, f, e); }
  }

  /** unparkSuccessor changes its own locals only, and returns where it was called. */
  lemma UsFrame(m: Mem, f: Frame, pc: UsPc)
    ensures var (g, e) := ActUs(m, f, pc);
      && g.n == f.n && g.p == f.p && g.q == f.q && g.caller == f.caller && g.acquiring == f.acquiring
      && (g.pc.Us? || g.pc == Return(f).pc)
      && (e == Nothing || e.Unpark? || (e.WriteStatus? && e.ws == 0))
  {
  }

  lemma CondOwn(m: Mem, t: Tid, f: Frame, pc: CondPc, c: Choice)
    requires Shape(m) && ThreadOk(m, t, f) && t != 0 && f.pc == Cond(pc)
    ensures var (g, e) := ActCond(m, t, f, pc, c); OwnNodeOk(Write(m, t, e), t, g)
  {
    hide Shape, Write, LocalsOk, Legit;
    CondLegit(m, t, f, pc, c);
    if pc == CoCancel && f.n in m.waiting {
      ClaimOwn(m, t, f);
    } else {
      AwaitingStays(m, t, f, ActCond(m, t, f, pc, c).1);
    }
  }

  lemma ClaimOwn(m: Mem, t: Tid, f: Frame)
    requires Shape(m) && ThreadOk(m, t, f) && f.pc == Cond(CoCancel) && f.n in m.waiting
    ensures var w := Write(m, t, Claim(f.n));
      NULL < f.n < w.nextRef && f.n !in w.ord && Own(w, f.n) == t && Thr(w, f.n) == t
  {
    hide LinksOk, EndsOk;
    FieldsKept(m, t, Claim(f.n), f.n);
  }

  lemma SigOwn(m: Mem, t: Tid, f: Frame, pc: SigPc)
    requires f.pc == Sig(pc)
    ensures var (g, e) := ActSig(m, f, pc); OwnNodeOk(Write(m, t, e), t, g)
  {
  }

  lemma CondLocals(m: Mem, t: Tid, f: Frame, pc: CondPc, c: Choice)
    requires Shape(m) && ThreadOk(m, t, f) && t != 0 && f.pc == Cond(pc)
    ensures var (g, e) := ActCond(m, t, f, pc, c); LocalsOk(Write(m, t, e), t, g)
  {
    hide LinksOk;
    MoverKept(m, t, ActCond(m, t, f, pc, c).1, f.n);
  }

  lemma SigLocals(m: Mem, t: Tid, f: Frame, pc: SigPc)
    requires Shape(m) && ThreadOk(m, t, f) && t != 0 && f.pc == Sig(pc)
    ensures var (g, e) := ActSig(m, f, pc); LocalsOk(Write(m, t, e), t, g)
  {
    SigLegit(m, t, f, pc);
    SigFrame(m, t, ActSig(m, f, pc).1, t, f);
    hide Shape;
  }

  lemma EnqLocals(m: Mem, t: Tid, f: Frame, pc: EnqPc)
    requires Shape(m) && ThreadOk(m, t, f) && t != 0 && f.pc == Enq(pc)
    ensures var (g, e) := ActEnq(m, f, pc); LocalsOk(Write(m, t, e), t, g)
  {
    hide LinksOk, Write, Gap, OwnNodeOk;
    var (g, e) := ActEnq(m, f, pc);
    FieldsKept(m, t, e, f.e);
    MoverKept(m, t, e, f.e);
    EndsAre(m, t, e);
    NextRefGrows(m, t, e);
    if e.Append? {
      EnqLegit(m, t, f, pc);
      AppendsBehind(m, t, f.e);
    }
  }

  lemma AppendsBehind(m: Mem, t: Tid, r: Ref)
    requires Shape(m) && Legit(m, t, Append(r))
    ensures Behind(Write(m, t, Append(r)), m.tail, r)
  {
    hide LinksOk;
    GapKept(m, t, Append(r), m.ord[m.tail], |m.log|);
  }

  lemma AqLocals(m: Mem, t: Tid, f: Frame, pc: WaitPc, c: Choice)
    requires Shape(m) && ThreadOk(m, t, f) && t != 0 && f.pc == Wait(pc)
    requires pc == EnqSetNext || pc == AqReadPrev || pc == AqCheckHead || AboutToLead(f.pc) || pc == CaThread
    ensures var (g, e) := ActWait(m, t, f, pc, c); LocalsOk(Write(m, t, e), t, g)
  {
    hide Numbered, LinksOk;
  }

  lemma SpLocals(m: Mem, t: Tid, f: Frame, pc: WaitPc, c: Choice)
    requires Shape(m) && ThreadOk(m, t, f) && t != 0 && f.pc == Wait(pc)
    requires !(pc == EnqSetNext || pc == AqReadPrev || pc == AqCheckHead || AboutToLead(f.pc) || pc == CaThread)
    ensures var (g, e) := ActWait(m, t, f, pc, c); LocalsOk(Write(m, t, e), t, g)
  {
    hide Shape, Write, Legit, ActWait, LocalsOk;
    var (g, e) := ActWait(m, t, f, pc, c);
    WaitLegit(m, t, f, pc, c);
    if pc == SpWritePrev {
      SpWrites(m, t, f, c);
    } else {
      SpGoes(m, t, f, pc, c);
      Stays(m, t, e, g);
    }
  }

  /** Locals that are right for the memory before a write stay right. */
  lemma Stays(m: Mem, t: Tid, e: Effect, g: Frame)
    requires Shape(m) && Legit(m, t, e) && g.n in m.ord && !e.WritePrev? && !e.WriteHead? && !e.InitHead?
    requires LocalsOk(m, t, g) && !g.pc.Enq? && !g.pc.Sig?
    ensures LocalsOk(Write(m, t, e), t, g)
  {
    hide Shape, Legit, Write, LocalsOk, SameView;
    OwnView(m, t, e, g);
    OrdersKept(m, t, e);
    ViewOrders(m, Write(m, t, e), g);
    LocalsFrame(m, Write(m, t, e), t, g);
  }

  lemma ViewOrders(m: Mem, w: Mem, g: Frame)
    requires SameView(m, w, g)
    ensures forall k :: k in m.ord ==> k in w.ord
  {
  }

  lemma SpWrites(m: Mem, t: Tid, f: Frame, c: Choice)
    requires f.pc == Wait(SpWritePrev)
    ensures var (g, e) := ActWait(m, t, f, SpWritePrev, c); LocalsOk(Write(m, t, e), t, g)
  {
    FieldsKept(m, t, WritePrev(f.n, f.x), f.n);
  }

  lemma SpGoes(m: Mem, t: Tid, f: Frame, pc: WaitPc, c: Choice)
    requires Shape(m) && ThreadOk(m, t, f) && f.pc == Wait(pc) && pc != SpWritePrev
    requires !(pc == EnqSetNext || pc == AqReadPrev || pc == AqCheckHead || AboutToLead(f.pc) || pc == CaThread)
    ensures var (g, e) := ActWait(m, t, f, pc, c);
      && LocalsOk(m, t, g) && g.n == f.n && f.n in m.ord && !g.pc.Enq? && !g.pc.Sig?
      && !e.WritePrev? && !e.WriteHead? && !e.InitHead?
  {
    hide LinksOk, EndsOk;
    assert Ws(m, f.p) <= CANCELLED;
    hide Numbered;
  }

  lemma SeesPrev(m: Mem, t: Tid, f: Frame)
    requires Shape(m) && OwnNodeOk(m, t, f) && StageOf(f) == Waiting
    ensures f.n in m.ord && Behind(m, Prev(m, f.n), f.n)
  {
    assert BehindHead(m, f.n);
  }

  lemma QuitLocals(m: Mem, t: Tid, f: Frame, pc: QuitPc)
    requires Shape(m) && ThreadOk(m, t, f) && t != 0 && f.pc == Quit(pc)
    ensures var (g, e) := ActQuit(m, f, pc); LocalsOk(Write(m, t, e), t, g)
  {
    hide Shape, Write, Legit, ActQuit, LocalsOk;
    var (g, e) := ActQuit(m, f, pc);
    QuitLegit(m, t, f, pc);
    if pc == CaSkipWrite {
      CaWrites(m, t, f);
    } else {
      QuitGoes(m, t, f, pc);
      Stays(m, t, e, g);
    }
  }

  lemma CaWrites(m: Mem, t: Tid, f: Frame)
    requires f.pc == Quit(CaSkipWrite)
    ensures var (g, e) := ActQuit(m, f, CaSkipWrite); LocalsOk(Write(m, t, e), t, g)
  {
    FieldsKept(m, t, WritePrev(f.n, f.x), f.n);
  }

  lemma QuitGoes(m: Mem, t: Tid, f: Frame, pc: QuitPc)
    requires Shape(m) && ThreadOk(m, t, f) && f.pc == Quit(pc) && pc != CaSkipWrite
    ensures var (g, e) := ActQuit(m, f, pc);
      && LocalsOk(m, t, g) && g.n == f.n && f.n in m.ord && !g.pc.Enq? && !g.pc.Sig?
      && !e.WritePrev? && !e.WriteHead? && !e.InitHead?
  {
    hide LinksOk, EndsOk;
    assert Ws(m, f.p) <= CANCELLED;
    SeesPrev(m, t, f);
    if pc == CaPredNext { NextSaved(m, f.p, f.n); }
    hide Numbered;
  }

  /** A next link does not lead past a live node. */
  lemma NextSaved(m: Mem, p: Ref, n: Ref)
    requires Shape(m) && Behind(m, p, n) && Ws(m, n) <= 0
    ensures var q := Next(m, p); q != NULL ==> q in m.ord && m.ord[q] <= m.ord[n]
  {
    var q := Next(m, p);
    if q != NULL {
      assert NextOk(m, p, q);
      if Behind(m, p, q) { LiveNotSkipped(m, p, q, n); }
    }
  }

  lemma LeadLocals(m: Mem, t: Tid, f: Frame, pc: LeadPc)
    requires Shape(m) && ThreadOk(m, t, f) && t != 0 && f.pc == Lead(pc)
    ensures var (g, e) := ActLead(m, f, pc); LocalsOk(Write(m, t, e), t, g)
  {
    hide Numbered;
  }

  lemma GoneLocals(m: Mem, t: Tid, f: Frame, pc: GonePc)
    requires Shape(m) && ThreadOk(m, t, f) && t != 0 && f.pc == Gone(pc)
    ensures var (g, e) := ActGone(m, f, pc); LocalsOk(Write(m, t, e), t, g)
  {
    hide Shape, Write, Legit, ActGone, LocalsOk;
    GoneLegit(m, t, f, pc);
    GoneGoes(m, t, f, pc);
    Stays(m, t, ActGone(m, f, pc).1, ActGone(m, f, pc).0);
  }

  lemma GoneGoes(m: Mem, t: Tid, f: Frame, pc: GonePc)
    requires Shape(m) && ThreadOk(m, t, f) && f.pc == Gone(pc)
    ensures var (g, e) := ActGone(m, f, pc);
      && LocalsOk(m, t, g) && g.n == f.n && f.n in m.ord && !g.pc.Enq? && !g.pc.Sig?
      && !e.WritePrev? && !e.WriteHead? && !e.InitHead?
  {
    hide Shape, NextOk, Behind, OwnNodeOk, SavedOk;
    GoneQueued(m, t, f);
    if Next(m, f.n) != NULL { NextIsOk(m, f.n); }
  }

  lemma GoneQueued(m: Mem, t: Tid, f: Frame)
    requires OwnNodeOk(m, t, f) && f.pc.Gone?
    ensures f.n in m.ord && Ws(m, f.n) == CANCELLED
  {
  }

  lemma NextIsOk(m: Mem, n: Ref)
    requires Shape(m) && Next(m, n) != NULL
    ensures NextOk(m, n, Next(m, n))
  {
  }

  lemma RelLocals(m: Mem, t: Tid, f: Frame, pc: RelPc)
    requires Shape(m) && ThreadOk(m, t, f) && t != 0 && f.pc == Rel(pc)
    ensures var (g, e) := ActRel(m, f, pc); LocalsOk(Write(m, t, e), t, g)
  {
    hide Numbered;
  }

  lemma DrLocals(m: Mem, t: Tid, f: Frame, pc: DrPc)
    requires Shape(m) && ThreadOk(m, t, f) && t != 0 && f.pc == Dr(pc)
    ensures var (g, e) := ActDr(m, f, pc); LocalsOk(Write(m, t, e), t, g)
  {
    hide Numbered;
  }

  lemma UsLocals(m: Mem, t: Tid, f: Frame, pc: UsPc)
    requires Shape(m) && ThreadOk(m, t, f) && t != 0 && f.pc == Us(pc)
    ensures var (g, e) := ActUs(m, f, pc); LocalsOk(Write(m, t, e), t, g)
  {
    hide Write, Shape, OwnNodeOk, Legit;
    UsLegit(m, t, f, pc);
    OrdersKept(m, t, ActUs(m, f, pc).1);
    LinksIn(m, f.y);
    LinksIn(m, f.c);
  }

  /** Links lead to queued nodes. */
  lemma LinksIn(m: Mem, k: Ref)
    requires Shape(m)
    ensures NULL !in m.ord && (m.tail != NULL ==> m.tail in m.ord)
    ensures k in m.ord ==> (Prev(m, k) != NULL ==> Prev(m, k) in m.ord) && (Next(m, k) != NULL ==> Next(m, k) in m.ord)
  {
    if k in m.ord && Next(m, k) != NULL { assert NextOk(m, k, Next(m, k)); }
  }

  // ------------------------------------------------------------ the whole state

  lemma OutsideStep(m: Mem, t: Tid, f: Frame, c: Choice)
    requires Shape(m) && ThreadOk(m, t, f) && t != 0
    requires f.pc == Idle || f.pc == Held || f.pc == TryAcquire || f.pc == AddWaiter
    ensures var (g, e) := ActOutside(m, t, f, c); Legit(m, t, e) && ThreadOk(Write(m, t, e), t, g)
  {
    hide Shape;
    if f.pc == AddWaiter {
      AddWaiterStep(m, t, f, c);
    } else if f.pc == Held {
      HeldStep(m, t, f, c);
    }
  }

  lemma AddWaiterStep(m: Mem, t: Tid, f: Frame, c: Choice)
    requires Shape(m) && t != 0 && f.pc == AddWaiter
    ensures var (g, e) := ActOutside(m, t, f, c); Legit(m, t, e) && ThreadOk(Write(m, t, e), t, g)
  {
    hide LinksOk, Gap;
    var (g, e) := ActOutside(m, t, f, c);
    assert e == Alloc && g.n == m.nextRef && m.nextRef !in m.ord;
    FieldsKept(m, t, e, g.n);
  }

  lemma HeldStep(m: Mem, t: Tid, f: Frame, c: Choice)
    requires Shape(m) && t != 0 && f.pc == Held
    ensures var (g, e) := ActOutside(m, t, f, c); Legit(m, t, e) && ThreadOk(Write(m, t, e), t, g)
  {
    hide LinksOk, EndsOk;
    var (g, e) := ActOutside(m, t, f, c);
    FieldsKept(m, t, e, g.n);
    FieldsKept(m, t, e, g.e);
    MoverKept(m, t, e, g.n);
    MoverKept(m, t, e, g.e);
  }

  lemma StepThread(m: Mem, t: Tid, f: Frame, c: Choice)
    requires Shape(m) && ThreadOk(m, t, f) && t != 0
    ensures var (g, e) := Act(m, t, f, c); Legit(m, t, e) && ThreadOk(Write(m, t, e), t, g)
  {
    hide Shape, OwnNodeOk, LocalsOk, Legit, ActEnq, ActWait, ActQuit, ActLead, ActGone, ActRel, ActDr, ActUs,
      ActOutside, ActCond, ActSig;
    match f.pc
    case Enq(pc) => EnqLegit(m, t, f, pc); EnqOwn(m, t, f, pc); EnqLocals(m, t, f, pc);
    case Wait(pc) =>
      WaitLegit(m, t, f, pc, c);
      WaitOwn(m, t, f, pc, c);
      if pc == EnqSetNext || pc == AqReadPrev || pc == AqCheckHead || AboutToLead(f.pc) || pc == CaThread {
        AqLocals(m, t, f, pc, c);
      } else {
        SpLocals(m, t, f, pc, c);
      }
    case Quit(pc) => QuitLegit(m, t, f, pc); QuitOwn(m, t, f, pc); QuitLocals(m, t, f, pc);
    case Lead(pc) => LeadLegit(m, t, f, pc); LeadOwn(m, t, f, pc); LeadLocals(m, t, f, pc);
    case Gone(pc) => GoneLegit(m, t, f, pc); GoneOwn(m, t, f, pc); GoneLocals(m, t, f, pc);
    case Rel(pc) => RelLegit(m, t, f, pc); RelOwn(m, t, f, pc); RelLocals(m, t, f, pc);
    case Dr(pc) => DrLegit(m, t, f, pc); DrOwn(m, t, f, pc); DrLocals(m, t, f, pc);
    case Us(pc) =>
      UsLegit(m, t, f, pc);
      UsOwn(m, t, f, pc);
      UsLocals(m, t, f, pc);
    case Cond(pc) => CondLegit(m, t, f, pc, c); CondOwn(m, t, f, pc, c); CondLocals(m, t, f, pc, c);
    case Sig(pc) => SigLegit(m, t, f, pc); SigOwn(m, t, f, pc); SigLocals(m, t, f, pc);
    case _ => OutsideStep(m, t, f, c);
  }

  /** How a step can move the thread's own node between stages. */
  ghost predicate Moves(m: Mem, t: Tid, f: Frame, g: Frame, e: Effect) {
    && (StageOf(f) == Waiting ==>
          || (StageOf(g) == Waiting && g.n == f.n)
          || e == WriteHead(f.n)
          || e == WriteStatus(f.n, CANCELLED))
    && (StageOf(f) == Awaiting ==>
          && g.n == f.n
          && (StageOf(g) == Awaiting || (StageOf(g) == Waiting && f.n in m.ord) || e == Claim(f.n)))
    && (e.Append? ==>
          e.r == f.e && if Signalling(f) then g.pc == Sig(SigSetNext) else StageOf(g) == Waiting && g.n == f.n)
    && (e.AllocWaiting? ==> StageOf(g) == Awaiting && g.n == m.nextRef)
    && (e.WriteHead? ==> g.pc == Lead(SetHeadThread) && g.n == e.r)
    && (f.pc == Lead(SetHeadThread) ==> e == ClearThread(f.n))
    && (Initialising(g.pc) && !Initialising(f.pc) ==> e == InitHead)
    && (e.WriteTail? ==> Initialising(f.pc) || (StageOf(f) == Cancelled && m.tail == f.n))
  }

  lemma MovesEnq(m: Mem, t: Tid, f: Frame, pc: EnqPc)
    requires f.pc == Enq(pc)
    ensures var (g, e) := ActEnq(m, f, pc); Moves(m, t, f, g, e)
  {
  }

  lemma MovesWait(m: Mem, t: Tid, f: Frame, pc: WaitPc, c: Choice)
    requires f.pc == Wait(pc)
    ensures var (g, e) := ActWait(m, t, f, pc, c); Moves(m, t, f, g, e)
  {
  }

  lemma MovesQuit(m: Mem, t: Tid, f: Frame, pc: QuitPc)
    requires f.pc == Quit(pc)
    ensures var (g, e) := ActQuit(m, f, pc); Moves(m, t, f, g, e)
  {
  }

  lemma MovesLead(m: Mem, t: Tid, f: Frame, pc: LeadPc)
    requires f.pc == Lead(pc)
    ensures var (g, e) := ActLead(m, f, pc); Moves(m, t, f, g, e)
  {
  }

  lemma MovesGone(m: Mem, t: Tid, f: Frame, pc: GonePc)
    requires f.pc == Gone(pc)
    ensures var (g, e) := ActGone(m, f, pc); Moves(m, t, f, g, e)
  {
  }

  lemma MovesCond(m: Mem, t: Tid, f: Frame, pc: CondPc, c: Choice)
    requires f.pc == Cond(pc)
    ensures var (g, e) := ActCond(m, t, f, pc, c); Moves(m, t, f, g, e)
  {
  }

  lemma MovesRel(m: Mem, t: Tid, f: Frame, pc: RelPc)
    requires f.pc == Rel(pc)
    ensures var (g, e) := ActRel(m, f, pc); Moves(m, t, f, g, e)
  {
  }

  lemma MovesSig(m: Mem, t: Tid, f: Frame, pc: SigPc)
    requires f.pc == Sig(pc)
    ensures var (g, e) := ActSig(m, f, pc); Moves(m, t, f, g, e)
  {
  }

  lemma MovesDr(m: Mem, t: Tid, f: Frame, pc: DrPc)
    requires f.pc == Dr(pc)
    ensures var (g, e) := ActDr(m, f, pc); Moves(m, t, f, g, e)
  {
  }

  lemma MovesOutside(m: Mem, t: Tid, f: Frame, c: Choice)
    ensures var (g, e) := ActOutside(m, t, f, c);
      f.pc == Idle || f.pc == Held || f.pc == TryAcquire || f.pc == AddWaiter ==> Moves(m, t, f, g, e)
  {
  }

  lemma MovesUs(m: Mem, t: Tid, f: Frame, pc: UsPc)
    requires f.pc == Us(pc)
    ensures var (g, e) := ActUs(m, f, pc); Moves(m, t, f, g, e)
  {
    hide ActUs;
    UsFrame(m, f, pc);
  }

  lemma StepMoves(m: Mem, t: Tid, f: Frame, c: Choice)
    ensures var (g, e) := Act(m, t, f, c); Moves(m, t, f, g, e)
  {
    hide Moves, ActEnq, ActWait, ActQuit, ActLead, ActGone, ActRel, ActDr, ActUs, ActOutside, ActCond, ActSig;
    match f.pc
    case Enq(pc) => MovesEnq(m, t, f, pc);
    case Wait(pc) => MovesWait(m, t, f, pc, c);
    case Quit(pc) => MovesQuit(m, t, f, pc);
    case Lead(pc) => MovesLead(m, t, f, pc);
    case Gone(pc) => MovesGone(m, t, f, pc);
    case Us(pc) => MovesUs(m, t, f, pc);
    case Cond(pc) => MovesCond(m, t, f, pc, c);
    case Rel(pc) => MovesRel(m, t, f, pc);
    case Sig(pc) => MovesSig(m, t, f, pc);
    case Dr(pc) => MovesDr(m, t, f, pc);
    case _ => MovesOutside(m, t, f, c);
  }

  /** A live node behind head after the write: its thread waits with it.  `h` is the frame of its
      owner before the step. */
  lemma WaitingKept(m: Mem, t: Tid, f: Frame, g: Frame, e: Effect, k: Ref, h: Frame)
    requires Shape(m) && Legit(m, t, e) && Moves(m, t, f, g, e)
    requires BehindHead(Write(m, t, e), k) && Ws(Write(m, t, e), k) <= 0
    requires k in m.ord && BehindHead(m, k) && Ws(m, k) <= 0 ==> h.n == k && Waits(h)
    requires e == Append(k) && Own(m, k) != t ==> h.n == k && Waits(h)
    requires e == Append(k) && Own(m, k) == t ==> !Signalling(f) && f.n == k
    requires Own(m, k) == t ==> h == f
    ensures
      var u := Own(Write(m, t, e), k);
      if u == t then g.n == k && Waits(g) else u == Own(m, k) && h.n == k && Waits(h)
  {
    hide LinksOk, Write, Moves;
    EndsAre(m, t, e);
    FieldsKept(m, t, e, k);
    if k in m.ord {
      NodeKept(m, t, e, k);
      if Own(m, k) == t { StillWaits(m, t, f, g, e); }
    } else {
      assert e == Append(k);
      if Own(m, k) == t { StillWaits(m, t, f, g, e); }
    }
  }

  lemma StillWaits(m: Mem, t: Tid, f: Frame, g: Frame, e: Effect)
    requires Moves(m, t, f, g, e)
    ensures Waits(f) && e != WriteHead(f.n) && e != WriteStatus(f.n, CANCELLED) && e != Claim(f.n) ==>
              g.n == f.n && Waits(g)
    ensures e.Append? && !Signalling(f) ==> g.n == f.n && Waits(g)
  {
  }

  /** The node of a waiter that is not queued after the write. */
  lemma AwaitingStill(m: Mem, t: Tid, f: Frame, g: Frame, e: Effect, k: Ref, h: Frame)
    requires Shape(m) && Legit(m, t, e) && Moves(m, t, f, g, e)
    requires Unqueued(Write(m, t, e), k)
    requires Unqueued(m, k) ==> h.n == k && StageOf(h) == Awaiting
    requires Own(m, k) == t ==> h == f
    ensures
      var u := Own(Write(m, t, e), k);
      if u == t then g.n == k && StageOf(g) == Awaiting else u == Own(m, k) && h.n == k && StageOf(h) == Awaiting
  {
    hide LinksOk, EndsOk, Write;
    EndsAre(m, t, e);
    FieldsKept(m, t, e, k);
    MoverKept(m, t, e, k);
  }

  /** A node at or before head whose thread field is still set: its thread is in setHead. */
  lemma LeadingKept(m: Mem, t: Tid, f: Frame, g: Frame, e: Effect, k: Ref, h: Frame)
    requires Shape(m) && Legit(m, t, e) && Moves(m, t, f, g, e)
    requires k in Write(m, t, e).ord && !BehindHead(Write(m, t, e), k) && Thr(Write(m, t, e), k) != 0
    requires k in m.ord && !BehindHead(m, k) && Thr(m, k) != 0 ==> h.n == k && h.pc == Lead(SetHeadThread)
    requires Own(m, k) == t ==> h == f
    ensures
      var u := Own(Write(m, t, e), k);
      if u == t then g.n == k && g.pc == Lead(SetHeadThread)
      else u == Own(m, k) && h.n == k && h.pc == Lead(SetHeadThread)
  {
    hide LinksOk, Write;
    EndsAre(m, t, e);
    FieldsKept(m, t, e, k);
    if k in m.ord {
      NodeKept(m, t, e, k);
      if BehindHead(m, k) { HeadReaches(m, t, e, k); }
    }
  }

  /** Head passes cancelled nodes only, and the thread field of a cancelled node is clear. */
  lemma HeadReaches(m: Mem, t: Tid, e: Effect, k: Ref)
    requires Shape(m) && Legit(m, t, e) && BehindHead(m, k) && Thr(m, k) != 0
    ensures BehindHead(Write(m, t, e), k) || e == WriteHead(k)
  {
    hide Write;
    EndsAre(m, t, e);
    NodeKept(m, t, e, k);
    if e.WriteHead? && m.ord[k] == m.ord[e.r] { Positions(m, k, e.r); }
  }

  lemma OwnedKept(s: State, t: Tid, c: Choice)
    requires Inv(s) && t != 0
    ensures Owned(Step(s, t, c))
  {
    hide ThreadOk, LinksOk, EndsOk, Numbered, Moves, Legit, Act, Write, Waits, BehindHead, Unqueued;
    var m, f, s' := s.m, Th(s, t), Step(s, t, c);
    var m' := s'.m;
    var (g, e) := Act(m, t, f, c);
    assert ThreadOk(m, t, f);
    StepThread(m, t, f, c);
    StepMoves(m, t, f, c);
    StepFrames(s, t, c);
    forall k | BehindHead(m', k) && Ws(m', k) <= 0
      ensures Th(s', Own(m', k)).n == k && Waits(Th(s', Own(m', k)))
    {
      if e == Append(k) { Appended(s, t, c, k); }
      WaitingKept(m, t, f, g, e, k, Th(s, Own(m, k)));
    }
    forall k | Unqueued(m', k)
      ensures Th(s', Own(m', k)).n == k && StageOf(Th(s', Own(m', k))) == Awaiting
    {
      AwaitingStill(m, t, f, g, e, k, Th(s, Own(m, k)));
    }
    forall k | k in m'.ord && !BehindHead(m', k) && Thr(m', k) != 0
      ensures Th(s', Own(m', k)).n == k && Th(s', Own(m', k)).pc == Lead(SetHeadThread)
    {
      LeadingKept(m, t, f, g, e, k, Th(s, Own(m, k)));
    }
  }

  /** Whose node is queued: that of the thread, or that of a waiter it has signalled. */
  lemma Appended(s: State, t: Tid, c: Choice, k: Ref)
    requires Inv(s) && t != 0 && Act(s.m, t, Th(s, t), c).1 == Append(k)
    ensures var h := Th(s, Own(s.m, k)); Own(s.m, k) != t ==> h.n == k && Waits(h)
    ensures Own(s.m, k) == t ==> !Signalling(Th(s, t)) && Th(s, t).n == k
  {
    hide Act, Shape, OneInitialiser;
    AppendsE(s.m, t, Th(s, t), c);
    assert ThreadOk(s.m, t, Th(s, t));
    if Own(s.m, k) != t { assert Unqueued(s.m, k); }
  }

  lemma AppendsE(m: Mem, t: Tid, f: Frame, c: Choice)
    ensures var e := Act(m, t, f, c).1; e.Append? ==> f.pc == Enq(EnqCasTail) && e.r == f.e
  {
  }

  /** One thread of the state is as the step leaves it, the others are as they were. */
  lemma StepFrames(s: State, t: Tid, c: Choice)
    requires t != 0
    ensures var (g, e) := Act(s.m, t, Th(s, t), c);
      && Step(s, t, c).m == Write(s.m, t, e)
      && Th(Step(s, t, c), t) == g
      && (e.Unpark? ==> e.t in Step(s, t, c).m.permits)
      && forall u :: u != t ==> Th(Step(s, t, c), u) == Th(s, u)
  {
    hide Act, StaleSignal;
  }

  lemma InitialiserKept(s: State, t: Tid, c: Choice)
    requires Inv(s) && t != 0
    ensures OneInitialiser(Step(s, t, c))
  {
    hide Act, StaleSignal, LinksOk, Numbered, Owned;
    var m, f := s.m, Th(s, t);
    var (g, e) := Act(m, t, f, c);
    assert ThreadOk(m, t, f);
    StepThread(m, t, f, c);
    StepMoves(m, t, f, c);
    var s' := Step(s, t, c);
    forall u, v | Initialising(Th(s', u).pc) && Initialising(Th(s', v).pc)
      ensures u == v
    {
      assert ThreadOk(m, u, Th(s, u)) && ThreadOk(m, v, Th(s, v));
      assert Initialising(Th(s, u).pc) && Initialising(Th(s, v).pc) ==> u == v;
    }
  }

  /** Every step of every thread keeps the queue invariant. */
  lemma InvStep(s: State, t: Tid, c: Choice)
    requires Inv(s)
    ensures Inv(Step(s, t, c))
  {
    hide Act, StaleSignal, LinksOk, Numbered, EndsOk, Owned, OneInitialiser, Moves;
    if t == 0 { return; }
    var m, f, s' := s.m, Th(s, t), Step(s, t, c);
    var (g, e) := Act(m, t, f, c);
    assert ThreadOk(m, t, f);
    StepThread(m, t, f, c);
    NumberedKept(m, t, e);
    EndsKept(m, t, e);
    LinksKept(m, t, e);
    OwnedKept(s, t, c);
    InitialiserKept(s, t, c);
    forall u
      ensures ThreadOk(s'.m, u, Th(s', u))
    {
      if u != t { OtherThread(s, t, c, u); }
    }
  }

  lemma OtherThread(s: State, t: Tid, c: Choice, u: Tid)
    requires Inv(s) && t != 0 && u != t
    ensures ThreadOk(Step(s, t, c).m, u, Th(s, u))
  {
    hide Act, StaleSignal, Owned;
    var m, f, h := s.m, Th(s, t), Th(s, u);
    var (g, e) := Act(m, t, f, c);
    assert ThreadOk(m, t, f) && ThreadOk(m, u, h);
    StepThread(m, t, f, c);
    StepMoves(m, t, f, c);
    assert e.WriteTail? && m.tail == NULL ==> !Initialising(h.pc);
    OwnNodeKept(m, t, e, u, h);
    LocalsKept(m, t, e, u, h);
  }

  lemma InvInit(kind: Kind, st: nat)
    ensures Inv(Init(kind, st))
  {
  }

  lemma {:induction false} InvRun(s: State, sched: Schedule)
    requires Inv(s)
    ensures Inv(Run(s, sched))
    decreases |sched|
  {
    hide Inv, Step;
    if sched != [] {
      InvStep(s, sched[0].0, sched[0].1);
      InvRun(Step(s, sched[0].0, sched[0].1), sched[1..]);
    }
  }
}
