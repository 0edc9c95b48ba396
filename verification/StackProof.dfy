/** Safety of the lock-free stack over all runs: although nodes are reused, every call takes
    effect at one step as an operation of the sequential stack, and every node is in one place. */
module StackProof {
  import opened Sequences
  import opened StackModel

  ghost predicate LinkAt(next: map<Ref, Ref>, nodes: seq<Ref>, end: Ref, i: nat)
    requires i < |nodes|
  {
    Link(next, nodes[i]) == if i + 1 < |nodes| then nodes[i + 1] else end
  }

  /** The links of `nodes` lead from each one to the following one and from the last to `end`. */
  ghost predicate Linked(next: map<Ref, Ref>, nodes: seq<Ref>, end: Ref) {
    forall i :: 0 <= i < |nodes| ==> LinkAt(next, nodes, end, i)
  }

  ghost predicate Owned(s: State, nodes: seq<Ref>) {
    Distinct(nodes) && forall r :: r in nodes ==> r in s.used && r != NULL
  }

  ghost predicate ChainOk(s: State) {
    && Owned(s, s.chain)
    && Linked(s.next, s.chain, NULL)
    && s.top == if s.chain == [] then NULL else s.chain[0]
  }

  /** No node is on the stack and with a thread, or with two threads. */
  ghost predicate Apart(s: State) {
    && (forall t, r :: r in Th(s, t).mine ==> r !in s.chain)
    && (forall t, u, r :: t != u && r in Th(s, t).mine ==> r !in Th(s, u).mine)
  }

  /** The nodes of a range made so far hold its values in reverse and are linked. */
  ghost predicate Built(s: State, f: Frame) {
    && f.call.PushRange? && |f.mine| <= |f.call.vals|
    && (forall j :: 0 <= j < |f.mine| ==> Value(s, f.mine[j]) == f.call.vals[|f.mine| - 1 - j])
    && (forall j :: 0 <= j < |f.mine| - 1 ==> Next(s, f.mine[j]) == f.mine[j + 1])
  }

  /** What a pop loaded is still right if nothing was removed since. */
  ghost predicate Hazard(s: State, f: Frame) {
    && f.call.PopOne? && f.oldPtr != NULL && f.since <= s.removed
    && s.n > 0 && f.oldTag == f.since % s.n
    && (s.removed == f.since ==> f.oldPtr in s.chain && (f.pc == PopCas ==> f.nx == Next(s, f.oldPtr)))
  }

  ghost predicate Shape(s: State, f: Frame) {
    match f.pc
    case Idle => f.mine == []
    case Alloc => Built(s, f) && |f.mine| < |f.call.vals|
    case LinkLoad => Built(s, f) && f.mine != []
    case LinkNext => Built(s, f) && f.mine != []
    case LinkCas => Built(s, f) && f.mine != [] && Next(s, f.mine[|f.mine| - 1]) == f.oldPtr
    case PopLoad => f.call.PopOne? && f.mine == []
    case PopNext => Hazard(s, f) && f.mine == []
    case PopCas => Hazard(s, f) && f.mine == []
    case TakeLoad => f.call.TakeAll? && f.mine == []
    case TakeCas => f.call.TakeAll? && f.mine == [] && f.oldPtr != NULL
    case Drain =>
      && !f.call.PushRange?
      && (f.call.TakeAll? && f.seen == [] && !f.relinked ==>
            f.mine != [] && f.mine[0] == f.oldPtr && Linked(s.next, f.mine, NULL))
    case Done => f.mine == []
  }

  ghost predicate Pending(pc: Pc) { !pc.Idle? && !pc.Drain? && !pc.Done? }

  ghost predicate Fits(call: Call, op: Op) {
    match call
    case PushRange(vals) => op.Pushed? && op.vals == vals && op.taken <= |vals|
    case PopOne => op.Popped? || op.Empty?
    case TakeAll => op.Detached?
  }

  /** The values an operation takes off the stack. */
  function Removed(op: Op): seq<Val> {
    match op
    case Popped(v) => [v]
    case Detached(vs) => vs
    case _ => []
  }

  /** A call has no event before it took effect and exactly one afterwards; the values seen by
      the functor and those still with the thread are those of the event. */
  ghost predicate Logged(s: State, t: Tid, f: Frame) {
    && f.started <= |s.log|
    && (Pending(f.pc) ==> f.seen == [] && forall i :: f.started <= i < |s.log| ==> s.log[i].t != t)
    && (f.pc == Drain || f.pc == Done ==>
          && f.started <= f.lin < |s.log|
          && s.log[f.lin].t == t
          && Fits(f.call, s.log[f.lin].op)
          && multiset(f.seen) + multiset(Values(s.val, f.mine)) == multiset(Removed(s.log[f.lin].op))
          && forall i :: f.started <= i < |s.log| && i != f.lin ==> s.log[i].t != t)
  }

  ghost predicate FrameOk(s: State, t: Tid) {
    var f := Th(s, t);
    Owned(s, f.mine) && Shape(s, f) && Logged(s, t, f)
  }

  ghost predicate Inv(s: State) {
    && s.n > 0
    && s.tag == s.removed % s.n
    && ChainOk(s)
    && Apart(s)
    && (forall t :: FrameOk(s, t))
    && Th(s, 0) == IDLE_FRAME
    && Replay(s.log) == Some(Values(s.val, s.chain))
  }

  // ---- What a step leaves alone

  /** All that a step of `t` may do to what other threads rely on. */
  ghost predicate Kept(s: State, u: State, t: Tid) {
    && u.n == s.n
    && (forall r :: r in s.used && r !in Th(s, t).mine ==> r in u.used && Next(u, r) == Next(s, r))
    && (forall r :: r in s.used ==> Value(u, r) == Value(s, r) && (r in u.val <==> r in s.val))
    && (forall v :: v != t ==> Th(u, v) == Th(s, v))
    && s.log <= u.log
    && (forall i :: |s.log| <= i < |u.log| ==> u.log[i].t == t)
    && s.removed <= u.removed
    && (s.removed == u.removed ==> forall r :: r in s.chain ==> r in u.chain)
  }

  lemma ValuesKept(s: State, u: State, t: Tid, nodes: seq<Ref>)
    requires Kept(s, u, t) && forall r :: r in nodes ==> r in s.used
    ensures Values(u.val, nodes) == Values(s.val, nodes)
  {
    forall i | 0 <= i < |nodes|
      ensures Values(u.val, nodes)[i] == Values(s.val, nodes)[i]
    {
      assert nodes[i] in nodes;
      assert Value(u, nodes[i]) == Value(s, nodes[i]);
    }
  }

  lemma OtherKept(s: State, u: State, t: Tid, v: Tid)
    requires Inv(s) && Kept(s, u, t) && v != t
    ensures FrameOk(u, v)
  {
    assert FrameOk(s, v);
    var f := Th(s, v);
    assert forall r :: r in f.mine ==> r !in Th(s, t).mine;
    ValuesKept(s, u, t, f.mine);
    assert forall j :: 0 <= j < |f.mine| ==> f.mine[j] in f.mine;
    assert Owned(u, f.mine);
    ShapeKept(s, u, t, v);
    assert Logged(u, v, f) by {
      assert f.pc == Drain || f.pc == Done ==> u.log[f.lin] == s.log[f.lin];
    }
  }

  lemma HazardKept(s: State, u: State, t: Tid, f: Frame)
    requires Owned(s, s.chain) && Apart(s) && Kept(s, u, t) && Hazard(s, f)
    ensures Hazard(u, f)
  {
    if u.removed == f.since {
      assert f.oldPtr in s.used && f.oldPtr !in Th(s, t).mine;
    }
  }

  lemma LinksKept(s: State, u: State, t: Tid, v: Tid)
    requires Apart(s) && Kept(s, u, t) && v != t && Owned(s, Th(s, v).mine)
    ensures var f := Th(s, v);
      forall j :: 0 <= j < |f.mine| ==>
        Next(u, f.mine[j]) == Next(s, f.mine[j]) && Value(u, f.mine[j]) == Value(s, f.mine[j])
  {
    var f := Th(s, v);
    forall j | 0 <= j < |f.mine|
      ensures Next(u, f.mine[j]) == Next(s, f.mine[j]) && Value(u, f.mine[j]) == Value(s, f.mine[j])
    {
      var r := f.mine[j];
      assert r in f.mine;
      assert r !in Th(s, t).mine;
    }
  }

  lemma LinkedKept(next: map<Ref, Ref>, after: map<Ref, Ref>, nodes: seq<Ref>, end: Ref)
    requires Linked(next, nodes, end)
    requires forall j :: 0 <= j < |nodes| ==> Link(after, nodes[j]) == Link(next, nodes[j])
    ensures Linked(after, nodes, end)
  {
    forall i | 0 <= i < |nodes|
      ensures LinkAt(after, nodes, end, i)
    {
      assert LinkAt(next, nodes, end, i);
    }
  }

  lemma ShapeKept(s: State, u: State, t: Tid, v: Tid)
    requires ChainOk(s) && Apart(s) && Kept(s, u, t) && v != t
    requires Owned(s, Th(s, v).mine) && Shape(s, Th(s, v))
    ensures Shape(u, Th(s, v))
  {
    var f := Th(s, v);
    LinksKept(s, u, t, v);
    if f.pc == PopNext || f.pc == PopCas { HazardKept(s, u, t, f); }
    hide Kept, Apart, Owned, Hazard;
    assert Built(s, f) ==> Built(u, f);
    if Linked(s.next, f.mine, NULL) { LinkedKept(s.next, u.next, f.mine, NULL); }
    assert f.pc == LinkCas ==> Shape(u, f);
    assert f.pc == Drain ==> Shape(u, f);
    assert f.pc == PopNext ==> Shape(u, f);
  }

  // ---- One step

  /** What a step must establish about the stack and the thread that took it. */
  ghost predicate Sound(u: State, t: Tid) {
    && u.n > 0
    && u.tag == u.removed % u.n
    && ChainOk(u) && Apart(u) && FrameOk(u, t)
    && Replay(u.log) == Some(Values(u.val, u.chain))
  }

  lemma ReplayLast(log: seq<Event>, e: Event)
    ensures Replay(log + [e]) == match Replay(log) case None => None case Some(s) => Apply(s, e.op)
  {
    assert (log + [e])[..|log|] == log;
  }

  lemma {:induction false} PushAllReverses(s: seq<Val>, vals: seq<Val>, rev: seq<Val>)
    requires |rev| == |vals| && forall j :: 0 <= j < |rev| ==> rev[j] == vals[|vals| - 1 - j]
    ensures PushAll(s, vals) == rev + s
    decreases |vals|
  {
    if vals == [] {
      assert rev + s == s;
    } else {
      PushAllReverses([vals[0]] + s, vals[1..], rev[..|rev| - 1]);
      assert rev[..|rev| - 1] + ([vals[0]] + s) == rev + s;
    }
  }

  lemma SameRemainder(a: nat, b: nat, n: nat)
    requires n > 0 && a <= b < a + n && a % n == b % n
    ensures a == b
  {
    var q, p := a / n, b / n;
    Distribute(n, p, q);
    NoMultiple(n, p - q);
  }

  lemma Distribute(n: int, p: int, q: int)
    ensures n * p - n * q == n * (p - q)
  {
  }

  lemma NoMultiple(n: nat, k: int)
    ensures n > 0 && 0 <= n * k < n ==> k == 0
  {
  }

  /** A step that neither moves a node nor takes effect. */
  lemma QuietStep(s: State, t: Tid, f: Frame)
    requires Inv(s) && t != 0
    requires f.mine == Th(s, t).mine && Shape(s, f) && Logged(s, t, f)
    ensures Kept(s, Put(s, t, f), t) && Sound(Put(s, t, f), t)
  {
    hide Replay, Apart, Shape;
    var u := Put(s, t, f);
    assert FrameOk(s, t);
    assert Owned(u, f.mine) && ChainOk(u);
    QuietShape(s, u, f);
    assert Logged(u, t, f);
    assert Apart(u) by { SameApart(s, u); }
  }

  lemma SameApart(s: State, u: State)
    requires Apart(s) && u.chain == s.chain && forall v :: Th(u, v).mine == Th(s, v).mine
    ensures Apart(u)
  {
  }

  lemma QuietShape(s: State, u: State, f: Frame)
    requires Shape(s, f) && u == s.(th := u.th)
    ensures Shape(u, f)
  {
    assert Linked(s.next, f.mine, NULL) == Linked(u.next, f.mine, NULL);
  }

  /** A step that only changes the memory of a node in the pool or of the thread itself. */
  lemma PrivateStep(s: State, u: State, t: Tid)
    requires Inv(s) && t != 0
    requires u == s.(next := u.next, val := u.val, used := u.used, th := u.th)
    requires Kept(s, u, t)
    requires Owned(u, Th(u, t).mine) && Shape(u, Th(u, t)) && Logged(u, t, Th(u, t))
    requires forall r :: r in Th(u, t).mine ==> r in Th(s, t).mine || r !in s.used
    ensures Sound(u, t)
  {
    hide Replay, Shape, Logged;
    assert FrameOk(s, t);
    ValuesKept(s, u, t, s.chain);
    forall v
      ensures Owned(s, Th(s, v).mine)
    {
      assert FrameOk(s, v);
    }
    PrivateApart(s, u, t);
    PrivateChain(s, u, t);
  }

  lemma PrivateChain(s: State, u: State, t: Tid)
    requires ChainOk(s) && Apart(s) && Kept(s, u, t) && u.chain == s.chain && u.top == s.top
    ensures ChainOk(u)
  {
    forall i | 0 <= i < |s.chain|
      ensures Next(u, s.chain[i]) == Next(s, s.chain[i]) && s.chain[i] in u.used
    {
      var r := s.chain[i];
      assert r in s.chain;
      assert r in s.used && r !in Th(s, t).mine;
    }
    LinkedKept(s.next, u.next, s.chain, NULL);
  }

  lemma PrivateApart(s: State, u: State, t: Tid)
    requires Apart(s) && Owned(s, s.chain) && (forall v :: Owned(s, Th(s, v).mine))
    requires u.chain == s.chain && (forall v :: v != t ==> Th(u, v) == Th(s, v))
    requires forall r :: r in Th(u, t).mine ==> r in Th(s, t).mine || r !in s.used
    ensures Apart(u)
  {
    forall v, r | r in Th(u, v).mine
      ensures r !in u.chain
    {
      if v != t { assert r in Th(s, v).mine; }
    }
    forall v, w, r | v != w && r in Th(u, v).mine
      ensures r !in Th(u, w).mine
    {
      assert r in Th(s, v).mine || r !in s.used;
      assert r in Th(u, w).mine ==> r in Th(s, w).mine || r !in s.used;
    }
  }

  lemma AllocShape(s: State, u: State, f: Frame, g: Frame, r: Ref)
    requires Shape(s, f) && f.pc == Alloc && r !in f.mine
    requires u == s.(used := u.used, th := u.th, val := s.val[r := f.call.vals[|f.mine|]],
                     next := s.next[r := if f.mine == [] then NULL else f.mine[0]])
    requires g == f.(mine := [r] + f.mine, pc := if |f.mine| + 1 == |f.call.vals| then LinkLoad else Alloc)
    ensures Shape(u, g)
  {
    assert Built(s, f);
    forall j | 0 <= j < |f.mine|
      ensures Value(u, f.mine[j]) == Value(s, f.mine[j]) && Next(u, f.mine[j]) == Next(s, f.mine[j])
    {
      assert f.mine[j] in f.mine && f.mine[j] != r;
    }
    forall j | 0 <= j < |g.mine|
      ensures Value(u, g.mine[j]) == g.call.vals[|g.mine| - 1 - j]
      ensures j + 1 < |g.mine| ==> Next(u, g.mine[j]) == g.mine[j + 1]
    {
      if j > 0 { assert g.mine[j] == f.mine[j - 1]; }
    }
  }

  lemma AllocStep(s: State, t: Tid, c: Choice)
    requires Inv(s) && t != 0 && Th(s, t).pc == Alloc && c.Use?
    ensures var u := Step(s, t, c); Kept(s, u, t) && Sound(u, t)
  {
    hide Replay, Apart, ChainOk;
    var f, u := Th(s, t), Step(s, t, c);
    assert FrameOk(s, t);
    if u != s {
      var g := Th(u, t);
      assert c.r !in s.used && g.mine == [c.r] + f.mine;
      assert Kept(s, u, t);
      assert Shape(u, g) && Logged(u, t, g) by { AllocShape(s, u, f, g, c.r); }
      PrivateStep(s, u, t);
    }
  }

  lemma LinkNextStep(s: State, t: Tid, c: Choice)
    requires Inv(s) && t != 0 && Th(s, t).pc == LinkNext
    ensures var u := Step(s, t, c); Kept(s, u, t) && Sound(u, t)
  {
    hide Replay, Apart, ChainOk;
    var f, u := Th(s, t), Step(s, t, c);
    assert FrameOk(s, t);
    var g := Th(u, t);
    assert g.mine == f.mine;
    assert f.mine[|f.mine| - 1] in f.mine;
    assert Kept(s, u, t);
    assert Shape(u, g);
    PrivateStep(s, u, t);
  }

  // ---- The steps that take effect

  lemma ValuesAppend(val: map<Ref, Val>, a: seq<Ref>, b: seq<Ref>)
    ensures Values(val, a + b) == Values(val, a) + Values(val, b)
  {
  }

  /** A call takes effect: its event is the last one, and the nodes it takes are its own. */
  lemma EffectSound(s: State, u: State, t: Tid, op: Op)
    requires Inv(s) && t != 0 && Pending(Th(s, t).pc)
    requires u.n == s.n && u.next == s.next && u.val == s.val && u.used == s.used
    requires u.log == s.log + [Event(t, op)] && forall v :: v != t ==> Th(u, v) == Th(s, v)
    requires s.removed <= u.removed && u.tag == u.removed % u.n
    requires s.removed == u.removed ==> forall r :: r in s.chain ==> r in u.chain
    requires var f, g := Th(s, t), Th(u, t);
      && g == f.(pc := g.pc, mine := g.mine, oldPtr := g.oldPtr, oldTag := g.oldTag, since := g.since, lin := |s.log|)
      && (g.pc == Drain || g.pc == Done)
      && Shape(u, g) && Owned(s, g.mine) && Fits(f.call, op)
      && multiset(Values(s.val, g.mine)) == multiset(Removed(op))
    requires Apply(Values(s.val, s.chain), op) == Some(Values(s.val, u.chain))
    requires ChainOk(u) && Apart(u)
    ensures Kept(s, u, t) && Sound(u, t)
  {
    hide Replay, Apart, Shape, Apply, ChainOk, Fits, Removed;
    assert FrameOk(s, t);
    ReplayLast(s.log, Event(t, op));
    assert Logged(s, t, Th(s, t));
    assert Logged(u, t, Th(u, t));
  }

  /** A call that leaves the stack alone takes effect: a pop or a bulk removal that finds it empty,
      or a range of which no node could be made. */
  lemma NoteStep(s: State, t: Tid, f: Frame, op: Op)
    requires Inv(s) && t != 0 && Pending(Th(s, t).pc)
    requires f == Th(s, t).(pc := Done, oldPtr := f.oldPtr, oldTag := f.oldTag, since := f.since)
    requires f.mine == [] && Fits(f.call, op) && Removed(op) == []
    requires Apply(Values(s.val, s.chain), op) == Some(Values(s.val, s.chain))
    ensures var u := Log(s, t, f, op); Kept(s, u, t) && Sound(u, t)
  {
    hide Replay, Apart, Shape, Apply, Fits, Removed;
    var u := Log(s, t, f, op);
    SameApart(s, u);
    DoneShape(u, Th(u, t));
    EffectSound(s, u, t, op);
  }

  lemma DoneShape(s: State, f: Frame)
    requires f.pc == Done && f.mine == []
    ensures Shape(s, f)
  {
  }

  lemma PushShape(s: State, t: Tid)
    requires Inv(s) && Th(s, t).pc == LinkCas
    ensures var f := Th(s, t);
      && f.call.PushRange? && 0 < |f.mine| <= |f.call.vals|
      && Linked(s.next, f.mine, f.oldPtr)
      && (forall r :: r in f.mine ==> r !in s.chain)
      && Values(s.val, f.mine + s.chain) == PushAll(Values(s.val, s.chain), f.call.vals[..|f.mine|])
  {
    assert FrameOk(s, t);
    var f := Th(s, t);
    assert Built(s, f);
    var vals := f.call.vals[..|f.mine|];
    forall j | 0 <= j < |vals|
      ensures Values(s.val, f.mine)[j] == vals[|vals| - 1 - j]
    {
      assert Value(s, f.mine[j]) == f.call.vals[|f.mine| - 1 - j];
    }
    PushAllReverses(Values(s.val, s.chain), vals, Values(s.val, f.mine));
    ValuesAppend(s.val, f.mine, s.chain);
  }

  lemma JoinLinked(next: map<Ref, Ref>, a: seq<Ref>, b: seq<Ref>, mid: Ref, end: Ref)
    requires Linked(next, a, mid) && Linked(next, b, end) && mid == (if b == [] then end else b[0])
    ensures Linked(next, a + b, end)
  {
    forall i | 0 <= i < |a + b|
      ensures LinkAt(next, a + b, end, i)
    {
      JoinAt(next, a, b, mid, end, i);
    }
  }

  lemma JoinAt(next: map<Ref, Ref>, a: seq<Ref>, b: seq<Ref>, mid: Ref, end: Ref, i: nat)
    requires Linked(next, a, mid) && Linked(next, b, end) && mid == (if b == [] then end else b[0])
    requires i < |a + b|
    ensures LinkAt(next, a + b, end, i)
  {
    if i < |a| {
      assert LinkAt(next, a, mid, i);
    } else {
      assert LinkAt(next, b, end, i - |a|);
    }
  }

  lemma JoinOwned(s: State, a: seq<Ref>, b: seq<Ref>)
    requires Owned(s, a) && Owned(s, b) && forall r :: r in a ==> r !in b
    ensures Owned(s, a + b)
  {
    forall i, j | 0 <= i < j < |a + b|
      ensures (a + b)[i] != (a + b)[j]
    {
      if i < |a| <= j { assert a[i] in a; assert b[j - |a|] in b; }
    }
  }

  /** A push that exchanges the top has linked its last node to the present top, whatever
      happened since it loaded it: pushes need no tag. */
  lemma PushStep(s: State, u: State, t: Tid)
    requires Inv(s) && t != 0 && Th(s, t).pc == LinkCas && Unchanged(s, Th(s, t))
    requires var f := Th(s, t);
      && f.call.PushRange? && f.mine != []
      && u == s.(log := s.log + [Event(t, Pushed(f.call.vals, |f.mine|))], top := f.mine[0],
                 chain := f.mine + s.chain, th := s.th[t := f.(pc := Done, mine := [], lin := |s.log|)])
    ensures Kept(s, u, t) && Sound(u, t)
  {
    hide Replay, Apart, Shape;
    var f := Th(s, t);
    assert FrameOk(s, t);
    PushShape(s, t);
    JoinLinked(s.next, f.mine, s.chain, f.oldPtr, NULL);
    JoinOwned(s, f.mine, s.chain);
    assert Apart(u) by { MoveApart(s, u, t, f.mine + s.chain); }
    DoneShape(u, Th(u, t));
    EffectSound(s, u, t, Pushed(f.call.vals, |f.mine|));
  }

  /** Nodes move between the stack and thread `t`. */
  lemma MoveApart(s: State, u: State, t: Tid, all: seq<Ref>)
    requires Apart(s) && (forall v :: v != t ==> Th(u, v) == Th(s, v))
    requires forall r :: r in Th(u, t).mine ==> r !in u.chain
    requires forall r :: r in all ==> r in Th(s, t).mine || r in s.chain
    requires forall r :: r in Th(u, t).mine || r in u.chain ==> r in all
    ensures Apart(u)
  {
    forall v, r | r in Th(u, v).mine
      ensures r !in u.chain
    {
      if v != t {
        assert r in Th(s, v).mine;
        assert r !in Th(s, t).mine;
      }
    }
    forall v, w, r | v != w && r in Th(u, v).mine
      ensures r !in Th(u, w).mine
    {
      if w == t { assert r in Th(s, v).mine && r !in Th(s, t).mine; }
    }
  }

  /** The heart of the tag: when a pop finds the tag it loaded, and fewer than `n` removals
      happened since, then none happened, so the node it loaded never left the stack and the
      link it read is the present one. */
  lemma PopIsRight(s: State, t: Tid)
    requires Inv(s) && Th(s, t).pc == PopCas && Unchanged(s, Th(s, t))
    requires s.removed - Th(s, t).since < s.n
    ensures var f := Th(s, t);
      && s.chain != [] && s.chain[0] == f.oldPtr == s.top
      && f.nx == Next(s, s.top)
      && f.nx == if |s.chain| > 1 then s.chain[1] else NULL
  {
    hide Replay, Apart, Logged;
    assert FrameOk(s, t);
    var f := Th(s, t);
    assert Hazard(s, f);
    SameRemainder(f.since, s.removed, s.n);
    assert f.oldPtr in s.chain;
    assert LinkAt(s.next, s.chain, NULL, 0);
  }

  lemma PopStep(s: State, u: State, t: Tid)
    requires Inv(s) && t != 0 && Th(s, t).pc == PopCas && Unchanged(s, Th(s, t))
    requires s.removed - Th(s, t).since < s.n
    requires var f := Th(s, t);
      && u == s.(log := s.log + [Event(t, Popped(Value(s, f.oldPtr)))], top := f.nx, tag := (s.tag + 1) % s.n,
                 removed := s.removed + 1, chain := u.chain, wrapped := u.wrapped,
                 th := s.th[t := f.(pc := Drain, mine := [f.oldPtr], lin := |s.log|)])
      && u.chain == if s.chain == [] then [] else s.chain[1..]
    ensures Kept(s, u, t) && Sound(u, t)
  {
    hide Replay, Apart, Shape;
    var f := Th(s, t);
    assert FrameOk(s, t);
    PopIsRight(s, t);
    PopChain(s, u);
    assert s.chain == [f.oldPtr] + u.chain && f.oldPtr in s.chain;
    ValuesAppend(s.val, [f.oldPtr], u.chain);
    assert Values(s.val, [f.oldPtr]) == [Value(s, f.oldPtr)];
    assert Values(s.val, s.chain)[1..] == Values(s.val, u.chain);
    MoveApart(s, u, t, s.chain);
    CallKind(s, f);
    DrainShape(u, Th(u, t));
    NextTag(s.removed, s.n);
    EffectSound(s, u, t, Popped(Value(s, f.oldPtr)));
  }

  lemma NextTag(removed: nat, n: nat)
    requires n > 0
    ensures (removed % n + 1) % n == (removed + 1) % n
  {
    var q, r := removed / n, removed % n;
    if r + 1 < n {
      Remainder(r + 1, n, 0, r + 1);
      Remainder(removed + 1, n, q, r + 1);
    } else {
      Remainder(r + 1, n, 1, 0);
      Distribute(n, q + 1, q);
      Remainder(removed + 1, n, q + 1, 0);
    }
  }

  lemma Remainder(x: nat, n: nat, q: nat, r: nat)
    requires n > 0 && x == n * q + r && r < n
    ensures x % n == r
  {
    Distribute(n, x / n, q);
    if x % n <= r { NoMultiple(n, x / n - q); } else { Distribute(n, q, x / n); NoMultiple(n, q - x / n); }
  }

  lemma PopChain(s: State, u: State)
    requires ChainOk(s) && s.chain != [] && u.chain == s.chain[1..] && u.next == s.next && u.used == s.used
    requires u.top == if |s.chain| > 1 then s.chain[1] else NULL
    ensures ChainOk(u)
  {
    forall i | 0 <= i < |u.chain|
      ensures LinkAt(u.next, u.chain, NULL, i)
    {
      assert LinkAt(s.next, s.chain, NULL, i + 1);
    }
    assert forall r :: r in u.chain ==> r in s.chain;
  }

  lemma CallKind(s: State, f: Frame)
    requires Shape(s, f)
    ensures f.pc == PopCas ==> f.call.PopOne? && f.mine == []
    ensures f.pc == TakeCas ==> f.call.TakeAll? && f.mine == [] && f.oldPtr != NULL
  {
  }

  lemma DrainShape(s: State, f: Frame)
    requires f.pc == Drain && !f.call.PushRange?
    requires f.call.TakeAll? && f.seen == [] && !f.relinked ==>
               f.mine != [] && f.mine[0] == f.oldPtr && Linked(s.next, f.mine, NULL)
    ensures Shape(s, f)
  {
  }

  lemma TakeStep(s: State, u: State, t: Tid)
    requires Inv(s) && t != 0 && Th(s, t).pc == TakeCas && Unchanged(s, Th(s, t))
    requires var f := Th(s, t);
      u == s.(log := s.log + [Event(t, Detached(Values(s.val, s.chain)))], top := NULL, tag := (s.tag + 1) % s.n,
              removed := s.removed + 1, chain := [],
              th := s.th[t := f.(pc := Drain, mine := s.chain, lin := |s.log|)])
    ensures Kept(s, u, t) && Sound(u, t)
  {
    hide Replay, Apart, Shape;
    var f := Th(s, t);
    assert FrameOk(s, t);
    CallKind(s, f);
    MoveApart(s, u, t, s.chain);
    DrainShape(u, Th(u, t));
    NextTag(s.removed, s.n);
    EffectSound(s, u, t, Detached(Values(s.val, s.chain)));
  }

  lemma DrainLogged(s: State, u: State, t: Tid, i: nat)
    requires Logged(s, t, Th(s, t)) && Th(s, t).pc == Drain && i < |Th(s, t).mine|
    requires u.log == s.log && u.val == s.val
    requires var f := Th(s, t);
      Th(u, t) == f.(seen := f.seen + [Value(s, f.mine[i])], mine := f.mine[..i] + f.mine[i + 1..])
    ensures Logged(u, t, Th(u, t))
  {
    ValuesRemove(s.val, Th(s, t).mine, i);
  }

  lemma DrainStep(s: State, u: State, t: Tid, i: nat)
    requires Inv(s) && t != 0 && Th(s, t).pc == Drain && i < |Th(s, t).mine|
    requires var f := Th(s, t);
      u == s.(used := s.used - {f.mine[i]},
              th := s.th[t := f.(seen := f.seen + [Value(s, f.mine[i])], mine := f.mine[..i] + f.mine[i + 1..])])
    ensures Kept(s, u, t) && Sound(u, t)
  {
    hide Replay, Apart, Shape, ChainOk, Logged;
    var f, g := Th(s, t), Th(u, t);
    assert FrameOk(s, t);
    assert f.mine[i] in f.mine && forall x :: x in g.mine ==> x in f.mine;
    RemoveOwned(s, u, f.mine, i);
    DrainKind(s, f);
    DrainShape(u, g);
    DrainLogged(s, u, t, i);
    PrivateStep(s, u, t);
  }

  /** The reversal writes a link; a pop that still looks at the node has been overtaken. */
  lemma RelinkStep(s: State, u: State, t: Tid, r: Ref, to: Ref)
    requires Inv(s) && t != 0 && Th(s, t).pc == Drain && r in Th(s, t).mine
    requires u == s.(next := s.next[r := to], th := s.th[t := Th(s, t).(relinked := true)])
    ensures Kept(s, u, t) && Sound(u, t)
  {
    hide Replay, Apart, Shape, ChainOk, Logged;
    assert FrameOk(s, t);
    DrainKind(s, Th(s, t));
    DrainShape(u, Th(u, t));
    assert Logged(u, t, Th(u, t)) by { RelinkLogged(s, u, t); }
    PrivateStep(s, u, t);
  }

  lemma RelinkLogged(s: State, u: State, t: Tid)
    requires Logged(s, t, Th(s, t)) && u.log == s.log && u.val == s.val
    requires Th(u, t) == Th(s, t).(relinked := true)
    ensures Logged(u, t, Th(u, t))
  {
  }

  lemma DrainEnd(s: State, t: Tid)
    requires Inv(s) && t != 0 && Th(s, t).pc == Drain && Th(s, t).mine == []
    ensures var u := Put(s, t, Th(s, t).(pc := Done)); Kept(s, u, t) && Sound(u, t)
  {
    hide Replay, Apart, Shape, ChainOk;
    var g := Th(s, t).(pc := Done);
    assert FrameOk(s, t);
    DoneShape(s, g);
    QuietStep(s, t, g);
  }

  lemma DrainKind(s: State, f: Frame)
    requires Shape(s, f) && f.pc == Drain
    ensures !f.call.PushRange?
  {
  }

  lemma RemoveOwned(s: State, u: State, nodes: seq<Ref>, i: nat)
    requires Owned(s, nodes) && i < |nodes| && u.used == s.used - {nodes[i]}
    ensures Owned(u, nodes[..i] + nodes[i + 1..])
  {
    var r := nodes[..i] + nodes[i + 1..];
    forall j | 0 <= j < |r|
      ensures r[j] == nodes[if j < i then j else j + 1] && r[j] in nodes && r[j] != nodes[i]
    {
      var k := if j < i then j else j + 1;
      assert r[j] == nodes[k] && nodes[k] in nodes;
    }
  }

  lemma ValuesRemove(val: map<Ref, Val>, nodes: seq<Ref>, i: nat)
    requires i < |nodes|
    ensures multiset(Values(val, nodes)) ==
            multiset([Values(val, nodes)[i]]) + multiset(Values(val, nodes[..i] + nodes[i + 1..]))
  {
    ValuesAppend(val, nodes[..i], nodes[i + 1..]);
    assert nodes == nodes[..i] + ([nodes[i]] + nodes[i + 1..]);
    ValuesAppend(val, nodes[..i], [nodes[i]] + nodes[i + 1..]);
    ValuesAppend(val, [nodes[i]], nodes[i + 1..]);
  }

  lemma LoadPopStep(s: State, t: Tid)
    requires Inv(s) && t != 0 && (Th(s, t).pc == PopLoad || Th(s, t).pc == PopCas)
    ensures var u := LoadForPop(s, t, Th(s, t)); Kept(s, u, t) && Sound(u, t)
  {
    hide Replay, Apart;
    var f := Th(s, t);
    assert FrameOk(s, t);
    assert s.chain != [] ==> s.chain[0] in s.chain && s.chain[0] != NULL;
    if s.top == NULL {
      NoteStep(s, t, Loaded(s, f, Done), Empty);
    } else {
      QuietStep(s, t, Loaded(s, f, PopNext));
    }
  }

  lemma LoadTakeStep(s: State, t: Tid)
    requires Inv(s) && t != 0 && (Th(s, t).pc == TakeLoad || Th(s, t).pc == TakeCas)
    ensures var u := LoadForTake(s, t, Th(s, t)); Kept(s, u, t) && Sound(u, t)
  {
    hide Replay, Apart;
    var f := Th(s, t);
    assert FrameOk(s, t);
    assert s.chain != [] ==> s.chain[0] in s.chain && s.chain[0] != NULL;
    if s.top == NULL {
      NoteStep(s, t, Loaded(s, f, Done), Detached([]));
    } else {
      QuietStep(s, t, Loaded(s, f, TakeCas));
    }
  }

  // ---- All steps

  lemma PushSound(s: State, t: Tid, c: Choice)
    requires Inv(s) && t != 0 && Th(s, t).pc in {Alloc, LinkLoad, LinkNext, LinkCas} && Step(s, t, c) != s
    ensures var u := Step(s, t, c); Kept(s, u, t) && Sound(u, t)
  {
    hide Replay, Apart, ChainOk;
    var f, u := Th(s, t), Step(s, t, c);
    assert FrameOk(s, t);
    match f.pc
    case Alloc =>
      if c.Use? { AllocStep(s, t, c); }
      else if f.mine == [] { NoteStep(s, t, f.(pc := Done), Pushed(f.call.vals, 0)); }
      else { QuietStep(s, t, f.(pc := LinkLoad)); }
    case LinkLoad => QuietStep(s, t, Loaded(s, f, LinkNext));
    case LinkNext => LinkNextStep(s, t, c);
    case LinkCas =>
      if c != Fail && Unchanged(s, f) { PushStep(s, u, t); } else { QuietStep(s, t, Loaded(s, f, LinkNext)); }
  }

  lemma PopSound(s: State, t: Tid, c: Choice)
    requires Inv(s) && t != 0 && Th(s, t).pc in {PopLoad, PopNext, PopCas} && !Step(s, t, c).wrapped
    ensures var u := Step(s, t, c); Kept(s, u, t) && Sound(u, t)
  {
    hide Replay, Apart, ChainOk;
    var f, u := Th(s, t), Step(s, t, c);
    assert FrameOk(s, t);
    match f.pc
    case PopLoad => LoadPopStep(s, t);
    case PopNext => QuietStep(s, t, f.(pc := PopCas, nx := Next(s, f.oldPtr)));
    case PopCas => if c != Fail && Unchanged(s, f) { PopStep(s, u, t); } else { LoadPopStep(s, t); }
  }

  lemma TakeSound(s: State, t: Tid, c: Choice)
    requires Inv(s) && s.n > 0 && t != 0 && Th(s, t).pc in {TakeLoad, TakeCas}
    ensures var u := Step(s, t, c); Kept(s, u, t) && Sound(u, t)
  {
    hide Replay, Apart, ChainOk, Inv, Kept, Sound, LoadForTake, Values;
    var f, u := Th(s, t), Step(s, t, c);
    if f.pc == TakeCas && c != Fail && Unchanged(s, f) { TakeStep(s, u, t); } else { LoadTakeStep(s, t); }
  }

  lemma DrainSound(s: State, t: Tid, c: Choice)
    requires Inv(s) && t != 0 && Th(s, t).pc == Drain && Step(s, t, c) != s
    ensures var u := Step(s, t, c); Kept(s, u, t) && Sound(u, t)
  {
    hide Replay, Apart, ChainOk;
    var f, u := Th(s, t), Step(s, t, c);
    if f.mine == [] { DrainEnd(s, t); }
    else if c.Use? { DrainStep(s, u, t, c.r); }
    else { RelinkStep(s, u, t, f.mine[c.i], c.to); }
  }

  lemma CallSound(s: State, t: Tid, c: Choice)
    requires Inv(s) && t != 0 && Th(s, t).pc in {Idle, Done} && Step(s, t, c) != s
    ensures var u := Step(s, t, c); Kept(s, u, t) && Sound(u, t)
  {
    hide Replay, Apart, ChainOk;
    var f := Th(s, t);
    assert FrameOk(s, t);
    if f.pc == Idle { QuietStep(s, t, Start(s, c.call)); } else { QuietStep(s, t, f.(pc := Idle)); }
  }

  lemma StutterSound(s: State, t: Tid)
    requires Inv(s)
    ensures Kept(s, s, t) && Sound(s, t)
  {
    assert FrameOk(s, t);
  }

  lemma StepSound(s: State, t: Tid, c: Choice)
    requires Inv(s) && t != 0 && !Step(s, t, c).wrapped
    ensures var u := Step(s, t, c); Kept(s, u, t) && Sound(u, t)
  {
    hide Kept, Sound, Step, ChainOk, Apart, FrameOk, Replay;
    var pc := Th(s, t).pc;
    if Step(s, t, c) == s { StutterSound(s, t); }
    else if pc in {Alloc, LinkLoad, LinkNext, LinkCas} { PushSound(s, t, c); }
    else if pc in {PopLoad, PopNext, PopCas} { PopSound(s, t, c); }
    else if pc in {TakeLoad, TakeCas} { TakeSound(s, t, c); }
    else if pc == Drain { DrainSound(s, t, c); }
    else {
      assert pc.Idle? || pc.Done?;
      CallSound(s, t, c);
    }
  }

  lemma ScribbleStep(s: State, c: Choice)
    requires Inv(s)
    ensures Inv(Step(s, 0, c))
  {
    hide Replay;
    var u := Step(s, 0, c);
    if u != s {
      assert FrameOk(s, 0) && Kept(s, u, 0);
      forall v
        ensures FrameOk(u, v)
      {
        if v == 0 { assert Shape(u, IDLE_FRAME) && Logged(u, 0, IDLE_FRAME); } else { OtherKept(s, u, 0, v); }
      }
      PrivateChain(s, u, 0);
      SameApart(s, u);
    }
  }

  lemma InvStep(s: State, t: Tid, c: Choice)
    requires Inv(s) && !Step(s, t, c).wrapped
    ensures Inv(Step(s, t, c))
  {
    if t == 0 {
      ScribbleStep(s, c);
    } else {
      hide Replay, Step, FrameOk;
      StepSound(s, t, c);
      var u := Step(s, t, c);
      forall v
        ensures FrameOk(u, v)
      {
        if v != t { OtherKept(s, u, t, v); }
      }
    }
  }

  lemma {:induction false} WrappedRun(s: State, sched: Schedule)
    requires s.n > 0 && s.wrapped
    ensures Run(s, sched).wrapped
    decreases |sched|
  {
    hide Step;
    if sched != [] {
      WrappedRun(Step(s, sched[0].0, sched[0].1), sched[1..]);
    }
  }

  lemma {:induction false} InvRun(s: State, sched: Schedule)
    requires Inv(s) && !Run(s, sched).wrapped
    ensures Inv(Run(s, sched))
    decreases |sched|
  {
    hide Step, ChainOk, Apart, FrameOk, Replay;
    if sched != [] {
      var u := Step(s, sched[0].0, sched[0].1);
      if u.wrapped {
          WrappedRun(u, sched[1..]);
      } else {
        InvStep(s, sched[0].0, sched[0].1);
        InvRun(u, sched[1..]);
      }
    }
  }

  lemma InvInit(n: nat)
    requires n > 0
    ensures Inv(Init(n))
  {
    assert Values(map[], []) == [];
  }
}
