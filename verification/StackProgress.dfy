/** Progress of the lock-free stack: a range is pushed whole unless the pool refuses a node, an exchange
    fails only because of somebody's operation, and a thread left alone completes its call. */
module StackProgress {
  import opened Sequences
  import opened StackModel
  import opened StackProof
  import opened StackTheorems

  /** The nodes made for a range are all it needs. */
  predicate AllMade(f: Frame) {
    f.pc in {LinkLoad, LinkNext, LinkCas} && f.call.PushRange? ==> |f.mine| == |f.call.vals|
  }

  predicate Loading(f: Frame) { f.pc in {LinkLoad, PopLoad, TakeLoad} }
  predicate Exchanging(f: Frame) { f.pc in {LinkCas, PopCas, TakeCas} }

  /** What the thread has loaded is the present top. */
  predicate Current(s: State, f: Frame) { f.pc in {LinkNext, LinkCas, PopNext, PopCas, TakeCas} && Unchanged(s, f) }

  /** A choice with which nothing gets in the way of the thread: no spurious failure, the pool has a
      node, and the functor goes on to the next one. */
  predicate Helps(s: State, f: Frame, c: Choice) {
    match f.pc
    case Alloc => c.Use? && c.r !in s.used && c.r != NULL
    case Drain => f.mine != [] ==> c.Use? && 0 <= c.r < |f.mine|
    case _ => c != Fail
  }

  /** How many such steps a call still takes at most. */
  function Left(s: State, f: Frame): nat {
    match f.pc
    case Idle => 0
    case Alloc => if f.call.PushRange? && |f.mine| <= |f.call.vals| then 4 + |f.call.vals| - |f.mine| else 0
    case LinkLoad => 3
    case LinkNext => if Unchanged(s, f) then 2 else 4
    case LinkCas => if Unchanged(s, f) then 1 else 3
    case PopLoad => 5
    case PopNext => if Unchanged(s, f) then 4 else 6
    case PopCas => if Unchanged(s, f) then 3 else 5
    case TakeLoad => 3 + |s.chain|
    case TakeCas => if Unchanged(s, f) then 2 + |s.chain| else 3 + |s.chain|
    case Drain => 1 + |f.mine|
    case Done => 0
  }

  /** What one step of `t` does to the log and to ranges. */
  ghost predicate Notes(s: State, u: State, t: Tid, c: Choice) {
    var f, g := Th(s, t), Th(u, t);
    && (u.log == s.log || (|u.log| == |s.log| + 1 && u.log[..|s.log|] == s.log && u.log[|s.log|].t == t))
    && (forall v :: v != t ==> Th(u, v) == Th(s, v))
    && (AllMade(f) && c != Refuse ==>
          && AllMade(g)
          && (|u.log| > |s.log| && u.log[|s.log|].op.Pushed? ==>
                u.log[|s.log|].op.taken == |u.log[|s.log|].op.vals|))
  }

  /** What it does to the top and to what the thread has loaded. */
  ghost predicate Loads(s: State, u: State, t: Tid) {
    && (u.log == s.log ==> u.top == s.top && u.tag == s.tag)
    && (u.log == s.log && (Loading(Th(s, t)) || Current(s, Th(s, t))) ==> Current(u, Th(u, t)))
  }

  /** What it does to the call's progress. */
  ghost predicate Advances(s: State, u: State, t: Tid, c: Choice) {
    var f, g := Th(s, t), Th(u, t);
    && (f.pc != Idle && f.pc != Done ==> g.call == f.call && g.started == f.started)
    && (Exchanging(f) && Current(s, f) && c != Fail && Shape(s, f) ==> |u.log| > |s.log|)
    && (Shape(s, f) && Helps(s, f, c) && f.pc != Idle && f.pc != Done ==> g.pc != Idle && Left(u, g) < Left(s, f))
  }

  lemma NotesEvent(s: State, u: State, t: Tid, c: Choice, g: Frame, op: Op)
    requires u.log == s.log + [Event(t, op)] && u.th == s.th[t := g] && AllMade(g)
    requires AllMade(Th(s, t)) && c != Refuse && op.Pushed? ==> op.taken == |op.vals|
    ensures Notes(s, u, t, c)
  {
  }

  lemma NotesNothing(s: State, u: State, t: Tid, c: Choice, g: Frame)
    requires u.log == s.log && u.th == s.th[t := g] && (AllMade(Th(s, t)) && c != Refuse ==> AllMade(g))
    ensures Notes(s, u, t, c)
  {
  }

  lemma NotesCall(s: State, t: Tid, c: Choice)
    requires s.n > 0 && t != 0 && Th(s, t).pc in {Idle, Done}
    ensures var u := Step(s, t, c); Notes(s, u, t, c)
  {
  }

  lemma LoadsCall(s: State, t: Tid, c: Choice)
    requires s.n > 0 && t != 0 && Th(s, t).pc in {Idle, Done}
    ensures var u := Step(s, t, c); Loads(s, u, t)
  {
  }

  lemma AdvancesCall(s: State, t: Tid, c: Choice)
    requires s.n > 0 && t != 0 && Th(s, t).pc in {Idle, Done}
    ensures var u := Step(s, t, c); Advances(s, u, t, c)
  {
  }

  lemma NotesAlloc(s: State, t: Tid, c: Choice)
    requires s.n > 0 && t != 0 && Th(s, t).pc == Alloc
    ensures var u := Step(s, t, c); Notes(s, u, t, c)
  {
  }

  lemma LoadsAlloc(s: State, t: Tid, c: Choice)
    requires s.n > 0 && t != 0 && Th(s, t).pc == Alloc
    ensures var u := Step(s, t, c); Loads(s, u, t)
  {
  }

  lemma AdvancesAlloc(s: State, t: Tid, c: Choice)
    requires s.n > 0 && t != 0 && Th(s, t).pc == Alloc
    ensures var u := Step(s, t, c); Advances(s, u, t, c)
  {
  }

  lemma NotesLink(s: State, t: Tid, c: Choice)
    requires s.n > 0 && t != 0 && Th(s, t).pc in {LinkLoad, LinkNext}
    ensures var u := Step(s, t, c); Notes(s, u, t, c)
  {
  }

  lemma LoadsLink(s: State, t: Tid, c: Choice)
    requires s.n > 0 && t != 0 && Th(s, t).pc in {LinkLoad, LinkNext}
    ensures var u := Step(s, t, c); Loads(s, u, t)
  {
  }

  lemma AdvancesLink(s: State, t: Tid, c: Choice)
    requires s.n > 0 && t != 0 && Th(s, t).pc in {LinkLoad, LinkNext}
    ensures var u := Step(s, t, c); Advances(s, u, t, c)
  {
  }

  lemma NotesLinkCas(s: State, t: Tid, c: Choice)
    requires s.n > 0 && t != 0 && Th(s, t).pc == LinkCas
    ensures var u := Step(s, t, c); Notes(s, u, t, c)
  {
    var f, u := Th(s, t), Step(s, t, c);
    if !f.call.PushRange? { return; }
    hide Notes;
    if c != Fail && Unchanged(s, f) && f.mine != [] {
      NotesEvent(s, u, t, c, f.(pc := Done, mine := [], lin := |s.log|), Pushed(f.call.vals, |f.mine|));
    } else {
      NotesNothing(s, u, t, c, Loaded(s, f, LinkNext));
    }
  }

  lemma LoadsLinkCas(s: State, t: Tid, c: Choice)
    requires s.n > 0 && t != 0 && Th(s, t).pc == LinkCas
    ensures var u := Step(s, t, c); Loads(s, u, t)
  {
  }

  lemma AdvancesLinkCas(s: State, t: Tid, c: Choice)
    requires s.n > 0 && t != 0 && Th(s, t).pc == LinkCas
    ensures var u := Step(s, t, c); Advances(s, u, t, c)
  {
    var f, u := Th(s, t), Step(s, t, c);
    if Shape(s, f) {
      MadeSome(s, f);
      hide Shape;
      if c != Fail && Unchanged(s, f) {
        assert Th(u, t).pc == Done;
      } else {
        assert Th(u, t) == Loaded(s, f, LinkNext);
      }
    }
  }

  lemma MadeSome(s: State, f: Frame)
    requires Shape(s, f) && f.pc == LinkCas
    ensures f.call.PushRange? && f.mine != []
  {
  }

  lemma NotesPop(s: State, t: Tid, c: Choice)
    requires s.n > 0 && t != 0 && Th(s, t).pc in {PopLoad, PopNext}
    ensures var u := Step(s, t, c); Notes(s, u, t, c)
  {
  }

  lemma LoadsPop(s: State, t: Tid, c: Choice)
    requires s.n > 0 && t != 0 && Th(s, t).pc in {PopLoad, PopNext}
    ensures var u := Step(s, t, c); Loads(s, u, t)
  {
  }

  lemma AdvancesPop(s: State, t: Tid, c: Choice)
    requires s.n > 0 && t != 0 && Th(s, t).pc in {PopLoad, PopNext}
    ensures var u := Step(s, t, c); Advances(s, u, t, c)
  {
    hide Shape, Values;
  }

  lemma NotesPopCas(s: State, t: Tid, c: Choice)
    requires s.n > 0 && t != 0 && Th(s, t).pc == PopCas
    ensures var u := Step(s, t, c); Notes(s, u, t, c)
  {
    hide Notes;
    var f, u := Th(s, t), Step(s, t, c);
    if c != Fail && Unchanged(s, f) {
      NotesEvent(s, u, t, c, f.(pc := Drain, mine := [f.oldPtr], lin := |s.log|), Popped(Value(s, f.oldPtr)));
    } else if s.top == NULL {
      NotesEvent(s, u, t, c, Loaded(s, f, Done).(lin := |s.log|), Empty);
    } else {
      NotesNothing(s, u, t, c, Loaded(s, f, PopNext));
    }
  }

  lemma LoadsPopCas(s: State, t: Tid, c: Choice)
    requires s.n > 0 && t != 0 && Th(s, t).pc == PopCas
    ensures var u := Step(s, t, c); Loads(s, u, t)
  {
  }

  lemma AdvancesPopCas(s: State, t: Tid, c: Choice)
    requires s.n > 0 && t != 0 && Th(s, t).pc == PopCas
    ensures var u := Step(s, t, c); Advances(s, u, t, c)
  {
    hide Shape, Values;
  }

  lemma NotesTakeLoad(s: State, t: Tid, c: Choice)
    requires s.n > 0 && t != 0 && Th(s, t).pc == TakeLoad
    ensures var u := Step(s, t, c); Notes(s, u, t, c)
  {
  }

  lemma LoadsTakeLoad(s: State, t: Tid, c: Choice)
    requires s.n > 0 && t != 0 && Th(s, t).pc == TakeLoad
    ensures var u := Step(s, t, c); Loads(s, u, t)
  {
  }

  lemma AdvancesTakeLoad(s: State, t: Tid, c: Choice)
    requires s.n > 0 && t != 0 && Th(s, t).pc == TakeLoad
    ensures var u := Step(s, t, c); Advances(s, u, t, c)
  {
    hide Shape, Values;
  }

  lemma NotesTakeCas(s: State, t: Tid, c: Choice)
    requires s.n > 0 && t != 0 && Th(s, t).pc == TakeCas
    ensures var u := Step(s, t, c); Notes(s, u, t, c)
  {
    hide Notes, Values;
    var f, u := Th(s, t), Step(s, t, c);
    if c != Fail && Unchanged(s, f) {
      var g := f.(pc := Drain, mine := s.chain, lin := |s.log|);
      NotesEvent(s, u, t, c, g, Detached(Values(s.val, s.chain)));
    } else if s.top == NULL {
      NotesEvent(s, u, t, c, Loaded(s, f, Done).(lin := |s.log|), Detached([]));
    } else {
      NotesNothing(s, u, t, c, Loaded(s, f, TakeCas));
    }
  }

  lemma LoadsTakeCas(s: State, t: Tid, c: Choice)
    requires s.n > 0 && t != 0 && Th(s, t).pc == TakeCas
    ensures var u := Step(s, t, c); Loads(s, u, t)
  {
  }

  lemma AdvancesTakeCas(s: State, t: Tid, c: Choice)
    requires s.n > 0 && t != 0 && Th(s, t).pc == TakeCas
    ensures var u := Step(s, t, c); Advances(s, u, t, c)
  {
    hide Shape, Values;
  }

  lemma NotesDrain(s: State, t: Tid, c: Choice)
    requires s.n > 0 && t != 0 && Th(s, t).pc == Drain
    ensures var u := Step(s, t, c); Notes(s, u, t, c)
  {
  }

  lemma LoadsDrain(s: State, t: Tid, c: Choice)
    requires s.n > 0 && t != 0 && Th(s, t).pc == Drain
    ensures var u := Step(s, t, c); Loads(s, u, t)
  {
  }

  lemma AdvancesDrain(s: State, t: Tid, c: Choice)
    requires s.n > 0 && t != 0 && Th(s, t).pc == Drain
    ensures var u := Step(s, t, c); Advances(s, u, t, c)
  {
    hide Shape, Values;
  }

  lemma StepGoes(s: State, t: Tid, c: Choice)
    requires s.n > 0 && t != 0
    ensures var u := Step(s, t, c); Notes(s, u, t, c) && Loads(s, u, t) && Advances(s, u, t, c)
  {
    hide Notes, Loads, Advances, Step;
    match Th(s, t).pc
    case Idle => NotesCall(s, t, c); LoadsCall(s, t, c); AdvancesCall(s, t, c);
    case Done => NotesCall(s, t, c); LoadsCall(s, t, c); AdvancesCall(s, t, c);
    case Alloc => NotesAlloc(s, t, c); LoadsAlloc(s, t, c); AdvancesAlloc(s, t, c);
    case LinkLoad => NotesLink(s, t, c); LoadsLink(s, t, c); AdvancesLink(s, t, c);
    case LinkNext => NotesLink(s, t, c); LoadsLink(s, t, c); AdvancesLink(s, t, c);
    case LinkCas => NotesLinkCas(s, t, c); LoadsLinkCas(s, t, c); AdvancesLinkCas(s, t, c);
    case PopLoad => NotesPop(s, t, c); LoadsPop(s, t, c); AdvancesPop(s, t, c);
    case PopNext => NotesPop(s, t, c); LoadsPop(s, t, c); AdvancesPop(s, t, c);
    case PopCas => NotesPopCas(s, t, c); LoadsPopCas(s, t, c); AdvancesPopCas(s, t, c);
    case TakeLoad => NotesTakeLoad(s, t, c); LoadsTakeLoad(s, t, c); AdvancesTakeLoad(s, t, c);
    case TakeCas => NotesTakeCas(s, t, c); LoadsTakeCas(s, t, c); AdvancesTakeCas(s, t, c);
    case Drain => NotesDrain(s, t, c); LoadsDrain(s, t, c); AdvancesDrain(s, t, c);
  }

  // ---- Ranges are pushed whole

  /** What `t` has pushed or is about to push is the whole of a range. */
  ghost predicate Whole(s: State, t: Tid) {
    AllMade(Th(s, t)) && forall e :: e in s.log && e.t == t && e.op.Pushed? ==> e.op.taken == |e.op.vals|
  }

  lemma WholeStep(s: State, t: Tid, c: Choice, v: Tid)
    requires s.n > 0 && Whole(s, v) && (t == v ==> c != Refuse)
    ensures Whole(Step(s, t, c), v)
  {
    if t != 0 {
      hide Step, AllMade;
      StepGoes(s, t, c);
      var u := Step(s, t, c);
      assert u.log == s.log || u.log == s.log + [u.log[|s.log|]];
    }
  }

  lemma {:induction false} WholeRun(s: State, sched: Schedule, v: Tid)
    requires s.n > 0 && Whole(s, v) && (v, Refuse) !in sched
    ensures Whole(Run(s, sched), v)
    decreases |sched|
  {
    hide Whole, Step;
    if sched != [] {
      var (t, c) := sched[0];
      assert (t, c) in sched;
      WholeStep(s, t, c, v);
      WholeRun(Step(s, t, c), sched[1..], v);
    }
  }

  /** Every range of a thread which the pool never refuses a node is pushed whole, in one operation. */
  lemma WholeUnlessRefused(n: nat, sched: Schedule, t: Tid, e: Event)
    requires n > 0 && (t, Refuse) !in sched
    requires e in Run(Init(n), sched).log && e.t == t && e.op.Pushed?
    ensures e.op.taken == |e.op.vals|
  {
    WholeRun(Init(n), sched, t);
  }

  // ---- A failed exchange is somebody's success

  lemma LoadedStep(s: State, t: Tid, c: Choice, v: Tid)
    requires s.n > 0 && v != 0 && (Current(s, Th(s, v)) || (t == v && Loading(Th(s, v))))
    ensures var u := Step(s, t, c); |u.log| > |s.log| || (u.log == s.log && Current(u, Th(u, v)))
  {
    if t != 0 {
      hide Step;
      StepGoes(s, t, c);
    }
  }

  lemma {:induction false} LogGrows(s: State, sched: Schedule)
    requires s.n > 0
    ensures |s.log| <= |Run(s, sched).log|
    decreases |sched|
  {
    hide Step;
    if sched != [] {
      var (t, c) := sched[0];
      if t != 0 { StepGoes(s, t, c); } else { ScribbleLog(s, c); }
      LogGrows(Step(s, t, c), sched[1..]);
    }
  }

  lemma ScribbleLog(s: State, c: Choice)
    requires s.n > 0
    ensures Step(s, 0, c).log == s.log
  {
  }

  lemma {:induction false} LoadedRun(s: State, sched: Schedule, v: Tid)
    requires s.n > 0 && v != 0 && Current(s, Th(s, v))
    ensures var u := Run(s, sched); |u.log| > |s.log| || (u.log == s.log && Current(u, Th(u, v)))
    decreases |sched|
  {
    hide Step, Current;
    if sched != [] {
      var (t, c) := sched[0];
      var u := Step(s, t, c);
      LoadedStep(s, t, c, v);
      if |u.log| > |s.log| { LogGrows(u, sched[1..]); } else { LoadedRun(u, sched[1..], v); }
    }
  }

  /** In every run: if what a thread has loaded is the top in `s`, and its exchange fails in a later
      state though not spuriously, then an operation has taken effect in between. */
  lemma FailsOnlyByOthers(s: State, n: nat, pre: Schedule, mid: Schedule, t: Tid, c: Choice)
    requires Reached(s, n, pre) && !Run(s, mid).wrapped && t != 0 && Current(s, Th(s, t))
    requires var u := Run(s, mid); Exchanging(Th(u, t)) && c != Fail && Step(u, t, c).log == u.log
    ensures |Run(s, mid).log| > |s.log|
  {
    hide Step, Current, Shape, Inv, Reached, Run;
    ReachedInv(s, n, pre);
    Positive(s, n, pre);
    LoadedRun(s, mid, t);
    InvRun(s, mid);
    var u := Run(s, mid);
    FrameShape(u, t);
    StepGoes(u, t, c);
  }

  lemma Positive(s: State, n: nat, pre: Schedule)
    requires Reached(s, n, pre)
    ensures s.n == n > 0
  {
  }

  lemma FrameShape(s: State, t: Tid)
    requires Inv(s)
    ensures Shape(s, Th(s, t))
  {
    assert FrameOk(s, t);
  }

  // ---- Left alone, a thread completes its call

  /** `choices` help the thread at each of its steps until it is done. */
  ghost predicate HelpsAlong(s: State, t: Tid, choices: seq<Choice>)
    requires s.n > 0
    decreases |choices|
  {
    choices == [] || Th(s, t).pc == Done ||
    (Helps(s, Th(s, t), choices[0]) && HelpsAlong(Step(s, t, choices[0]), t, choices[1..]))
  }

  function Alone(t: Tid, choices: seq<Choice>): Schedule {
    seq(|choices|, i requires 0 <= i < |choices| => (t, choices[i]))
  }

  /** The call of `f` is done. */
  predicate Completed(s: State, t: Tid, f: Frame) {
    Th(s, t).pc == Done && Th(s, t).call == f.call && Th(s, t).started == f.started
  }

  /** After so many steps of its own a call in progress is done: the bound counts the nodes to be made or
      consumed and a constant, whatever the other threads were doing. */
  lemma {:induction false} CompletesAlone(s: State, t: Tid, choices: seq<Choice>)
    requires s.n > 0 && Inv(s) && t != 0 && Th(s, t).pc != Idle && !Run(s, Alone(t, choices)).wrapped
    requires HelpsAlong(s, t, choices) && |choices| >= Left(s, Th(s, t))
    ensures exists k :: 0 <= k <= |choices| && Completed(Run(s, Alone(t, choices[..k])), t, Th(s, t))
    decreases |choices|
  {
    hide Step, Left, Helps, Inv, Shape;
    if Th(s, t).pc == Done {
      assert Alone(t, choices[..0]) == [];
    } else {
      FrameShape(s, t);
      NotDone(s, t);
      var c, rest := choices[0], choices[1..];
      var u := Step(s, t, c);
      StepGoes(s, t, c);
      assert Alone(t, choices)[0] == (t, c) && Alone(t, choices)[1..] == Alone(t, rest);
      if u.wrapped { WrappedRun(u, Alone(t, rest)); }
      InvStep(s, t, c);
      CompletesAlone(u, t, rest);
      var k :| 0 <= k <= |rest| && Completed(Run(u, Alone(t, rest[..k])), t, Th(u, t));
      assert Alone(t, choices[..k + 1])[0] == (t, c) && Alone(t, choices[..k + 1])[1..] == Alone(t, rest[..k]);
    }
  }

  lemma NotDone(s: State, t: Tid)
    requires Shape(s, Th(s, t)) && Th(s, t).pc != Idle && Th(s, t).pc != Done
    ensures Left(s, Th(s, t)) > 0
  {
  }

  /** What comes of the call: it is done, one operation of its kind has taken effect for it, and the
      thread can call again. */
  ghost predicate Served(s: State, v: State, t: Tid, call: Call)
    requires v.n > 0
  {
    && Th(v, t).pc == Done && Th(v, t).call == call && Th(Step(v, t, Go), t).pc == Idle
    && exists i :: |s.log| <= i < |v.log| && v.log[i].t == t && Fits(call, v.log[i].op)
  }

  /** From every state: a call of an idle thread that is left alone returns as that call. */
  lemma CallCompletes(s: State, n: nat, sched: Schedule, t: Tid, call: Call, choices: seq<Choice>) returns (k: nat)
    requires Reached(s, n, sched) && t != 0 && Th(s, t).pc == Idle && (call.PushRange? ==> call.vals != [])
    requires var u := Step(s, t, Begin(call));
      && HelpsAlong(u, t, choices) && |choices| >= Left(u, Th(u, t)) && !Run(u, Alone(t, choices)).wrapped
    ensures k <= |choices| && Served(s, Run(Step(s, t, Begin(call)), Alone(t, choices[..k])), t, call)
  {
    hide Step, Left, Helps, Inv, Shape, Run, HelpsAlong, Reached;
    Positive(s, n, sched);
    ReachedInv(s, n, sched);
    var u := Step(s, t, Begin(call));
    Begins(s, t, call);
    if u.wrapped { WrappedRun(u, Alone(t, choices)); }
    InvStep(s, t, Begin(call));
    CompletesAlone(u, t, choices);
    k :| 0 <= k <= |choices| && Completed(Run(u, Alone(t, choices[..k])), t, Th(u, t));
    Prefix(u, t, choices, k);
    InvRun(u, Alone(t, choices[..k]));
    ServedIs(s, Run(u, Alone(t, choices[..k])), t, call);
  }

  lemma Begins(s: State, t: Tid, call: Call)
    requires s.n > 0 && t != 0 && Th(s, t).pc == Idle && (call.PushRange? ==> call.vals != [])
    ensures var u := Step(s, t, Begin(call));
      Th(u, t).pc != Idle && Th(u, t).call == call && Th(u, t).started == |s.log|
  {
  }

  lemma Prefix(s: State, t: Tid, choices: seq<Choice>, k: nat)
    requires s.n > 0 && k <= |choices| && !Run(s, Alone(t, choices)).wrapped
    ensures !Run(s, Alone(t, choices[..k])).wrapped
  {
    hide Run;
    var a, b := Alone(t, choices[..k]), Alone(t, choices[k..]);
    assert Alone(t, choices) == a + b;
    RunTwo(s, a, b);
    if Run(s, a).wrapped { WrappedRun(Run(s, a), b); }
  }

  lemma {:induction false} RunTwo(s: State, a: Schedule, b: Schedule)
    requires s.n > 0
    ensures Run(s, a + b) == Run(Run(s, a), b)
    decreases |a|
  {
    hide Step;
    if a == [] {
      assert a + b == b;
    } else {
      assert (a + b)[1..] == a[1..] + b;
      RunTwo(Step(s, a[0].0, a[0].1), a[1..], b);
    }
  }

  lemma ServedIs(s: State, v: State, t: Tid, call: Call)
    requires Inv(v) && t != 0 && Th(v, t).pc == Done && Th(v, t).call == call && Th(v, t).started == |s.log|
    ensures Served(s, v, t, call)
  {
    hide Replay, ChainOk, Apart;
    assert FrameOk(v, t);
    assert v.log[Th(v, t).lin].t == t;
  }
}
