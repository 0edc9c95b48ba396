/** What conditions promise, over all runs. */
module ConditionTheorems {
  import opened ConditionModel
  import opened ConditionProof

  lemma Reachable(sched: Schedule)
    ensures Inv(Run(INIT, sched))
  {
    InvInit();
    InvRun(INIT, sched);
  }

  /** A waiter's node waits until exactly one of signal and cancellation wins the status CAS; then
      exactly one thread, the winner, has it to queue, until it is queued, which happens once. */
  lemma TransferredExactlyOnce(sched: Schedule, x: Ref)
    requires x in Run(INIT, sched).m.own
    ensures var s := Run(INIT, sched);
      && (Ws(s.m, x) != CONDITION <==> x in s.m.sig || x in s.m.can)
      && !(x in s.m.sig && x in s.m.can)
      && (x in s.m.log ==> x in s.m.sig || x in s.m.can)
      && (forall i, j :: 0 <= i < j < |s.m.log| ==> !(s.m.log[i] == x && s.m.log[j] == x))
      && (Won(s.m, x) && x !in s.m.log <==> exists t :: t != 0 && Carrying(Th(s, t), x))
      && (forall t, u :: Carrying(Th(s, t), x) && Carrying(Th(s, u), x) ==> t == u)
  {
    Reachable(sched);
    var s := Run(INIT, sched);
    hide Run;
    forall t | Carrying(Th(s, t), x)
      ensures Won(s.m, x) && x !in s.m.log && Carrier(s.m, x) == t && t != 0
    {
      assert FrameOk(s, t);
      assert Th(s, 0) == IDLE_FRAME;
    }
    if Won(s.m, x) && x !in s.m.log { assert Carrying(Th(s, Carrier(s.m, x)), x); }
  }

  /** A wait ends with its node on the lock queue and one winner.  It is about to throw exactly if an
      interrupt came before every signal, it reports a timeout exactly if the timeout did, and it is
      about to interrupt itself exactly if it saw an interrupt after a signal. */
  lemma WaitEnds(sched: Schedule, t: Tid)
    requires var pc := Th(Run(INIT, sched), t).pc; pc == Acquire || pc == Clean
    ensures var s := Run(INIT, sched); var f := Th(s, t);
      && f.n in s.m.log && Mine(s.m, t, f.n)
      && (f.n in s.m.sig <==> f.n !in s.m.can)
      && (f.mode == ThrowIe <==> f.n in s.m.can && f.cause == Interrupt)
      && (f.mode == TimedOut <==> f.n in s.m.can && f.cause == Timeout)
      && (f.mode == Reinterrupt <==> f.n in s.m.sig && f.spin && f.cause == Interrupt)
  {
    Reachable(sched);
    var s := Run(INIT, sched);
    hide Run;
    assert FrameOk(s, t);
    assert Won(s.m, Th(s, t).n);
  }

  /** A signal moves the earliest node that still waits, and no other; it moves none only if none
      waits. */
  lemma SignalMovesTheFirst(sched: Schedule, t: Tid)
    requires Th(Run(INIT, sched), t).pc == SigDone
    ensures var s := Run(INIT, sched); var f := Th(s, t);
      || (s.m.sig == f.before + {f.e} && f.e !in f.before
          && forall x :: x in s.m.own && x < f.e ==> Ws(s.m, x) != CONDITION)
      || (s.m.sig == f.before && forall x :: x in s.m.own ==> Ws(s.m, x) != CONDITION)
  {
    Reachable(sched);
    var s := Run(INIT, sched);
    hide Run;
    assert FrameOk(s, t);
    var f := Th(s, t);
    if MovedOne(s.m, f) {
      assert f.e in s.m.sig;
      assert forall x :: x in s.m.own && x < f.e ==> !Waiting(s.m, x);
    } else {
      assert NobodyWaits(s.m);
      assert forall x :: x in s.m.own ==> !Waiting(s.m, x);
    }
  }

  lemma SignalAllMovesAll(sched: Schedule, t: Tid)
    requires Th(Run(INIT, sched), t).pc == AllDone
    ensures var s := Run(INIT, sched); forall x :: x in s.m.own ==> Ws(s.m, x) != CONDITION
  {
    Reachable(sched);
    var s := Run(INIT, sched);
    hide Run;
    assert FrameOk(s, t);
    assert NobodyWaits(s.m);
    assert forall x :: x in s.m.own ==> !Waiting(s.m, x);
  }

  /** While the lock is free every node that waits is on the condition's list, in the order in which
      the nodes were made, and nobody who came before a signalled waiter still waits. */
  lemma NobodyIsLost(sched: Schedule, x: Ref)
    requires var m := Run(INIT, sched).m; m.holder == 0 && Ws(m, x) == CONDITION
    ensures var m := Run(INIT, sched).m;
      && x in m.waiters
      && (forall i, j :: 0 <= i < j < |m.waiters| ==> m.waiters[i] < m.waiters[j])
      && (forall y :: y in m.sig ==> y < x)
  {
    Reachable(sched);
    var s := Run(INIT, sched);
    hide Run;
    assert Waiting(s.m, x) && x in s.m.own;
    forall y | y in s.m.sig
      ensures y < x
    {
      assert Won(s.m, y);
      assert y != x;
    }
  }

  /** The lock protects the list: at most one thread is in a section that holds it. */
  lemma OneInTheLock(sched: Schedule, t: Tid, u: Tid)
    requires t != 0 && u != 0 && Holding(Th(Run(INIT, sched), t)) && Holding(Th(Run(INIT, sched), u))
    ensures t == u
  {
    Reachable(sched);
  }
}
