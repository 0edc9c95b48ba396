/** The bound on the tag is exact: for every modulus `n` there is a run in which `n` removals
    bring back the tag that a pop loaded, and that pop then loses a value.
    Thread 2 pushes nodes 2 and 1; thread 1 loads node 1 and reads its link, node 2; thread 2
    pops node 1, pushes and pops it until the tag comes round, and pushes nodes 3 and 1; thread 1
    exchanges node 1 for node 2, and node 3 is gone. */
module StackAba {
  import opened Sequences
  import opened StackModel
  import opened StackProof

  ghost predicate Reaches(n: nat, s: State) {
    n > 0 && s.n == n && exists sched: Schedule :: s == Run(Init(n), sched)
  }

  lemma {:induction false} RunAppend(s: State, a: Schedule, t: Tid, c: Choice)
    requires s.n > 0
    ensures Run(s, a + [(t, c)]) == Step(Run(s, a), t, c)
    decreases |a|
  {
    hide Step;
    if a == [] {
      assert a + [(t, c)] == [(t, c)];
    } else {
      assert (a + [(t, c)])[1..] == a[1..] + [(t, c)];
      RunAppend(Step(s, a[0].0, a[0].1), a[1..], t, c);
    }
  }

  lemma Take(n: nat, s: State, t: Tid, c: Choice)
    requires Reaches(n, s)
    ensures Reaches(n, Step(s, t, c))
  {
    hide Step;
    var sched: Schedule :| s == Run(Init(n), sched);
    RunAppend(Init(n), sched, t, c);
  }

  /** Thread 2 is idle, thread 1 is as it was in `s`. */
  ghost predicate Same(s: State, u: State) {
    u.n == s.n && Th(u, 2).pc == Idle && Th(u, 1) == Th(s, 1)
  }

  /** Thread 2 pushes one value, and the pool gives it node `r`. */
  lemma PushOne(n: nat, s: State, r: Ref) returns (u: State)
    requires Reaches(n, s) && Th(s, 2).pc == Idle && r != NULL && r !in s.used
    ensures Reaches(n, u) && Same(s, u)
    ensures u.top == r && u.tag == s.tag && u.removed == s.removed && u.used == s.used + {r}
    ensures u.next == s.next[r := s.top] && u.chain == [r] + s.chain
  {
    assert n > 0 && s.n == n;
    hide Reaches;
    u := Step(s, 2, Begin(PushRange([0])));
    Take(n, s, 2, Begin(PushRange([0])));
    var u1 := Step(u, 2, Use(r));
    Take(n, u, 2, Use(r));
    assert Th(u1, 2).mine == [r] && Th(u1, 2).pc == LinkLoad;
    assert u1.next == s.next[r := NULL];
    u := PushLink(n, u1, r);
    assert s.next[r := NULL][r := s.top] == s.next[r := s.top];
  }

  lemma PushLink(n: nat, s: State, r: Ref) returns (u: State)
    requires Reaches(n, s)
    requires Th(s, 2).pc == LinkLoad && Th(s, 2).mine == [r] && Th(s, 2).call.PushRange?
    ensures Reaches(n, u) && Same(s, u)
    ensures u.top == r && u.tag == s.tag && u.removed == s.removed && u.used == s.used
    ensures u.next == s.next[r := s.top] && u.chain == [r] + s.chain
  {
    assert n > 0 && s.n == n;
    hide Reaches;
    var u1 := Step(s, 2, Go);
    Take(n, s, 2, Go);
    var u2 := Step(u1, 2, Go);
    Take(n, u1, 2, Go);
    u := PushEnd(n, u2, r);
  }

  lemma PushEnd(n: nat, s: State, r: Ref) returns (u: State)
    requires Reaches(n, s) && Unchanged(s, Th(s, 2))
    requires Th(s, 2).pc == LinkCas && Th(s, 2).mine == [r] && Th(s, 2).call.PushRange?
    ensures Reaches(n, u) && Same(s, u)
    ensures u.top == r && u.tag == s.tag && u.removed == s.removed && u.used == s.used && u.next == s.next
    ensures u.chain == [r] + s.chain
  {
    assert n > 0 && s.n == n;
    hide Reaches;
    var u1 := Step(s, 2, Go);
    Take(n, s, 2, Go);
    u := Step(u1, 2, Go);
    Take(n, u1, 2, Go);
  }

  /** Thread 2 pops the top, whose link it reads, and gives it back to the pool. */
  lemma PopOnce(n: nat, s: State) returns (u: State)
    requires Reaches(n, s) && Th(s, 2).pc == Idle && s.top != NULL && s.top in s.used
    requires s.chain != []
    ensures Reaches(n, u) && Same(s, u)
    ensures u.top == Next(s, s.top) && u.tag == (s.tag + 1) % n && u.removed == s.removed + 1
    ensures u.used == s.used - {s.top} && u.next == s.next
    ensures u.chain == s.chain[1..]
  {
    assert n > 0 && s.n == n;
    hide Reaches;
    u := Step(s, 2, Begin(PopOne));
    Take(n, s, 2, Begin(PopOne));
    u := PopRead(n, u);
    u := PopSwap(n, u);
  }

  lemma PopRead(n: nat, s: State) returns (u: State)
    requires Reaches(n, s) && Th(s, 2).pc == PopLoad && s.top != NULL
    ensures Reaches(n, u) && u == s.(th := u.th) && Th(u, 1) == Th(s, 1)
    ensures var f := Th(u, 2); f.pc == PopCas && Unchanged(u, f) && f.nx == Next(s, s.top)
  {
    assert n > 0 && s.n == n;
    hide Reaches;
    var u1 := Step(s, 2, Go);
    Take(n, s, 2, Go);
    assert Th(u1, 2).pc == PopNext && Th(u1, 2).oldPtr == s.top;
    u := Step(u1, 2, Go);
    Take(n, u1, 2, Go);
  }

  lemma PopSwap(n: nat, s: State) returns (u: State)
    requires Reaches(n, s) && s.chain != []
    requires var f := Th(s, 2); f.pc == PopCas && Unchanged(s, f) && f.nx == Next(s, s.top)
    ensures Reaches(n, u) && Same(s, u)
    ensures u.top == Next(s, s.top) && u.tag == (s.tag + 1) % n && u.removed == s.removed + 1
    ensures u.used == s.used - {s.top} && u.next == s.next
    ensures u.chain == s.chain[1..]
  {
    assert n > 0 && s.n == n;
    hide Reaches;
    var u1 := Step(s, 2, Go);
    Take(n, s, 2, Go);
    u := PopEnd(n, u1, s.top);
  }

  lemma PopEnd(n: nat, s: State, r: Ref) returns (u: State)
    requires Reaches(n, s) && Th(s, 2).pc == Drain && Th(s, 2).mine == [r]
    ensures Reaches(n, u) && Same(s, u)
    ensures u.top == s.top && u.tag == s.tag && u.removed == s.removed && u.used == s.used - {r} && u.next == s.next
    ensures u.chain == s.chain
  {
    assert n > 0 && s.n == n;
    hide Reaches;
    var u1 := Step(s, 2, Use(0));
    Take(n, s, 2, Use(0));
    assert Th(u1, 2).mine == [];
    var u2 := Step(u1, 2, Go);
    Take(n, u1, 2, Go);
    u := Step(u2, 2, Go);
    Take(n, u2, 2, Go);
  }

  /** Thread 1 has loaded node 1 and its link, node 2, when nothing had been removed. */
  ghost predicate Poised(s: State) {
    var f := Th(s, 1);
    f.pc == PopCas && f.oldPtr == 1 && f.nx == 2 && f.oldTag == 0 && f.since == 0
  }

  lemma Prepare(n: nat) returns (u: State)
    requires n > 0
    ensures Reaches(n, u) && Poised(u) && Th(u, 2).pc == Idle
    ensures u.top == 1 && u.tag == 0 && u.removed == 0 && u.used == {1, 2} && Next(u, 1) == 2 && Next(u, 2) == NULL
    ensures u.chain == [1, 2]
  {
    assert Run(Init(n), []) == Init(n);
    u := PushOne(n, Init(n), 2);
    u := PushOne(n, u, 1);
    assert u.n == n;
    hide Reaches;
    var u1 := Step(u, 1, Begin(PopOne));
    Take(n, u, 1, Begin(PopOne));
    var u2 := Step(u1, 1, Go);
    Take(n, u1, 1, Go);
    assert Th(u2, 1).pc == PopNext && Th(u2, 1).oldPtr == 1;
    u := Step(u2, 1, Go);
    Take(n, u2, 1, Go);
  }

  /** Thread 2 pops node 1 and then pushes and pops it `k` times. */
  lemma {:induction false} Cycle(n: nat, k: nat) returns (u: State)
    requires n > 0
    ensures Reaches(n, u) && Poised(u) && Th(u, 2).pc == Idle
    ensures u.top == 2 && u.tag == (1 + k) % n && u.removed == 1 + k && u.used == {2}
    ensures Next(u, 2) == NULL && u.chain == [2]
    decreases k
  {
    if k == 0 {
      u := Prepare(n);
      u := PopOnce(n, u);
      NextTag(0, n);
    } else {
      u := Cycle(n, k - 1);
      u := PushOne(n, u, 1);
      assert Next(u, 1) == 2;
      u := PopOnce(n, u);
      NextTag(k, n);
    }
  }

  /** For every modulus, `n` removals since its load are enough for a pop to go wrong: node 3 is
      pushed and never removed, but the top is node 2, which has no successor. */
  lemma WrappedTag(n: nat)
    requires n > 0
    ensures exists sched: Schedule ::
              var s := Run(Init(n), sched);
              && s.wrapped && s.removed == n + 1
              && s.chain == [3, 2] && s.top == 2 && Next(s, 2) == NULL
  {
    var u := Cycle(n, n - 1);
    Remainder(n, n, 1, 0);
    u := PushOne(n, u, 3);
    u := PushOne(n, u, 1);
    var v := Step(u, 1, Go);
    Take(n, u, 1, Go);
    assert v.wrapped && v.removed == n + 1 && v.chain == [3, 2] && v.top == 2 && Next(v, 2) == NULL;
  }
}
