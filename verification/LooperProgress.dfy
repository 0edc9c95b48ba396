/** What the message queue gets done, over all runs: nothing inserted is lost, tokens of barriers tell
    them apart, due messages are returned, and quitting ends the loop. */
module LooperProgress {
  import opened Sequences
  import opened LooperModel
  import opened LooperTheorems

  // ---- Tokens

  /** The value of an int that started at 0 and was incremented `n` times. */
  function Wrapped(n: nat): int { (n + 0x8000_0000) % 0x1_0000_0000 - 0x8000_0000 }

  lemma WrappedNext(n: nat)
    ensures Increment(Wrapped(n)) == Wrapped(n + 1)
  {
  }

  lemma WrappedApart(a: nat, b: nat)
    requires a < b < a + 0x1_0000_0000
    ensures Wrapped(a) != Wrapped(b)
  {
  }

  function Posts(acts: seq<Act>): nat {
    if acts == [] then 0 else (if acts[0].PostSyncBarrier? then 1 else 0) + Posts(acts[1..])
  }

  // ---- Nothing is lost

  /** What enqueueMessage and postSyncBarrier are given in a run: the entries they must insert, in
      order.  Nothing is accepted after quit but barriers. */
  function Given(acts: seq<Act>, quit: bool, serial: nat, posts: nat): seq<Entry> {
    if acts == [] then []
    else
      match acts[0]
      case Enqueue(when, asynchronous) =>
        if quit then Given(acts[1..], quit, serial, posts)
        else [Entry(serial, when, asynchronous, false, 0)] + Given(acts[1..], quit, serial + 1, posts)
      case PostSyncBarrier(when) =>
        [Entry(serial, when, false, true, Wrapped(posts))] + Given(acts[1..], quit, serial + 1, posts + 1)
      case Quit => Given(acts[1..], true, serial, posts)
      case _ => Given(acts[1..], quit, serial, posts)
  }

  function Entries(ds: seq<Delivery>): (es: seq<Entry>)
    ensures |es| == |ds|
  {
    seq(|ds|, i requires 0 <= i < |ds| => ds[i].entry)
  }

  /** The barriers that removals by token take out in a run. */
  function Lifted(s: State, acts: seq<Act>): multiset<Entry>
    decreases |acts|
  {
    if acts == [] then multiset{}
    else
      LiftedBy(s, acts[0]) + Lifted(Do(s, acts[0]), acts[1..])
  }

  function LiftedBy(s: State, a: Act): multiset<Entry> {
    if a.RemoveSyncBarrier? then multiset(s.queue) - multiset(Do(s, a).queue) else multiset{}
  }

  /** The entry one action must insert. */
  function GivenBy(s: State, a: Act): seq<Entry> {
    match a
    case Enqueue(when, asynchronous) => if s.quitting then [] else [Entry(s.serial, when, asynchronous, false, 0)]
    case PostSyncBarrier(when) => [Entry(s.serial, when, false, true, s.nextToken)]
    case _ => []
  }

  lemma InsertBag(q: Queue, i: nat, e: Entry)
    requires i <= |q|
    ensures multiset(Insert(q, i, e)) == multiset(q) + multiset([e])
  {
    assert q == q[..i] + q[i..];
  }

  lemma RemoveBag(q: Queue, i: nat)
    requires i < |q|
    ensures multiset(q) == multiset(Remove(q, i)) + multiset([q[i]])
  {
    assert q == q[..i] + [q[i]] + q[i + 1..];
  }

  /** What one action inserts is what it takes out and what it leaves more. */
  predicate Balanced(s: State, a: Act) {
    multiset(s.queue) + multiset(GivenBy(s, a)) ==
    multiset(Do(s, a).queue) + multiset(Entries(Taking(s, a))) + LiftedBy(s, a)
  }

  lemma StepBag(s: State, a: Act)
    ensures Balanced(s, a)
  {
    hide Balanced;
    match a
    case Enqueue(when, asynchronous) => EnqueueBag(s, when, asynchronous);
    case PostSyncBarrier(when) => PostBag(s, when);
    case RemoveSyncBarrier(token) => LiftBag(s, token);
    case Look(now, idleHandlers) => LookBag(s, now, idleHandlers);
    case _ => QuietBag(s, a);
  }

  lemma QuietBag(s: State, a: Act)
    requires a.Quit? || a.CallNext? || a.PollReturns? || a.IdlersRan?
    ensures Balanced(s, a)
  {
  }

  lemma EnqueueBag(s: State, when: int, asynchronous: bool)
    ensures Balanced(s, Enqueue(when, asynchronous))
  {
    hide Insert, Position, FindBarrier, Taken;
    InsertBag(s.queue, Position(s.queue, when), Entry(s.serial, when, asynchronous, false, 0));
  }

  lemma PostBag(s: State, when: int)
    ensures Balanced(s, PostSyncBarrier(when))
  {
    hide Insert, Position, FindBarrier, Taken;
    InsertBag(s.queue, Position(s.queue, when), Entry(s.serial, when, false, true, s.nextToken));
  }

  lemma LiftBag(s: State, token: int)
    ensures Balanced(s, RemoveSyncBarrier(token))
  {
    hide Remove, Taken;
    if FindBarrier(s.queue, token).Some? { RemoveBag(s.queue, FindBarrier(s.queue, token).value); }
  }

  lemma LookBag(s: State, now: int, idleHandlers: nat)
    ensures Balanced(s, Look(now, idleHandlers))
  {
    hide Remove, FindBarrier;
    if s.looper.Awake? && Taken(s, now).Some? {
      RemoveBag(s.queue, Taken(s, now).value);
      assert Entries(Taking(s, Look(now, idleHandlers))) == [s.queue[Taken(s, now).value]];
    }
  }

  lemma StepFields(s: State, a: Act, posts: nat)
    requires s.nextToken == Wrapped(posts)
    ensures var u := Do(s, a);
      && u.nextToken == Wrapped(if a.PostSyncBarrier? then posts + 1 else posts)
      && u.serial == s.serial + |GivenBy(s, a)| && u.quitting == (s.quitting || a.Quit?)
  {
    hide Wrapped;
    WrappedNext(posts);
  }

  lemma GivenFirst(s: State, acts: seq<Act>, posts: nat)
    requires s.nextToken == Wrapped(posts) && acts != []
    ensures var a := acts[0];
      Given(acts, s.quitting, s.serial, posts) ==
      GivenBy(s, a) + Given(acts[1..], s.quitting || a.Quit?, s.serial + |GivenBy(s, a)|,
                            if a.PostSyncBarrier? then posts + 1 else posts)
  {
    hide Do, Wrapped;
    match acts[0]
    case Enqueue(_, _) =>
    case PostSyncBarrier(_) =>
    case Quit =>
    case _ =>
  }

  lemma Exchange<T>(
      a: multiset<T>, b: multiset<T>, c: multiset<T>, d: multiset<T>, e: multiset<T>, f: multiset<T>, g: multiset<T>,
      h: multiset<T>, i: multiset<T>)
    requires a + b == c + d + e && c + f == g + h + i
    ensures a + (b + f) == g + (d + h) + (e + i)
  {
    assert a + (b + f) == (a + b) + f;
    assert (c + d + e) + f == (c + f) + d + e;
  }

  lemma {:induction false} Accounted(s: State, acts: seq<Act>, posts: nat)
    requires s.nextToken == Wrapped(posts)
    ensures multiset(s.queue) + multiset(Given(acts, s.quitting, s.serial, posts)) ==
            multiset(Run(s, acts).queue) + multiset(Entries(Delivered(s, acts))) + Lifted(s, acts)
    decreases |acts|
  {
    hide Wrapped, Do, Taking, LiftedBy;
    if acts != [] {
      var a, rest, u := acts[0], acts[1..], Do(s, acts[0]);
      StepBag(s, a);
      StepFields(s, a, posts);
      var more := if a.PostSyncBarrier? then posts + 1 else posts;
      Accounted(u, rest, more);
      GivenFirst(s, acts, posts);
      assert Entries(Delivered(s, acts)) == Entries(Taking(s, a)) + Entries(Delivered(u, rest));
      hide Given, GivenBy, Delivered, Entries;
      Exchange(multiset(s.queue), multiset(GivenBy(s, a)), multiset(u.queue), multiset(Entries(Taking(s, a))),
               LiftedBy(s, a), multiset(Given(rest, u.quitting, u.serial, more)), multiset(Run(u, rest).queue),
               multiset(Entries(Delivered(u, rest))), Lifted(u, rest));
    }
  }

  /** In every run what was given to the queue is what was delivered, what was lifted by token and what
      is still queued. */
  lemma NothingIsLost(acts: seq<Act>)
    ensures multiset(Given(acts, false, 0, 0)) ==
            multiset(Run(INIT, acts).queue) + multiset(Entries(Delivered(INIT, acts))) + Lifted(INIT, acts)
  {
    Accounted(INIT, acts, 0);
  }

  // ---- Tokens tell barriers apart

  ghost predicate TokensApart(s: State, posts: nat) {
    && s.nextToken == Wrapped(posts)
    && (forall i :: 0 <= i < |s.queue| && s.queue[i].barrier ==> Posted(s.queue[i].token, posts))
    && (forall i, j :: 0 <= i < j < |s.queue| && s.queue[i].barrier && s.queue[j].barrier ==>
          s.queue[i].token != s.queue[j].token)
  }

  /** The token of one of the first `posts` barriers. */
  ghost predicate Posted(token: int, posts: nat) { exists k: nat :: k < posts && token == Wrapped(k) }

  lemma NewToken(token: int, posts: nat)
    requires Posted(token, posts) && posts < 0x1_0000_0000
    ensures token != Wrapped(posts) && Posted(token, posts + 1)
  {
    var k: nat :| k < posts && token == Wrapped(k);
    WrappedApart(k, posts);
  }

  lemma PostTokens(s: State, when: int, posts: nat)
    requires TokensApart(s, posts) && posts < 0x1_0000_0000
    ensures TokensApart(Do(s, PostSyncBarrier(when)), posts + 1)
  {
    hide Insert, Position, Posted, Wrapped;
    var i, e := Position(s.queue, when), Entry(s.serial, when, false, true, s.nextToken);
    InsertAt(s.queue, i, e);
    var q := Insert(s.queue, i, e);
    WrappedNext(posts);
    forall j | 0 <= j < |s.queue| && s.queue[j].barrier
      ensures s.queue[j].token != s.nextToken && Posted(s.queue[j].token, posts + 1)
    {
      NewToken(s.queue[j].token, posts);
    }
    assert Posted(s.nextToken, posts + 1) by { PostedNow(posts); }
    assert forall j :: 0 <= j < |q| ==> q[j] == if j < i then s.queue[j] else if j == i then e else s.queue[j - 1];
  }

  lemma PostedNow(posts: nat)
    ensures Posted(Wrapped(posts), posts + 1)
  {
  }

  lemma EnqueueTokens(s: State, when: int, asynchronous: bool, posts: nat)
    requires TokensApart(s, posts)
    ensures TokensApart(Do(s, Enqueue(when, asynchronous)), posts)
  {
    hide Insert, Position, Posted, Wrapped;
    var i, e := Position(s.queue, when), Entry(s.serial, when, asynchronous, false, 0);
    InsertAt(s.queue, i, e);
    var q := Insert(s.queue, i, e);
    assert forall j :: 0 <= j < |q| ==> q[j] == if j < i then s.queue[j] else if j == i then e else s.queue[j - 1];
  }

  lemma RemoveTokens(s: State, u: State, k: nat, posts: nat)
    requires TokensApart(s, posts) && k < |s.queue| && u.queue == Remove(s.queue, k) && u.nextToken == s.nextToken
    ensures TokensApart(u, posts)
  {
    hide Remove, Posted, Wrapped;
    RemoveAt(s.queue, k);
  }

  lemma TokensStep(s: State, a: Act, posts: nat)
    requires TokensApart(s, posts) && (a.PostSyncBarrier? ==> posts < 0x1_0000_0000)
    ensures TokensApart(Do(s, a), if a.PostSyncBarrier? then posts + 1 else posts)
  {
    hide TokensApart, Insert, Remove, Position;
    var u := Do(s, a);
    match a
    case Enqueue(when, asynchronous) => EnqueueTokens(s, when, asynchronous, posts);
    case PostSyncBarrier(when) => PostTokens(s, when, posts);
    case RemoveSyncBarrier(token) =>
      if FindBarrier(s.queue, token).Some? { RemoveTokens(s, u, FindBarrier(s.queue, token).value, posts); }
    case Look(now, idleHandlers) => LookTokens(s, now, idleHandlers, posts);
    case _ => SameTokens(s, u, posts);
  }

  lemma SameTokens(s: State, u: State, posts: nat)
    requires TokensApart(s, posts) && u.queue == s.queue && u.nextToken == s.nextToken
    ensures TokensApart(u, posts)
  {
  }

  lemma LookTokens(s: State, now: int, idleHandlers: nat, posts: nat)
    requires TokensApart(s, posts)
    ensures TokensApart(Do(s, Look(now, idleHandlers)), posts)
  {
    hide TokensApart, Remove;
    var u := Do(s, Look(now, idleHandlers));
    if s.looper.Awake? && Taken(s, now).Some? { RemoveTokens(s, u, Taken(s, now).value, posts); }
    else { SameTokens(s, u, posts); }
  }

  lemma {:induction false} TokensRun(s: State, acts: seq<Act>, posts: nat)
    requires TokensApart(s, posts) && posts + Posts(acts) <= 0x1_0000_0000
    ensures TokensApart(Run(s, acts), posts + Posts(acts))
    decreases |acts|
  {
    hide TokensApart, Do;
    if acts != [] {
      var a := acts[0];
      TokensStep(s, a, posts);
      TokensRun(Do(s, a), acts[1..], if a.PostSyncBarrier? then posts + 1 else posts);
    }
  }

  lemma TokensInit()
    ensures TokensApart(INIT, 0)
  {
  }

  /** In every run with at most 2^32 posts the next token is the number of posts so far as an int, and
      no two queued barriers have the same token; so a removal by token takes out that barrier and
      nothing else, and a second one with the same token takes out nothing. */
  lemma TokensTellBarriersApart(acts: seq<Act>, i: nat)
    requires Posts(acts) <= 0x1_0000_0000
    requires i < |Run(INIT, acts).queue| && Run(INIT, acts).queue[i].barrier
    ensures var s := Run(INIT, acts);
      && s.nextToken == Wrapped(Posts(acts))
      && var u := Do(s, RemoveSyncBarrier(s.queue[i].token));
         && u.queue == s.queue[..i] + s.queue[i + 1..]
         && Do(u, RemoveSyncBarrier(s.queue[i].token)) == u
  {
    hide Run, Wrapped, Posted;
    TokensInit();
    TokensRun(INIT, acts, 0);
    var s := Run(INIT, acts);
    var r := FindBarrier(s.queue, s.queue[i].token);
    assert r == Some(i);
    RemoveAt(s.queue, i);
  }

  // ---- Due messages are returned

  /** The entry at place `i` is the first that no barrier stalls. */
  predicate Unstalled(q: Queue, i: nat) {
    && i < |q|
    && if q[0].barrier then i > 0 && q[i].asynchronous && forall j :: 1 <= j < i ==> !q[j].asynchronous else i == 0
  }

  predicate Due(q: Queue, i: nat, now: int) { Unstalled(q, i) && q[i].when <= now }

  lemma UnstalledIs(q: Queue, i: nat)
    ensures Unstalled(q, i) <==> Deliverable(q) == Some(i)
  {
    if Unstalled(q, i) && q[0].barrier { FirstAsyncIs(q, 1, i); }
  }

  /** A look returns the first message that no barrier stalls, and nothing else, if and only if its time
      has come; otherwise the queue stays, and the loop ends if and only if the queue is quitting. */
  lemma LookDelivers(s: State, now: int, idleHandlers: nat)
    requires s.looper.Awake?
    ensures var u := Do(s, Look(now, idleHandlers));
      && (u.looper.Dispatching? <==> exists i: nat :: Due(s.queue, i, now))
      && (forall i: nat :: Due(s.queue, i, now) ==> u.queue == s.queue[..i] + s.queue[i + 1..] && !u.blocked)
      && ((forall i: nat :: !Due(s.queue, i, now)) ==> u.queue == s.queue && (u.looper.Finished? <==> s.quitting))
  {
    hide Deliverable, Unstalled;
    forall i: nat
      ensures Due(s.queue, i, now) <==> Taken(s, now) == Some(i)
    {
      UnstalledIs(s.queue, i);
      if Deliverable(s.queue).Some? { UnstalledIs(s.queue, Deliverable(s.queue).value); }
    }
    if Taken(s, now).Some? { assert Due(s.queue, Taken(s, now).value, now); }
  }

  /** What the looper thread does before it looks next. */
  function ToLook(s: State): seq<Act> {
    match s.looper
    case Dispatching => [CallNext, PollReturns(true)]
    case Polling(_) => [PollReturns(true)]
    case RunningIdlers => [IdlersRan, PollReturns(true)]
    case _ => []
  }

  lemma Run1(s: State, a: Act)
    ensures Run(s, [a]) == Do(s, a) && Delivered(s, [a]) == Taking(s, a)
  {
    assert [a][1..] == [] && Run(Do(s, a), []) == Do(s, a) && Delivered(Do(s, a), []) == [];
  }

  lemma {:induction false} RunBoth(s: State, a: seq<Act>, b: seq<Act>)
    ensures Run(s, a + b) == Run(Run(s, a), b)
    ensures Delivered(s, a + b) == Delivered(s, a) + Delivered(Run(s, a), b)
    decreases |a|
  {
    hide Do, Taking;
    if a == [] {
      assert a + b == b;
    } else {
      assert (a + b)[1..] == a[1..] + b;
      RunBoth(Do(s, a[0]), a[1..], b);
    }
  }

  lemma ReachesLook(s: State)
    requires !s.looper.Finished?
    ensures var u := Run(s, ToLook(s));
      u.looper.Awake? && u.queue == s.queue && u.quitting == s.quitting && Delivered(s, ToLook(s)) == []
  {
    match s.looper
    case Dispatching => RunBoth(s, [CallNext], [PollReturns(true)]); Two(s, CallNext, PollReturns(true));
    case Polling(_) => Run1(s, PollReturns(true));
    case RunningIdlers => RunBoth(s, [IdlersRan], [PollReturns(true)]); Two(s, IdlersRan, PollReturns(true));
    case _ =>
  }

  lemma Two(s: State, a: Act, b: Act)
    ensures [a] + [b] == [a, b] && Run(s, [a]) == Do(s, a) && Run(Do(s, a), [b]) == Do(Do(s, a), b)
    ensures Delivered(s, [a]) == Taking(s, a) && Delivered(Do(s, a), [b]) == Taking(Do(s, a), b)
  {
    Run1(s, a);
    Run1(Do(s, a), b);
  }

  /** Left alone, the looper returns from next() with the message that is due, wherever it is. */
  lemma ReturnsDue(s: State, now: int, idleHandlers: nat, i: nat)
    requires !s.looper.Finished? && Due(s.queue, i, now)
    ensures var acts := ToLook(s) + [Look(now, idleHandlers)];
      && Run(s, acts).looper.Dispatching? && Run(s, acts).queue == s.queue[..i] + s.queue[i + 1..]
      && Delivered(s, acts) == [Delivery(s.queue[i], now)]
  {
    var look := Look(now, idleHandlers);
    var u := Run(s, ToLook(s));
    ReachesLook(s);
    RunBoth(s, ToLook(s), [look]);
    Run1(u, look);
    LookDelivers(u, now, idleHandlers);
    UnstalledIs(u.queue, i);
  }

  const ROUND: seq<Act> := [CallNext, PollReturns(true)]

  /** `k` calls of next() by the looper at time `now`. */
  function Rounds(now: int, k: nat): seq<Act> {
    if k == 0 then [] else (ROUND + [Look(now, 0)]) + Rounds(now, k - 1)
  }

  /** And if the first `k` entries are due messages, `k` calls return them in order. */
  lemma {:induction false} DrainsDue(s: State, now: int, k: nat)
    requires s.looper.Dispatching? && k <= |s.queue|
    requires forall i :: 0 <= i < k ==> !s.queue[i].barrier && s.queue[i].when <= now
    ensures Run(s, Rounds(now, k)).looper.Dispatching? && Run(s, Rounds(now, k)).queue == s.queue[k..]
    ensures Entries(Delivered(s, Rounds(now, k))) == s.queue[..k]
    decreases k
  {
    hide Run, Delivered, Do, Entries, ToLook;
    if k == 0 {
      Run0(s);
      EntriesFirst(Delivery(Entry(0, 0, false, false, 0), 0), []);
    } else {
      var acts := ROUND + [Look(now, 0)];
      FromDispatching(s);
      ReturnsDue(s, now, 0, 0);
      var u := Run(s, acts);
      RunBoth(s, acts, Rounds(now, k - 1));
      assert s.queue[..0] + s.queue[1..] == s.queue[1..];
      DrainsDue(u, now, k - 1);
      EntriesFirst(Delivery(s.queue[0], now), Delivered(u, Rounds(now, k - 1)));
      FirstOff(s.queue, k);
    }
  }

  lemma FromDispatching(s: State)
    requires s.looper.Dispatching?
    ensures ToLook(s) == ROUND
  {
  }

  lemma FirstOff(q: Queue, k: nat)
    requires 0 < k <= |q|
    ensures q[..k] == [q[0]] + q[1..][..k - 1] && q[k..] == q[1..][k - 1..]
  {
  }

  lemma EntriesFirst(d: Delivery, ds: seq<Delivery>)
    ensures Entries([]) == [] && Entries([d] + ds) == [d.entry] + Entries(ds)
  {
  }

  lemma Run0(s: State)
    ensures Run(s, []) == s && Delivered(s, []) == []
  {
  }

  // ---- Quitting

  lemma {:induction false} QuittingStays(s: State, acts: seq<Act>)
    ensures s.quitting ==> Run(s, acts).quitting
    ensures Quit in acts ==> Run(s, acts).quitting
    decreases |acts|
  {
    if acts != [] {
      QuittingStays(Do(s, acts[0]), acts[1..]);
      assert Quit in acts ==> acts[0] == Quit || Quit in acts[1..];
    }
  }

  /** In every run after a quit nothing is accepted, a looper that sleeps has a wake pending, and the
      looper, left alone, returns what is due and otherwise ends the loop. */
  lemma QuitTakesHold(acts: seq<Act>, when: int, asynchronous: bool, now: int, idleHandlers: nat)
    requires RealClock(acts) && Quit in acts
    ensures var s := Run(INIT, acts);
      && s.quitting && Do(s, Enqueue(when, asynchronous)) == s
      && (s.looper.Polling? && !s.looper.timeout.Zero? ==> s.wake)
      && (!s.looper.Finished? && (forall i: nat :: !Due(s.queue, i, now)) ==>
            Run(s, ToLook(s) + [Look(now, idleHandlers)]).looper.Finished?)
  {
    hide Run, Unstalled, Deliverable;
    WakeInit();
    WakeRun(INIT, acts);
    QuittingStays(INIT, acts);
    var s := Run(INIT, acts);
    if !s.looper.Finished? {
      ReachesLook(s);
      var u := Run(s, ToLook(s));
      RunBoth(s, ToLook(s), [Look(now, idleHandlers)]);
      Run1(u, Look(now, idleHandlers));
      LookDelivers(u, now, idleHandlers);
    }
  }

  lemma WakeInit()
    ensures WakeInv(INIT)
  {
  }

  lemma {:induction false} QuittingOnly(s: State, acts: seq<Act>)
    ensures s.quitting || Quit in acts || !Run(s, acts).quitting
    decreases |acts|
  {
    if acts != [] { QuittingOnly(Do(s, acts[0]), acts[1..]); }
  }

  lemma {:induction false} FinishedStays(s: State, acts: seq<Act>)
    requires s.looper.Finished? ==> s.quitting
    ensures Run(s, acts).looper.Finished? ==> Run(s, acts).quitting
    decreases |acts|
  {
    if acts != [] { FinishedStays(Do(s, acts[0]), acts[1..]); }
  }

  /** The loop ends only after a quit. */
  lemma EndsOnlyByQuit(acts: seq<Act>)
    ensures Run(INIT, acts).looper.Finished? ==> Quit in acts
  {
    FinishedStays(INIT, acts);
    QuittingOnly(INIT, acts);
  }

  // ---- Idle handlers

  /** Handlers have run in this call of next(), or there are none to run. */
  predicate Idled(s: State) {
    s.idlers >= 0 && !s.looper.RunningIdlers? && (s.looper.Polling? || s.looper.Awake? ==> s.idlers == 0)
  }

  lemma {:induction false} IdledStays(s: State, acts: seq<Act>)
    requires Idled(s) && CallNext !in acts
    ensures Idled(Run(s, acts))
    decreases |acts|
  {
    if acts != [] { IdledStays(Do(s, acts[0]), acts[1..]); }
  }

  /** The idle handlers run at most once in a call of next(). */
  lemma IdlersRunOnce(s: State, acts: seq<Act>)
    requires s.looper.RunningIdlers? && CallNext !in acts
    ensures !Run(Do(s, IdlersRan), acts).looper.RunningIdlers?
  {
    IdledStays(Do(s, IdlersRan), acts);
  }

  /** A look with nothing to return goes to the idle handlers, of which there are some, if and only if
      it is the first to find the queue idle in this call of next(). */
  lemma IdlersRunWhenIdle(s: State, now: int, idleHandlers: nat)
    requires s.looper.Awake? && !s.quitting && s.idlers <= 0 && idleHandlers > 0
    requires forall i: nat :: !Due(s.queue, i, now)
    ensures Do(s, Look(now, idleHandlers)).looper.RunningIdlers? <==>
            s.idlers < 0 && (s.queue == [] || now < s.queue[0].when)
  {
    hide Deliverable, Unstalled;
    LookDelivers(s, now, idleHandlers);
  }

  // ---- Wakes

  /** The first barrier with that token is at the head and no other barrier comes to the head by its
      removal. */
  predicate Frees(q: Queue, token: int) {
    q != [] && q[0].barrier && q[0].token == token && (|q| == 1 || !q[1].barrier)
  }

  /** The first entry that no barrier stalls is the one with this number. */
  predicate Foremost(q: Queue, serial: nat) {
    match Deliverable(q)
    case None => false
    case Some(i) => Unstalled(q, i) && q[i].serial == serial
  }

  /** In every reachable state each action wakes the looper exactly when it has to: for a message that
      becomes the first deliverable one of a blocked looper, a removal that frees the head, and the
      first quit. */
  lemma WakesExactly(acts: seq<Act>, a: Act)
    requires !Run(INIT, acts).wake
    ensures var s := Run(INIT, acts);
      Do(s, a).wake <==>
      match a
      case Enqueue(when, asynchronous) => !s.quitting && s.blocked && Foremost(Do(s, a).queue, s.serial)
      case RemoveSyncBarrier(token) => !s.quitting && Frees(s.queue, token)
      case Quit => !s.quitting
      case _ => false
  {
    hide Run, Foremost, Arrivals;
    var s := Run(INIT, acts);
    ArrivalOrder(acts);
    match a
    case Enqueue(when, asynchronous) => EnqueueWakes(s, when, asynchronous);
    case RemoveSyncBarrier(token) => RemovalWakes(s, token);
    case _ =>
  }

  lemma EnqueueWakes(s: State, when: int, asynchronous: bool)
    requires !s.wake && Arrivals(s)
    ensures var u := Do(s, Enqueue(when, asynchronous));
      u.wake <==> !s.quitting && s.blocked && Foremost(u.queue, s.serial)
  {
    var i := Position(s.queue, when);
    var e := Entry(s.serial, when, asynchronous, false, 0);
    hide Position, Insert, Unstalled, Deliverable, InArrivalOrder;
    if !s.quitting && s.blocked {
      InsertAt(s.queue, i, e);
      var q := Insert(s.queue, i, e);
      WakesExactlyIfFirst(s, when, asynchronous);
      if Deliverable(q).Some? {
        var k := Deliverable(q).value;
        UnstalledIs(q, k);
        if k != i { assert q[k] == s.queue[if k < i then k else k - 1]; }
      }
    } else if !s.quitting {
      assert !NeedWake(s, i, asynchronous);
    }
  }

  lemma RemovalWakes(s: State, token: int)
    requires !s.wake
    ensures Do(s, RemoveSyncBarrier(token)).wake <==> !s.quitting && Frees(s.queue, token)
  {
    var r := FindBarrier(s.queue, token);
    if r.Some? { RemoveAt(s.queue, r.value); }
  }
}
