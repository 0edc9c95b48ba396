/** Wakes, order and barriers of the message queue, over all runs. */
module LooperTheorems {
  import opened Sequences
  import opened LooperModel

  // ---- No missed wake

  /** Entries with positive times are in order and come after the others. */
  ghost predicate Ordered(q: Queue) {
    forall i, j :: 0 <= i < j < |q| && q[i].when > 0 ==> q[i].when <= q[j].when
  }

  /** If the looper sleeps and nobody has woken it, the queue knows it, and it will wake up by
      itself no later than the first deliverable message is due. */
  ghost predicate NoMissedWake(s: State) {
    s.looper.Polling? && !s.looper.timeout.Zero? && !s.wake ==>
      && s.blocked
      && (Deliverable(s.queue).Some? ==>
            s.looper.timeout.Until? && s.looper.timeout.deadline <= s.queue[Deliverable(s.queue).value].when)
  }

  ghost predicate QueueInv(q: Queue) { Ordered(q) && BarriersPlain(q) }

  ghost predicate WakeInv(s: State) {
    && QueueInv(s.queue)
    && NoMissedWake(s)
    && (s.quitting && s.looper.Polling? && !s.looper.timeout.Zero? ==> s.wake)
    && (s.looper.Polling? && s.looper.timeout.Until? ==> s.looper.timeout.deadline > 0)
  }

  lemma InsertOrdered(q: Queue, e: Entry)
    requires Ordered(q)
    ensures Ordered(Insert(q, Position(q, e.when), e))
  {
    var i := Position(q, e.when);
    var r := Insert(q, i, e);
    forall a, b | 0 <= a < b < |r| && r[a].when > 0
      ensures r[a].when <= r[b].when
    {
      if i < a || b < i {
      } else if a == i {
        assert r[b] == q[b - 1] && i < |q| && e.when < q[i].when;
      } else if b == i {
        assert r[a] == q[a];
      }
    }
  }

  lemma RemoveOrdered(q: Queue, i: nat)
    requires Ordered(q) && i < |q|
    ensures Ordered(Remove(q, i))
  {
    var r := Remove(q, i);
    assert forall a :: 0 <= a < |r| ==> r[a] == q[if a < i then a else a + 1];
  }

  /** Waking is exact: a message wakes a blocked looper if and only if it is the one that next()
      will deliver first. */
  lemma WakesExactlyIfFirst(s: State, when: int, asynchronous: bool)
    requires s.blocked
    ensures var i := Position(s.queue, when);
      NeedWake(s, i, asynchronous) <==>
        Deliverable(Insert(s.queue, i, Entry(s.serial, when, asynchronous, false, 0))) == Some(i)
  {
    var i := Position(s.queue, when);
    var q := Insert(s.queue, i, Entry(s.serial, when, asynchronous, false, 0));
    assert q[i].asynchronous == asynchronous && !q[i].barrier;
    assert forall j :: 0 <= j < i ==> q[j] == s.queue[j];
    if i > 0 && q[0].barrier {
      var r := FirstAsync(q, 1);
      if r == Some(i) {
        assert forall j :: 1 <= j < i ==> !q[j].asynchronous;
      } else if asynchronous {
        assert q[r.value].asynchronous && r.value < i;
      }
    }
  }

  lemma FirstAsyncIs(q: Queue, i: nat, k: nat)
    requires i <= k < |q| && q[k].asynchronous
    requires forall j :: i <= j < k ==> !q[j].asynchronous
    ensures FirstAsync(q, i) == Some(k)
  {
  }

  ghost predicate BarriersPlain(q: Queue) {
    forall i :: 0 <= i < |q| && q[i].barrier ==> !q[i].asynchronous
  }

  /** The first deliverable message of `q` is due no earlier than that of `p`. */
  ghost predicate NotEarlier(p: Queue, q: Queue) {
    Deliverable(q).Some? ==>
      && Deliverable(p).Some?
      && p[Deliverable(p).value].when <= q[Deliverable(q).value].when
  }

  /** Inserting an entry other than a message that wakes the looper, or a barrier. */
  lemma InsertNotEarlier(p: Queue, e: Entry, i: nat)
    requires i == Position(p, e.when) && Ordered(p) && BarriersPlain(p) && (e.barrier ==> !e.asynchronous)
    requires Deliverable(Insert(p, i, e)) != Some(i)
    requires Deliverable(p).Some? ==> p[Deliverable(p).value].when > 0
    ensures NotEarlier(p, Insert(p, i, e))
  {
    hide Insert, Position;
    assert i <= |p|;
    InsertAt(p, i, e);
    var q := Insert(p, i, e);
    if Deliverable(q).Some? {
      var k := Deliverable(q).value;
      var l := if k < i then k else k - 1;
      assert k != i && q[k] == p[l];
      if p[0].barrier {
        assert !p[0].asynchronous;
        assert i > 0 ==> q[0] == p[0];
        assert i == 0 ==> q[0] == e && e.barrier;
        assert k >= 1 && q[k].asynchronous && l >= 1;
        forall j | 1 <= j < l
          ensures !p[j].asynchronous
        {
          var m := if j < i then j else j + 1;
          assert 1 <= m < k && p[j] == q[m];
        }
        FirstAsyncIs(p, 1, l);
      } else if l > 0 {
        assert p[0].when <= p[l].when;
      }
    }
  }

  lemma InsertAt(p: Queue, i: nat, e: Entry)
    requires i <= |p|
    ensures |Insert(p, i, e)| == |p| + 1 && Insert(p, i, e)[i] == e
    ensures forall j :: 0 <= j < i ==> Insert(p, i, e)[j] == p[j]
    ensures forall j :: i < j <= |p| ==> Insert(p, i, e)[j] == p[j - 1]
  {
  }

  /** Removing an entry that is not the first deliverable message, unless a message comes to the
      head by it. */
  lemma RemoveNotEarlier(p: Queue, i: nat)
    requires i < |p| && p[i].barrier && BarriersPlain(p)
    requires i == 0 ==> |p| > 1 && p[1].barrier
    ensures NotEarlier(p, Remove(p, i))
  {
    hide Remove;
    RemoveAt(p, i);
    var q := Remove(p, i);
    if Deliverable(q).Some? && p[0].barrier {
      var k := Deliverable(q).value;
      var l := if k < i then k else k + 1;
      assert p[l] == q[k];
      forall j | 1 <= j < l
        ensures !p[j].asynchronous
      {
        if j != i { assert p[j] == q[if j < i then j else j - 1]; }
      }
      FirstAsyncIs(p, 1, l);
    }
  }

  lemma RemoveAt(p: Queue, i: nat)
    requires i < |p|
    ensures var q := Remove(p, i);
      |q| == |p| - 1 && forall j :: 0 <= j < |q| ==> q[j] == p[if j < i then j else j + 1]
  {
  }

  lemma EnqueueStep(s: State, when: int, asynchronous: bool)
    requires WakeInv(s)
    ensures WakeInv(DoEnqueue(s, when, asynchronous))
  {
    if !s.quitting {
      var i, e := Position(s.queue, when), Entry(s.serial, when, asynchronous, false, 0);
      var u := DoEnqueue(s, when, asynchronous);
      InsertOrdered(s.queue, e);
      InsertPlain(s.queue, i, e);
      if u.looper.Polling? && !u.looper.timeout.Zero? && !u.wake {
        WakesExactlyIfFirst(s, when, asynchronous);
        InsertNotEarlier(s.queue, e, i);
      }
    }
  }

  lemma InsertPlain(q: Queue, i: nat, e: Entry)
    requires BarriersPlain(q) && i <= |q| && (e.barrier ==> !e.asynchronous)
    ensures BarriersPlain(Insert(q, i, e))
  {
    var r := Insert(q, i, e);
    assert forall j :: 0 <= j < |r| ==> r[j] == if j < i then q[j] else if j == i then e else q[j - 1];
  }

  lemma RemovePlain(q: Queue, i: nat)
    requires BarriersPlain(q) && i < |q|
    ensures BarriersPlain(Remove(q, i))
  {
    var r := Remove(q, i);
    assert forall j :: 0 <= j < |r| ==> r[j] == q[if j < i then j else j + 1];
  }

  lemma PostStep(s: State, when: int)
    requires WakeInv(s)
    ensures WakeInv(DoPostSyncBarrier(s, when))
  {
    var i, e := Position(s.queue, when), Entry(s.serial, when, false, true, s.nextToken);
    var q := Insert(s.queue, i, e);
    InsertOrdered(s.queue, e);
    InsertPlain(s.queue, i, e);
    assert q[i] == e;
    if s.looper.Polling? && !s.looper.timeout.Zero? && !s.wake { InsertNotEarlier(s.queue, e, i); }
  }

  lemma RemoveStep(s: State, token: int)
    requires WakeInv(s)
    ensures WakeInv(DoRemoveSyncBarrier(s, token))
  {
    var r := FindBarrier(s.queue, token);
    if r.Some? {
      var i := r.value;
      RemoveOrdered(s.queue, i);
      RemovePlain(s.queue, i);
      var u := DoRemoveSyncBarrier(s, token);
      if u.looper.Polling? && !u.looper.timeout.Zero? && !u.wake {
        assert i == 0 ==> s.queue[1] == u.queue[0];
        RemoveNotEarlier(s.queue, i);
      }
    }
  }

  lemma LookStep(s: State, now: int, idleHandlers: nat)
    requires WakeInv(s) && now >= 0
    ensures WakeInv(DoLook(s, now, idleHandlers))
  {
    if Taken(s, now).Some? {
      RemoveOrdered(s.queue, Taken(s, now).value);
      RemovePlain(s.queue, Taken(s, now).value);
    }
  }

  lemma WakeStep(s: State, a: Act)
    requires WakeInv(s) && (a.Look? ==> a.now >= 0)
    ensures WakeInv(Do(s, a))
  {
    match a
    case Enqueue(when, asynchronous) => EnqueueStep(s, when, asynchronous);
    case PostSyncBarrier(when) => PostStep(s, when);
    case RemoveSyncBarrier(token) => RemoveStep(s, token);
    case Look(now, idleHandlers) => if s.looper.Awake? { LookStep(s, now, idleHandlers); }
    case _ =>
  }

  lemma {:induction false} WakeRun(s: State, acts: seq<Act>)
    requires WakeInv(s) && RealClock(acts)
    ensures WakeInv(Run(s, acts))
    decreases |acts|
  {
    hide Do, WakeInv;
    if acts != [] {
      WakeStep(s, acts[0]);
      WakeRun(Do(s, acts[0]), acts[1..]);
    }
  }

  /** In every reachable state in which the looper polls with a timeout other than zero and no wake
      is pending, mBlocked is set and the poll ends no later than the first deliverable message is
      due, whoever called what in between. */
  lemma NeverMissesAWake(acts: seq<Act>)
    requires RealClock(acts)
    ensures NoMissedWake(Run(INIT, acts))
  {
    WakeRun(INIT, acts);
  }

  // ---- Order in the queue

  lemma QueueStep(s: State, a: Act)
    requires QueueInv(s.queue)
    ensures QueueInv(Do(s, a).queue)
  {
    hide QueueInv, Do;
    match a
    case Enqueue(when, asynchronous) =>
      InsertInv(s.queue, Entry(s.serial, when, asynchronous, false, 0));
      SameOrInserted(s, when, asynchronous);
    case PostSyncBarrier(when) => PostInv(s, when);
    case RemoveSyncBarrier(token) => RemoveInv(s, token);
    case Look(now, idleHandlers) => LookInv(s, now, idleHandlers);
    case _ => QuietInv(s, a);
  }

  lemma InsertInv(q: Queue, e: Entry)
    requires QueueInv(q) && (e.barrier ==> !e.asynchronous)
    ensures QueueInv(Insert(q, Position(q, e.when), e))
  {
    InsertOrdered(q, e);
    InsertPlain(q, Position(q, e.when), e);
  }

  lemma SameOrInserted(s: State, when: int, asynchronous: bool)
    ensures var q := Do(s, Enqueue(when, asynchronous)).queue;
      q == s.queue
      || q == Insert(s.queue, Position(s.queue, when), Entry(s.serial, when, asynchronous, false, 0))
  {
  }

  lemma PostInv(s: State, when: int)
    requires QueueInv(s.queue)
    ensures QueueInv(Do(s, PostSyncBarrier(when)).queue)
  {
    InsertInv(s.queue, Entry(s.serial, when, false, true, s.nextToken));
  }

  lemma RemoveInv(s: State, token: int)
    requires QueueInv(s.queue)
    ensures QueueInv(Do(s, RemoveSyncBarrier(token)).queue)
  {
    var r := FindBarrier(s.queue, token);
    if r.Some? {
      RemoveOrdered(s.queue, r.value);
      RemovePlain(s.queue, r.value);
    }
  }

  lemma LookInv(s: State, now: int, idleHandlers: nat)
    requires QueueInv(s.queue)
    ensures QueueInv(Do(s, Look(now, idleHandlers)).queue)
  {
    if s.looper.Awake? && Taken(s, now).Some? {
      RemoveOrdered(s.queue, Taken(s, now).value);
      RemovePlain(s.queue, Taken(s, now).value);
    }
  }

  lemma QuietInv(s: State, a: Act)
    requires a.Quit? || a.CallNext? || a.PollReturns? || a.IdlersRan?
    ensures Do(s, a).queue == s.queue
  {
  }

  lemma {:induction false} QueueRun(s: State, acts: seq<Act>)
    requires QueueInv(s.queue)
    ensures QueueInv(Run(s, acts).queue)
    decreases |acts|
  {
    hide Do, QueueInv;
    if acts != [] {
      QueueStep(s, acts[0]);
      QueueRun(Do(s, acts[0]), acts[1..]);
    }
  }

  /** With times that are not negative the queue is sorted by time. */
  lemma Sorted(acts: seq<Act>)
    ensures var q := Run(INIT, acts).queue;
      (forall e :: e in q ==> e.when >= 0) ==> SortedByTime(q)
  {
    QueueRun(INIT, acts);
  }

  ghost predicate SortedByTime(q: Queue) {
    forall i, j :: 0 <= i < j < |q| ==> q[i].when <= q[j].when
  }

  /** An insertion keeps a sorted queue sorted exactly if its time is not zero or nothing queued
      has a negative time. */
  lemma InsertKeepsSorted(q: Queue, e: Entry)
    requires SortedByTime(q)
    ensures SortedByTime(Insert(q, Position(q, e.when), e)) <==> e.when != 0 || forall x :: x in q ==> x.when >= 0
  {
    var k := Position(q, e.when);
    var r := Insert(q, k, e);
    InsertAt(q, k, e);
    hide Insert;
    if e.when != 0 || forall x :: x in q ==> x.when >= 0 {
      forall i, j | 0 <= i < j < |r|
        ensures r[i].when <= r[j].when
      {
        if i == k { assert e.when != 0 ==> e.when < q[k].when; }
      }
    } else {
      var i :| 0 <= i < |q| && q[i].when < 0;
      assert k == 0 && r[0] == e && r[i + 1] == q[i];
    }
  }

  /** With a negative time it need not be: time zero means the head of the queue. */
  lemma NegativeTimeUnsorted()
    ensures var q := Run(INIT, [Enqueue(-5, false), Enqueue(0, false)]).queue;
      |q| == 2 && q[0].when == 0 && q[1].when == -5
  {
    var a, b := Enqueue(-5, false), Enqueue(0, false);
    var s := Do(INIT, a);
    assert s.queue == [Entry(0, -5, false, false, 0)];
    assert Do(s, b).queue == [Entry(1, 0, false, false, 0), Entry(0, -5, false, false, 0)];
    assert [a, b][1..] == [b] && [b][1..] == [];
    assert Run(INIT, [a, b]) == Run(s, [b]) == Run(Do(s, b), []);
  }

  // ---- Order of delivery

  datatype Delivery = Delivery(entry: Entry, now: int)

  /** What a step takes out of the queue for the looper. */
  function Taking(s: State, a: Act): (ds: seq<Delivery>)
    ensures |ds| <= 1
  {
    if a.Look? && s.looper.Awake? && Taken(s, a.now).Some?
    then [Delivery(s.queue[Taken(s, a.now).value], a.now)] else []
  }

  /** What the looper took out of the queue in a run, and when it looked. */
  function Delivered(s: State, acts: seq<Act>): seq<Delivery>
    decreases |acts|
  {
    if acts == [] then [] else Taking(s, acts[0]) + Delivered(Do(s, acts[0]), acts[1..])
  }

  lemma {:induction false} NotBeforeItsTime(s: State, acts: seq<Act>)
    ensures forall d :: d in Delivered(s, acts) ==> d.entry.when <= d.now
    decreases |acts|
  {
    hide Do;
    if acts != [] { NotBeforeItsTime(Do(s, acts[0]), acts[1..]); }
  }

  /** Entries are numbered in the order of insertion; among equal positive times the order in the
      queue is that of insertion, and it is the reverse for time zero. */
  ghost predicate InArrivalOrder(a: Entry, b: Entry) {
    && a.serial != b.serial
    && (a.when == b.when > 0 ==> a.serial < b.serial)
    && (a.when == b.when == 0 ==> a.serial > b.serial)
  }

  ghost predicate Arrivals(s: State) {
    && (forall i :: 0 <= i < |s.queue| ==> s.queue[i].serial < s.serial)
    && (forall i, j :: 0 <= i < j < |s.queue| ==> InArrivalOrder(s.queue[i], s.queue[j]))
  }

  lemma InsertArrivals(s: State, u: State, e: Entry)
    requires Ordered(s.queue) && Arrivals(s) && e.serial == s.serial
    requires u.queue == Insert(s.queue, Position(s.queue, e.when), e) && u.serial == s.serial + 1
    ensures Arrivals(u)
  {
    hide InArrivalOrder, Ordered, Insert, Position;
    var q, k := u.queue, Position(s.queue, e.when);
    InsertAt(s.queue, k, e);
    forall i, j | 0 <= i < j < |q|
      ensures InArrivalOrder(q[i], q[j])
    {
      InsertPair(s, e, i, j);
    }
    forall i | 0 <= i < |q|
      ensures q[i].serial < u.serial
    {
      assert i > k ==> q[i] == s.queue[i - 1];
    }
  }

  lemma InsertPair(s: State, e: Entry, i: nat, j: nat)
    requires Ordered(s.queue) && Arrivals(s) && e.serial == s.serial && i < j <= |s.queue|
    ensures var q := Insert(s.queue, Position(s.queue, e.when), e); InArrivalOrder(q[i], q[j])
  {
    hide Insert;
    var p, k := s.queue, Position(s.queue, e.when);
    InsertAt(p, k, e);
    if i == k {
      assert e.when > 0 ==> e.when < p[k].when <= p[j - 1].when;
    } else if j == k {
      assert p[i].serial < s.serial;
    } else {
      assert InArrivalOrder(p[if i < k then i else i - 1], p[if j < k then j else j - 1]);
    }
  }

  lemma RemoveArrivals(s: State, u: State, k: nat)
    requires Arrivals(s) && k < |s.queue| && u.queue == Remove(s.queue, k) && u.serial == s.serial
    ensures Arrivals(u)
  {
    hide InArrivalOrder;
    var p, q := s.queue, u.queue;
    forall i, j | 0 <= i < j < |q|
      ensures InArrivalOrder(q[i], q[j])
    {
      var a, b := if i < k then i else i + 1, if j < k then j else j + 1;
      assert q[i] == p[a] && q[j] == p[b];
    }
  }

  lemma ArrivalsStep(s: State, a: Act)
    requires QueueInv(s.queue) && Arrivals(s)
    ensures Arrivals(Do(s, a))
  {
    hide Arrivals;
    var u := Do(s, a);
    match a
    case Enqueue(when, asynchronous) =>
      if !s.quitting { InsertArrivals(s, u, Entry(s.serial, when, asynchronous, false, 0)); }
    case PostSyncBarrier(when) => InsertArrivals(s, u, Entry(s.serial, when, false, true, s.nextToken));
    case RemoveSyncBarrier(token) =>
      if FindBarrier(s.queue, token).Some? { RemoveArrivals(s, u, FindBarrier(s.queue, token).value); }
    case Look(now, idleHandlers) => LookArrivals(s, now, idleHandlers);
    case _ => SameArrivals(s, u);
  }

  lemma SameArrivals(s: State, u: State)
    requires Arrivals(s) && u.queue == s.queue && u.serial == s.serial
    ensures Arrivals(u)
  {
  }

  lemma LookArrivals(s: State, now: int, idleHandlers: nat)
    requires Arrivals(s)
    ensures Arrivals(Do(s, Look(now, idleHandlers)))
  {
    hide Arrivals;
    var u := Do(s, Look(now, idleHandlers));
    if s.looper.Awake? && Taken(s, now).Some? { RemoveArrivals(s, u, Taken(s, now).value); }
    else { SameArrivals(s, u); }
  }

  lemma {:induction false} ArrivalsRun(s: State, acts: seq<Act>)
    requires QueueInv(s.queue) && Arrivals(s)
    ensures Arrivals(Run(s, acts))
    decreases |acts|
  {
    hide Do, Arrivals, QueueInv;
    if acts != [] {
      QueueStep(s, acts[0]);
      ArrivalsStep(s, acts[0]);
      ArrivalsRun(Do(s, acts[0]), acts[1..]);
    }
  }

  lemma ArrivalOrder(acts: seq<Act>)
    ensures Arrivals(Run(INIT, acts))
  {
    ArrivalsRun(INIT, acts);
  }

  ghost predicate InFront(q: Queue, a: Entry, b: Entry) {
    exists i, j :: 0 <= i < j < |q| && q[i] == a && q[j] == b
  }

  ghost predicate Synchronous(e: Entry) { !e.barrier && !e.asynchronous }

  lemma InsertInFront(q: Queue, k: nat, e: Entry, a: Entry, b: Entry)
    requires k <= |q| && InFront(q, a, b)
    ensures InFront(Insert(q, k, e), a, b)
  {
    var i, j :| 0 <= i < j < |q| && q[i] == a && q[j] == b;
    var r := Insert(q, k, e);
    assert r[if i < k then i else i + 1] == a && r[if j < k then j else j + 1] == b;
  }

  lemma RemoveInFront(q: Queue, k: nat, a: Entry, b: Entry)
    requires k < |q| && InFront(q, a, b) && q[k] != a && q[k] != b
    ensures InFront(Remove(q, k), a, b)
  {
    var i, j :| 0 <= i < j < |q| && q[i] == a && q[j] == b;
    var r := Remove(q, k);
    assert r[if i < k then i else i - 1] == a && r[if j < k then j else j - 1] == b;
  }

  /** A look never takes a synchronous message that something is in front of. */
  lemma TakenNotBehind(s: State, now: int, a: Entry, b: Entry)
    requires BarriersPlain(s.queue) && Arrivals(s) && InFront(s.queue, a, b) && Synchronous(b)
    requires Taken(s, now).Some?
    ensures s.queue[Taken(s, now).value] != b
    ensures s.queue[Taken(s, now).value] == a ==> !a.barrier
  {
    var i, j :| 0 <= i < j < |s.queue| && s.queue[i] == a && s.queue[j] == b;
    var k := Taken(s, now).value;
    if k == j { assert false; }
    assert InArrivalOrder(s.queue[if k < j then k else j], s.queue[if k < j then j else k]);
  }

  /** One step leaves `a` in front of the synchronous message `b`, or takes `a` out: as a delivery
      if it is a message, by its own token if it is a barrier. */
  lemma OrderStep(s: State, act: Act, a: Entry, b: Entry)
    requires QueueInv(s.queue) && Arrivals(s) && InFront(s.queue, a, b) && Synchronous(b)
    requires a.barrier ==> act != RemoveSyncBarrier(a.token)
    ensures var ds := Taking(s, act);
      && (ds != [] ==> ds[0].entry != b)
      && (InFront(Do(s, act).queue, a, b) || (ds != [] && ds[0].entry == a && !a.barrier))
  {
    match act
    case Enqueue(when, asynchronous) =>
      if !s.quitting {
        InsertInFront(s.queue, Position(s.queue, when), Entry(s.serial, when, asynchronous, false, 0), a, b);
      }
    case PostSyncBarrier(when) =>
      InsertInFront(s.queue, Position(s.queue, when), Entry(s.serial, when, false, true, s.nextToken), a, b);
    case RemoveSyncBarrier(token) =>
      if FindBarrier(s.queue, token).Some? { RemoveInFront(s.queue, FindBarrier(s.queue, token).value, a, b); }
    case Look(now, idleHandlers) =>
      if s.looper.Awake? && Taken(s, now).Some? {
        TakenNotBehind(s, now, a, b);
        if s.queue[Taken(s, now).value] != a { RemoveInFront(s.queue, Taken(s, now).value, a, b); }
      }
    case _ =>
  }

  lemma {:induction false} BarrierStays(s: State, acts: seq<Act>, a: Entry, b: Entry)
    requires QueueInv(s.queue) && Arrivals(s)
    requires a.barrier && Synchronous(b) && InFront(s.queue, a, b)
    requires RemoveSyncBarrier(a.token) !in acts
    ensures InFront(Run(s, acts).queue, a, b)
    ensures forall d :: d in Delivered(s, acts) ==> d.entry != b
    decreases |acts|
  {
    hide Do, QueueInv, Arrivals, InFront, Taking;
    if acts != [] {
      OrderStep(s, acts[0], a, b);
      QueueStep(s, acts[0]);
      ArrivalsStep(s, acts[0]);
      BarrierStays(Do(s, acts[0]), acts[1..], a, b);
    }
  }

  lemma {:induction false} OrderStays(s: State, acts: seq<Act>, a: Entry, b: Entry, j: nat)
    requires QueueInv(s.queue) && Arrivals(s)
    requires !a.barrier && Synchronous(b) && InFront(s.queue, a, b)
    requires j < |Delivered(s, acts)| && Delivered(s, acts)[j].entry == b
    ensures exists i :: 0 <= i < j && Delivered(s, acts)[i].entry == a
    decreases |acts|
  {
    hide Do, QueueInv, Arrivals, InFront, Taking;
    assert acts != [];
    var act, u := acts[0], Do(s, acts[0]);
    OrderStep(s, act, a, b);
    QueueStep(s, act);
    ArrivalsStep(s, act);
    var first, rest := Taking(s, act), Delivered(u, acts[1..]);
    assert Delivered(s, acts) == first + rest;
    if InFront(u.queue, a, b) {
      assert rest[j - |first|] == Delivered(s, acts)[j];
      OrderStays(u, acts[1..], a, b, j - |first|);
      var i :| 0 <= i < j - |first| && rest[i].entry == a;
      assert Delivered(s, acts)[i + |first|] == rest[i];
    } else {
      assert Delivered(s, acts)[0] == first[0];
    }
  }

  lemma ReachedInv(pre: seq<Act>)
    ensures QueueInv(Run(INIT, pre).queue) && Arrivals(Run(INIT, pre))
  {
    QueueRun(INIT, pre);
    ArrivalsRun(INIT, pre);
  }

  /** Over every run: while nobody removes the barrier `a` by its token, no synchronous message behind
      it is delivered, whatever else happens. */
  lemma BarrierHolds(pre: seq<Act>, acts: seq<Act>, a: Entry, b: Entry)
    requires a.barrier && Synchronous(b) && InFront(Run(INIT, pre).queue, a, b)
    requires RemoveSyncBarrier(a.token) !in acts
    ensures InFront(Run(Run(INIT, pre), acts).queue, a, b)
    ensures forall d :: d in Delivered(Run(INIT, pre), acts) ==> d.entry != b
  {
    hide Run, Delivered, QueueInv, Arrivals, InFront;
    ReachedInv(pre);
    BarrierStays(Run(INIT, pre), acts, a, b);
  }

  /** Over every run: a synchronous message is delivered only after every message in front of it. */
  lemma DeliveredInOrder(pre: seq<Act>, acts: seq<Act>, a: Entry, b: Entry, j: nat)
    requires !a.barrier && Synchronous(b) && InFront(Run(INIT, pre).queue, a, b)
    requires var ds := Delivered(Run(INIT, pre), acts); j < |ds| && ds[j].entry == b
    ensures var ds := Delivered(Run(INIT, pre), acts); exists i :: 0 <= i < j && ds[i].entry == a
  {
    hide Run, Delivered, QueueInv, Arrivals, InFront;
    ReachedInv(pre);
    OrderStays(Run(INIT, pre), acts, a, b, j);
  }
}
