/** Messages, their pool and their queue: Android/Handler/Message.java, MessageQueue.java and the
    loop of Looper.java on linked objects.  Every method of the queue is one section that holds
    its lock and refines the step of the same name in `LooperModel`. */
module AndroidQueue {
  import opened Sequences
  import opened LooperModel

  class Handler {
    constructor () {}
  }

  /** `asynchronous` and `inUse` are the two bits of flags.  `serial` is history. */
  class Message {
    var inUse: bool
    var asynchronous: bool
    var when: int
    var arg1: int
    var target: Handler?
    var next: Message?
    ghost var serial: nat

    constructor ()
      ensures !inUse && Blank() && next == null
    {
      inUse, asynchronous, when, arg1, target, next := false, false, 0, 0, null, null;
    }

    /** Nothing is left of an earlier use. */
    predicate Blank()
      reads this
    {
      !asynchronous && when == 0 && arg1 == 0 && target == null
    }

    ghost function AsEntry(): Entry
      reads this
    {
      Entry(serial, when, asynchronous, target == null, if target == null then arg1 else 0)
    }
  }

  function At(s: seq<Message>, i: int): Message? {
    if 0 <= i < |s| then s[i] else null
  }

  ghost predicate LinkAt(s: seq<Message>, i: nat)
    requires i < |s|
    reads s[i]
  {
    s[i].next == At(s, i + 1) && s[i].inUse
  }

  /** `s` is a list without repetition that is linked from `first` to null, all of it in use. */
  ghost predicate Listed(first: Message?, s: seq<Message>)
    reads s
  {
    first == At(s, 0) && Distinct(s) && forall i :: 0 <= i < |s| ==> LinkAt(s, i)
  }

  function Spliced(s: seq<Message>, k: nat, m: Message): seq<Message>
    requires k <= |s|
  {
    s[..k] + [m] + s[k..]
  }

  function Without(s: seq<Message>, k: nat): seq<Message>
    requires k < |s|
  {
    s[..k] + s[k + 1..]
  }

  ghost function Entries(s: seq<Message>): (es: Queue)
    reads s
    ensures |es| == |s|
  {
    seq(|s|, i requires 0 <= i < |s| reads s => s[i].AsEntry())
  }

  lemma EntriesInsert(s: seq<Message>, k: nat, m: Message)
    requires k <= |s|
    ensures Entries(Spliced(s, k, m)) == Insert(Entries(s), k, m.AsEntry())
  {
  }

  lemma EntriesRemove(s: seq<Message>, k: nat)
    requires k < |s|
    ensures Entries(Without(s, k)) == Remove(Entries(s), k)
  {
  }

  lemma EnqueueState(s: State, u: State, when: int, asynchronous: bool, k: nat)
    requires !s.quitting && k == Position(s.queue, when)
    requires u == s.(queue := Insert(s.queue, k, Entry(s.serial, when, asynchronous, false, 0)), serial := s.serial + 1,
                     wake := s.wake || NeedWake(s, k, asynchronous))
    ensures u == Do(s, Enqueue(when, asynchronous))
  {
  }

  lemma PostState(s: State, u: State, when: int, k: nat)
    requires k == Position(s.queue, when)
    requires u == s.(queue := Insert(s.queue, k, Entry(s.serial, when, false, true, s.nextToken)),
                     serial := s.serial + 1, nextToken := Increment(s.nextToken))
    ensures u == Do(s, Act.PostSyncBarrier(when))
  {
  }

  lemma FirstLaterIs(q: Queue, when: int, k: nat)
    requires k <= |q| && (k < |q| ==> when < q[k].when)
    requires forall i :: 0 <= i < k ==> q[i].when <= when
    ensures FirstLater(q, when) == k
  {
  }

  lemma ListedInUse(first: Message?, s: seq<Message>, m: Message)
    requires Listed(first, s)
    ensures m in s ==> m.inUse
  {
    if m in s {
      var i :| 0 <= i < |s| && s[i] == m;
      assert LinkAt(s, i);
    }
  }

  lemma ListInsert(s: seq<Message>, k: nat, m: Message)
    requires k <= |s| && Distinct(s) && m !in s
    requires forall i :: 0 <= i < |s| && i != k - 1 ==> LinkAt(s, i)
    requires k > 0 ==> s[k - 1].next == m && s[k - 1].inUse
    requires m.next == At(s, k) && m.inUse
    ensures Listed(if k == 0 then m else s[0], Spliced(s, k, m))
  {
    var r := Spliced(s, k, m);
    forall i | 0 <= i < |r|
      ensures LinkAt(r, i)
    {
      assert i != k && i != k - 1 ==> LinkAt(s, if i < k then i else i - 1);
    }
    assert forall i :: 0 <= i < |s| ==> s[i] in s;
  }

  lemma ListRemove(s: seq<Message>, k: nat)
    requires k < |s| && Distinct(s)
    requires forall i :: 0 <= i < |s| && i != k - 1 && i != k ==> LinkAt(s, i)
    requires k > 0 ==> s[k - 1].next == At(s, k + 1) && s[k - 1].inUse
    ensures Listed(At(Without(s, k), 0), Without(s, k))
  {
    var r := Without(s, k);
    forall i | 0 <= i < |r|
      ensures LinkAt(r, i)
    {
      assert i != k - 1 ==> LinkAt(s, if i < k then i else i + 1);
    }
  }

  const MAX_POOL_SIZE: nat := 50

  /** The static pool. */
  class MessagePool {
    var sPool: Message?
    var sPoolSize: nat
    var gCheckRecycle: bool
    ghost var chain: seq<Message>

    ghost predicate Valid()
      reads this, chain
    {
      && Listed(sPool, chain)
      && sPoolSize == |chain| <= MAX_POOL_SIZE
      && forall m :: m in chain ==> m.Blank()
    }

    constructor ()
      ensures Valid() && chain == [] && gCheckRecycle
    {
      sPool, sPoolSize, gCheckRecycle := null, 0, true;
      chain := [];
    }

    /** A message from the pool cannot be told from a new one. */
    method Obtain() returns (m: Message)
      requires Valid()
      modifies this, chain
      ensures Valid() && !m.inUse && m.Blank() && m.next == null
      ensures gCheckRecycle == old(gCheckRecycle)
      ensures if old(chain) == [] then fresh(m) && chain == [] else m == old(chain[0]) && chain == old(chain[1..])
      ensures forall x :: x in chain ==> x.next == old(x.next)
    {
      if sPool != null {
        m := sPool;
        assert m == chain[0] && m in chain && LinkAt(chain, 0);
        sPool := m.next;
        m.next := null;
        m.inUse, m.asynchronous := false, false;
        sPoolSize := sPoolSize - 1;
        assert forall i :: 1 <= i < |chain| ==> chain[i] != m && LinkAt(chain, i);
        ListRemove(chain, 0);
        chain := Without(chain, 0);
      } else {
        m := new Message();
      }
    }

    /** The message goes to the pool unless it is full; either way it can no longer be used. */
    method RecycleUnchecked(m: Message)
      requires Valid() && m !in chain
      modifies this, m
      ensures Valid() && m.inUse && m.Blank() && gCheckRecycle == old(gCheckRecycle)
      ensures chain == if old(|chain|) < MAX_POOL_SIZE then [m] + old(chain) else old(chain)
    {
      m.inUse, m.asynchronous := true, false;
      m.when, m.arg1, m.target := 0, 0, null;
      if sPoolSize < MAX_POOL_SIZE {
        m.next := sPool;
        sPool := m;
        sPoolSize := sPoolSize + 1;
        ListInsert(chain, 0, m);
        chain := Spliced(chain, 0, m);
      }
    }

    /** Recycling a message that is queued, pooled or being delivered is refused. */
    method Recycle(m: Message) returns (thrown: bool)
      requires Valid()
      modifies this, m
      ensures Valid() && gCheckRecycle == old(gCheckRecycle)
      ensures thrown <==> old(m.inUse) && gCheckRecycle
      ensures m.inUse
      ensures old(m.inUse) ==> chain == old(chain) && m.next == old(m.next) && m.AsEntry() == old(m.AsEntry())
      ensures !old(m.inUse) ==> m.Blank()
      ensures !old(m.inUse) ==> chain == if old(|chain|) < MAX_POOL_SIZE then [m] + old(chain) else old(chain)
    {
      if m.inUse { return gCheckRecycle; }
      ListedInUse(sPool, chain, m);
      RecycleUnchecked(m);
      return false;
    }
  }

  datatype Outcome = Queued | NoTarget | AlreadyInUse | Quitting

  class MessageQueue {
    const pool: MessagePool
    const mQuitAllowed: bool
    var mMessages: Message?
    var mQuitting: bool
    var mBlocked: bool
    var mNextBarrierToken: int
    var woken: bool // the event of nativeWake
    var looper: Looper
    var pendingIdleHandlerCount: int
    ghost var queue: seq<Message>
    ghost var serial: nat
    ghost var delivering: Message? // returned by next() and not recycled yet

    /** The pool is in order and nothing queued or being delivered is in it. */
    ghost predicate Apart()
      reads this, pool, pool.chain, delivering
    {
      && pool.Valid()
      && (forall i :: 0 <= i < |queue| ==> queue[i] !in pool.chain && queue[i] != delivering)
      && (delivering != null ==> delivering.inUse && delivering !in pool.chain)
    }

    /** Every message is at most one of queued, pooled and being delivered, and is then in use. */
    ghost predicate Valid()
      reads this, pool, pool.chain, queue, delivering
    {
      && Apart()
      && Listed(mMessages, queue)
      && (looper.Polling? || looper.Awake? || looper.RunningIdlers? ==> delivering == null)
    }

    /** The state of `LooperModel`. */
    ghost function Abs(): State
      reads this, queue
    {
      State(Entries(queue), serial, mNextBarrierToken, mBlocked, mQuitting, woken, looper, pendingIdleHandlerCount)
    }

    constructor (pool: MessagePool, quitAllowed: bool)
      requires pool.Valid()
      ensures Valid() && Abs() == INIT && delivering == null
      ensures this.pool == pool && mQuitAllowed == quitAllowed
    {
      this.pool, mQuitAllowed := pool, quitAllowed;
      mMessages, mQuitting, mBlocked, mNextBarrierToken := null, false, false, 0;
      woken, looper, pendingIdleHandlerCount := false, Dispatching, -1;
      queue, serial, delivering := [], 0, null;
    }

    /** Links `msg` in at place `k`, between `prev` and `p`. */
    method LinkIn(prev: Message?, msg: Message, p: Message?, ghost k: nat)
      requires Valid() && msg.inUse && msg !in queue && msg !in pool.chain && msg != delivering
      requires k <= |queue| && prev == At(queue, k - 1) && p == At(queue, k)
      modifies this`mMessages, this`queue, msg`next, if prev == null then {} else {prev}
      ensures Valid() && queue == Spliced(old(queue), k, msg)
      ensures Abs() == old(Abs()).(queue := Insert(old(Abs()).queue, k, old(msg.AsEntry())))
    {
      hide Listed, Insert, Entries;
      assert prev != null ==> prev in queue && prev !in pool.chain && prev != delivering;
      ghost var before := queue;
      Splice(prev, msg, p, k);
      queue := Spliced(queue, k, msg);
      assert forall i :: 0 <= i < |queue| ==>
          queue[i] == if i < k then before[i] else if i == k then msg else before[i - 1];
    }

    method Splice(prev: Message?, msg: Message, p: Message?, ghost k: nat)
      requires Listed(mMessages, queue) && msg !in queue && msg.inUse
      requires k <= |queue| && prev == At(queue, k - 1) && p == At(queue, k)
      modifies this`mMessages, msg`next, if prev == null then {} else {prev}
      ensures Listed(mMessages, Spliced(queue, k, msg))
      ensures Entries(Spliced(queue, k, msg)) == Insert(old(Entries(queue)), k, old(msg.AsEntry()))
      ensures prev != null ==> prev.AsEntry() == old(prev.AsEntry()) && prev.inUse == old(prev.inUse)
    {
      ghost var q := Entries(queue);
      forall i | 0 <= i < |queue|
        ensures LinkAt(queue, i) && queue[i] != msg && (i != k - 1 ==> queue[i] != prev)
      {
        assert queue[i] in queue;
      }
      msg.next := p;
      if prev != null {
        prev.next := msg;
      } else {
        mMessages := msg;
      }
      assert Entries(queue) == q;
      ListInsert(queue, k, msg);
      EntriesInsert(queue, k, msg);
    }

    /** The loop of enqueueMessage over the entries that are not later than the message. */
    method SkipEarlier(msg: Message, when: int, head: Message)
        returns (prev: Message, p: Message?, needWake: bool, ghost k: nat)
      requires Listed(mMessages, queue) && head == mMessages && when != 0 && head.when <= when
      ensures k <= |queue| && prev == At(queue, k - 1) && p == At(queue, k)
      ensures k == Position(Abs().queue, when) > 0
      ensures needWake == NeedWake(Abs(), k, msg.asynchronous)
    {
      hide NeedWake, Position, Entries;
      needWake := mBlocked && head.target == null && msg.asynchronous;
      prev, p, k := head, head, 0;
      while true
        invariant k < |queue| && p == queue[k]
        invariant forall i :: 0 <= i <= k ==> queue[i].when <= when
        invariant needWake <==> mBlocked && queue[0].target == null && msg.asynchronous
                                && forall j :: 1 <= j <= k ==> !queue[j].asynchronous
        decreases |queue| - k
      {
        assert LinkAt(queue, k);
        prev := p;
        p := p.next;
        k := k + 1;
        if p == null || when < p.when { break; }
        if needWake && p.asynchronous { needWake := false; }
      }
      SkipEnds(when, msg.asynchronous, k);
    }

    lemma SkipEnds(when: int, asynchronous: bool, k: nat)
      requires 0 < k <= |queue| && when != 0 && (k < |queue| ==> when < queue[k].when)
      requires forall i :: 0 <= i < k ==> queue[i].when <= when
      ensures k == Position(Abs().queue, when)
      ensures NeedWake(Abs(), k, asynchronous) <==>
              mBlocked && queue[0].target == null && asynchronous && forall j :: 1 <= j < k ==> !queue[j].asynchronous
    {
      var q := Entries(queue);
      FirstLaterIs(q, when, k);
      assert forall j :: 0 <= j < |q| ==> q[j].asynchronous == queue[j].asynchronous;
      assert q[0].barrier == (queue[0].target == null);
    }

    method EnqueueMessage(msg: Message, when: int) returns (r: Outcome)
      requires Valid()
      modifies this, pool, msg, queue
      ensures Valid()
      ensures r.NoTarget? <==> old(msg.target) == null
      ensures r.AlreadyInUse? <==> old(msg.target != null && msg.inUse)
      ensures r.Quitting? <==> old(msg.target != null && !msg.inUse && mQuitting)
      ensures r.Queued? || r.Quitting? ==> Abs() == Do(old(Abs()), Enqueue(when, old(msg.asynchronous)))
      ensures r.Queued? ==> msg in queue && pool.chain == old(pool.chain)
      ensures r.Quitting? ==> msg !in queue && msg.inUse
      ensures r.NoTarget? || r.AlreadyInUse? ==> Abs() == old(Abs())
    {
      if msg.target == null { return NoTarget; }
      if msg.inUse { return AlreadyInUse; }
      if mQuitting {
        RecycleRefused(msg);
        return Quitting;
      }
      Admit(msg, when);
      return Queued;
    }

    /** Where enqueueMessage puts the message, and whether it wakes the looper. */
    method FindPlace(msg: Message, when: int) returns (prev: Message?, p: Message?, needWake: bool, ghost k: nat)
      requires Valid()
      ensures k <= |queue| && prev == At(queue, k - 1) && p == At(queue, k)
      ensures k == Position(Abs().queue, when)
      ensures needWake == NeedWake(Abs(), k, msg.asynchronous)
    {
      prev, p, k := null, mMessages, 0;
      if p == null || when == 0 || when < p.when {
        needWake := mBlocked;
      } else {
        prev, p, needWake, k := SkipEarlier(msg, when, p);
      }
    }

    /** The part of enqueueMessage that follows the checks. */
    method Admit(msg: Message, when: int)
      requires Valid() && msg.target != null && !msg.inUse && !mQuitting
      modifies this, msg, queue
      ensures Valid() && Abs() == Do(old(Abs()), Enqueue(when, old(msg.asynchronous))) && msg in queue
    {
      ghost var before := Abs();
      assert !before.quitting && before.serial == serial;
      hide Valid, Abs, Do, Insert, NeedWake, Position;
      var prev, p, needWake, k := FindPlace(msg, when);
      Stamp(msg, when);
      assert prev != null ==> prev in queue;
      LinkIn(prev, msg, p, k);
      if needWake { Wake(); }
      EnqueueState(before, Abs(), when, msg.asynchronous, k);
    }

    /** Marks a message for the queue. */
    method Stamp(msg: Message, when: int)
      requires Valid() && !msg.inUse
      modifies msg, this`serial
      ensures Valid() && Abs() == old(Abs()).(serial := old(serial) + 1)
      ensures msg.inUse && msg.when == when && msg.serial == old(serial)
      ensures msg.target == old(msg.target) && msg.asynchronous == old(msg.asynchronous) && msg.arg1 == old(msg.arg1)
      ensures msg !in queue && msg !in pool.chain && msg != delivering
    {
      ListedInUse(mMessages, queue, msg);
      ListedInUse(pool.sPool, pool.chain, msg);
      ghost var q := Entries(queue);
      msg.inUse := true;
      msg.when := when;
      msg.serial := serial;
      serial := serial + 1;
      assert Entries(queue) == q;
    }

    /** nativeWake: the present or the next nativePollOnce returns at once. */
    method Wake()
      requires Valid()
      modifies this`woken
      ensures Valid() && Abs() == old(Abs()).(wake := true)
    {
      woken := true;
    }

    /** A message for a queue that is quitting goes to the pool. */
    method RecycleRefused(msg: Message)
      requires Valid() && !msg.inUse
      modifies pool, msg
      ensures Valid() && Abs() == old(Abs()) && msg !in queue && msg.inUse
    {
      ListedInUse(mMessages, queue, msg);
      ghost var before := Entries(queue);
      var thrown := pool.Recycle(msg);
      assert Entries(queue) == before;
      assert msg in pool.chain || pool.chain == old(pool.chain);
    }

    /** postSyncBarrier at uptime `when`. */
    method PostSyncBarrier(when: int) returns (token: int)
      requires Valid()
      modifies this, pool, pool.chain, queue
      ensures Valid() && Abs() == Do(old(Abs()), Act.PostSyncBarrier(when)) && token == old(mNextBarrierToken)
    {
      ghost var before := Abs();
      var msg := NewBarrier(when);
      var prev, p, k := FindLater(when);
      assert prev != null ==> prev in queue;
      token := msg.arg1;
      hide Valid, Abs, Do, Insert, Position;
      LinkIn(prev, msg, p, k);
      PostState(before, Abs(), when, k);
    }

    /** A message from the pool, marked as a barrier with the next token. */
    method NewBarrier(when: int) returns (msg: Message)
      requires Valid()
      modifies this`mNextBarrierToken, this`serial, pool, pool.chain
      ensures Valid() && queue == old(queue)
      ensures Abs() == old(Abs()).(serial := old(serial) + 1, nextToken := Increment(old(mNextBarrierToken)))
      ensures msg.inUse && msg !in queue && msg !in pool.chain && msg != delivering
      ensures fresh(msg) || msg in old(pool.chain)
      ensures msg.AsEntry() == Entry(old(serial), when, false, true, old(mNextBarrierToken))
      ensures msg.arg1 == old(mNextBarrierToken)
    {
      var token := mNextBarrierToken;
      msg := ObtainFree();
      Stamp(msg, when);
      SetToken(msg, token);
    }

    method ObtainFree() returns (msg: Message)
      requires Valid()
      modifies pool, pool.chain
      ensures Valid() && queue == old(queue) && Abs() == old(Abs())
      ensures !msg.inUse && msg.Blank() && (fresh(msg) || msg in old(pool.chain))
    {
      ghost var q := Entries(queue);
      msg := pool.Obtain();
      assert Entries(queue) == q;
    }

    method SetToken(msg: Message, token: int)
      requires Valid() && msg !in queue && msg !in pool.chain && msg != delivering
      modifies msg`arg1, this`mNextBarrierToken
      ensures Valid() && Abs() == old(Abs()).(nextToken := Increment(old(mNextBarrierToken)))
      ensures msg.arg1 == token
    {
      ghost var q := Entries(queue);
      msg.arg1 := token;
      mNextBarrierToken := Increment(mNextBarrierToken);
      assert Entries(queue) == q;
    }

    /** The loop of postSyncBarrier. */
    method FindLater(when: int) returns (prev: Message?, p: Message?, ghost k: nat)
      requires Valid()
      ensures k <= |queue| && prev == At(queue, k - 1) && p == At(queue, k)
      ensures k == Position(Abs().queue, when)
    {
      prev, p, k := null, mMessages, 0;
      if when != 0 {
        while p != null && p.when <= when
          invariant k <= |queue| && prev == At(queue, k - 1) && p == At(queue, k)
          invariant forall i :: 0 <= i < k ==> queue[i].when <= when
          decreases |queue| - k
        {
          assert LinkAt(queue, k);
          prev := p;
          p := p.next;
          k := k + 1;
        }
        FirstLaterIs(Entries(queue), when, k);
      }
    }

    /** Takes `m`, which follows `prev`, out of the queue. */
    method Unlink(prev: Message?, m: Message, ghost k: nat)
      requires Valid() && k < |queue| && m == queue[k] && prev == At(queue, k - 1)
      modifies this`mMessages, this`queue, if prev == null then {} else {prev}
      ensures Valid() && queue == Without(old(queue), k) && mMessages == At(queue, 0)
      ensures Abs() == old(Abs()).(queue := Remove(old(Abs()).queue, k))
      ensures m !in queue && m !in pool.chain && m != delivering && m.inUse
    {
      assert m in queue && LinkAt(queue, k);
      assert prev != null ==> prev in queue && prev !in pool.chain && prev != delivering;
      ghost var before := queue;
      Bypass(prev, m, k);
      hide Listed, Remove, Entries;
      queue := Without(queue, k);
      assert forall i :: 0 <= i < |queue| ==> queue[i] == before[if i < k then i else i + 1];
    }

    method Bypass(prev: Message?, m: Message, ghost k: nat)
      requires Listed(mMessages, queue) && k < |queue| && m == queue[k] && prev == At(queue, k - 1)
      modifies this`mMessages, if prev == null then {} else {prev}
      ensures Listed(mMessages, Without(queue, k)) && mMessages == At(Without(queue, k), 0)
      ensures Entries(Without(queue, k)) == Remove(old(Entries(queue)), k)
      ensures prev != null ==> prev.AsEntry() == old(prev.AsEntry()) && prev.inUse == old(prev.inUse)
    {
      ghost var q := Entries(queue);
      assert LinkAt(queue, k);
      forall i | 0 <= i < |queue|
        ensures LinkAt(queue, i) && (i != k - 1 ==> queue[i] != prev)
      {
      }
      if prev != null {
        prev.next := m.next;
      } else {
        mMessages := m.next;
      }
      assert Entries(queue) == q;
      ListRemove(queue, k);
      EntriesRemove(queue, k);
    }

    /** Throws if the token has not been posted or its barrier has been removed. */
    method RemoveSyncBarrier(token: int) returns (thrown: bool)
      requires Valid()
      modifies this, pool, queue
      ensures Valid() && Abs() == Do(old(Abs()), Act.RemoveSyncBarrier(token))
      ensures thrown <==> FindBarrier(old(Abs()).queue, token).None?
    {
      ghost var before := Abs();
      var prev, p, k := FindToken(token);
      if p == null { return true; }
      hide Valid, Abs, Do, Remove, FindBarrier;
      Unlink(prev, p, k);
      var needWake := prev == null && (mMessages == null || mMessages.target != null);
      assert needWake <==> prev == null && (Abs().queue == [] || !Abs().queue[0].barrier) by { HeadEntry(); }
      Reuse(p);
      if needWake && !mQuitting { Wake(); }
      return false;
    }

    lemma HeadEntry()
      requires Valid()
      ensures Abs().queue == [] <==> mMessages == null
      ensures mMessages != null ==> Abs().queue[0] == mMessages.AsEntry()
      ensures Abs().quitting == mQuitting
    {
    }

    /** The loop of removeSyncBarrier. */
    method FindToken(token: int) returns (prev: Message?, p: Message?, ghost k: nat)
      requires Valid()
      ensures k <= |queue| && prev == At(queue, k - 1) && p == At(queue, k)
      ensures FindBarrier(Abs().queue, token) == if k < |queue| then Some(k) else None
    {
      prev, p, k := null, mMessages, 0;
      while p != null && (p.target != null || p.arg1 != token)
        invariant k <= |queue| && prev == At(queue, k - 1) && p == At(queue, k)
        invariant forall i :: 0 <= i < k ==> queue[i].target != null || queue[i].arg1 != token
        decreases |queue| - k
      {
        assert LinkAt(queue, k);
        prev := p;
        p := p.next;
        k := k + 1;
      }
      ghost var q, r := Entries(queue), FindBarrier(Entries(queue), token);
      assert forall i :: 0 <= i < |q| ==> q[i] == queue[i].AsEntry();
      if r.Some? { assert r.value >= k; }
    }

    /** A message that has left the queue goes to the pool. */
    method Reuse(m: Message)
      requires Valid() && m !in queue && m !in pool.chain && m != delivering
      modifies pool, m
      ensures Valid() && Abs() == old(Abs())
    {
      ghost var q := Entries(queue);
      pool.RecycleUnchecked(m);
      assert Entries(queue) == q;
    }

    /** The queue and wake part of quit: throws on the main thread. */
    method Quit() returns (thrown: bool)
      requires Valid()
      modifies this`mQuitting, this`woken
      ensures Valid() && thrown == !mQuitAllowed
      ensures Abs() == if thrown then old(Abs()) else Do(old(Abs()), Act.Quit)
      ensures !thrown ==> mQuitting && (!old(mQuitting) ==> woken)
      ensures woken == (old(woken) || (!thrown && !old(mQuitting))) && (thrown ==> mQuitting == old(mQuitting))
    {
      if !mQuitAllowed { return true; }
      if mQuitting { return false; }
      mQuitting := true;
      woken := true;
      return false;
    }

    /** The looper enters next(). */
    method CallNext()
      requires Valid() && looper.Dispatching? && delivering == null
      modifies this`looper, this`pendingIdleHandlerCount
      ensures Valid() && Abs() == Do(old(Abs()), Act.CallNext)
    {
      looper := Polling(Zero);
      pendingIdleHandlerCount := -1;
    }

    /** nativePollOnce returns, because of a wake, the time or for no reason. */
    method PollReturns(cleared: bool)
      requires Valid() && looper.Polling?
      modifies this`looper, this`woken
      ensures Valid() && Abs() == Do(old(Abs()), Act.PollReturns(cleared))
    {
      looper := Awake;
      woken := woken && !cleared;
    }

    method IdlersRan()
      requires Valid() && looper.RunningIdlers?
      modifies this`looper, this`pendingIdleHandlerCount
      ensures Valid() && Abs() == Do(old(Abs()), Act.IdlersRan)
    {
      looper := Polling(Zero);
      pendingIdleHandlerCount := 0;
    }

    /** The loop in next() that finds the first message not stalled by a barrier. */
    method FindDeliverable() returns (prev: Message?, msg: Message?, ghost k: nat)
      requires Valid()
      ensures k <= |queue| && prev == At(queue, k - 1) && msg == At(queue, k)
      ensures Deliverable(Abs().queue) == if k < |queue| then Some(k) else None
    {
      ghost var q := Entries(queue);
      assert forall i :: 0 <= i < |q| ==> q[i] == queue[i].AsEntry();
      prev, msg, k := null, mMessages, 0;
      if msg != null && msg.target == null {
        while true
          invariant k < |queue| && msg == queue[k]
          invariant forall i :: 1 <= i <= k ==> !queue[i].asynchronous
          decreases |queue| - k
        {
          assert LinkAt(queue, k);
          prev := msg;
          msg := msg.next;
          k := k + 1;
          if msg == null || msg.asynchronous { break; }
        }
        ghost var r := FirstAsync(q, 1);
        if r.Some? { assert r.value >= k; }
      }
    }

    /** The section of next() that holds the lock, at uptime `now`. */
    method Look(now: int, idleHandlers: nat) returns (msg: Message?)
      requires Valid() && looper.Awake?
      modifies this, queue
      ensures Valid() && Abs() == Do(old(Abs()), Act.Look(now, idleHandlers))
      ensures match Taken(old(Abs()), now)
              case None => msg == null
              case Some(i) =>
                i < |old(queue)| && msg == old(queue[i]) == delivering && msg !in queue && msg.next == null
    {
      ghost var before := Abs();
      var prev, m, k := FindDeliverable();
      var timeout := Forever;
      if m != null {
        assert before.queue[k].when == m.when;
        if now < m.when {
          timeout := Until(now + Min(m.when - now, MAX_VALUE));
        } else {
          hide Valid, Abs, Deliverable, Remove;
          mBlocked := false;
          Deliver(prev, m, k);
          return m;
        }
      }
      assert Taken(before, now).None? && timeout == NextTimeout(before, now);
      WaitForMore(now, timeout, idleHandlers);
      return null;
    }

    /** The rest of that section when there is nothing to return yet. */
    method WaitForMore(now: int, timeout: Timeout, idleHandlers: nat)
      requires Valid() && looper.Awake?
      requires Taken(Abs(), now).None? && timeout == NextTimeout(Abs(), now)
      modifies this`mBlocked, this`looper, this`pendingIdleHandlerCount
      ensures Valid() && Abs() == Do(old(Abs()), Act.Look(now, idleHandlers))
    {
      HeadEntry();
      hide Listed, Deliverable, Taken, NextTimeout;
      if mQuitting {
        looper := Finished;
        return;
      }
      if pendingIdleHandlerCount < 0 && (mMessages == null || now < mMessages.when) {
        pendingIdleHandlerCount := idleHandlers;
      }
      if pendingIdleHandlerCount <= 0 {
        mBlocked := true;
        looper := Polling(timeout);
      } else {
        looper := RunningIdlers;
      }
    }

    /** Takes the message out and hands it to the loop. */
    method Deliver(prev: Message?, m: Message, ghost k: nat)
      requires Valid() && looper.Awake? && k < |queue| && m == queue[k] && prev == At(queue, k - 1)
      modifies this`mMessages, this`queue, this`looper, this`delivering, m, if prev == null then {} else {prev}
      ensures Valid() && delivering == m && m !in queue && m.next == null && m.inUse
      ensures Abs() == old(Abs()).(queue := Remove(old(Abs()).queue, k), looper := Dispatching)
    {
      Unlink(prev, m, k);
      ghost var q := Entries(queue);
      m.next := null;
      m.inUse := true;
      looper := Dispatching;
      delivering := m;
      assert Entries(queue) == q;
    }

    /** The end of a round of Looper.loop(): the message has been dispatched. */
    method RecycleDelivered(msg: Message)
      requires Valid() && msg == delivering
      modifies this`delivering, pool, msg
      ensures Valid() && Abs() == old(Abs()) && delivering == null
    {
      delivering := null;
      Reuse(msg);
    }
  }
}
