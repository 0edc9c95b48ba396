/** The message queue of Android/Handler/MessageQueue.java as a state machine on values.  Every
    step is one section that holds the queue's lock, or one move of the looper thread between
    such sections.  `AndroidQueue` implements these steps on linked messages. */
module LooperModel {
  import opened Sequences

  /** A queued message or, with a null target, a barrier, whose token is its arg1.  `serial`
      numbers the insertions. */
  datatype Entry = Entry(serial: nat, when: int, asynchronous: bool, barrier: bool, token: int)

  type Queue = seq<Entry>

  /** The timeout of nativePollOnce; a finite one as the clock reading it was computed from plus
      the timeout. */
  datatype Timeout = Zero | Until(deadline: int) | Forever

  datatype Looper = Polling(timeout: Timeout) | Awake | RunningIdlers | Dispatching | Finished

  /** `wake` is the event nativeWake leaves for nativePollOnce; `idlers` is the local
      pendingIdleHandlerCount. */
  datatype State = State(
    queue: Queue, serial: nat, nextToken: int, blocked: bool, quitting: bool, wake: bool,
    looper: Looper, idlers: int)

  const INIT: State := State([], 0, 0, false, false, false, Dispatching, -1)

  const MAX_VALUE: int := 0x7fff_ffff

  /** int addition of 1 in Java. */
  function Increment(i: int): int {
    if i == MAX_VALUE then -0x8000_0000 else i + 1
  }

  function Min(a: int, b: int): int { if a < b then a else b }

  /** The first place of which the entry is later than `when`. */
  function FirstLater(q: Queue, when: int): (r: nat)
    ensures r <= |q| && (r < |q| ==> when < q[r].when)
    ensures forall i :: 0 <= i < r ==> q[i].when <= when
  {
    if q == [] || when < q[0].when then 0 else 1 + FirstLater(q[1..], when)
  }

  /** Where enqueueMessage and postSyncBarrier insert. */
  function Position(q: Queue, when: int): (r: nat)
    ensures r <= |q|
  {
    if when == 0 then 0 else FirstLater(q, when)
  }

  function Insert(q: Queue, i: nat, e: Entry): Queue
    requires i <= |q|
  {
    q[..i] + [e] + q[i..]
  }

  function Remove(q: Queue, i: nat): Queue
    requires i < |q|
  {
    q[..i] + q[i + 1..]
  }

  /** The first asynchronous entry at place `i` or later. */
  function FirstAsync(q: Queue, i: nat): (r: Option<nat>)
    requires i <= |q|
    ensures r.None? ==> forall j :: i <= j < |q| ==> !q[j].asynchronous
    ensures r.Some? ==> i <= r.value < |q| && q[r.value].asynchronous
    ensures r.Some? ==> forall j :: i <= j < r.value ==> !q[j].asynchronous
    decreases |q| - i
  {
    if i == |q| then None else if q[i].asynchronous then Some(i) else FirstAsync(q, i + 1)
  }

  /** The message next() would return once its time has come: behind a barrier at the head, the
      first asynchronous one. */
  function Deliverable(q: Queue): (r: Option<nat>)
    ensures r.Some? ==> r.value < |q|
  {
    if q == [] then None else if q[0].barrier then FirstAsync(q, 1) else Some(0)
  }

  function FindBarrier(q: Queue, token: int): (r: Option<nat>)
    ensures r.Some? ==> r.value < |q| && q[r.value].barrier && q[r.value].token == token
    ensures r.None? ==> forall i :: 0 <= i < |q| && q[i].barrier ==> q[i].token != token
    ensures r.Some? ==> forall i :: 0 <= i < r.value && q[i].barrier ==> q[i].token != token
  {
    if q == [] then None
    else if q[0].barrier && q[0].token == token then Some(0)
    else
      match FindBarrier(q[1..], token)
      case None => None
      case Some(i) =>
        assert forall j :: 0 < j < |q| ==> q[j] == q[1..][j - 1];
        Some(i + 1)
  }

  /** Does enqueueMessage wake the looper for a message at place `i`? */
  function NeedWake(s: State, i: nat, asynchronous: bool): bool
    requires i <= |s.queue|
  {
    if i == 0 then s.blocked
    else
      && s.blocked && s.queue[0].barrier && asynchronous
      && forall j :: 1 <= j < i ==> !s.queue[j].asynchronous
  }

  datatype Act =
    | Enqueue(when: int, asynchronous: bool)
    | PostSyncBarrier(when: int)
    | RemoveSyncBarrier(token: int)
    | Quit
    | CallNext
    | PollReturns(cleared: bool)
    | Look(now: int, idleHandlers: nat)
    | IdlersRan

  function DoEnqueue(s: State, when: int, asynchronous: bool): State {
    if s.quitting then s
    else
      var i := Position(s.queue, when);
      s.(queue := Insert(s.queue, i, Entry(s.serial, when, asynchronous, false, 0)),
      serial := s.serial + 1, wake := s.wake || NeedWake(s, i, asynchronous))
  }

  function DoPostSyncBarrier(s: State, when: int): State {
    s.(queue := Insert(s.queue, Position(s.queue, when), Entry(s.serial, when, false, true, s.nextToken)),
    serial := s.serial + 1, nextToken := Increment(s.nextToken))
  }

  function DoRemoveSyncBarrier(s: State, token: int): State {
    match FindBarrier(s.queue, token)
    case None => s // IllegalStateException
    case Some(i) =>
      var q := Remove(s.queue, i);
      var needWake := i == 0 && (q == [] || !q[0].barrier);
      s.(queue := q, wake := s.wake || (needWake && !s.quitting))
  }

  /** Which message a look at the queue at time `now` takes out. */
  function Taken(s: State, now: int): (r: Option<nat>)
    ensures r.Some? ==> r.value < |s.queue|
  {
    match Deliverable(s.queue)
    case None => None
    case Some(i) => if now < s.queue[i].when then None else Some(i)
  }

  function NextTimeout(s: State, now: int): Timeout {
    match Deliverable(s.queue)
    case None => Forever
    case Some(i) => Until(now + Min(s.queue[i].when - now, MAX_VALUE))
  }

  /** The section of next() that holds the lock. */
  function DoLook(s: State, now: int, idleHandlers: nat): State {
    match Taken(s, now)
    case Some(i) => s.(blocked := false, queue := Remove(s.queue, i), looper := Dispatching)
    case None =>
      if s.quitting then s.(looper := Finished)
      else
        var count :=
          if s.idlers < 0 && (s.queue == [] || now < s.queue[0].when) then idleHandlers else s.idlers;
        if count <= 0 then s.(blocked := true, looper := Polling(NextTimeout(s, now)), idlers := count)
        else s.(looper := RunningIdlers, idlers := count)
  }

  function Do(s: State, a: Act): State {
    match a
    case Enqueue(when, asynchronous) => DoEnqueue(s, when, asynchronous)
    case PostSyncBarrier(when) => DoPostSyncBarrier(s, when)
    case RemoveSyncBarrier(token) => DoRemoveSyncBarrier(s, token)
    case Quit => if s.quitting then s else s.(quitting := true, wake := true)
    case CallNext => if s.looper.Dispatching? then s.(looper := Polling(Zero), idlers := -1) else s
    case PollReturns(cleared) =>
      if s.looper.Polling? then s.(looper := Awake, wake := s.wake && !cleared) else s
    case Look(now, idleHandlers) => if s.looper.Awake? then DoLook(s, now, idleHandlers) else s
    case IdlersRan => if s.looper.RunningIdlers? then s.(looper := Polling(Zero), idlers := 0) else s
  }

  function Run(s: State, acts: seq<Act>): State
    decreases |acts|
  {
    if acts == [] then s else Run(Do(s, acts[0]), acts[1..])
  }

  /** uptimeMillis is not negative. */
  predicate RealClock(acts: seq<Act>) {
    forall a :: a in acts && a.Look? ==> a.now >= 0
  }
}
