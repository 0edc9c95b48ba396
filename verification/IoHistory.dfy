/** The history of writes that fio keeps for verification: log_io_piece and prune_io_piece_log of
    fio/log.c and get_next_verify of fio/verify.c. */
module IoHistory {
  import opened Sequences
  import opened FioLists

  datatype Piece = Piece(offset: nat, len: nat)

  // ---- The history as a sequence

  /** Where a sorted piece goes: behind the last one with a smaller offset. */
  function Place(ps: seq<Piece>, offset: nat): (k: nat)
    ensures k <= |ps| && (k > 0 ==> ps[k - 1].offset < offset)
    ensures forall i :: k <= i < |ps| ==> offset <= ps[i].offset
    decreases |ps|
  {
    if ps == [] || ps[|ps| - 1].offset < offset then |ps| else Place(ps[..|ps| - 1], offset)
  }

  function Logged(ps: seq<Piece>, p: Piece, sort: bool): seq<Piece> {
    var k := if sort then Place(ps, p.offset) else |ps|;
    ps[..k] + [p] + ps[k..]
  }

  /** `qs` is `ps` with `p` in front of the pieces behind it that are not at a smaller offset. */
  ghost predicate SortedIn(ps: seq<Piece>, p: Piece, qs: seq<Piece>) {
    exists k :: 0 <= k <= |ps| && qs == ps[..k] + [p] + ps[k..] && (k > 0 ==> ps[k - 1].offset < p.offset)
                && forall i :: k <= i < |ps| ==> p.offset <= ps[i].offset
  }

  lemma LoggedIs(ps: seq<Piece>, p: Piece)
    ensures Logged(ps, p, false) == ps + [p] && SortedIn(ps, p, Logged(ps, p, true))
  {
  }

  datatype Op = Log(p: Piece) | Prune | NextVerify

  function Do(ps: seq<Piece>, op: Op, sort: bool): seq<Piece> {
    match op
    case Log(p) => Logged(ps, p, sort)
    case Prune => []
    case NextVerify => if ps == [] then [] else ps[1..]
  }

  function Out(ps: seq<Piece>, op: Op): seq<Piece> {
    if op == NextVerify && ps != [] then [ps[0]] else []
  }

  function In(op: Op): seq<Piece> {
    if op.Log? then [op.p] else []
  }

  /** What get_next_verify returns in a run. */
  function Returned(ps: seq<Piece>, ops: seq<Op>, sort: bool): seq<Piece>
    decreases |ops|
  {
    if ops == [] then [] else Out(ps, ops[0]) + Returned(Do(ps, ops[0], sort), ops[1..], sort)
  }

  function Run(ps: seq<Piece>, ops: seq<Op>, sort: bool): seq<Piece>
    decreases |ops|
  {
    if ops == [] then ps else Run(Do(ps, ops[0], sort), ops[1..], sort)
  }

  function LoggedIn(ops: seq<Op>): seq<Piece> {
    if ops == [] then [] else In(ops[0]) + LoggedIn(ops[1..])
  }

  ghost predicate Sorted(ps: seq<Piece>) {
    forall i, j :: 0 <= i < j < |ps| ==> ps[i].offset <= ps[j].offset
  }

  lemma LoggedSorted(ps: seq<Piece>, p: Piece)
    requires Sorted(ps)
    ensures Sorted(Logged(ps, p, true))
  {
    var k, r := Place(ps, p.offset), Logged(ps, p, true);
    assert forall i :: 0 <= i < |r| ==> r[i] == if i < k then ps[i] else if i == k then p else ps[i - 1];
    assert forall i :: 0 <= i < k ==> ps[i].offset <= ps[k - 1].offset;
  }

  /** A random overwrite job keeps its history sorted by offset. */
  lemma {:induction false} StaysSorted(ps: seq<Piece>, ops: seq<Op>)
    requires Sorted(ps)
    ensures Sorted(Run(ps, ops, true))
    decreases |ops|
  {
    hide Logged;
    if ops != [] {
      if ops[0].Log? { LoggedSorted(ps, ops[0].p); }
      StaysSorted(Do(ps, ops[0], true), ops[1..]);
    }
  }

  lemma LoggedOnce(ps: seq<Piece>, p: Piece, sort: bool)
    ensures multiset(Logged(ps, p, sort)) == multiset(ps) + multiset{p}
  {
    var k := if sort then Place(ps, p.offset) else |ps|;
    assert ps == ps[..k] + ps[k..];
  }

  lemma OnceInAStep(ps: seq<Piece>, op: Op, sort: bool)
    requires op != Prune
    ensures multiset(ps) + multiset(In(op)) == multiset(Out(ps, op)) + multiset(Do(ps, op, sort))
  {
    match op
    case Log(p) => LoggedOnce(ps, p, sort);
    case NextVerify => if ps != [] { assert ps == [ps[0]] + ps[1..]; }
  }

  lemma Exchange<T>(
      a: multiset<T>, b: multiset<T>, c: multiset<T>, d: multiset<T>, e: multiset<T>, f: multiset<T>, g: multiset<T>)
    requires a + b == c + d && d + e == f + g
    ensures a + (b + e) == (c + f) + g
  {
    assert a + (b + e) == (a + b) + e == c + (d + e);
  }

  /** Between two prunes every piece logged is returned once or still there, and nothing else is. */
  lemma {:induction false} EachPieceOnce(ps: seq<Piece>, ops: seq<Op>, sort: bool)
    requires Prune !in ops
    ensures multiset(ps) + multiset(LoggedIn(ops)) == multiset(Returned(ps, ops, sort)) + multiset(Run(ps, ops, sort))
    decreases |ops|
  {
    hide Do, In, Out;
    if ops != [] {
      var op, next, rest := ops[0], Do(ps, ops[0], sort), ops[1..];
      OnceInAStep(ps, op, sort);
      EachPieceOnce(next, rest, sort);
      Exchange(multiset(ps), multiset(In(op)), multiset(Out(ps, op)), multiset(next), multiset(LoggedIn(rest)),
               multiset(Returned(next, rest, sort)), multiset(Run(next, rest, sort)));
    }
  }

  function Logs(qs: seq<Piece>): seq<Op> {
    if qs == [] then [] else [Log(qs[0])] + Logs(qs[1..])
  }

  function Nexts(n: nat): seq<Op> {
    if n == 0 then [] else [NextVerify] + Nexts(n - 1)
  }

  /** Draining returns the history from its first piece on. */
  lemma {:induction false} Drained(ps: seq<Piece>, n: nat, sort: bool)
    requires n <= |ps|
    ensures Returned(ps, Nexts(n), sort) == ps[..n] && Run(ps, Nexts(n), sort) == ps[n..]
    decreases n
  {
    if n > 0 {
      assert Nexts(n)[1..] == Nexts(n - 1);
      Drained(ps[1..], n - 1, sort);
    }
  }

  lemma LoggedLast(ps: seq<Piece>, p: Piece)
    ensures Do(ps, Log(p), false) == ps + [p]
  {
  }

  /** Without sorting the history is in the order of completion. */
  lemma {:induction false} InCompletionOrder(ps: seq<Piece>, qs: seq<Piece>)
    ensures Run(ps, Logs(qs), false) == ps + qs
    decreases |qs|
  {
    hide Do;
    if qs == [] {
      assert ps + qs == ps;
    } else {
      var ops := Logs(qs);
      assert ops[0] == Log(qs[0]) && ops[1..] == Logs(qs[1..]);
      LoggedLast(ps, qs[0]);
      InCompletionOrder(ps + [qs[0]], qs[1..]);
      assert ps + [qs[0]] + qs[1..] == ps + qs;
    }
  }

  lemma {:induction false} RunAppend(ps: seq<Piece>, a: seq<Op>, b: seq<Op>, sort: bool)
    ensures Run(ps, a + b, sort) == Run(Run(ps, a, sort), b, sort)
    ensures Returned(ps, a + b, sort) == Returned(ps, a, sort) + Returned(Run(ps, a, sort), b, sort)
    decreases |a|
  {
    hide Do;
    if a == [] {
      assert a + b == b;
    } else {
      assert (a + b)[1..] == a[1..] + b;
      RunAppend(Do(ps, a[0], sort), a[1..], b, sort);
    }
  }

  lemma {:induction false} LogsLogged(qs: seq<Piece>, sort: bool, ps: seq<Piece>)
    ensures LoggedIn(Logs(qs)) == qs && Returned(ps, Logs(qs), sort) == []
    ensures forall i :: 0 <= i < |Logs(qs)| ==> Logs(qs)[i] != Prune
    decreases |qs|
  {
    hide Do;
    if qs != [] {
      var ops := Logs(qs);
      assert ops[0] == Log(qs[0]) && ops[1..] == Logs(qs[1..]);
      LogsLogged(qs[1..], sort, Do(ps, ops[0], sort));
      assert [qs[0]] + qs[1..] == qs;
    }
  }

  lemma Cancel<T>(a: multiset<T>, b: multiset<T>, c: multiset<T>)
    requires a + b == a + c
    ensures b == c
  {
    assert b == (a + b) - a && c == (a + c) - a;
  }

  /** Verification reads back exactly the writes logged since the prune, once each: in order of
      offset for a random overwrite job, in order of completion otherwise. */
  lemma VerifyReadsBack(qs: seq<Piece>, sort: bool)
    ensures var r := Returned([], Logs(qs) + Nexts(|qs|), sort);
      && multiset(r) == multiset(qs)
      && (sort ==> Sorted(r)) && (!sort ==> r == qs)
      && Run([], Logs(qs) + Nexts(|qs|), sort) == []
  {
    hide Run, Returned, Logs, Nexts, LoggedIn;
    var none: seq<Piece> := [];
    var h := Run(none, Logs(qs), sort);
    LogsLogged(qs, sort, none);
    EachPieceOnce(none, Logs(qs), sort);
    Cancel(multiset(none), multiset(qs), multiset(h));
    assert |h| == |multiset(h)| && |multiset(qs)| == |qs|;
    RunAppend(none, Logs(qs), Nexts(|qs|), sort);
    Drained(h, |qs|, sort);
    assert h[..|qs|] == h && none + h == h;
    if sort { StaysSorted(none, Logs(qs)); } else { InCompletionOrder(none, qs); }
  }

  // ---- The list

  class History {
    const head: ListHead // io_hist_list
    const sequential: bool
    const overwrite: bool
    ghost var ring: seq<ListHead>

    ghost predicate Valid()
      reads this, ring
    {
      Ring(ring) && ring[0] == head
    }

    ghost function Pieces(): (ps: seq<Piece>)
      requires ring != []
      reads this, ring
      ensures |ps| == |ring| - 1
    {
      PiecesOf(ring)
    }

    predicate Sorting() { !(sequential || !overwrite) }

    constructor (sequential: bool, overwrite: bool)
      ensures Valid() && Pieces() == [] && fresh(ring)
      ensures this.sequential == sequential && this.overwrite == overwrite
    {
      this.sequential, this.overwrite := sequential, overwrite;
      head := new ListHead(0, 0);
      new;
      ring := [head];
    }

    method LogIoPiece(offset: nat, len: nat)
      requires Valid()
      modifies this, ring
      ensures Valid() && forall n :: n in ring ==> n in old(ring) || fresh(n)
      ensures Pieces() == Do(old(Pieces()), Log(Piece(offset, len)), Sorting())
      ensures sequential || !overwrite ==> Pieces() == old(Pieces()) + [Piece(offset, len)]
      ensures !sequential && overwrite ==> SortedIn(old(Pieces()), Piece(offset, len), Pieces())
    {
      hide Place, SortedIn;
      var ipo := new ListHead(offset, len);
      var entry := head.prev;
      ghost var k := |ring| - 1;
      assert LinkAt(ring, k);
      if !(sequential || !overwrite) {
        entry, k := FindEntry(offset);
      }
      ghost var ps := Pieces();
      Insert(ipo, entry, k);
      LoggedIs(ps, Piece(offset, len));
    }

    /** From the tail, the first entry with a smaller offset, or the head. */
    method FindEntry(offset: nat) returns (entry: ListHead, ghost k: nat)
      requires Valid()
      ensures k < |ring| && entry == ring[k] && k == Place(Pieces(), offset)
    {
      ghost var ps := Pieces();
      k := |ring| - 1;
      assert LinkAt(ring, k) && ps[..k] == ps;
      entry := head.prev;
      while entry != head && !(entry.offset < offset)
        invariant k < |ring| && entry == ring[k]
        invariant Place(ps, offset) == Place(ps[..k], offset)
        decreases k
      {
        assert LinkAt(ring, k - 1) && ps[k - 1].offset == entry.offset;
        assert ps[..k][..k - 1] == ps[..k - 1];
        entry := entry.prev;
        k := k - 1;
      }
      if k > 0 { assert ps[k - 1].offset == entry.offset; }
    }

    /** list_add behind `entry`; behind the last entry it is list_add_tail. */
    method Insert(ipo: ListHead, entry: ListHead, ghost k: nat)
      requires Valid() && k < |ring| && entry == ring[k] && ipo !in ring
      modifies this`ring, ipo, ring
      ensures Valid() && ring == Inserted(old(ring), k, ipo)
      ensures var ps := old(Pieces()); Pieces() == ps[..k] + [Piece(old(ipo.offset), old(ipo.len))] + ps[k..]
    {
      assert LinkAt(ring, k);
      ListInsert(ipo, entry, entry.next, ring, k);
      PiecesInsert(ring, k, ipo);
      ring := Inserted(ring, k, ipo);
    }

    method PruneIoPieceLog()
      requires Valid()
      modifies this, ring
      ensures Valid() && Pieces() == [] && Pieces() == Do(old(Pieces()), Prune, Sorting())
    {
      var empty := ListEmpty(head, ring);
      while !empty
        invariant Valid() && (empty <==> |ring| == 1)
        invariant forall i :: 0 <= i < |ring| ==> ring[i] in old(ring)
        decreases |ring|
      {
        assert LinkAt(ring, 0);
        var ipo := head.next;
        ListDel(ipo, ring, 1);
        ring := Deleted(ring, 1);
        empty := ListEmpty(head, ring);
      }
    }

    /** 0 and the piece, or 1 if there is none. */
    method GetNextVerify() returns (ret: int, offset: nat, len: nat)
      requires Valid()
      modifies this, ring
      ensures Valid() && Pieces() == Do(old(Pieces()), NextVerify, Sorting())
      ensures ret == 0 <==> old(Pieces()) != []
      ensures ret == 0 ==> Out(old(Pieces()), NextVerify) == [Piece(offset, len)]
      ensures ret == 0 ==> old(Pieces()) == [Piece(offset, len)] + Pieces()
      ensures ret != 0 ==> ret == 1 && Pieces() == []
    {
      var empty := ListEmpty(head, ring);
      if empty { return 1, 0, 0; }
      assert LinkAt(ring, 0);
      var ipo := head.next;
      offset, len := ipo.offset, ipo.len;
      ListDel(ipo, ring, 1);
      PiecesDeleteFirst(ring);
      ring := Deleted(ring, 1);
      ret := 0;
    }
  }

  /** The pieces of a ring, its head left out. */
  ghost function PiecesOf(ring: seq<ListHead>): (ps: seq<Piece>)
    requires ring != []
    reads ring
    ensures |ps| == |ring| - 1
  {
    seq(|ring| - 1, i requires 0 <= i < |ring| - 1 reads ring => Piece(ring[i + 1].offset, ring[i + 1].len))
  }

  lemma PiecesInsert(ring: seq<ListHead>, k: nat, n: ListHead)
    requires k < |ring|
    ensures var ps := PiecesOf(ring); PiecesOf(Inserted(ring, k, n)) == ps[..k] + [Piece(n.offset, n.len)] + ps[k..]
    ensures k == |ring| - 1 ==> Inserted(ring, k, n) == ring + [n]
  {
  }

  lemma PiecesDeleteFirst(ring: seq<ListHead>)
    requires |ring| > 1
    ensures PiecesOf(Deleted(ring, 1)) == PiecesOf(ring)[1..]
  {
  }
}
