/** The io units of a job of fio (io_u.c) and the history of its writes (log.c, verify.c). */
module IoUnits {
  import opened Sequences
  import opened FioLists

  ghost function SetOf(s: seq<ListHead>): set<ListHead> { set u | u in s }

  lemma MoveKeeps(c: seq<ListHead>, k: nat, d: seq<ListHead>)
    requires 0 < k < |c| && d != []
    ensures SetOf(Deleted(c, k)) + SetOf([d[0], c[k]] + d[1..]) == SetOf(c) + SetOf(d)
  {
    assert c == c[..k] + [c[k]] + c[k + 1..] && d == [d[0]] + d[1..];
  }

  lemma DeletedParts(c: seq<ListHead>, k: nat)
    requires 0 < k < |c|
    ensures var r := Deleted(c, k);
      && |r| == |c| - 1 && r[0] == c[0] && r[1..] == Deleted(c[1..], k - 1)
      && forall j :: 0 <= j < |r| ==> r[j] == c[if j < k then j else j + 1]
  {
  }

  /** The part of struct thread_data that keeps the units.  The ghost rings are the two lists with
      their heads. */
  class ThreadData {
    const freelist: ListHead
    const busylist: ListHead
    var curDepth: int
    ghost var freeRing: seq<ListHead>
    ghost var busyRing: seq<ListHead>

    /** Both lists are rings, they share no unit, and cur_depth is the length of the busy one. */
    ghost predicate Valid()
      reads this, freeRing, busyRing
    {
      && Ring(freeRing) && freeRing[0] == freelist
      && Ring(busyRing) && busyRing[0] == busylist
      && (forall i, j :: 0 <= i < |freeRing| && 0 <= j < |busyRing| ==> freeRing[i] != busyRing[j])
      && curDepth == |busyRing| - 1
    }

    /** All units and the two heads: these never change. */
    ghost function Nodes(): set<ListHead>
      reads this
    {
      SetOf(freeRing) + SetOf(busyRing)
    }

    lemma NodesHave()
      ensures forall i :: 0 <= i < |freeRing| ==> freeRing[i] in Nodes()
      ensures forall i :: 0 <= i < |busyRing| ==> busyRing[i] in Nodes()
    {
    }

    ghost function Free(): seq<ListHead>
      reads this
    {
      if freeRing == [] then [] else freeRing[1..]
    }

    ghost function Busy(): seq<ListHead>
      reads this
    {
      if busyRing == [] then [] else busyRing[1..]
    }

    constructor ()
      ensures Valid() && Free() == [] && Busy() == []
    {
      freelist := new ListHead(0, 0);
      busylist := new ListHead(0, 0);
      curDepth := 0;
      new;
      freeRing, busyRing := [freelist], [busylist];
    }

    /** init_io_u puts a new unit on the free list. */
    method AddUnit(u: ListHead)
      requires Valid() && u !in Nodes()
      modifies this, Nodes(), u
      ensures Valid() && Free() == [u] + old(Free()) && Busy() == old(Busy()) && Nodes() == old(Nodes()) + {u}
    {
      NodesHave();
      assert forall i :: 0 <= i < |freeRing| ==> freeRing[i] != u;
      assert forall i :: 0 <= i < |busyRing| ==> busyRing[i] != u;
      ListAdd(u, freelist, freeRing);
      assert SetOf([freelist, u] + freeRing[1..]) == SetOf(freeRing) + {u} by {
        assert freeRing == [freelist] + freeRing[1..];
      }
      freeRing := [freelist, u] + freeRing[1..];
    }

    /** init_io_u: one unit for a synchronous engine and as many as the depth otherwise, the last one
        first. */
    method InitIoU(syncio: bool, iodepth: nat)
      requires Valid()
      modifies this, Nodes()
      ensures Valid() && Busy() == old(Busy()) && fresh(Nodes() - old(Nodes()))
      ensures var n := if syncio then 1 else iodepth;
        |Free()| == n + |old(Free())| && Free()[n..] == old(Free()) && forall i :: 0 <= i < n ==> fresh(Free()[i])
    {
      var maxUnits := if syncio then 1 else iodepth;
      for i := 0 to maxUnits
        invariant Valid() && Busy() == old(Busy()) && fresh(Nodes() - old(Nodes()))
        invariant |Free()| == i + |old(Free())| && Free()[i..] == old(Free())
        invariant forall j :: 0 <= j < i ==> fresh(Free()[j])
      {
        var u := new ListHead(0, 0);
        AddUnit(u);
      }
    }

    /** __get_io_u: the first free unit becomes the first busy one; null if there is none. */
    method GetIoU() returns (u: ListHead?)
      requires Valid()
      modifies this, Nodes()
      ensures Valid() && Nodes() == old(Nodes())
      ensures old(Free()) == [] ==> u == null && Free() == [] && Busy() == old(Busy())
      ensures old(Free()) != [] ==>
                u == old(Free())[0] && Free() == old(Free())[1..] && Busy() == [u] + old(Busy()) && u.len == 0
    {
      hide SetOf;
      var full := ListEmpty(freelist, freeRing);
      if full { return null; }
      assert LinkAt(freeRing, 0);
      u := freelist.next;
      NodesHave();
      u.len := 0;
      MoveKeeps(freeRing, 1, busyRing);
      Move(u, busylist, freeRing, 1, busyRing);
      freeRing, busyRing := Deleted(freeRing, 1), [busylist, u] + busyRing[1..];
      curDepth := curDepth + 1;
    }

    /** Takes `u` from its place in the ring `c` and puts it behind the head of the ring `d`. */
    method Move(u: ListHead, head: ListHead, ghost c: seq<ListHead>, ghost k: nat, ghost d: seq<ListHead>)
      requires Ring(c) && Ring(d) && 0 < k < |c| && u == c[k] && head == d[0]
      requires forall i, j :: 0 <= i < |c| && 0 <= j < |d| ==> c[i] != d[j]
      modifies c`next, c`prev, d`next, d`prev
      ensures Ring(Deleted(c, k)) && Ring([head, u] + d[1..])
    {
      ListDel(u, c, k);
      ListAdd(u, head, d);
    }

    /** put_io_u of a busy unit, the one at place `k`. */
    method PutIoU(u: ListHead, ghost k: nat)
      requires Valid() && k < |Busy()| && u == Busy()[k]
      modifies this, Nodes()
      ensures Valid() && Nodes() == old(Nodes()) && curDepth == old(curDepth) - 1
      ensures Busy() == Deleted(old(Busy()), k) && Free() == [u] + old(Free())
    {
      hide SetOf, Deleted;
      MoveKeeps(busyRing, k + 1, freeRing);
      DeletedParts(busyRing, k + 1);
      NodesHave();
      Move(u, freelist, busyRing, k + 1, freeRing);
      freeRing, busyRing := [freelist, u] + freeRing[1..], Deleted(busyRing, k + 1);
      curDepth := curDepth - 1;
    }

    /** The list work of ios_completed: every unit of `events`, all of them busy, is put back. */
    method IosCompleted(events: seq<ListHead>)
      requires Valid() && Distinct(events)
      requires forall i :: 0 <= i < |events| ==> events[i] in Busy()
      modifies this, Nodes()
      ensures Valid() && Nodes() == old(Nodes()) && Free() == Reversed(events) + old(Free())
      ensures Busy() == Without(old(Busy()), events) && curDepth == old(curDepth) - |events|
    {
      hide Valid, Without, Reversed, Deleted, SetOf, Distinct;
      ghost var all, depth := Busy(), curDepth;
      var i := 0;
      Start(events);
      while i < |events|
        invariant 0 <= i <= |events| && Valid() && curDepth == depth - i
        invariant Busy() == Without(all, events[..i])
        invariant Free() == Reversed(events[..i]) + old(Free())
        invariant Nodes() == old(Nodes()) && Distinct(all)
      {
        ghost var k := FindUnit(all, events, i);
        ReversedNext(events, i, old(Free()));
        PutIoU(events[i], k);
        i := i + 1;
      }
      assert events[..i] == events;
    }

    lemma Start(events: seq<ListHead>)
      requires Valid()
      ensures Without(Busy(), events[..0]) == Busy() && Reversed(events[..0]) + Free() == Free()
      ensures Distinct(Busy())
    {
      assert events[..0] == [];
      WithoutNothing(Busy());
    }

    /** A unit that is still to be put back is busy; taking it out leaves the units but for it. */
    lemma FindUnit(all: seq<ListHead>, events: seq<ListHead>, i: nat) returns (k: nat)
      requires i < |events| && Distinct(events) && events[i] in all && Distinct(all)
      ensures var rest := Without(all, events[..i]);
        k < |rest| && rest[k] == events[i] && Deleted(rest, k) == Without(all, events[..i + 1])
    {
      assert events[..i + 1] == events[..i] + [events[i]];
      k := WithoutOne(all, events[..i], events[i]);
    }
  }

  lemma ReversedNext(s: seq<ListHead>, i: nat, t: seq<ListHead>)
    requires i < |s|
    ensures Reversed(s[..i + 1]) + t == [s[i]] + (Reversed(s[..i]) + t)
  {
    assert s[..i + 1] == s[..i] + [s[i]];
  }

  /** The units of `s` that are not among `gone`, in order. */
  function Without(s: seq<ListHead>, gone: seq<ListHead>): seq<ListHead> {
    if s == [] then []
    else if s[0] in gone then Without(s[1..], gone)
    else [s[0]] + Without(s[1..], gone)
  }

  lemma {:induction false} WithoutNothing(s: seq<ListHead>)
    ensures Without(s, []) == s
    decreases |s|
  {
    if s != [] { WithoutNothing(s[1..]); }
  }

  lemma {:induction false} WithoutAbsent(s: seq<ListHead>, gone: seq<ListHead>, x: ListHead)
    requires x !in s
    ensures Without(s, gone + [x]) == Without(s, gone)
    decreases |s|
  {
    if s != [] { WithoutAbsent(s[1..], gone, x); }
  }

  lemma {:induction false} WithoutOne(s: seq<ListHead>, gone: seq<ListHead>, x: ListHead) returns (k: nat)
    requires x in s && x !in gone && Distinct(s)
    ensures var rest := Without(s, gone);
      k < |rest| && rest[k] == x && Deleted(rest, k) == Without(s, gone + [x])
    decreases |s|
  {
    assert Distinct(s[1..]);
    if s[0] == x {
      k := 0;
      assert x !in s[1..];
      WithoutAbsent(s[1..], gone, x);
    } else {
      k := WithoutOne(s[1..], gone, x);
      var rest := Without(s[1..], gone);
      if s[0] !in gone {
        assert Deleted([s[0]] + rest, k + 1) == [s[0]] + Deleted(rest, k);
        k := k + 1;
      }
    }
  }
}
