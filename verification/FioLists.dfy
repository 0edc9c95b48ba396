/** The intrusive circular lists of fio/list.h.  A list_head and the struct it is embedded in stand
    here as one object, so that list_entry is the identity. */
module FioLists {
  import opened Sequences

  class ListHead {
    var next: ListHead?
    var prev: ListHead?
    var offset: nat // of an io_piece or io_u
    var len: nat

    /** LIST_HEAD_INIT. */
    constructor (offset: nat, len: nat)
      ensures next == this && prev == this && this.offset == offset && this.len == len
    {
      this.offset, this.len := offset, len;
      next, prev := this, this;
    }
  }

  function After(c: seq<ListHead>, i: nat): ListHead
    requires i < |c|
  {
    if i + 1 < |c| then c[i + 1] else c[0]
  }

  ghost predicate LinkAt(c: seq<ListHead>, i: nat)
    requires i < |c|
    reads {c[i]}`next, {After(c, i)}`prev
  {
    c[i].next == After(c, i) && After(c, i).prev == c[i]
  }

  /** `c` is a ring: the head of a list and its entries in order. */
  ghost predicate Ring(c: seq<ListHead>)
    reads c`next, c`prev
  {
    c != [] && Distinct(c) && forall i :: 0 <= i < |c| ==> LinkAt(c, i)
  }

  function Inserted(c: seq<ListHead>, i: nat, n: ListHead): seq<ListHead>
    requires i < |c|
  {
    c[..i + 1] + [n] + c[i + 1..]
  }

  function Deleted(c: seq<ListHead>, i: nat): seq<ListHead>
    requires i < |c|
  {
    c[..i] + c[i + 1..]
  }

  lemma RingInsert(c: seq<ListHead>, i: nat, n: ListHead)
    requires i < |c| && Distinct(c) && n !in c
    requires forall j :: 0 <= j < |c| && j != i ==> LinkAt(c, j)
    requires c[i].next == n && n.prev == c[i] && n.next == After(c, i) && After(c, i).prev == n
    ensures Ring(Inserted(c, i, n))
  {
    var r := Inserted(c, i, n);
    forall j | 0 <= j < |r|
      ensures LinkAt(r, j)
    {
      if j != i && j != i + 1 { assert LinkAt(c, if j < i then j else j - 1); }
    }
    assert forall j :: 0 <= j < |c| ==> c[j] in c;
  }

  lemma RingDelete(c: seq<ListHead>, i: nat)
    requires 0 < i < |c| && Distinct(c)
    requires forall j :: 0 <= j < |c| && j != i - 1 && j != i ==> LinkAt(c, j)
    requires c[i - 1].next == After(c, i) && After(c, i).prev == c[i - 1]
    ensures Ring(Deleted(c, i))
  {
    var r := Deleted(c, i);
    forall j | 0 <= j < |r|
      ensures LinkAt(r, j)
    {
      if j != i - 1 { assert LinkAt(c, if j < i then j else j + 1); }
    }
  }

  lemma NotDeleted(c: seq<ListHead>, i: nat)
    requires i < |c| && Distinct(c)
    ensures var r := Deleted(c, i); forall j :: 0 <= j < |r| ==> r[j] != c[i]
  {
  }

  /** __list_add between place `i` of the ring and the next one. */
  method ListInsert(n: ListHead, prev: ListHead, next: ListHead, ghost c: seq<ListHead>, ghost i: nat)
    requires Ring(c) && i < |c| && prev == c[i] && next == After(c, i) && n !in c
    modifies n`next, n`prev, prev`next, next`prev
    ensures Ring(Inserted(c, i, n))
  {
    assert forall j :: 0 <= j < |c| ==> LinkAt(c, j) && c[j] in c;
    next.prev := n;
    n.next := next;
    n.prev := prev;
    prev.next := n;
    RingInsert(c, i, n);
  }

  /** list_add: behind the head. */
  method ListAdd(n: ListHead, head: ListHead, ghost c: seq<ListHead>)
    requires Ring(c) && head == c[0] && n !in c
    modifies n`next, n`prev, c`next, c`prev
    ensures Ring([head, n] + c[1..])
  {
    assert LinkAt(c, 0);
    ListInsert(n, head, head.next, c, 0);
    assert Inserted(c, 0, n) == [head, n] + c[1..];
  }

  /** list_add_tail: before the head. */
  method ListAddTail(n: ListHead, head: ListHead, ghost c: seq<ListHead>)
    requires Ring(c) && head == c[0] && n !in c
    modifies n`next, n`prev, c`next, c`prev
    ensures Ring(c + [n])
  {
    assert LinkAt(c, |c| - 1) && c[|c| - 1] in c;
    ListInsert(n, head.prev, head, c, |c| - 1);
    assert Inserted(c, |c| - 1, n) == c + [n];
  }

  /** list_del of the entry at place `i`. */
  method ListDel(entry: ListHead, ghost c: seq<ListHead>, ghost i: nat)
    requires Ring(c) && 0 < i < |c| && entry == c[i]
    modifies c`next, c`prev
    ensures Ring(Deleted(c, i)) && entry.next == null && entry.prev == null
  {
    hide Distinct;
    assert forall j :: 0 <= j < |c| ==> LinkAt(c, j) && c[j] in c;
    assert LinkAt(c, i) && LinkAt(c, i - 1) && After(c, i - 1) == entry;
    Bypass(entry.prev, entry.next, c, i);
    NotDeleted(c, i);
    entry.next := null;
    entry.prev := null;
  }

  /** __list_del. */
  method Bypass(prev: ListHead, next: ListHead, ghost c: seq<ListHead>, ghost i: nat)
    requires Ring(c) && 0 < i < |c| && prev == c[i - 1] && next == After(c, i)
    modifies prev`next, next`prev
    ensures Ring(Deleted(c, i))
  {
    assert forall j :: 0 <= j < |c| ==> LinkAt(c, j);
    next.prev := prev;
    prev.next := next;
    RingDelete(c, i);
  }

  /** list_empty. */
  method ListEmpty(head: ListHead, ghost c: seq<ListHead>) returns (empty: bool)
    requires Ring(c) && head == c[0]
    ensures empty <==> |c| == 1
  {
    assert LinkAt(c, 0);
    empty := head.next == head;
  }
}
