/** md5_update of fio/md5.c: how a stream that arrives in pieces is cut into blocks.  md5_transform
    is any function of the hash and the 64 bytes of the block. */
module Md5 {

  type Hash = seq<bv32>
  type Transform = (Hash, seq<bv8>) -> Hash

  const BLOCK: nat := 64

  /** byte_count is a uint64_t. */
  const WRAP: nat := 0x1_0000_0000_0000_0000

  datatype Ctx = Ctx(hash: Hash, block: seq<bv8>, count: nat)

  /** The place in the block at which the next byte goes. */
  function Place(count: nat): (at: nat)
    ensures at < BLOCK
  {
    count % BLOCK
  }

  /** Addition to byte_count. */
  function Plus(count: nat, n: nat): (r: nat)
    ensures r < WRAP
  {
    (count + n) % WRAP
  }

  predicate Proper(c: Ctx) { |c.block| == BLOCK && c.count < WRAP }

  // ---- A byte at a time

  function Feed1(t: Transform, c: Ctx, b: bv8): (r: Ctx)
    requires Proper(c)
    ensures Proper(r)
  {
    var block := c.block[Place(c.count) := b];
    var count := Plus(c.count, 1);
    Ctx(if Place(count) == 0 then t(c.hash, block) else c.hash, block, count)
  }

  function Feed(t: Transform, c: Ctx, data: seq<bv8>): (r: Ctx)
    requires Proper(c)
    ensures Proper(r)
    decreases |data|
  {
    if data == [] then c else Feed(t, Feed1(t, c, data[0]), data[1..])
  }

  lemma {:induction false} FeedAppend(t: Transform, c: Ctx, a: seq<bv8>, b: seq<bv8>)
    requires Proper(c)
    ensures Feed(t, c, a + b) == Feed(t, Feed(t, c, a), b)
    decreases |a|
  {
    hide Feed1;
    if a == [] {
      assert a + b == b;
    } else {
      assert (a + b)[1..] == a[1..] + b;
      FeedAppend(t, Feed1(t, c, a[0]), a[1..], b);
    }
  }

  /** `data` laid over `block` from place `at`. */
  function Overlay(block: seq<bv8>, at: nat, data: seq<bv8>): (r: seq<bv8>)
    requires at + |data| <= |block|
    ensures |r| == |block|
  {
    block[..at] + data + block[at + |data|..]
  }

  lemma OverlayNothing(block: seq<bv8>, at: nat, data: seq<bv8>)
    requires data == [] && at <= |block|
    ensures Overlay(block, at, data) == block
  {
  }

  lemma OverlayNext(block: seq<bv8>, at: nat, data: seq<bv8>)
    requires data != [] && at + |data| <= |block|
    ensures Overlay(block[at := data[0]], at + 1, data[1..]) == Overlay(block, at, data)
  {
  }

  lemma PlaceNext(count: nat)
    requires count < WRAP
    ensures Place(Plus(count, 1)) == if Place(count) == BLOCK - 1 then 0 else Place(count) + 1
  {
    if count + 1 == WRAP { assert WRAP % BLOCK == 0; }
  }

  lemma PlusPlus(count: nat, m: nat, n: nat)
    ensures Plus(Plus(count, m), n) == Plus(count, m + n)
    ensures count < WRAP ==> Plus(count, 0) == count
  {
  }

  lemma PlacePlus(count: nat, n: nat)
    requires count < WRAP && Place(count) + n < BLOCK
    ensures Place(Plus(count, n)) == Place(count) + n
  {
  }

  /** Bytes that do not complete the block. */
  lemma {:induction false} FeedPart(t: Transform, c: Ctx, data: seq<bv8>)
    requires Proper(c) && Place(c.count) + |data| < BLOCK
    ensures Feed(t, c, data) == Ctx(c.hash, Overlay(c.block, Place(c.count), data), Plus(c.count, |data|))
    decreases |data|
  {
    hide Place, Plus, Overlay;
    var at := Place(c.count);
    if data == [] {
      OverlayNothing(c.block, at, data);
      PlusPlus(c.count, 0, 0);
    } else {
      PlaceNext(c.count);
      FeedPart(t, Feed1(t, c, data[0]), data[1..]);
      OverlayNext(c.block, at, data);
      PlusPlus(c.count, 1, |data| - 1);
    }
  }

  lemma FeedOne(t: Transform, c: Ctx, b: bv8)
    requires Proper(c)
    ensures Feed(t, c, [b]) == Feed1(t, c, b)
  {
    assert [b][1..] == [];
  }

  lemma OverlayFull(block: seq<bv8>, at: nat, data: seq<bv8>)
    requires |block| == BLOCK && data != [] && at + |data| == BLOCK
    ensures Overlay(block, at, data[..|data| - 1])[BLOCK - 1 := data[|data| - 1]] == block[..at] + data
  {
  }

  /** Bytes that complete the block. */
  lemma FeedFill(t: Transform, c: Ctx, data: seq<bv8>)
    requires Proper(c) && Place(c.count) + |data| == BLOCK
    ensures var block := c.block[..Place(c.count)] + data;
      Feed(t, c, data) == Ctx(t(c.hash, block), block, Plus(c.count, |data|))
    ensures Place(Feed(t, c, data).count) == 0
  {
    hide Feed, Overlay, Place, Plus;
    var n := |data| - 1;
    var before := Feed(t, c, data[..n]);
    FeedPart(t, c, data[..n]);
    assert data == data[..n] + [data[n]];
    FeedAppend(t, c, data[..n], [data[n]]);
    FeedOne(t, before, data[n]);
    PlacePlus(c.count, n);
    PlaceNext(before.count);
    PlusPlus(c.count, n, 1);
    OverlayFull(c.block, Place(c.count), data);
  }

  // ---- The stream

  /** However a stream is cut into pieces, the whole context is the same afterwards. */
  lemma {:induction false} ChunkingDoesNotMatter(t: Transform, c: Ctx, chunks: seq<seq<bv8>>)
    requires Proper(c)
    ensures FeedAll(t, c, chunks) == Feed(t, c, Joined(chunks))
    decreases |chunks|
  {
    hide Feed1;
    if chunks != [] {
      FeedAppend(t, c, chunks[0], Joined(chunks[1..]));
      ChunkingDoesNotMatter(t, Feed(t, c, chunks[0]), chunks[1..]);
    }
  }

  function Joined(chunks: seq<seq<bv8>>): seq<bv8> {
    if chunks == [] then [] else chunks[0] + Joined(chunks[1..])
  }

  function FeedAll(t: Transform, c: Ctx, chunks: seq<seq<bv8>>): (r: Ctx)
    requires Proper(c)
    ensures Proper(r)
    decreases |chunks|
  {
    if chunks == [] then c else FeedAll(t, Feed(t, c, chunks[0]), chunks[1..])
  }

  /** Section 3.4 of RFC 1321: the blocks of a message, one after the other; what does not fill a
      block is left. */
  function FoldBlocks(t: Transform, hash: Hash, data: seq<bv8>): Hash
    decreases |data|
  {
    if |data| < BLOCK then hash else FoldBlocks(t, t(hash, data[..BLOCK]), data[BLOCK..])
  }

  /** From the start of a block, the hash is the fold over the complete blocks of the stream, and
      the block begins with the bytes that are left. */
  lemma {:induction false} HashIsFold(t: Transform, c: Ctx, data: seq<bv8>)
    requires Proper(c) && Place(c.count) == 0
    ensures var r, left := Feed(t, c, data), |data| % BLOCK;
      && r.hash == FoldBlocks(t, c.hash, data)
      && r.block[..left] == data[|data| - left..]
      && r.count == Plus(c.count, |data|)
    decreases |data|
  {
    hide Feed1, Feed, Place, Plus;
    if |data| < BLOCK {
      FeedPart(t, c, data);
    } else {
      var first, rest := data[..BLOCK], data[BLOCK..];
      var next := Feed(t, c, first);
      assert data == first + rest;
      FeedAppend(t, c, first, rest);
      FeedFill(t, c, first);
      assert c.block[..0] + first == first;
      HashIsFold(t, next, rest);
      PlusPlus(c.count, BLOCK, |rest|);
      assert |data| % BLOCK == |rest| % BLOCK;
    }
  }

  // ---- md5_update

  /** struct md5_ctx, the block as its 64 bytes. */
  class Md5Ctx {
    const transform: Transform
    var hash: Hash
    const block: array<bv8>
    var byteCount: nat

    ghost predicate Valid()
      reads this
    {
      block.Length == BLOCK && byteCount < WRAP
    }

    ghost function Abs(): (c: Ctx)
      requires Valid()
      reads this, block
      ensures Proper(c)
    {
      Ctx(hash, block[..], byteCount)
    }

    /** The caller's memset: all zero. */
    constructor (transform: Transform)
      ensures Valid() && fresh(block) && this.transform == transform
      ensures Abs() == Ctx([0, 0, 0, 0], seq(BLOCK, _ => 0), 0)
    {
      this.transform := transform;
      hash, byteCount := [0, 0, 0, 0], 0;
      block := new bv8[BLOCK](_ => 0);
    }

    /** memcpy of `len` bytes of `data` from place `from` to place `at` of the block. */
    method CopyIn(at: nat, data: array<bv8>, from: nat, len: nat)
      requires Valid() && data != block && at + len <= BLOCK && from + len <= data.Length
      modifies block
      ensures block[..] == Overlay(old(block[..]), at, data[from..from + len])
    {
      forall i | 0 <= i < len {
        block[at + i] := data[from + i];
      }
    }

    method Update(data: array<bv8>, len: nat)
      requires Valid() && data != block && len <= data.Length
      modifies this`hash, this`byteCount, block
      ensures Valid() && Abs() == Feed(transform, old(Abs()), data[..len])
    {
      hide Feed, Place, Plus, Overlay;
      ghost var c := Abs();
      var avail := BLOCK - Place(byteCount);
      byteCount := Plus(byteCount, len);
      if avail > len {
        CopyIn(BLOCK - avail, data, 0, len);
        FeedPart(transform, c, data[..len]);
        return;
      }
      CopyIn(BLOCK - avail, data, 0, avail);
      OverlayEnd(c.block, BLOCK - avail, data[0..avail]);
      hash := transform(hash, block[..]);
      FeedFill(transform, c, data[..avail]);
      var at := WholeBlocks(data, avail, len, c);
      ghost var r := Feed(transform, c, data[..at]);
      CopyIn(0, data, at, len - at);
      assert data[..at] + data[at..len] == data[..len];
      FeedAppend(transform, c, data[..at], data[at..len]);
      FeedPart(transform, r, data[at..len]);
      PlusPlus(c.count, at, len - at);
    }

    /** The loop over the whole blocks from place `start`. */
    method WholeBlocks(data: array<bv8>, start: nat, len: nat, ghost c: Ctx) returns (at: nat)
      requires Valid() && data != block && start <= len <= data.Length && Proper(c)
      requires var r := Feed(transform, c, data[..start]);
        Place(r.count) == 0 && r.count == Plus(c.count, start) && hash == r.hash && block[..] == r.block
      modifies this`hash, block
      ensures start <= at <= len < at + BLOCK
      ensures var r := Feed(transform, c, data[..at]);
        Place(r.count) == 0 && r.count == Plus(c.count, at) && hash == r.hash && block[..] == r.block
      ensures data[..] == old(data[..])
    {
      hide Feed, Place, Plus, Overlay;
      at := start;
      var left := len - start;
      ghost var r := Feed(transform, c, data[..at]);
      while left >= BLOCK
        invariant 0 <= left && start <= at && at + left == len
        invariant r == Feed(transform, c, data[..at]) && Place(r.count) == 0 && r.count == Plus(c.count, at)
        invariant hash == r.hash && block[..] == r.block
      {
        CopyIn(0, data, at, BLOCK);
        OverlayEnd(r.block, 0, data[at..at + BLOCK]);
        assert r.block[..0] + data[at..at + BLOCK] == data[at..at + BLOCK];
        hash := transform(hash, block[..]);
        FeedNext(transform, c, data[..at], data[at..at + BLOCK]);
        assert data[..at] + data[at..at + BLOCK] == data[..at + BLOCK];
        r := Feed(transform, c, data[..at + BLOCK]);
        at := at + BLOCK;
        left := left - BLOCK;
      }
    }
  }

  lemma OverlayEnd(block: seq<bv8>, at: nat, data: seq<bv8>)
    requires |block| == BLOCK && at + |data| == BLOCK
    ensures Overlay(block, at, data) == block[..at] + data
  {
  }

  /** One more whole block after `before`. */
  lemma FeedNext(t: Transform, c: Ctx, before: seq<bv8>, data: seq<bv8>)
    requires Proper(c) && |data| == BLOCK && Place(Feed(t, c, before).count) == 0
    requires Feed(t, c, before).count == Plus(c.count, |before|)
    ensures var r := Feed(t, c, before + data);
      && r == Ctx(t(Feed(t, c, before).hash, data), data, Plus(c.count, |before| + BLOCK))
      && Place(r.count) == 0
  {
    hide Feed, Place, Plus;
    var s := Feed(t, c, before);
    FeedAppend(t, c, before, data);
    FeedFill(t, s, data);
    assert s.block[..0] + data == data;
    PlusPlus(c.count, |before|, BLOCK);
  }

  // ---- Verification in fio

  const ZERO_HASH: Hash := [0, 0, 0, 0]

  /** Where the last whole block of `n` bytes ends. */
  function WholeEnd(n: nat): (r: nat)
    ensures r <= n < r + BLOCK && r % BLOCK == 0
  {
    n - n % BLOCK
  }

  lemma {:induction false} FoldWhole(t: Transform, hash: Hash, data: seq<bv8>)
    ensures FoldBlocks(t, hash, data) == FoldBlocks(t, hash, data[..WholeEnd(|data|)])
    decreases |data|
  {
    if |data| >= BLOCK {
      var whole, rest := data[..WholeEnd(|data|)], data[BLOCK..];
      FoldWhole(t, t(hash, data[..BLOCK]), rest);
      assert WholeEnd(|data|) == BLOCK + WholeEnd(|rest|);
      assert whole[..BLOCK] == data[..BLOCK] && whole[BLOCK..] == rest[..WholeEnd(|rest|)];
    }
  }

  /** The buffers have the same length and differ at most behind the last whole block. */
  ghost predicate SameWholeBlocks(a: seq<bv8>, b: seq<bv8>) {
    |a| == |b| && a[..WholeEnd(|a|)] == b[..WholeEnd(|b|)]
  }

  /** fill_md5: the digest of the bytes behind the header. */
  method FillMd5(transform: Transform, payload: array<bv8>, len: nat) returns (digest: Hash)
    requires len <= payload.Length
    ensures digest == FoldBlocks(transform, ZERO_HASH, payload[..WholeEnd(len)])
  {
    hide Feed, FoldBlocks;
    var ctx := new Md5Ctx(transform);
    ghost var c := ctx.Abs();
    ctx.Update(payload, len);
    HashIsFold(transform, c, payload[..len]);
    FoldWhole(transform, ZERO_HASH, payload[..len]);
    assert payload[..len][..WholeEnd(len)] == payload[..WholeEnd(len)];
    digest := ctx.hash;
  }

  /** verify_io_u_md5 compares the whole blocks only: it accepts whatever is in the bytes behind the
      last one. */
  method VerifyIoUMd5(transform: Transform, payload: array<bv8>, len: nat, digest: Hash) returns (ret: int)
    requires len <= payload.Length
    ensures ret == 0 <==> digest == FoldBlocks(transform, ZERO_HASH, payload[..WholeEnd(len)])
    ensures ret == 0 || ret == 1
    ensures forall good: seq<bv8> ::
              SameWholeBlocks(good, payload[..len]) && digest == FoldBlocks(transform, ZERO_HASH, good) ==> ret == 0
  {
    hide FoldBlocks;
    var actual := FillMd5(transform, payload, len);
    forall good: seq<bv8> | SameWholeBlocks(good, payload[..len])
      ensures FoldBlocks(transform, ZERO_HASH, good) == FoldBlocks(transform, ZERO_HASH, payload[..WholeEnd(len)])
    {
      FoldWhole(transform, ZERO_HASH, good);
      assert payload[..len][..WholeEnd(len)] == payload[..WholeEnd(len)];
    }
    if digest != actual {
      return 1;
    }
    return 0;
  }
}
