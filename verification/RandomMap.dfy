/** The random map of fio/io_u.c: one bit for every block of the minimum size, set once the block
    has been used since the map was last cleared. */
module RandomMap {
  import opened MapWords

  // ---- The map as a sequence of bits

  /** true: used. */
  type Bits = seq<bool>

  /** How many of the `want` blocks from `first` are free before the first used one. */
  function FreeRun(bits: Bits, first: nat, want: nat): (n: nat)
    ensures n <= want && (first <= |bits| ==> first + n <= |bits|)
    ensures forall i :: first <= i < first + n && i < |bits| ==> !bits[i]
    ensures n < want && first + n < |bits| ==> bits[first + n]
    decreases want
  {
    if want == 0 || first >= |bits| || bits[first] then 0 else 1 + FreeRun(bits, first + 1, want - 1)
  }

  function Use(bits: Bits, first: nat, n: nat): (r: Bits)
    requires first + n <= |bits|
    ensures |r| == |bits|
  {
    seq(|bits|, i requires 0 <= i < |bits| => bits[i] || first <= i < first + n)
  }

  /** Linear search over single bits. */
  function FirstFree(bits: Bits): (i: nat)
    ensures i <= |bits| && (i < |bits| ==> !bits[i]) && forall j :: 0 <= j < i ==> bits[j]
  {
    if bits == [] || !bits[0] then 0 else 1 + FirstFree(bits[1..])
  }

  /** The search from the first block of a request ends before the map does. */
  predicate StaysInMap(bits: Bits, q: Request) {
    q.first + q.want <= |bits| || q.first + FreeRun(bits, q.first, q.want) < |bits|
  }

  // ---- One pass over a file: the requests between two clears of the map

  datatype Request = Request(first: nat, want: nat)
  datatype Extent = Extent(first: nat, n: nat)

  function Marked(bits: Bits, q: Request): Extent {
    Extent(q.first, if q.first <= |bits| then FreeRun(bits, q.first, q.want) else 0)
  }

  function After(bits: Bits, q: Request): (r: Bits)
    ensures |r| == |bits|
  {
    if q.first <= |bits| then Use(bits, q.first, Marked(bits, q).n) else bits
  }

  /** The `n` blocks are free, the request ends or a used block follows behind them, and in `marked`
      they are used and all others are as before. */
  ghost predicate MarksRun(bits: Bits, q: Request, n: nat, marked: Bits) {
    && n <= q.want && q.first + n <= |bits| == |marked|
    && (n < q.want ==> q.first + n < |bits| && bits[q.first + n])
    && (forall i :: q.first <= i < q.first + n ==> !bits[i])
    && (forall i :: 0 <= i < |bits| ==> (marked[i] <==> bits[i] || q.first <= i < q.first + n))
  }

  lemma MarkedIs(bits: Bits, q: Request)
    requires StaysInMap(bits, q)
    ensures MarksRun(bits, q, Marked(bits, q).n, After(bits, q))
  {
  }

  function Pass(bits: Bits, qs: seq<Request>): seq<Extent>
    decreases |qs|
  {
    if qs == [] then [] else [Marked(bits, qs[0])] + Pass(After(bits, qs[0]), qs[1..])
  }

  predicate Covers(e: Extent, i: nat) { e.first <= i < e.first + e.n }

  /** Every block an extent of the pass covers was free at its start. */
  lemma {:induction false} PassCoversFree(bits: Bits, qs: seq<Request>, k: nat, i: nat)
    requires k < |Pass(bits, qs)| && Covers(Pass(bits, qs)[k], i)
    ensures i < |bits| && !bits[i]
    decreases |qs|
  {
    if k > 0 {
      PassCoversFree(After(bits, qs[0]), qs[1..], k - 1, i);
      assert Pass(bits, qs)[k] == Pass(After(bits, qs[0]), qs[1..])[k - 1];
    }
  }

  /** No block is covered twice in one pass. */
  lemma {:induction false} NeverTwice(bits: Bits, qs: seq<Request>, k: nat, l: nat, i: nat)
    requires k < l < |Pass(bits, qs)|
    requires Covers(Pass(bits, qs)[k], i)
    ensures !Covers(Pass(bits, qs)[l], i)
    decreases |qs|
  {
    var rest := Pass(After(bits, qs[0]), qs[1..]);
    assert Pass(bits, qs)[1..] == rest;
    if k > 0 {
      assert Pass(bits, qs)[k] == rest[k - 1] && Pass(bits, qs)[l] == rest[l - 1];
      NeverTwice(After(bits, qs[0]), qs[1..], k - 1, l - 1, i);
    } else if Covers(rest[l - 1], i) {
      PassCoversFree(After(bits, qs[0]), qs[1..], l - 1, i);
    }
  }

  /** The same in bytes, for extents that start at `shift` plus a multiple of the block size. */
  lemma BytesNeverTwice(bits: Bits, qs: seq<Request>, k: nat, l: nat, bs: nat, shift: nat, x: nat)
    requires k < l < |Pass(bits, qs)| && bs > 0
    requires var e := Pass(bits, qs)[k]; shift + e.first * bs <= x < shift + (e.first + e.n) * bs
    ensures var e := Pass(bits, qs)[l]; !(shift + e.first * bs <= x < shift + (e.first + e.n) * bs)
  {
    var e, d := Pass(bits, qs)[k], Pass(bits, qs)[l];
    var i := (x - shift) / bs;
    BlockOf(x - shift, bs, e.first, e.first + e.n);
    NeverTwice(bits, qs, k, l, i);
    if shift + d.first * bs <= x < shift + (d.first + d.n) * bs { BlockOf(x - shift, bs, d.first, d.first + d.n); }
  }

  lemma BlockOf(x: nat, bs: nat, lo: nat, hi: nat)
    requires bs > 0 && lo * bs <= x < hi * bs
    ensures lo <= x / bs < hi
  {
    var q := x / bs;
    assert q * bs <= x < (q + 1) * bs;
    if q < lo { Times(q + 1, lo, bs); }
    if hi <= q { Times(hi, q, bs); }
  }

  lemma Times(a: nat, b: nat, c: nat)
    requires a <= b
    ensures a * c <= b * c
  {
  }

  // ---- Words and bits

  function FreeAt(words: seq<bv64>, i: nat): bool
    requires i < |words| * WIDTH
  {
    Free(words[i / WIDTH], i % WIDTH)
  }

  function BitsOf(words: seq<bv64>): (bits: Bits)
    ensures |bits| == |words| * WIDTH
  {
    seq(|words| * WIDTH, i requires 0 <= i < |words| * WIDTH => !FreeAt(words, i))
  }

  lemma MarkOne(words: seq<bv64>, i: nat)
    requires i < |words| * WIDTH
    ensures BitsOf(words[i / WIDTH := Mark(words[i / WIDTH], i % WIDTH)]) == BitsOf(words)[i := true]
  {
    hide Free, Mark;
    var after := words[i / WIDTH := Mark(words[i / WIDTH], i % WIDTH)];
    forall j | 0 <= j < |words| * WIDTH
      ensures FreeAt(after, j) == (FreeAt(words, j) && j != i)
    {
      if j / WIDTH == i / WIDTH { MarkTakesOne(words[i / WIDTH], i % WIDTH, j % WIDTH); }
    }
  }

  /** generic_ffz; -1 for a full word. */
  method Ffz(word: bv64) returns (b: int)
    ensures word == FULL ==> b == -1
    ensures word != FULL ==> 0 <= b < WIDTH && Free(word, b) && forall j :: 0 <= j < b ==> !Free(word, j)
  {
    hide And, Bit;
    var i := 0;
    while i < WIDTH
      invariant i <= WIDTH && forall j :: 0 <= j < i ==> !Free(word, j)
    {
      if And(word, Bit(i)) == 0 {
        assert Free(word, i);
        FullHasNone(word);
        return i;
      }
      i := i + 1;
    }
    FullHasNone(word);
    return -1;
  }

  // ---- The file

  /** A file and the block sizes of its job; `minBs` is min_bs of the direction of the request. */
  class FioFile {
    const fileMap: array<bv64>
    const rwMinBs: nat
    const minBs: nat
    const fileOffset: nat
    const fileSize: nat
    const realFileSize: nat
    var lastPos: nat

    ghost predicate Valid() {
      rwMinBs > 0 && minBs > 0
    }

    ghost function Map(): Bits
      reads fileMap
    {
      BitsOf(fileMap[..])
    }

    constructor (maps: nat, rwMinBs: nat, minBs: nat, fileOffset: nat, fileSize: nat, realFileSize: nat)
      requires rwMinBs > 0 && minBs > 0
      ensures Valid() && fresh(fileMap) && fileMap.Length == maps && Map() == seq(maps * WIDTH, _ => false)
      ensures this.rwMinBs == rwMinBs && this.minBs == minBs && this.fileOffset == fileOffset
      ensures this.fileSize == fileSize && this.realFileSize == realFileSize
    {
      this.rwMinBs, this.minBs, this.fileOffset := rwMinBs, minBs, fileOffset;
      this.fileSize, this.realFileSize, lastPos := fileSize, realFileSize, 0;
      fileMap := new bv64[maps](_ => 0);
      new;
      AllFree(fileMap[..]);
    }

    /** TO_MAP_BLOCK: the place of a block in the map. */
    function ToMapBlock(block: nat): int {
      if rwMinBs > 0 then block - fileOffset / rwMinBs else block
    }

    predicate InMap(block: nat) { 0 <= ToMapBlock(block) < fileMap.Length * WIDTH }

    method RandomMapFree(block: nat) returns (free: bool)
      requires Valid() && InMap(block)
      ensures free == !Map()[ToMapBlock(block)]
    {
      var i := ToMapBlock(block);
      var idx, bit := i / WIDTH, i % WIDTH;
      free := Free(fileMap[idx], bit);
    }

    /** mark_random_map: marks the free blocks from the request's first one on, up to the first used
        one, and cuts the request down to them. */
    method MarkRandomMap(offset: nat, buflen: nat) returns (cut: nat)
      requires Valid() && offset / minBs >= fileOffset / rwMinBs
      requires StaysInMap(Map(), Request(ToMapBlock(offset / minBs), buflen / minBs))
      modifies fileMap
      ensures var q := Request(ToMapBlock(offset / minBs), buflen / minBs);
        && cut == Marked(old(Map()), q).n * minBs
        && Map() == After(old(Map()), q)
      ensures var q := Request(ToMapBlock(offset / minBs), buflen / minBs);
        MarksRun(old(Map()), q, Marked(old(Map()), q).n, Map())
    {
      hide Use, FreeRun, BitsOf, MarksRun;
      MarkedIs(Map(), Request(ToMapBlock(offset / minBs), buflen / minBs));
      var block := offset / minBs;
      var want := buflen / minBs;
      var blocks := MarkFree(block, want, ToMapBlock(block));
      WholeBlocks(buflen, minBs, blocks);
      cut := if blocks * minBs < buflen then blocks * minBs else buflen;
    }

    /** The loop of mark_random_map. */
    method MarkFree(start: nat, want: nat, ghost first: nat) returns (blocks: nat)
      requires Valid() && ToMapBlock(start) == first && first <= |Map()|
      requires StaysInMap(Map(), Request(first, want))
      modifies fileMap
      ensures blocks == FreeRun(old(Map()), first, want) && first + blocks <= |Map()|
      ensures Map() == Use(old(Map()), first, blocks)
    {
      hide Use, FreeRun, BitsOf, StaysInMap;
      ghost var before := Map();
      var block := start;
      blocks := 0;
      UseNothing(before, first);
      while blocks < want
        invariant blocks <= want && block == start + blocks && first + blocks <= |before|
        invariant Map() == Use(before, first, blocks)
        invariant FreeRun(before, first, want) == blocks + FreeRun(before, first + blocks, want - blocks)
      {
        RunInside(before, first, want, blocks);
        RunNext(before, first, want, blocks);
        ghost var i: nat := first + blocks;
        assert ToMapBlock(block) == i;
        var free := RandomMapFree(block);
        if !free { break; }
        MarkBlock(block);
        block := block + 1;
        blocks := blocks + 1;
      }
      RunEnds(before, first + blocks);
    }

    /** How many words get_next_free_block looks at before it gives up. */
    ghost function Visited(): (n: nat)
      requires Valid()
      ensures n <= fileMap.Length
      ensures n > 0 ==> (n - 1) * WIDTH * rwMinBs < realFileSize
      ensures n < fileMap.Length ==> n * WIDTH * rwMinBs >= realFileSize
    {
      var n := WordsFor(realFileSize, rwMinBs);
      WordsReach(realFileSize, rwMinBs, fileMap.Length);
      if n < fileMap.Length then n else fileMap.Length
    }

    /** The map covers the file, or it has a free block: see `ScanStaysExactly`. */
    ghost predicate CanSearch()
      reads fileMap
    {
      realFileSize <= fileMap.Length * (WIDTH * rwMinBs) || FirstFree(Map()) < |Map()|
    }

    /** The search by words and then by bits finds what a linear search over the bits of the visited
        words finds, and fails exactly if all of them are used. */
    method GetNextFreeBlock() returns (ret: int, b: nat)
      requires Valid() && CanSearch()
      ensures var r := FirstFree(Map()[..Visited() * WIDTH]);
        if r < Visited() * WIDTH then ret == 0 && b == r else ret == 1
    {
      hide Free, FirstFree, BitsOf, WordsFor;
      ghost var words := fileMap[..];
      b := 0;
      var i := 0;
      while b * rwMinBs < realFileSize
        invariant b == i * WIDTH && i <= Visited()
        invariant forall j :: 0 <= j < i * WIDTH ==> !FreeAt(words, j)
        decreases Visited() - i
      {
        StillInside(words, realFileSize, rwMinBs, i);
        VisitedNext(realFileSize, rwMinBs, i);
        if fileMap[i] != FULL {
          var z := Ffz(fileMap[i]);
          b := b + z;
          FoundFree(words, i, z);
          SearchEnds(words, Visited(), b);
          return 0, b;
        }
        FullHasNone(fileMap[i]);
        b := b + WIDTH;
        i := i + 1;
      }
      VisitedDone(realFileSize, rwMinBs, i);
      SearchEnds(words, Visited(), Visited() * WIDTH);
      return 1, b;
    }

    ghost predicate FreeDraw(b: nat)
      requires Valid()
      reads fileMap
    {
      InMap(b + fileOffset / minBs) && !Map()[ToMapBlock(b + fileOffset / minBs)]
    }

    /** The first free draw, or the number of draws. */
    ghost function FirstFreeDraw(draws: seq<nat>): (j: nat)
      requires Valid()
      reads fileMap
      ensures j <= |draws| && (j < |draws| ==> FreeDraw(draws[j])) && forall i :: 0 <= i < j ==> !FreeDraw(draws[i])
    {
      if draws == [] || FreeDraw(draws[0]) then 0 else 1 + FirstFreeDraw(draws[1..])
    }

    /** The random block for 50 draws: the fiftieth is not used any more. */
    ghost function RandomBlock(draws: seq<nat>): nat
      requires Valid() && |draws| == 50
      reads fileMap
    {
      var j := FirstFreeDraw(draws[..49]);
      if j < 49 then draws[j] else FirstFree(Map()[..Visited() * WIDTH])
    }

    /** The draws are in the map, and so is the search if it comes to it. */
    ghost predicate MapFits(draws: seq<nat>)
      requires Valid() && |draws| == 50
      reads fileMap
    {
      && (forall k :: 0 <= k < 50 ==> InMap(draws[k] + fileOffset / minBs))
      && (FirstFreeDraw(draws[..49]) == 49 ==> CanSearch())
    }

    /** Neither the draws nor the search find a free block. */
    ghost predicate Exhausted(draws: seq<nat>)
      requires Valid() && |draws| == 50
      reads fileMap
    {
      FirstFreeDraw(draws[..49]) == 49 && FirstFree(Map()[..Visited() * WIDTH]) == Visited() * WIDTH
    }

    /** The block a draw stands for has been used. */
    ghost predicate Taken(b: nat)
      requires Valid() && InMap(b + fileOffset / minBs)
      reads fileMap
    {
      Map()[ToMapBlock(b + fileOffset / minBs)]
    }

    /** `k` is the first of the first 49 draws that stands for a free block. */
    ghost predicate FirstUntaken(draws: seq<nat>, k: nat)
      requires Valid() && |draws| == 50 && MapFits(draws)
      reads fileMap
    {
      k < 49 && !Taken(draws[k]) && forall j :: 0 <= j < k ==> Taken(draws[j])
    }

    ghost predicate AllTaken(draws: seq<nat>)
      requires Valid() && |draws| == 50 && MapFits(draws)
      reads fileMap
    {
      forall j :: 0 <= j < 49 ==> Taken(draws[j])
    }

    /** `i` is the lowest clear bit of the visited words. */
    ghost predicate LowestClear(i: nat)
      requires Valid()
      reads fileMap
    {
      i < Visited() * WIDTH && !Map()[i] && forall j :: 0 <= j < i ==> Map()[j]
    }

    /** Both, said of the bits of the map. */
    lemma RandomBlockIs(draws: seq<nat>)
      requires Valid() && |draws| == 50 && MapFits(draws)
      ensures Exhausted(draws) <==> AllTaken(draws) && forall i :: 0 <= i < Visited() * WIDTH ==> Map()[i]
      ensures Exhausted(draws) ==> forall k: nat :: !FirstUntaken(draws, k) && !LowestClear(k)
      ensures forall k: nat :: FirstUntaken(draws, k) ==> RandomBlock(draws) == draws[k]
      ensures forall i: nat :: AllTaken(draws) && LowestClear(i) ==> RandomBlock(draws) == i
    {
      hide BitsOf, Visited, InMap, FirstFreeDraw, FirstFree;
      var early := draws[..49];
      assert forall j :: 0 <= j < 49 ==> early[j] == draws[j] && (FreeDraw(draws[j]) <==> !Taken(draws[j]));
      var bits := Map()[..Visited() * WIDTH];
      assert forall j :: 0 <= j < |bits| ==> bits[j] == Map()[j];
      var first, free := FirstFreeDraw(early), FirstFree(bits);
    }

    /** With one minimum block size, what was drawn or searched is a free block. */
    lemma RandomBlockIsFree(draws: seq<nat>)
      requires Valid() && minBs == rwMinBs && |draws| == 50
      requires !Exhausted(draws)
      ensures RandomBlock(draws) < |Map()| && !Map()[RandomBlock(draws)]
    {
      var j := FirstFreeDraw(draws[..49]);
      if j < 49 { assert FreeDraw(draws[..49][j]); }
    }

    /** The loop of get_next_offset: the block, and how many of the 50 tries are left. */
    method Draw(draws: seq<nat>, norandommap: bool) returns (b: nat, loops: nat)
      requires Valid() && |draws| == 50
      requires norandommap || forall k :: 0 <= k < 50 ==> InMap(draws[k] + fileOffset / minBs)
      ensures norandommap ==> b == draws[0] && loops == 50
      ensures !norandommap ==> loops == 49 - FirstFreeDraw(draws[..49]) && (loops > 0 ==> b == draws[49 - loops])
    {
      hide FreeDraw, FirstFreeDraw;
      loops := 50;
      var again := true;
      b := draws[0];
      while again
        invariant loops <= 50 && (again ==> loops > 0)
        invariant again && norandommap ==> loops == 50
        invariant again ==> forall i :: 0 <= i < 50 - loops ==> !FreeDraw(draws[i])
        invariant !again ==> loops < 50 && !norandommap && forall i :: 0 <= i < 49 - loops ==> !FreeDraw(draws[i])
        invariant !again && loops > 0 ==> b == draws[49 - loops] && FreeDraw(b)
        decreases loops, again
      {
        b := draws[50 - loops];
        if norandommap { return; }
        loops := loops - 1;
        var free := TryDraw(b);
        again := !free && loops != 0;
      }
      DrawIs(draws, 49 - loops);
    }

    method TryDraw(b: nat) returns (free: bool)
      requires Valid() && InMap(b + fileOffset / minBs)
      ensures free == FreeDraw(b)
    {
      free := RandomMapFree(b + fileOffset / minBs);
    }

    /** The block of the next request; `full` is not 0 if there is none. */
    method PickBlock(draws: seq<nat>, sequential: bool, norandommap: bool) returns (full: int, b: nat)
      requires Valid() && |draws| == 50
      requires sequential || norandommap || MapFits(draws)
      ensures full != 0 <==> !sequential && !norandommap && Exhausted(draws)
      ensures full == 0 ==>
                b == if sequential then lastPos / minBs else if norandommap then draws[0] else RandomBlock(draws)
    {
      hide FirstFree, BitsOf, FirstFreeDraw, Visited, InMap, CanSearch;
      full := 0;
      if !sequential {
        var loops;
        b, loops := Draw(draws, norandommap);
        if loops == 0 {
          full, b := GetNextFreeBlock();
        }
      } else {
        b := lastPos / minBs;
      }
    }

    /** The offset of the next request: `draws` are the random blocks, at most 50 of them.  With one
        minimum block size a random request starts at a free block. */
    method GetNextOffset(draws: seq<nat>, sequential: bool, norandommap: bool) returns (ret: int, offset: nat)
      requires Valid() && |draws| == 50
      requires sequential || norandommap || MapFits(draws)
      ensures ret == 0 || ret == 1
      ensures ret == 0 ==> fileOffset <= offset <= realFileSize
      ensures ret == 0 ==> var b := (offset - fileOffset) / minBs;
                           && offset == b * minBs + fileOffset
                           && b == if sequential then lastPos / minBs
                                   else if norandommap then draws[0] else RandomBlock(draws)
      ensures ret == 0 && !sequential && !norandommap && minBs == rwMinBs ==>
                (offset - fileOffset) / minBs < |Map()| && !Map()[(offset - fileOffset) / minBs]
      ensures ret == 1 <==> offset > realFileSize || (!sequential && !norandommap && Exhausted(draws))
      ensures !sequential && !norandommap && ret == 1 && offset <= realFileSize ==>
                AllTaken(draws) && forall i :: 0 <= i < Visited() * WIDTH ==> Map()[i]
      ensures !sequential && !norandommap ==>
                forall k: nat :: FirstUntaken(draws, k) ==> offset == draws[k] * minBs + fileOffset
      ensures !sequential && !norandommap && AllTaken(draws) ==>
                forall i: nat :: LowestClear(i) ==> offset == i * minBs + fileOffset
    {
      hide RandomBlock, Exhausted, Map, Visited, InMap, MapFits, AllTaken, FirstUntaken, LowestClear;
      if !sequential && !norandommap { RandomBlockIs(draws); }
      var full, b := PickBlock(draws, sequential, norandommap);
      if full != 0 { return 1, 0; }
      if !sequential && !norandommap && minBs == rwMinBs { RandomBlockIsFree(draws); }
      offset := b * minBs + fileOffset;
      Quotient(b, minBs);
      if offset > realFileSize { return 1, offset; }
      return 0, offset;
    }

    /** With one minimum block size and the map that init_random_state allocates every block that can
        be drawn is in the map. */
    lemma DrawInMap(b: nat)
      requires Valid() && minBs == rwMinBs && fileMap.Length == NumMaps(fileSize, rwMinBs)
      requires b < fileSize / minBs
      ensures InMap(b + fileOffset / minBs)
    {
      BlocksFit(fileSize, rwMinBs);
    }

    lemma DrawIs(draws: seq<nat>, k: nat)
      requires Valid() && |draws| == 50 && k <= 49
      requires forall i :: 0 <= i < k ==> !FreeDraw(draws[i])
      requires k < 49 ==> FreeDraw(draws[k])
      ensures FirstFreeDraw(draws[..49]) == k
    {
    }

    method MarkBlock(block: nat)
      requires Valid() && InMap(block)
      modifies fileMap
      ensures Map() == old(Map())[ToMapBlock(block) := true]
    {
      var i := ToMapBlock(block);
      MarkOne(fileMap[..], i);
      fileMap[i / WIDTH] := Mark(fileMap[i / WIDTH], i % WIDTH);
      assert fileMap[..] == old(fileMap[..])[i / WIDTH := Mark(old(fileMap[i / WIDTH]), i % WIDTH)];
    }
  }

  lemma UseNothing(bits: Bits, first: nat)
    requires first <= |bits|
    ensures Use(bits, first, 0) == bits
  {
  }

  lemma Quotient(b: nat, bs: nat)
    requires bs > 0
    ensures b * bs / bs == b
  {
    assert (b + 1) * bs == b * bs + bs;
    BlockOf(b * bs, bs, b, b + 1);
  }

  /** One more block of a run: it is used, or it is free and the run goes on behind it. */
  lemma RunNext(bits: Bits, first: nat, want: nat, blocks: nat)
    requires blocks < want && first + blocks < |bits|
    ensures Use(bits, first, blocks)[first + blocks] == bits[first + blocks]
    ensures bits[first + blocks] ==> FreeRun(bits, first + blocks, want - blocks) == 0
    ensures !bits[first + blocks] ==>
              && FreeRun(bits, first + blocks, want - blocks) ==
                 1 + FreeRun(bits, first + blocks + 1, want - blocks - 1)
              && Use(bits, first, blocks + 1) == Use(bits, first, blocks)[first + blocks := true]
  {
  }

  lemma RunInside(bits: Bits, first: nat, want: nat, blocks: nat)
    requires blocks < want && first + blocks <= |bits| && StaysInMap(bits, Request(first, want))
    requires FreeRun(bits, first, want) == blocks + FreeRun(bits, first + blocks, want - blocks)
    ensures first + blocks < |bits|
  {
  }

  lemma RunEnds(bits: Bits, first: nat)
    ensures FreeRun(bits, first, 0) == 0
  {
  }

  lemma AllFree(words: seq<bv64>)
    requires forall k :: 0 <= k < |words| ==> words[k] == 0
    ensures BitsOf(words) == seq(|words| * WIDTH, _ => false)
  {
    hide Free;
    forall i | 0 <= i < |words| * WIDTH
      ensures FreeAt(words, i)
    {
      ZeroWord(i % WIDTH);
    }
  }

  lemma WholeBlocks(buflen: nat, bs: nat, blocks: nat)
    requires bs > 0 && blocks <= buflen / bs
    ensures blocks * bs <= buflen
  {
    Times(blocks, buflen / bs, bs);
    assert buflen / bs * bs <= buflen;
  }

  lemma FirstFreeIs(bits: Bits, k: nat)
    requires k <= |bits| && (k < |bits| ==> !bits[k]) && forall j :: 0 <= j < k ==> bits[j]
    ensures FirstFree(bits) == k
  {
  }

  lemma SearchEnds(words: seq<bv64>, n: nat, k: nat)
    requires n <= |words| && k <= n * WIDTH && (k < n * WIDTH ==> FreeAt(words, k))
    requires forall j :: 0 <= j < k ==> !FreeAt(words, j)
    ensures FirstFree(BitsOf(words)[..n * WIDTH]) == k
  {
    FirstFreeIs(BitsOf(words)[..n * WIDTH], k);
  }

  lemma FoundFree(words: seq<bv64>, i: nat, z: nat)
    requires i < |words| && z < WIDTH && Free(words[i], z) && forall j :: 0 <= j < z ==> !Free(words[i], j)
    requires forall j :: 0 <= j < i * WIDTH ==> !FreeAt(words, j)
    ensures FreeAt(words, i * WIDTH + z) && forall j :: 0 <= j < i * WIDTH + z ==> !FreeAt(words, j)
  {
    hide Free;
  }

  /** The words a file of `size` bytes needs. */
  function WordsFor(size: nat, bs: nat): nat
    requires bs > 0
  {
    (size + WIDTH * bs - 1) / (WIDTH * bs)
  }

  lemma WordsReach(size: nat, bs: nat, n: nat)
    requires bs > 0
    ensures var w := WordsFor(size, bs); w * WIDTH * bs >= size && (w > 0 ==> (w - 1) * WIDTH * bs < size)
    ensures 0 < n <= WordsFor(size, bs) ==> (n - 1) * WIDTH * bs < size
  {
    var unit, w := WIDTH * bs, WordsFor(size, bs);
    assert w * WIDTH * bs == w * unit && (w - 1) * WIDTH * bs == (w - 1) * unit;
    if w > 0 { assert (w - 1) * unit == w * unit - unit; }
    if 0 < n <= w {
      assert (n - 1) * WIDTH * bs == (n - 1) * unit;
      Times(n - 1, w - 1, unit);
    }
  }

  lemma VisitedNext(size: nat, bs: nat, i: nat)
    requires bs > 0 && i * WIDTH * bs < size
    ensures i < WordsFor(size, bs)
  {
    var unit := WIDTH * bs;
    assert i * WIDTH * bs == i * unit;
    var v := (size + unit - 1) / unit;
    if v <= i { Times(v, i, unit); }
  }

  lemma VisitedDone(size: nat, bs: nat, i: nat)
    requires bs > 0 && i * WIDTH * bs >= size
    ensures i >= WordsFor(size, bs)
  {
    var unit := WIDTH * bs;
    assert i * WIDTH * bs == i * unit;
    if i < WordsFor(size, bs) { Times(i + 1, WordsFor(size, bs), unit); }
  }

  // ---- Where the search stays

  /** The loop of get_next_free_block, from word `i`, reads no word behind the map. */
  predicate ScanStays(words: seq<bv64>, size: nat, bs: nat, i: nat)
    requires i <= |words|
    decreases |words| - i
  {
    i * WIDTH * bs >= size || (i < |words| && (words[i] != FULL || ScanStays(words, size, bs, i + 1)))
  }

  lemma StillInside(words: seq<bv64>, size: nat, bs: nat, i: nat)
    requires i <= |words| && i * WIDTH * bs < size && forall j :: 0 <= j < i * WIDTH ==> !FreeAt(words, j)
    requires size <= |words| * (WIDTH * bs) || FirstFree(BitsOf(words)) < |words| * WIDTH
    ensures i < |words|
  {
    assert i * WIDTH * bs == i * (WIDTH * bs);
    if i == |words| { assert false; }
  }

  lemma {:induction false} ScanFrom(words: seq<bv64>, size: nat, bs: nat, i: nat)
    requires i <= |words| && forall j :: 0 <= j < i * WIDTH ==> !FreeAt(words, j)
    ensures ScanStays(words, size, bs, i) <==>
              size <= |words| * (WIDTH * bs) || FirstFree(BitsOf(words)) < |words| * WIDTH
    decreases |words| - i
  {
    hide Free;
    assert i * WIDTH * bs == i * (WIDTH * bs);
    Times(i, |words|, WIDTH * bs);
    if i == |words| {
      assert FirstFree(BitsOf(words)) == |words| * WIDTH;
    } else {
      FullHasNone(words[i]);
      if words[i] == FULL {
        ScanFrom(words, size, bs, i + 1);
      } else {
        SomeFree(words, i);
      }
    }
  }

  lemma SomeFree(words: seq<bv64>, i: nat)
    requires i < |words| && words[i] != FULL
    ensures FirstFree(BitsOf(words)) < |words| * WIDTH
  {
    hide Free;
    FullHasNone(words[i]);
    var z :| 0 <= z < WIDTH && Free(words[i], z);
    assert (i * WIDTH + z) / WIDTH == i && (i * WIDTH + z) % WIDTH == z;
    assert !BitsOf(words)[i * WIDTH + z];
  }

  /** The search stays inside the map if and only if the map covers the file or has a free block. */
  lemma ScanStaysExactly(words: seq<bv64>, size: nat, bs: nat)
    ensures ScanStays(words, size, bs, 0) <==>
              size <= |words| * (WIDTH * bs) || FirstFree(BitsOf(words)) < |words| * WIDTH
  {
    ScanFrom(words, size, bs, 0);
  }

  /** The number of words init_random_state allocates. */
  function NumMaps(fileSize: nat, bs: nat): nat
    requires bs > 0
  {
    ((fileSize + bs - 1) / bs + WIDTH - 1) / WIDTH
  }

  lemma BlocksFit(fileSize: nat, bs: nat)
    requires bs > 0
    ensures fileSize / bs <= NumMaps(fileSize, bs) * WIDTH
  {
    var blocks := (fileSize + bs - 1) / bs;
    if blocks < fileSize / bs {
      Times(blocks + 1, fileSize / bs, bs);
    }
  }

  /** The map is made for the part of the file behind the offset.  Once it is full, the search leaves
      it exactly if the offset is more than what the last word has to spare. */
  lemma FullMapStays(words: seq<bv64>, size: nat, offset: nat, bs: nat)
    requires bs > 0 && offset <= size && |words| == NumMaps(size - offset, bs)
    requires forall i :: 0 <= i < |words| ==> words[i] == FULL
    ensures ScanStays(words, size, bs, 0) <==> offset <= |words| * (WIDTH * bs) - (size - offset)
  {
    hide Free;
    ScanStaysExactly(words, size, bs);
    forall j | 0 <= j < |words| * WIDTH
      ensures BitsOf(words)[j]
    {
      FullHasNone(words[j / WIDTH]);
    }
    FirstFreeIs(BitsOf(words), |words| * WIDTH);
  }

  /** It does for every block size: 64 blocks behind an offset of 64 blocks, all of them used. */
  lemma OffsetRunsOut(bs: nat)
    requires bs > 0
    ensures NumMaps(128 * bs - 64 * bs, bs) == 1 && !ScanStays([FULL], 128 * bs, bs, 0)
  {
    Quotient(64, bs);
    BlockOf(64 * bs + bs - 1, bs, 64, 65);
    FullMapStays([FULL], 128 * bs, 64 * bs, bs);
  }

  /** A request that starts at a free block covers at least that block. */
  lemma FreeStartCovers(bits: Bits, q: Request)
    requires q.first < |bits| && !bits[q.first] && q.want > 0
    ensures Covers(Marked(bits, q), q.first) && After(bits, q)[q.first]
  {
  }
}
