/** The words of fio's random map: unsigned longs of 64 bits.  The operations have names so that
    proofs can use their laws without their bits. */
module MapWords {

  const WIDTH: nat := 64
  const FULL: bv64 := 0xFFFF_FFFF_FFFF_FFFF

  function And(x: bv64, y: bv64): bv64 { x & y }
  function Or(x: bv64, y: bv64): bv64 { x | y }
  function Twice(x: bv64): bv64 { x << 1 }
  function Half(x: bv64): bv64 { x >> 1 }
  function Times256(x: bv64): bv64 { x << 8 }
  function By256(x: bv64): bv64 { x >> 8 }

  /** 1UL << b. */
  function Bit(b: nat): bv64
    decreases b
  {
    if b == 0 then 1 else Twice(Bit(b - 1))
  }

  predicate Free(w: bv64, b: nat) { And(w, Bit(b)) == 0 }

  function Mark(w: bv64, b: nat): bv64 { Or(w, Bit(b)) }

  // ---- Laws

  lemma AndTwice(x: bv64, y: bv64)
    ensures And(Twice(x), Twice(y)) == Twice(And(x, y))
  {
  }

  lemma AndOne(y: bv64)
    ensures And(1, Twice(y)) == 0 && Twice(0) == 0
  {
  }

  lemma AndOr(w: bv64, x: bv64, y: bv64)
    requires And(x, y) == 0
    ensures And(Or(w, x), y) == And(w, y)
  {
  }

  lemma Absorb(w: bv64, x: bv64)
    ensures And(Or(w, x), x) == x
  {
  }

  lemma AndCommutes(x: bv64, y: bv64)
    ensures And(x, y) == And(y, x)
  {
  }

  lemma AndEnds(x: bv64)
    ensures And(0, x) == 0 && And(FULL, x) == x
  {
  }

  lemma EightTwices(x: bv64)
    ensures Twice(Twice(Twice(Twice(Twice(Twice(Twice(Twice(x)))))))) == Times256(x)
  {
  }

  lemma EightHalves(x: bv64)
    ensures Half(Half(Half(Half(Half(Half(Half(Half(x)))))))) == By256(x)
  {
  }

  lemma HalfAnd(n: bv64, x: bv64)
    ensures And(n, Twice(x)) == 0 ==> And(Half(n), x) == 0
  {
  }

  lemma HalfZero(n: bv64)
    ensures And(n, 1) == 0 && Half(n) == 0 ==> n == 0
  {
  }

  // ---- Bits

  lemma {:induction false} BitsApart(b: nat, c: nat)
    requires b < c
    ensures And(Bit(b), Bit(c)) == 0
    decreases b
  {
    hide And, Twice;
    AndOne(Bit(c - 1));
    if b > 0 {
      BitsApart(b - 1, c - 1);
      AndTwice(Bit(b - 1), Bit(c - 1));
    }
  }

  lemma BitPlus4(b: nat)
    ensures Bit(b + 4) == Twice(Twice(Twice(Twice(Bit(b)))))
  {
    hide Twice;
    assert Bit(b + 2) == Twice(Twice(Bit(b)));
  }

  lemma BitPlus8(b: nat)
    ensures Bit(b + 8) == Times256(Bit(b))
  {
    hide Twice, Times256, Bit;
    BitPlus4(b);
    BitPlus4(b + 4);
    EightTwices(Bit(b));
  }

  lemma Bit63()
    ensures Bit(63) != 0
  {
    BitPlus8(0);
    BitPlus8(8);
    BitPlus8(16);
    BitPlus8(24);
    BitPlus8(32);
    BitPlus8(40);
    BitPlus8(48);
    assert Bit(56) == 0x0100_0000_0000_0000;
    BitPlus4(56);
    assert Bit(63) == Twice(Twice(Twice(Bit(60))));
  }

  lemma {:induction false} BitNotZero(b: nat)
    requires b < WIDTH
    ensures Bit(b) != 0
    decreases WIDTH - b
  {
    hide Twice;
    if b == 63 {
      Bit63();
    } else {
      BitNotZero(b + 1);
      AndOne(0);
    }
  }

  /** Marking a bit takes that one and no other. */
  lemma MarkTakesOne(w: bv64, b: nat, c: nat)
    requires b < WIDTH && c < WIDTH
    ensures Free(Mark(w, b), c) <==> Free(w, c) && b != c
  {
    hide And, Or, Bit;
    if b == c {
      Absorb(w, Bit(b));
      BitNotZero(b);
    } else {
      if b < c { BitsApart(b, c); } else { BitsApart(c, b); }
      AndCommutes(Bit(b), Bit(c));
      AndOr(w, Bit(b), Bit(c));
    }
  }

  lemma ZeroWord(b: nat)
    ensures Free(0, b)
  {
    hide And, Bit;
    AndEnds(Bit(b));
  }

  /** Halving `k` times leaves nothing. */
  predicate Short(n: bv64, k: nat)
    decreases k
  {
    if k == 0 then n == 0 else Short(Half(n), k - 1)
  }

  lemma {:induction false} NoBits(n: bv64, k: nat)
    requires Short(n, k) && forall b :: 0 <= b < k ==> And(n, Bit(b)) == 0
    ensures n == 0
    decreases k
  {
    hide And, Half, Twice;
    if k > 0 {
      assert And(n, Bit(0)) == 0;
      forall b | 0 <= b < k - 1
        ensures And(Half(n), Bit(b)) == 0
      {
        assert And(n, Bit(b + 1)) == 0;
        HalfAnd(n, Bit(b));
      }
      NoBits(Half(n), k - 1);
      HalfZero(n);
    }
  }

  lemma ShortBy4(n: bv64, k: nat)
    ensures Short(n, k + 4) == Short(Half(Half(Half(Half(n)))), k)
  {
    hide Half;
    assert Short(n, k + 4) == Short(Half(Half(n)), k + 2);
  }

  lemma ShortBy8(n: bv64, k: nat)
    ensures Short(n, k + 8) == Short(By256(n), k)
  {
    hide Half, By256;
    EightHalves(n);
    ShortBy4(n, k + 4);
    ShortBy4(Half(Half(Half(Half(n)))), k);
  }

  lemma AllShort(n: bv64)
    ensures Short(n, WIDTH)
  {
    EightBytes(n);
    hide By256;
    ShortBy8(n, 56);
    ShortBy8(By256(n), 48);
    ShortBy8(By256(By256(n)), 40);
    ShortBy8(By256(By256(By256(n))), 32);
    ShortBy8(By256(By256(By256(By256(n)))), 24);
    ShortBy8(By256(By256(By256(By256(By256(n))))), 16);
    ShortBy8(By256(By256(By256(By256(By256(By256(n)))))), 8);
    ShortBy8(By256(By256(By256(By256(By256(By256(By256(n))))))), 0);
  }

  lemma EightBytes(n: bv64)
    ensures By256(By256(By256(By256(By256(By256(By256(By256(n)))))))) == 0
  {
  }

  function Not(w: bv64): bv64 { w ^ 0xFFFF_FFFF_FFFF_FFFF }

  lemma NotAnd(w: bv64, x: bv64)
    requires And(w, x) == x
    ensures And(Not(w), x) == 0
  {
  }

  lemma NotZero(w: bv64)
    ensures Not(w) == 0 ==> w == FULL
  {
  }

  /** -1UL is the word without a free bit. */
  lemma FullHasNone(w: bv64)
    ensures w == FULL <==> forall b :: 0 <= b < WIDTH ==> !Free(w, b)
  {
    hide And, Bit, Not;
    if w == FULL {
      forall b | 0 <= b < WIDTH
        ensures !Free(w, b)
      {
        AndEnds(Bit(b));
        BitNotZero(b);
      }
    } else if forall b :: 0 <= b < WIDTH ==> !Free(w, b) {
      forall b | 0 <= b < WIDTH
        ensures And(Not(w), Bit(b)) == 0
      {
        assert !Free(w, b);
        SingleBit(w, b);
        NotAnd(w, Bit(b));
      }
      AllShort(Not(w));
      NoBits(Not(w), WIDTH);
      NotZero(w);
    }
  }

  /** A word has a bit or has it not. */
  lemma {:induction false} SingleBit(w: bv64, b: nat)
    ensures And(w, Bit(b)) == 0 || And(w, Bit(b)) == Bit(b)
    decreases b
  {
    hide And, Twice, Half;
    if b == 0 {
      LowestBit(w);
    } else {
      SingleBit(Half(w), b - 1);
      HalfTwice(w, Bit(b - 1));
    }
  }

  lemma LowestBit(w: bv64)
    ensures And(w, 1) == 0 || And(w, 1) == 1
  {
  }

  lemma HalfTwice(w: bv64, x: bv64)
    ensures And(w, Twice(x)) == Twice(And(Half(w), x))
    ensures Twice(0) == 0
  {
  }
}
