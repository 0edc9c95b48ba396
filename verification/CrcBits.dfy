/** Multiplication by x of polynomials over two elements, modulo the generator of the checksum:
    32-bit words, the highest bit the highest power.  The operations on words have names so that
    proofs can use their laws without their bits. */
module CrcBits {

  /** The generator of section 3.2.9 of IEEE 802.3 without its leading term. */
  const POLYNOMIAL: bv32 := 0x04C1_1DB7

  function Xor(a: bv32, b: bv32): bv32 { a ^ b }
  function Double(r: bv32): bv32 { r << 1 }
  predicate High(r: bv32) { r & 0x8000_0000 != 0 }

  /** Multiplication by x modulo the generator. */
  function Shift(r: bv32): bv32 {
    if High(r) then Xor(Double(r), POLYNOMIAL) else Double(r)
  }

  function Shift8(r: bv32): bv32 {
    Shift(Shift(Shift(Shift(Shift(Shift(Shift(Shift(r))))))))
  }

  function ShiftBy(r: bv32, n: nat): bv32
    decreases n
  {
    if n == 0 then r else ShiftBy(Shift(r), n - 1)
  }

  // ---- Laws of words

  lemma XorCommutes(a: bv32, b: bv32)
    ensures Xor(a, b) == Xor(b, a)
  {
  }

  lemma XorAssociativeBits(a: bv32, b: bv32, p: bv32)
    ensures a ^ (b ^ p) == (a ^ b) ^ p
  {
  }

  lemma XorAssociative(a: bv32, b: bv32, p: bv32)
    ensures Xor(a, Xor(b, p)) == Xor(Xor(a, b), p)
  {
    XorAssociativeBits(a, b, p);
  }

  lemma XorSelfBits(a: bv32)
    ensures a ^ a == 0 && a ^ 0 == a && 0 ^ a == a
  {
  }

  lemma XorSelf(a: bv32)
    ensures Xor(a, a) == 0 && Xor(a, 0) == a && Xor(0, a) == a
  {
    XorSelfBits(a);
  }

  lemma XorTwiceBits(a: bv32, b: bv32)
    ensures (a ^ b) ^ b == a
  {
  }

  lemma XorTwice(a: bv32, b: bv32)
    ensures Xor(Xor(a, b), b) == a
  {
    XorTwiceBits(a, b);
  }

  lemma XorSwap(a: bv32, b: bv32, p: bv32)
    ensures Xor(Xor(a, p), b) == Xor(Xor(a, b), p)
  {
    hide Xor;
    XorAssociative(a, b, p);
    XorAssociative(a, p, b);
    XorCommutes(b, p);
  }

  lemma XorCancel(a: bv32, b: bv32, p: bv32)
    ensures Xor(Xor(a, p), Xor(b, p)) == Xor(a, b)
  {
    hide Xor;
    XorAssociative(Xor(a, p), b, p);
    XorSwap(a, b, p);
    XorTwice(Xor(a, b), p);
  }

  lemma DoubleBits(a: bv32, b: bv32)
    ensures (a ^ b) << 1 == (a << 1) ^ (b << 1)
    ensures (a ^ b) & 0x8000_0000 == (a & 0x8000_0000) ^ (b & 0x8000_0000)
  {
  }

  lemma HighBit(a: bv32)
    ensures a & 0x8000_0000 == 0 || a & 0x8000_0000 == 0x8000_0000
  {
  }

  lemma DoubleLinear(a: bv32, b: bv32)
    ensures Double(Xor(a, b)) == Xor(Double(a), Double(b))
    ensures High(Xor(a, b)) <==> High(a) != High(b)
  {
    DoubleBits(a, b);
    HighBit(a);
    HighBit(b);
  }

  lemma DoubleZero(a: bv32)
    ensures !High(a) && Double(a) == 0 ==> a == 0
    ensures Double(a) != POLYNOMIAL
  {
    assert Double(a) & 1 == 0;
  }

  lemma XorZero(a: bv32, b: bv32)
    ensures Xor(a, b) == 0 ==> a == b
  {
  }

  // ---- Linearity

  lemma ShiftLinear(a: bv32, b: bv32)
    ensures Shift(Xor(a, b)) == Xor(Shift(a), Shift(b))
  {
    hide Xor, Double, High;
    DoubleLinear(a, b);
    XorSwap(Double(a), Double(b), POLYNOMIAL);
    XorAssociative(Double(a), Double(b), POLYNOMIAL);
    XorCancel(Double(a), Double(b), POLYNOMIAL);
  }

  lemma ShiftPlain(v: bv32)
    requires !High(v)
    ensures Shift(v) == Double(v)
  {
  }

  lemma {:induction false} ShiftByLinear(a: bv32, b: bv32, n: nat)
    ensures ShiftBy(Xor(a, b), n) == Xor(ShiftBy(a, n), ShiftBy(b, n))
    decreases n
  {
    hide Xor, Shift;
    if n > 0 {
      ShiftLinear(a, b);
      ShiftByLinear(Shift(a), Shift(b), n - 1);
    }
  }

  /** Multiplication by x is invertible, because the generator has a constant term. */
  lemma ShiftInjective(a: bv32, b: bv32)
    ensures Shift(a) == Shift(b) ==> a == b
  {
    hide Xor, Double, High;
    if Shift(a) == Shift(b) {
      ShiftLinear(a, b);
      XorSelf(Shift(a));
      var d := Xor(a, b);
      if High(d) {
        XorZero(Double(d), POLYNOMIAL);
      }
      DoubleZero(d);
      XorZero(a, b);
    }
  }

  lemma {:induction false} ShiftByInjective(a: bv32, b: bv32, n: nat)
    ensures ShiftBy(a, n) == ShiftBy(b, n) ==> a == b
    decreases n
  {
    hide Shift;
    if n > 0 {
      ShiftByInjective(Shift(a), Shift(b), n - 1);
      ShiftInjective(a, b);
    }
  }

  lemma {:induction false} ShiftByAfter(r: bv32, n: nat)
    ensures ShiftBy(Shift(r), n) == Shift(ShiftBy(r, n))
    decreases n
  {
    hide Shift;
    if n > 0 { ShiftByAfter(Shift(r), n - 1); }
  }

  lemma {:induction false} ShiftByTwice(r: bv32, m: nat, n: nat)
    ensures ShiftBy(ShiftBy(r, m), n) == ShiftBy(r, m + n)
    decreases m
  {
    hide Shift;
    if m > 0 { ShiftByTwice(Shift(r), m - 1, n); }
  }

  lemma Shift8By(r: bv32)
    ensures Shift8(r) == ShiftBy(r, 8)
  {
    hide Shift;
    assert ShiftBy(r, 8) == ShiftBy(Shift(Shift(Shift(Shift(r)))), 4);
  }

  /** x to the 32nd is the generator without its leading term. */
  lemma Power32()
    ensures ShiftBy(1, 32) == POLYNOMIAL
  {
    Literals();
    hide Shift, Shift8;
    Shift8By(1);
    Shift8By(0x100);
    Shift8By(0x1_0000);
    Shift8By(0x100_0000);
    ShiftByTwice(1, 8, 8);
    ShiftByTwice(1, 16, 8);
    ShiftByTwice(1, 24, 8);
  }

  lemma Literals()
    ensures Shift8(1) == 0x100 && Shift8(0x100) == 0x1_0000 && Shift8(0x1_0000) == 0x100_0000
    ensures Shift8(0x100_0000) == POLYNOMIAL && Shift(0x8000_0000) == POLYNOMIAL
  {
  }
}
