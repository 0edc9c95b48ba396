/** The checksum of fio/crc32.c, and what verification in fio/verify.c can rely on. */
module Crc32 {

  import opened CrcBits

  // ---- crctab, by rows of 16

  function Row0(low: bv8): bv32 {
    match low
    case 0 => 0x00000000 case 1 => 0x04C11DB7 case 2 => 0x09823B6E case 3 => 0x0D4326D9
    case 4 => 0x130476DC case 5 => 0x17C56B6B case 6 => 0x1A864DB2 case 7 => 0x1E475005
    case 8 => 0x2608EDB8 case 9 => 0x22C9F00F case 10 => 0x2F8AD6D6 case 11 => 0x2B4BCB61
    case 12 => 0x350C9B64 case 13 => 0x31CD86D3 case 14 => 0x3C8EA00A case _ => 0x384FBDBD
  }

  function Row1(low: bv8): bv32 {
    match low
    case 0 => 0x4C11DB70 case 1 => 0x48D0C6C7 case 2 => 0x4593E01E case 3 => 0x4152FDA9
    case 4 => 0x5F15ADAC case 5 => 0x5BD4B01B case 6 => 0x569796C2 case 7 => 0x52568B75
    case 8 => 0x6A1936C8 case 9 => 0x6ED82B7F case 10 => 0x639B0DA6 case 11 => 0x675A1011
    case 12 => 0x791D4014 case 13 => 0x7DDC5DA3 case 14 => 0x709F7B7A case _ => 0x745E66CD
  }

  function Row2(low: bv8): bv32 {
    match low
    case 0 => 0x9823B6E0 case 1 => 0x9CE2AB57 case 2 => 0x91A18D8E case 3 => 0x95609039
    case 4 => 0x8B27C03C case 5 => 0x8FE6DD8B case 6 => 0x82A5FB52 case 7 => 0x8664E6E5
    case 8 => 0xBE2B5B58 case 9 => 0xBAEA46EF case 10 => 0xB7A96036 case 11 => 0xB3687D81
    case 12 => 0xAD2F2D84 case 13 => 0xA9EE3033 case 14 => 0xA4AD16EA case _ => 0xA06C0B5D
  }

  function Row3(low: bv8): bv32 {
    match low
    case 0 => 0xD4326D90 case 1 => 0xD0F37027 case 2 => 0xDDB056FE case 3 => 0xD9714B49
    case 4 => 0xC7361B4C case 5 => 0xC3F706FB case 6 => 0xCEB42022 case 7 => 0xCA753D95
    case 8 => 0xF23A8028 case 9 => 0xF6FB9D9F case 10 => 0xFBB8BB46 case 11 => 0xFF79A6F1
    case 12 => 0xE13EF6F4 case 13 => 0xE5FFEB43 case 14 => 0xE8BCCD9A case _ => 0xEC7DD02D
  }

  function Row4(low: bv8): bv32 {
    match low
    case 0 => 0x34867077 case 1 => 0x30476DC0 case 2 => 0x3D044B19 case 3 => 0x39C556AE
    case 4 => 0x278206AB case 5 => 0x23431B1C case 6 => 0x2E003DC5 case 7 => 0x2AC12072
    case 8 => 0x128E9DCF case 9 => 0x164F8078 case 10 => 0x1B0CA6A1 case 11 => 0x1FCDBB16
    case 12 => 0x018AEB13 case 13 => 0x054BF6A4 case 14 => 0x0808D07D case _ => 0x0CC9CDCA
  }

  function Row5(low: bv8): bv32 {
    match low
    case 0 => 0x7897AB07 case 1 => 0x7C56B6B0 case 2 => 0x71159069 case 3 => 0x75D48DDE
    case 4 => 0x6B93DDDB case 5 => 0x6F52C06C case 6 => 0x6211E6B5 case 7 => 0x66D0FB02
    case 8 => 0x5E9F46BF case 9 => 0x5A5E5B08 case 10 => 0x571D7DD1 case 11 => 0x53DC6066
    case 12 => 0x4D9B3063 case 13 => 0x495A2DD4 case 14 => 0x44190B0D case _ => 0x40D816BA
  }

  function Row6(low: bv8): bv32 {
    match low
    case 0 => 0xACA5C697 case 1 => 0xA864DB20 case 2 => 0xA527FDF9 case 3 => 0xA1E6E04E
    case 4 => 0xBFA1B04B case 5 => 0xBB60ADFC case 6 => 0xB6238B25 case 7 => 0xB2E29692
    case 8 => 0x8AAD2B2F case 9 => 0x8E6C3698 case 10 => 0x832F1041 case 11 => 0x87EE0DF6
    case 12 => 0x99A95DF3 case 13 => 0x9D684044 case 14 => 0x902B669D case _ => 0x94EA7B2A
  }

  function Row7(low: bv8): bv32 {
    match low
    case 0 => 0xE0B41DE7 case 1 => 0xE4750050 case 2 => 0xE9362689 case 3 => 0xEDF73B3E
    case 4 => 0xF3B06B3B case 5 => 0xF771768C case 6 => 0xFA325055 case 7 => 0xFEF34DE2
    case 8 => 0xC6BCF05F case 9 => 0xC27DEDE8 case 10 => 0xCF3ECB31 case 11 => 0xCBFFD686
    case 12 => 0xD5B88683 case 13 => 0xD1799B34 case 14 => 0xDC3ABDED case _ => 0xD8FBA05A
  }

  function Row8(low: bv8): bv32 {
    match low
    case 0 => 0x690CE0EE case 1 => 0x6DCDFD59 case 2 => 0x608EDB80 case 3 => 0x644FC637
    case 4 => 0x7A089632 case 5 => 0x7EC98B85 case 6 => 0x738AAD5C case 7 => 0x774BB0EB
    case 8 => 0x4F040D56 case 9 => 0x4BC510E1 case 10 => 0x46863638 case 11 => 0x42472B8F
    case 12 => 0x5C007B8A case 13 => 0x58C1663D case 14 => 0x558240E4 case _ => 0x51435D53
  }

  function Row9(low: bv8): bv32 {
    match low
    case 0 => 0x251D3B9E case 1 => 0x21DC2629 case 2 => 0x2C9F00F0 case 3 => 0x285E1D47
    case 4 => 0x36194D42 case 5 => 0x32D850F5 case 6 => 0x3F9B762C case 7 => 0x3B5A6B9B
    case 8 => 0x0315D626 case 9 => 0x07D4CB91 case 10 => 0x0A97ED48 case 11 => 0x0E56F0FF
    case 12 => 0x1011A0FA case 13 => 0x14D0BD4D case 14 => 0x19939B94 case _ => 0x1D528623
  }

  function RowA(low: bv8): bv32 {
    match low
    case 0 => 0xF12F560E case 1 => 0xF5EE4BB9 case 2 => 0xF8AD6D60 case 3 => 0xFC6C70D7
    case 4 => 0xE22B20D2 case 5 => 0xE6EA3D65 case 6 => 0xEBA91BBC case 7 => 0xEF68060B
    case 8 => 0xD727BBB6 case 9 => 0xD3E6A601 case 10 => 0xDEA580D8 case 11 => 0xDA649D6F
    case 12 => 0xC423CD6A case 13 => 0xC0E2D0DD case 14 => 0xCDA1F604 case _ => 0xC960EBB3
  }

  function RowB(low: bv8): bv32 {
    match low
    case 0 => 0xBD3E8D7E case 1 => 0xB9FF90C9 case 2 => 0xB4BCB610 case 3 => 0xB07DABA7
    case 4 => 0xAE3AFBA2 case 5 => 0xAAFBE615 case 6 => 0xA7B8C0CC case 7 => 0xA379DD7B
    case 8 => 0x9B3660C6 case 9 => 0x9FF77D71 case 10 => 0x92B45BA8 case 11 => 0x9675461F
    case 12 => 0x8832161A case 13 => 0x8CF30BAD case 14 => 0x81B02D74 case _ => 0x857130C3
  }

  function RowC(low: bv8): bv32 {
    match low
    case 0 => 0x5D8A9099 case 1 => 0x594B8D2E case 2 => 0x5408ABF7 case 3 => 0x50C9B640
    case 4 => 0x4E8EE645 case 5 => 0x4A4FFBF2 case 6 => 0x470CDD2B case 7 => 0x43CDC09C
    case 8 => 0x7B827D21 case 9 => 0x7F436096 case 10 => 0x7200464F case 11 => 0x76C15BF8
    case 12 => 0x68860BFD case 13 => 0x6C47164A case 14 => 0x61043093 case _ => 0x65C52D24
  }

  function RowD(low: bv8): bv32 {
    match low
    case 0 => 0x119B4BE9 case 1 => 0x155A565E case 2 => 0x18197087 case 3 => 0x1CD86D30
    case 4 => 0x029F3D35 case 5 => 0x065E2082 case 6 => 0x0B1D065B case 7 => 0x0FDC1BEC
    case 8 => 0x3793A651 case 9 => 0x3352BBE6 case 10 => 0x3E119D3F case 11 => 0x3AD08088
    case 12 => 0x2497D08D case 13 => 0x2056CD3A case 14 => 0x2D15EBE3 case _ => 0x29D4F654
  }

  function RowE(low: bv8): bv32 {
    match low
    case 0 => 0xC5A92679 case 1 => 0xC1683BCE case 2 => 0xCC2B1D17 case 3 => 0xC8EA00A0
    case 4 => 0xD6AD50A5 case 5 => 0xD26C4D12 case 6 => 0xDF2F6BCB case 7 => 0xDBEE767C
    case 8 => 0xE3A1CBC1 case 9 => 0xE760D676 case 10 => 0xEA23F0AF case 11 => 0xEEE2ED18
    case 12 => 0xF0A5BD1D case 13 => 0xF464A0AA case 14 => 0xF9278673 case _ => 0xFDE69BC4
  }

  function RowF(low: bv8): bv32 {
    match low
    case 0 => 0x89B8FD09 case 1 => 0x8D79E0BE case 2 => 0x803AC667 case 3 => 0x84FBDBD0
    case 4 => 0x9ABC8BD5 case 5 => 0x9E7D9662 case 6 => 0x933EB0BB case 7 => 0x97FFAD0C
    case 8 => 0xAFB010B1 case 9 => 0xAB710D06 case 10 => 0xA6322BDF case 11 => 0xA2F33668
    case 12 => 0xBCB4666D case 13 => 0xB8757BDA case 14 => 0xB5365D03 case _ => 0xB1F740B4
  }

  function CrcTab(b: bv8): bv32 {
    var low := b & 0x0F;
    match b >> 4
    case 0 => Row0(low)
    case 1 => Row1(low)
    case 2 => Row2(low)
    case 3 => Row3(low)
    case 4 => Row4(low)
    case 5 => Row5(low)
    case 6 => Row6(low)
    case 7 => Row7(low)
    case 8 => Row8(low)
    case 9 => Row9(low)
    case 10 => RowA(low)
    case 11 => RowB(low)
    case 12 => RowC(low)
    case 13 => RowD(low)
    case 14 => RowE(low)
    case _ => RowF(low)
  }

  /** One round of the loop.  The accumulator is an unsigned long and is never cut to 32 bits. */
  function Step(crc: bv64, b: bv8): bv64 {
    (crc << 8) ^ (CrcTab((((crc >> 24) ^ (b as bv64)) & 0xFF) as bv8) as bv64)
  }

  function Crc(crc: bv64, s: seq<bv8>): bv64
    decreases |s|
  {
    if s == [] then crc else Crc(Step(crc, s[0]), s[1..])
  }

  lemma {:induction false} CrcAppend(crc: bv64, a: seq<bv8>, b: seq<bv8>)
    ensures Crc(crc, a + b) == Crc(Crc(crc, a), b)
    decreases |a|
  {
    if a == [] {
      assert a + b == b;
    } else {
      assert (a + b)[1..] == a[1..] + b;
      CrcAppend(Step(crc, a[0]), a[1..], b);
    }
  }

  /** crc32(buffer + start, length). */
  method Compute(buffer: array<bv8>, start: nat, length: nat) returns (crc: bv64)
    requires start + length <= buffer.Length
    ensures crc == Crc(0, buffer[start..start + length])
  {
    hide Step;
    crc := 0;
    var cp := start;
    var left := length;
    while left > 0
      invariant start <= cp && cp + left == start + length
      invariant crc == Crc(0, buffer[start..cp])
    {
      left := left - 1;
      assert buffer[start..cp + 1] == buffer[start..cp] + [buffer[cp]];
      CrcAppend(0, buffer[start..cp], [buffer[cp]]);
      crc := Step(crc, buffer[cp]);
      cp := cp + 1;
    }
  }

  // ---- Division of polynomials over two elements, a bit at a time

  /** Long division: the remainder after the bits so far, when the next bit comes down. */
  function BringDown(r: bv32, bit: bool): bv32 {
    Xor(Shift(r), if bit then 1 else 0)
  }

  function Divide(r: bv32, bits: seq<bool>): bv32
    decreases |bits|
  {
    if bits == [] then r else Divide(BringDown(r, bits[0]), bits[1..])
  }

  /** The `k` highest bits of `v`, highest first. */
  function HighBits(v: bv32, k: nat): seq<bool>
    decreases k
  {
    if k == 0 then [] else [High(v)] + HighBits(Double(v), k - 1)
  }

  function Bits(s: seq<bv8>): seq<bool> {
    if s == [] then [] else HighBits(Up(s[0]), 8) + Bits(s[1..])
  }

  function Zeros(n: nat): seq<bool> {
    if n == 0 then [] else [false] + Zeros(n - 1)
  }

  function Low(crc: bv64): bv32 { (crc & 0xFFFF_FFFF) as bv32 }

  function Up(b: bv8): bv32 { (b as bv32) << 24 }

  /** A byte at a time, on 32 bits. */
  function ByteStep(r: bv32, b: bv8): bv32 {
    Shift8(Xor(r, Up(b)))
  }

  function ByteSteps(r: bv32, s: seq<bv8>): bv32
    decreases |s|
  {
    if s == [] then r else ByteSteps(ByteStep(r, s[0]), s[1..])
  }

  // ---- The table

  lemma Row0Ok(low: bv8)
    requires low < 16
    ensures Row0(low) == Shift8(0x0000_0000 ^ ((low as bv32) << 24))
  {
  }

  lemma Row1Ok(low: bv8)
    requires low < 16
    ensures Row1(low) == Shift8(0x1000_0000 ^ ((low as bv32) << 24))
  {
  }

  lemma Row2Ok(low: bv8)
    requires low < 16
    ensures Row2(low) == Shift8(0x2000_0000 ^ ((low as bv32) << 24))
  {
  }

  lemma Row3Ok(low: bv8)
    requires low < 16
    ensures Row3(low) == Shift8(0x3000_0000 ^ ((low as bv32) << 24))
  {
  }

  lemma Row4Ok(low: bv8)
    requires low < 16
    ensures Row4(low) == Shift8(0x4000_0000 ^ ((low as bv32) << 24))
  {
  }

  lemma Row5Ok(low: bv8)
    requires low < 16
    ensures Row5(low) == Shift8(0x5000_0000 ^ ((low as bv32) << 24))
  {
  }

  lemma Row6Ok(low: bv8)
    requires low < 16
    ensures Row6(low) == Shift8(0x6000_0000 ^ ((low as bv32) << 24))
  {
  }

  lemma Row7Ok(low: bv8)
    requires low < 16
    ensures Row7(low) == Shift8(0x7000_0000 ^ ((low as bv32) << 24))
  {
  }

  lemma Row8Ok(low: bv8)
    requires low < 16
    ensures Row8(low) == Shift8(0x8000_0000 ^ ((low as bv32) << 24))
  {
  }

  lemma Row9Ok(low: bv8)
    requires low < 16
    ensures Row9(low) == Shift8(0x9000_0000 ^ ((low as bv32) << 24))
  {
  }

  lemma RowAOk(low: bv8)
    requires low < 16
    ensures RowA(low) == Shift8(0xA000_0000 ^ ((low as bv32) << 24))
  {
  }

  lemma RowBOk(low: bv8)
    requires low < 16
    ensures RowB(low) == Shift8(0xB000_0000 ^ ((low as bv32) << 24))
  {
  }

  lemma RowCOk(low: bv8)
    requires low < 16
    ensures RowC(low) == Shift8(0xC000_0000 ^ ((low as bv32) << 24))
  {
  }

  lemma RowDOk(low: bv8)
    requires low < 16
    ensures RowD(low) == Shift8(0xD000_0000 ^ ((low as bv32) << 24))
  {
  }

  lemma RowEOk(low: bv8)
    requires low < 16
    ensures RowE(low) == Shift8(0xE000_0000 ^ ((low as bv32) << 24))
  {
  }

  lemma RowFOk(low: bv8)
    requires low < 16
    ensures RowF(low) == Shift8(0xF000_0000 ^ ((low as bv32) << 24))
  {
  }

  lemma TableIsDivision(b: bv8)
    ensures CrcTab(b) == Shift8(Up(b))
  {
    hide Shift8;
    var low := b & 0x0F;
    assert low < 16;
    match b >> 4
    case 0 => Row0Ok(low);
    case 1 => Row1Ok(low);
    case 2 => Row2Ok(low);
    case 3 => Row3Ok(low);
    case 4 => Row4Ok(low);
    case 5 => Row5Ok(low);
    case 6 => Row6Ok(low);
    case 7 => Row7Ok(low);
    case 8 => Row8Ok(low);
    case 9 => Row9Ok(low);
    case 10 => RowAOk(low);
    case 11 => RowBOk(low);
    case 12 => RowCOk(low);
    case 13 => RowDOk(low);
    case 14 => RowEOk(low);
    case _ => RowFOk(low);
  }

  // ---- The loop on the low 32 bits

  function Index(crc: bv64, b: bv8): bv8 { (((crc >> 24) ^ (b as bv64)) & 0xFF) as bv8 }

  function Rest(r: bv32): bv32 { r & 0x00FF_FFFF }

  function TopByte(x: bv32): bv8 { (x >> 24) as bv8 }
  function Times16(v: bv32): bv32 { v << 4 }
  function Times256(v: bv32): bv32 { v << 8 }
  predicate Clear4(v: bv32) { v & 0xF000_0000 == 0 }
  predicate Clear8(v: bv32) { v & 0xFF00_0000 == 0 }

  lemma StepBits(crc: bv64, t: bv32)
    ensures Low((crc << 8) ^ (t as bv64)) == Xor(Times256(Rest(Low(crc))), t)
  {
  }

  lemma StepParts(crc: bv64, b: bv8)
    ensures Low(Step(crc, b)) == Xor(Times256(Rest(Low(crc))), CrcTab(Index(crc, b)))
  {
    hide CrcTab, Low, Xor, Times256, Rest;
    StepBits(crc, CrcTab(Index(crc, b)));
  }

  lemma SameTop(crc: bv64, b: bv8)
    ensures TopByte(Xor(Low(crc), Up(b))) == Index(crc, b)
  {
  }

  lemma SameRest(crc: bv64, b: bv8)
    ensures Rest(Xor(Low(crc), Up(b))) == Rest(Low(crc))
  {
  }

  lemma TopAndRest(x: bv32)
    ensures x == Xor(Up(TopByte(x)), Rest(x))
  {
  }

  lemma RestClear(r: bv32)
    ensures Clear8(Rest(r))
  {
  }

  lemma ClearParts(v: bv32)
    requires Clear8(v)
    ensures Clear4(v) && Clear4(Times16(v)) && Times16(Times16(v)) == Times256(v)
  {
  }

  lemma FourShifts(v: bv32)
    requires Clear4(v)
    ensures Shift(Shift(Shift(Shift(v)))) == Times16(v)
  {
  }

  lemma EightShifts(v: bv32)
    requires Clear8(v)
    ensures Shift8(v) == Times256(v)
  {
    hide Shift, Times16, Times256, Clear4, Clear8;
    ClearParts(v);
    FourShifts(v);
    FourShifts(Times16(v));
  }

  lemma Shift8Linear(a: bv32, b: bv32)
    ensures Shift8(Xor(a, b)) == Xor(Shift8(a), Shift8(b))
  {
    hide Xor, Shift8;
    Shift8By(a);
    Shift8By(b);
    Shift8By(Xor(a, b));
    ShiftByLinear(a, b, 8);
  }

  /** The low word of the accumulator never depends on its high word. */
  lemma StepLow(crc: bv64, b: bv8)
    ensures Low(Step(crc, b)) == ByteStep(Low(crc), b)
  {
    hide Low, Step, CrcTab, Xor, Up, Index, Rest, TopByte, Times256, Shift8;
    var x, i, rest := Xor(Low(crc), Up(b)), Index(crc, b), Rest(Low(crc));
    StepParts(crc, b);
    SameTop(crc, b);
    SameRest(crc, b);
    TopAndRest(x);
    Shift8Linear(Up(i), rest);
    TableIsDivision(i);
    RestClear(Low(crc));
    EightShifts(rest);
    XorCommutes(Shift8(Up(i)), Times256(rest));
  }

  lemma {:induction false} CrcLow(crc: bv64, s: seq<bv8>)
    ensures Low(Crc(crc, s)) == ByteSteps(Low(crc), s)
    decreases |s|
  {
    hide Low, Step, ByteStep;
    if s != [] {
      StepLow(crc, s[0]);
      CrcLow(Step(crc, s[0]), s[1..]);
    }
  }

  // ---- The loop is long division

  lemma {:induction false} DivideAppend(r: bv32, a: seq<bool>, b: seq<bool>)
    ensures Divide(r, a + b) == Divide(Divide(r, a), b)
    decreases |a|
  {
    hide BringDown;
    if a == [] {
      assert a + b == b;
    } else {
      assert (a + b)[1..] == a[1..] + b;
      DivideAppend(BringDown(r, a[0]), a[1..], b);
    }
  }

  lemma {:induction false} DivideZeros(r: bv32, n: nat)
    ensures Divide(r, Zeros(n)) == ShiftBy(r, n)
    decreases n
  {
    hide Xor, Shift;
    if n > 0 {
      assert Zeros(n)[0] == false && Zeros(n)[1..] == Zeros(n - 1);
      XorSelf(Shift(r));
      DivideZeros(Shift(r), n - 1);
    }
  }

  function Top(bit: bool): bv32 { if bit then 0x8000_0000 else 0 }

  lemma ShiftZero(n: nat)
    ensures Shift(0) == 0 && ShiftBy(0, n) == 0
    decreases n
  {
    assert Shift(0) == 0;
    if n > 0 { ShiftZero(n - 1); }
  }

  /** A bit brought down and pushed 32 places up is a bit put in at the top. */
  lemma BringDownUp(r: bv32, bit: bool)
    ensures ShiftBy(BringDown(r, bit), 32) == Shift(Xor(ShiftBy(r, 32), Top(bit)))
  {
    Literals();
    hide Xor, Shift, Shift8;
    var z := ShiftBy(r, 32);
    ShiftByLinear(Shift(r), if bit then 1 else 0, 32);
    ShiftByAfter(r, 32);
    ShiftLinear(z, Top(bit));
    Power32();
    ShiftZero(32);
  }

  function Below(v: bv32): bv32 { v & 0x7FFF_FFFF }

  lemma BelowPlain(v: bv32)
    ensures !High(Below(v)) && Double(Below(v)) == Double(v)
  {
  }

  lemma TopBit(v: bv32)
    ensures v & 0x8000_0000 == 0 ==> v == Below(v)
    ensures v & 0x8000_0000 != 0 ==> v == 0x8000_0000 ^ Below(v)
  {
  }

  lemma TopAndBelow(v: bv32)
    ensures v == Xor(Top(High(v)), Below(v))
  {
    TopBit(v);
    XorSelf(Below(v));
    hide Below;
  }

  /** `v` has no bits below its `k` highest. */
  predicate Fits(v: bv32, k: nat)
    decreases k
  {
    if k == 0 then v == 0 else Fits(Double(v), k - 1)
  }

  lemma {:induction false} DivideHighBits(r: bv32, v: bv32, k: nat)
    requires Fits(v, k)
    ensures ShiftBy(Divide(r, HighBits(v, k)), 32) == ShiftBy(Xor(ShiftBy(r, 32), v), k)
    decreases k
  {
    hide Xor, Shift, Double, High, Below, BringDown, Top;
    var z := ShiftBy(r, 32);
    if k == 0 {
      XorSelf(z);
    } else {
      var bit := High(v);
      var bits := HighBits(v, k);
      assert bits[0] == bit && bits[1..] == HighBits(Double(v), k - 1);
      DivideHighBits(BringDown(r, bit), Double(v), k - 1);
      BringDownUp(r, bit);
      TopAndBelow(v);
      BelowPlain(v);
      ShiftPlain(Below(v));
      ShiftLinear(Xor(z, Top(bit)), Below(v));
      XorAssociative(z, Top(bit), Below(v));
    }
  }

  lemma FitsUp(b: bv8)
    ensures Fits(Up(b), 8)
  {
    EightDoubles(b);
    hide Up, Double;
    var v := Up(b);
    assert Fits(v, 8) == Fits(Double(Double(Double(Double(v)))), 4);
  }

  lemma EightDoubles(b: bv8)
    ensures Double(Double(Double(Double(Double(Double(Double(Double(Up(b)))))))) ) == 0
  {
  }

  lemma {:induction false} DivideBytes(r: bv32, s: seq<bv8>)
    ensures ShiftBy(Divide(r, Bits(s)), 32) == ByteSteps(ShiftBy(r, 32), s)
    decreases |s|
  {
    hide Xor, Shift, Shift8, Up, BringDown;
    if s != [] {
      var bits := HighBits(Up(s[0]), 8);
      DivideAppend(r, bits, Bits(s[1..]));
      DivideBytes(Divide(r, bits), s[1..]);
      FitsUp(s[0]);
      DivideHighBits(r, Up(s[0]), 8);
      Shift8By(Xor(ShiftBy(r, 32), Up(s[0])));
    }
  }

  /** The low 32 bits of the checksum are the remainder of long division of the bits of the buffer,
      32 zeros added, by the generator; there is no start value and no final complement. */
  lemma CrcIsRemainder(s: seq<bv8>)
    ensures Low(Crc(0, s)) == Divide(0, Bits(s) + Zeros(32))
  {
    hide Crc, Step, Divide, ByteSteps, Zeros;
    CrcLow(0, s);
    DivideAppend(0, Bits(s), Zeros(32));
    DivideZeros(Divide(0, Bits(s)), 32);
    DivideBytes(0, s);
    ShiftZero(32);
  }

  // ---- Bursts

  lemma ByteInjective(r: bv32, q: bv32, b: bv8)
    ensures ByteStep(r, b) == ByteStep(q, b) ==> r == q
  {
    hide Xor, Shift8, Up;
    Shift8By(Xor(r, Up(b)));
    Shift8By(Xor(q, Up(b)));
    ShiftByInjective(Xor(r, Up(b)), Xor(q, Up(b)), 8);
    XorTwice(r, Up(b));
    XorTwice(q, Up(b));
  }

  lemma {:induction false} BytesInjective(r: bv32, q: bv32, s: seq<bv8>)
    ensures ByteSteps(r, s) == ByteSteps(q, s) ==> r == q
    decreases |s|
  {
    hide ByteStep;
    if s != [] {
      BytesInjective(ByteStep(r, s[0]), ByteStep(q, s[0]), s[1..]);
      ByteInjective(r, q, s[0]);
    }
  }

  lemma {:induction false} BytesAppend(r: bv32, a: seq<bv8>, b: seq<bv8>)
    ensures ByteSteps(r, a + b) == ByteSteps(ByteSteps(r, a), b)
    decreases |a|
  {
    hide ByteStep;
    if a == [] {
      assert a + b == b;
    } else {
      assert (a + b)[1..] == a[1..] + b;
      BytesAppend(ByteStep(r, a[0]), a[1..], b);
    }
  }

  function Down(v: bv32): bv32 { v >> 8 }

  /** Up to four bytes as the high bytes of a word. */
  function Pack(s: seq<bv8>): bv32
    requires |s| <= 4
    decreases |s|
  {
    if s == [] then 0 else Xor(Up(s[0]), Down(Pack(s[1..])))
  }

  /** The `n` low bytes are zero. */
  predicate LowBytesClear(v: bv32, n: nat) {
    match n
    case 0 => true
    case 1 => v & 0xFF == 0
    case 2 => v & 0xFFFF == 0
    case 3 => v & 0x00FF_FFFF == 0
    case _ => v == 0
  }

  lemma DownClear(b: bv8, v: bv32, n: nat)
    requires n <= 3 && LowBytesClear(v, n + 1)
    ensures LowBytesClear(Xor(Up(b), Down(v)), n)
  {
  }

  lemma {:induction false} PackClear(s: seq<bv8>)
    requires |s| <= 4
    ensures LowBytesClear(Pack(s), 4 - |s|)
    decreases |s|
  {
    hide Xor, Up, Down;
    if s != [] {
      PackClear(s[1..]);
      DownClear(s[0], Pack(s[1..]), 4 - |s|);
    }
  }

  lemma DownUp(v: bv32)
    requires v & 0xFF == 0
    ensures Clear8(Down(v)) && Times256(Down(v)) == v
  {
  }

  lemma LowClear(v: bv32, n: nat)
    requires n > 0 && LowBytesClear(v, n)
    ensures v & 0xFF == 0
  {
  }

  lemma {:induction false} PackSteps(r: bv32, s: seq<bv8>)
    requires |s| <= 4
    ensures ByteSteps(r, s) == ShiftBy(Xor(r, Pack(s)), 8 * |s|)
    decreases |s|
  {
    hide Xor, Shift, Shift8, Up, Down, Times256, Clear8, LowBytesClear;
    if s == [] {
      XorSelf(r);
    } else {
      var rest, x := s[1..], Xor(r, Up(s[0]));
      var v := Down(Pack(rest));
      PackSteps(ByteStep(r, s[0]), rest);
      PackClear(rest);
      LowClear(Pack(rest), 4 - |rest|);
      DownUp(Pack(rest));
      EightShifts(v);
      Shift8Linear(x, v);
      Shift8By(Xor(x, v));
      XorAssociative(r, Up(s[0]), v);
      ShiftByTwice(Xor(x, v), 8, 8 * |rest|);
    }
  }

  lemma Unpack(b: bv8, v: bv32)
    requires v & 0xFF == 0
    ensures TopByte(Xor(Up(b), Down(v))) == b
    ensures Times256(Xor(Up(b), Down(v))) == v
  {
  }

  lemma {:induction false} PackInjective(s: seq<bv8>, t: seq<bv8>)
    requires |s| == |t| <= 4 && Pack(s) == Pack(t)
    ensures s == t
    decreases |s|
  {
    hide Xor, Up, Down, TopByte, Times256, LowBytesClear;
    if s != [] {
      PackClear(s[1..]);
      PackClear(t[1..]);
      LowClear(Pack(s[1..]), 5 - |s|);
      LowClear(Pack(t[1..]), 5 - |s|);
      Unpack(s[0], Pack(s[1..]));
      Unpack(t[0], Pack(t[1..]));
      PackInjective(s[1..], t[1..]);
      assert s == [s[0]] + s[1..] && t == [t[0]] + t[1..];
    }
  }

  lemma ShortBurst(before: seq<bv8>, s: seq<bv8>, t: seq<bv8>, after: seq<bv8>)
    requires |s| == |t| <= 4 && s != t
    ensures Low(Crc(0, before + s + after)) != Low(Crc(0, before + t + after))
  {
    hide Crc, ByteSteps, Pack, Xor, ShiftBy;
    CrcLow(0, before + s + after);
    CrcLow(0, before + t + after);
    BytesAppend(0, before + s, after);
    BytesAppend(0, before + t, after);
    BytesAppend(0, before, s);
    BytesAppend(0, before, t);
    var r := ByteSteps(0, before);
    BytesInjective(ByteSteps(r, s), ByteSteps(r, t), after);
    PackSteps(r, s);
    PackSteps(r, t);
    ShiftByInjective(Xor(r, Pack(s)), Xor(r, Pack(t)), 8 * |s|);
    if Xor(r, Pack(s)) == Xor(r, Pack(t)) {
      XorCommutes(r, Pack(s));
      XorCommutes(r, Pack(t));
      XorTwice(Pack(s), r);
      XorTwice(Pack(t), r);
      PackInjective(s, t);
    }
  }

  /** The buffers differ in one or more of the four bytes from place `i`, and nowhere else. */
  ghost predicate Burst(a: seq<bv8>, b: seq<bv8>, i: nat) {
    |a| == |b| && a != b && forall j :: 0 <= j < |a| && (j < i || i + 4 <= j) ==> a[j] == b[j]
  }

  /** Changing a buffer of any length in one or more of four consecutive bytes, and nowhere else,
      changes its checksum. */
  lemma BurstChangesCrc(a: seq<bv8>, b: seq<bv8>, i: nat)
    requires Burst(a, b, i)
    ensures Crc(0, a) != Crc(0, b)
  {
    hide Crc, Low;
    var lo := if i < |a| then i else |a|;
    var hi := if i + 4 < |a| then i + 4 else |a|;
    var s, t := a[lo..hi], b[lo..hi];
    assert a[..lo] == b[..lo] && a[hi..] == b[hi..];
    assert a == a[..lo] + s + a[hi..] && b == a[..lo] + t + a[hi..];
    ShortBurst(a[..lo], s, t, a[hi..]);
  }

  // ---- Verification in fio

  /** fill_crc32: the checksum kept in the header. */
  method FillCrc32(buffer: array<bv8>, start: nat, length: nat) returns (crc: bv64)
    requires start + length <= buffer.Length
    ensures crc == Crc(0, buffer[start..start + length])
  {
    crc := Compute(buffer, start, length);
  }

  /** verify_io_u_crc32 for a header of `header` bytes that states `length` bytes in all: 0 if the
      checksum agrees with the one in the header.  It never accepts a buffer that differs from the
      one the header was made for only within four consecutive bytes. */
  method VerifyIoUCrc32(buffer: array<bv8>, header: nat, length: nat, crc: bv64) returns (ret: int)
    requires header <= length <= buffer.Length
    ensures ret == 0 <==> Crc(0, buffer[header..length]) == crc
    ensures ret == 0 || ret == 1
    ensures forall good: seq<bv8>, i: nat ::
              Burst(good, buffer[header..length], i) && crc == Crc(0, good) ==> ret == 1
  {
    hide Crc;
    var c := Compute(buffer, header, length - header);
    forall good: seq<bv8>, i: nat | Burst(good, buffer[header..length], i)
      ensures Crc(0, good) != Crc(0, buffer[header..length])
    {
      BurstChangesCrc(good, buffer[header..length], i);
    }
    if c != crc {
      return 1;
    }
    return 0;
  }
}
