/** The checksum loop on 32-bit machine words, with the shifts and masks of the source: the bit lists of `Crc32c` are these words, and the
    check value of the CRC comes out. */
module Crc32cWords {
  import opened Crc32c
  import opened Folding

  function Odd(x: bv32): bool {
    x & 1 != 0
  }

  function Half(x: bv32): bv32 {
    x >> 1
  }

  function Both(x: bv32, y: bv32): bv32 {
    x ^ y
  }

  /** The lowest `n` bits of a machine word, the least significant first. */
  function LowBits(x: bv32, n: nat): (r: seq<bool>)
    ensures |r| == n
    decreases n
  {
    if n == 0 then [] else [Odd(x)] + LowBits(Half(x), n - 1)
  }

  function Bits(x: bv32): Word {
    LowBits(x, 32)
  }

  /** One turn of the inner loop. */
  function Step(x: bv32): bv32 {
    (x >> 1) ^ (if x & 1 != 0 then 0x82f6_3b78 else 0)
  }

  function Steps(x: bv32, n: nat): bv32
    decreases n
  {
    if n == 0 then x else Steps(Step(x), n - 1)
  }

  function Loop(x: bv32, bytes: seq<bv32>): bv32
    decreases |bytes|
  {
    if bytes == [] then x else Loop(Steps(x ^ bytes[0], 8), bytes[1..])
  }

  function Crc(bytes: seq<bv32>): bv32 {
    Loop(0xffff_ffff, bytes) ^ 0xffff_ffff
  }

  function AllBits(bytes: seq<bv32>): (r: seq<Word>)
    ensures |r| == |bytes| && forall i :: 0 <= i < |r| ==> r[i] == Bits(bytes[i])
  {
    seq(|bytes|, i requires 0 <= i < |bytes| => Bits(bytes[i]))
  }

  // ---------------------------------------------------------------- words are bits

  function Halved(x: bv32, n: nat): bv32
    decreases n
  {
    if n == 0 then x else Halved(Half(x), n - 1)
  }

  lemma {:induction false} LowBitsMore(x: bv32, n: nat)
    ensures LowBits(x, n + 1) == LowBits(x, n) + [Odd(Halved(x, n))]
    decreases n
  {
    hide Odd, Half;
    if n > 0 {
      LowBitsMore(Half(x), n - 1);
      assert LowBits(x, n + 1) == [Odd(x)] + LowBits(Half(x), n);
    }
  }

  lemma {:induction false} HalvedTwice(x: bv32, m: nat, n: nat)
    ensures Halved(x, m + n) == Halved(Halved(x, m), n)
    decreases m
  {
    hide Half;
    if m > 0 { HalvedTwice(Half(x), m - 1, n); }
  }

  lemma HalvedByByte(x: bv32)
    ensures Halved(x, 8) == x >> 8
  {
  }

  lemma AllHalved(x: bv32)
    ensures Halved(x, 32) == 0
  {
    HalvedTwice(x, 8, 24);
    HalvedTwice(x >> 8, 8, 16);
    HalvedTwice(x >> 8 >> 8, 8, 8);
    hide Halved;
    HalvedByByte(x);
    HalvedByByte(x >> 8);
    HalvedByByte(x >> 8 >> 8);
    HalvedByByte(x >> 8 >> 8 >> 8);
  }

  lemma {:induction false} LowBitsSplit(x: bv32, m: nat, n: nat)
    ensures LowBits(x, m + n) == LowBits(x, m) + LowBits(Halved(x, m), n)
    decreases m
  {
    hide Odd, Half;
    if m > 0 {
      LowBitsSplit(Half(x), m - 1, n);
      assert LowBits(x, m + n) == [Odd(x)] + LowBits(Half(x), m - 1 + n);
    }
  }

  lemma SplitFour(w: bv32, x: bv32, y: bv32, z: bv32)
    requires Halved(w, 8) == x && Halved(x, 8) == y && Halved(y, 8) == z
    ensures LowBits(w, 32) == LowBits(w, 8) + (LowBits(x, 8) + (LowBits(y, 8) + LowBits(z, 8)))
  {
    hide LowBits, Halved;
    LowBitsSplit(w, 8, 24);
    LowBitsSplit(x, 8, 16);
    LowBitsSplit(y, 8, 8);
  }

  lemma {:induction false} LowBitAt(x: bv32, n: nat, i: nat)
    requires i < n
    ensures LowBits(x, n)[i] == Odd(Halved(x, i))
    decreases n
  {
    hide Odd, Half;
    if i > 0 { LowBitAt(Half(x), n - 1, i - 1); }
  }

  /** The eight bits of a byte, one by one. */
  predicate Shows(x: bv32, b: seq<bool>)
    requires |b| == 8
  {
    && Odd(Halved(x, 0)) == b[0] && Odd(Halved(x, 1)) == b[1] && Odd(Halved(x, 2)) == b[2] && Odd(Halved(x, 3)) == b[3]
    && Odd(Halved(x, 4)) == b[4] && Odd(Halved(x, 5)) == b[5] && Odd(Halved(x, 6)) == b[6] && Odd(Halved(x, 7)) == b[7]
  }

  lemma ShownByte(x: bv32, b: seq<bool>)
    requires |b| == 8 && Shows(x, b)
    ensures LowBits(x, 8) == b
  {
    hide Odd, Halved, LowBits;
    forall i | 0 <= i < 8 ensures LowBits(x, 8)[i] == b[i] { LowBitAt(x, 8, i); }
  }

  lemma PolynomialByte0()
    ensures LowBits(0x82f6_3b78, 8) == [false, false, false, true, true, true, true, false] && Halved(0x82f6_3b78, 8) == 0x82_f63b
  {
    ShownByte(0x82f6_3b78, [false, false, false, true, true, true, true, false]);
    HalvedByByte(0x82f6_3b78);
  }

  lemma PolynomialByte1()
    ensures LowBits(0x82_f63b, 8) == [true, true, false, true, true, true, false, false] && Halved(0x82_f63b, 8) == 0x82f6
  {
    ShownByte(0x82_f63b, [true, true, false, true, true, true, false, false]);
    HalvedByByte(0x82_f63b);
  }

  lemma PolynomialByte2()
    ensures LowBits(0x82f6, 8) == [false, true, true, false, true, true, true, true] && Halved(0x82f6, 8) == 0x82
  {
    ShownByte(0x82f6, [false, true, true, false, true, true, true, true]);
    HalvedByByte(0x82f6);
  }

  lemma PolynomialByte3()
    ensures LowBits(0x82, 8) == [false, true, false, false, false, false, false, true] && Halved(0x82, 8) == 0x0
  {
    ShownByte(0x82, [false, true, false, false, false, false, false, true]);
    HalvedByByte(0x82);
  }

  lemma PolynomialBits()
    ensures POLYNOMIAL == Bits(0x82f6_3b78)
  {
    hide LowBits, Halved;
    PolynomialByte0();
    PolynomialByte1();
    PolynomialByte2();
    PolynomialByte3();
    SplitFour(0x82f6_3b78, 0x82_f63b, 0x82f6, 0x82);
  }

  predicate AllSet(bits: seq<bool>) {
    forall i :: 0 <= i < |bits| ==> bits[i]
  }

  lemma OnesByte0()
    ensures AllSet(LowBits(0xffff_ffff, 8)) && Halved(0xffff_ffff, 8) == 0xff_ffff
  {
    ShownByte(0xffff_ffff, [true, true, true, true, true, true, true, true]);
    HalvedByByte(0xffff_ffff);
  }

  lemma OnesByte1()
    ensures AllSet(LowBits(0xff_ffff, 8)) && Halved(0xff_ffff, 8) == 0xffff
  {
    ShownByte(0xff_ffff, [true, true, true, true, true, true, true, true]);
    HalvedByByte(0xff_ffff);
  }

  lemma OnesByte2()
    ensures AllSet(LowBits(0xffff, 8)) && Halved(0xffff, 8) == 0xff
  {
    ShownByte(0xffff, [true, true, true, true, true, true, true, true]);
    HalvedByByte(0xffff);
  }

  lemma OnesByte3()
    ensures AllSet(LowBits(0xff, 8)) && Halved(0xff, 8) == 0x0
  {
    ShownByte(0xff, [true, true, true, true, true, true, true, true]);
    HalvedByByte(0xff);
  }

  lemma OnesBits()
    ensures ONES == Bits(0xffff_ffff)
  {
    hide LowBits, Halved;
    OnesByte0();
    OnesByte1();
    OnesByte2();
    OnesByte3();
    SplitFour(0xffff_ffff, 0xff_ffff, 0xffff, 0xff);
    assert AllSet(LowBits(0xffff, 8) + LowBits(0xff, 8));
    assert AllSet(LowBits(0xff_ffff, 8) + (LowBits(0xffff, 8) + LowBits(0xff, 8)));
    assert AllSet(Bits(0xffff_ffff));
    SameBits(ONES, Bits(0xffff_ffff));
  }

  lemma {:induction false} NoBits(n: nat)
    ensures forall i :: 0 <= i < n ==> !LowBits(0, n)[i]
  {
    if n > 0 { NoBits(n - 1); }
  }

  lemma ZeroBits()
    ensures ZERO == Bits(0)
  {
    NoBits(32);
    SameBits(ZERO, Bits(0));
  }

  lemma BothHalves(x: bv32, y: bv32)
    ensures Half(Both(x, y)) == Both(Half(x), Half(y))
    ensures Odd(Both(x, y)) == (Odd(x) != Odd(y))
  {
  }

  lemma {:induction false} BothLowBits(x: bv32, y: bv32, n: nat)
    ensures forall i :: 0 <= i < n ==> LowBits(Both(x, y), n)[i] == (LowBits(x, n)[i] != LowBits(y, n)[i])
    decreases n
  {
    hide Odd, Half, Both;
    if n > 0 {
      BothHalves(x, y);
      BothLowBits(Half(x), Half(y), n - 1);
    }
  }

  lemma XorBits(x: bv32, y: bv32)
    ensures Xor(Bits(x), Bits(y)) == Bits(Both(x, y))
  {
    hide Odd, Half, Both, LowBits;
    BothLowBits(x, y, 32);
    SameBits(Xor(Bits(x), Bits(y)), Bits(Both(x, y)));
  }

  lemma ShiftRightBits(x: bv32)
    ensures ShiftRight(Bits(x), 1) == Bits(Half(x)) && Bits(x)[0] == Odd(x)
  {
    AllHalved(x);
    assert Halved(x, 32) == Halved(Half(x), 31);
    assert !Odd(0);
    hide Odd, Half, Halved;
    LowBitsMore(Half(x), 31);
    assert Bits(x) == [Odd(x)] + LowBits(Half(x), 31);
    SameBits(ShiftRight(Bits(x), 1), Bits(Half(x)));
  }

  /** Turn for turn the two loops do the same. */
  lemma StepBits(x: bv32)
    ensures Shift(Bits(x)) == Bits(Step(x))
  {
    hide Bits, Odd, Half, Both, POLYNOMIAL, ZERO;
    ShiftRightBits(x);
    PolynomialBits();
    ZeroBits();
    XorBits(Half(x), if Odd(x) then 0x82f6_3b78 else 0);
    StepIs(x);
  }

  lemma StepIs(x: bv32)
    ensures Step(x) == Both(Half(x), if Odd(x) then 0x82f6_3b78 else 0)
  {
  }

  lemma {:induction false} StepsBits(x: bv32, n: nat)
    ensures Shifts(Bits(x), n) == Bits(Steps(x, n))
    decreases n
  {
    hide Bits, Shift, Step;
    if n > 0 {
      StepBits(x);
      StepsBits(Step(x), n - 1);
    }
  }

  lemma {:induction false} LoopBits(x: bv32, bytes: seq<bv32>)
    ensures AbsorbAll(Bits(x), AllBits(bytes)) == Bits(Loop(x, bytes))
    decreases |bytes|
  {
    hide Bits, Steps, Shifts;
    if bytes != [] {
      XorBits(x, bytes[0]);
      assert Both(x, bytes[0]) == x ^ bytes[0];
      StepsBits(x ^ bytes[0], 8);
      assert AllBits(bytes)[1..] == AllBits(bytes[1..]);
      LoopBits(Steps(x ^ bytes[0], 8), bytes[1..]);
    }
  }

  /** The checksum of every message of bytes is, bit for bit, what the source's loop on 32-bit words with the polynomial 0x82f63b78
      computes. */
  lemma ChecksumIsCrc(bytes: seq<bv32>)
    ensures Checksum(AllBits(bytes)) == Bits(Crc(bytes))
  {
    OnesBits();
    LoopBits(0xffff_ffff, bytes);
    hide Bits, Loop;
    XorBits(Loop(0xffff_ffff, bytes), 0xffff_ffff);
    assert Both(Loop(0xffff_ffff, bytes), 0xffff_ffff) == Crc(bytes);
  }

  lemma LoopAt(x: bv32, message: seq<bv32>, i: nat)
    requires i < |message|
    ensures Loop(x, message[i..]) == Loop(Steps(x ^ message[i], 8), message[i + 1..])
  {
    assert message[i..][1..] == message[i + 1..];
  }

  lemma NineTurns()
    ensures Steps(0xffff_ffff ^ 0x31, 8) == 0x6f0a_661c
    ensures Steps(0x6f0a_661c ^ 0x32, 8) == 0x8caa_3b9f
    ensures Steps(0x8caa_3b9f ^ 0x33, 8) == 0xef84_d04d
    ensures Steps(0xef84_d04d ^ 0x34, 8) == 0x9c5_0b11
    ensures Steps(0x9c5_0b11 ^ 0x35, 8) == 0xe72e_dcca
    ensures Steps(0xe72e_dcca ^ 0x36, 8) == 0xbeca_8e79
    ensures Steps(0xbeca_8e79 ^ 0x37, 8) == 0xedbd_6815
    ensures Steps(0xedbd_6815 ^ 0x38, 8) == 0x9f78_7f65
    ensures Steps(0x9f78_7f65 ^ 0x39, 8) == 0x1cf9_6d7c
  {
  }

  predicate NineDigits(message: seq<bv32>) {
    && |message| == 9
    && message[0] == 0x31 && message[1] == 0x32 && message[2] == 0x33 && message[3] == 0x34 && message[4] == 0x35
    && message[5] == 0x36 && message[6] == 0x37 && message[7] == 0x38 && message[8] == 0x39
  }

  lemma NineBytes(message: seq<bv32>)
    requires NineDigits(message)
    ensures Crc(message) == 0xe306_9283
  {
    NineTurns();
    hide Steps;
    assert Loop(0x1cf9_6d7c, message[9..]) == 0x1cf9_6d7c;
    hide Loop;
    LoopAt(0xffff_ffff, message, 0);
    LoopAt(0x6f0a_661c, message, 1);
    LoopAt(0x8caa_3b9f, message, 2);
    LoopAt(0xef84_d04d, message, 3);
    LoopAt(0x9c5_0b11, message, 4);
    LoopAt(0xe72e_dcca, message, 5);
    LoopAt(0xbeca_8e79, message, 6);
    LoopAt(0xedbd_6815, message, 7);
    LoopAt(0x9f78_7f65, message, 8);
    assert message[0..] == message;
  }

  /** The check value of CRC-32C: the digits 1 to 9 in ASCII have the checksum 0xe3069283. */
  lemma CheckValue(message: seq<bv32>)
    requires NineDigits(message)
    ensures Checksum(AllBits(message)) == Bits(0xe306_9283)
  {
    hide Loop, Bits, Crc;
    NineBytes(message);
    ChecksumIsCrc(message);
  }
}
