/** The bitwise CRC-32C loop (the CRC32C of section 12.1 of RFC 3720): it equals the byte-table form, and it tells
    apart any two messages of equal length that differ only inside some four consecutive bytes. */
module Crc32c {
  import opened Folding

  /** 32 bits, the least significant first. */
  type Word = w: seq<bool> | |w| == 32 witness Repeat(false, 32)

  function Repeat(bit: bool, n: nat): (r: seq<bool>)
    ensures |r| == n && forall i :: 0 <= i < n ==> r[i] == bit
  {
    if n == 0 then [] else Repeat(bit, n - 1) + [bit]
  }

  const ZERO: Word := Repeat(false, 32)
  const ONES: Word := Repeat(true, 32)

  /** 0x82f63b78 */
  const POLYNOMIAL: Word := [
    false, false, false, true, true, true, true, false, true, true, false, true, true, true, false, false,
    false, true, true, false, true, true, true, true, false, true, false, false, false, false, false, true]

  function Xor(a: Word, b: Word): (r: Word)
    ensures forall i :: 0 <= i < 32 ==> r[i] == (a[i] != b[i])
  {
    seq(32, i requires 0 <= i < 32 => a[i] != b[i])
  }

  function ShiftRight(w: Word, k: nat): (r: Word)
    ensures forall i :: 0 <= i < 32 ==> r[i] == (i + k < 32 && w[i + k])
  {
    seq(32, i requires 0 <= i < 32 => i + k < 32 && w[i + k])
  }

  function ShiftLeft(w: Word, k: nat): (r: Word)
    ensures forall i :: 0 <= i < 32 ==> r[i] == (k <= i && w[i - k])
  {
    seq(32, i requires 0 <= i < 32 => k <= i && w[i - k])
  }

  /** The word has nothing beyond its first `bytes` bytes. */
  predicate Fits(w: Word, bytes: nat) {
    forall i :: 8 * bytes <= i < 32 ==> !w[i]
  }

  predicate Bytes(message: seq<Word>) {
    forall i :: 0 <= i < |message| ==> Fits(message[i], 1)
  }

  // ---------------------------------------------------------------- the loop

  /** One turn of the inner loop. */
  function Shift(w: Word): Word {
    Xor(ShiftRight(w, 1), if w[0] then POLYNOMIAL else ZERO)
  }

  function Shifts(w: Word, n: nat): Word {
    Iterate(Shift, w, n)
  }

  /** One turn of the outer loop. */
  function Absorb(w: Word, b: Word): Word {
    Shifts(Xor(w, b), 8)
  }

  function AbsorbAll(w: Word, message: seq<Word>): Word {
    Fold(Absorb, w, message)
  }

  function Checksum(message: seq<Word>): Word {
    Xor(AbsorbAll(ONES, message), ONES)
  }

  /** The inner loop. */
  method Turn(start: Word, bits: nat) returns (checksum: Word)
    ensures checksum == Shifts(start, bits)
  {
    checksum := start;
    for bit := 0 to bits
      invariant Shifts(checksum, bits - bit) == Shifts(start, bits)
    {
      checksum := Xor(ShiftRight(checksum, 1), if checksum[0] then POLYNOMIAL else ZERO);
    }
  }

  method Compute(message: seq<Word>) returns (checksum: Word)
    ensures checksum == Checksum(message)
  {
    checksum := ONES;
    for i := 0 to |message|
      invariant Fold(Absorb, checksum, message[i..]) == Fold(Absorb, ONES, message)
    {
      assert message[i..][0] == message[i] && message[i..][1..] == message[i + 1..];
      checksum := Turn(Xor(checksum, message[i]), 8);
    }
    checksum := Xor(checksum, ONES);
  }

  // ---------------------------------------------------------------- linear

  lemma ShiftBit(w: Word, i: nat)
    requires i < 32
    ensures Shift(w)[i] == ((i < 31 && w[i + 1]) != (w[0] && POLYNOMIAL[i]))
  {
  }

  lemma SameBits(a: Word, b: Word)
    requires forall i :: 0 <= i < 32 ==> a[i] == b[i]
    ensures a == b
  {
  }

  lemma ShiftLinear(x: Word, y: Word)
    ensures Shift(Xor(x, y)) == Xor(Shift(x), Shift(y))
  {
    forall i | 0 <= i < 32 ensures Shift(Xor(x, y))[i] == Xor(Shift(x), Shift(y))[i] {
      ShiftBit(x, i);
      ShiftBit(y, i);
      ShiftBit(Xor(x, y), i);
    }
    SameBits(Shift(Xor(x, y)), Xor(Shift(x), Shift(y)));
  }

  lemma ShiftIsLinear()
    ensures Linear(Xor, Shift)
  {
    forall x: Word, y: Word ensures Shift(Xor(x, y)) == Xor(Shift(x), Shift(y)) { ShiftLinear(x, y); }
  }

  lemma ShiftsLinear(x: Word, y: Word, n: nat)
    ensures Shifts(Xor(x, y), n) == Xor(Shifts(x, n), Shifts(y, n))
  {
    ShiftIsLinear();
    IterateLinear(Xor, Shift, x, y, n);
  }

  lemma Exchange(x: Word, y: Word, b: Word, c: Word)
    ensures Xor(Xor(x, y), Xor(b, c)) == Xor(Xor(x, b), Xor(y, c))
  {
  }

  lemma AbsorbLinear(x: Word, y: Word, b: Word, c: Word)
    ensures Absorb(Xor(x, y), Xor(b, c)) == Xor(Absorb(x, b), Absorb(y, c))
  {
    Exchange(x, y, b, c);
    ShiftsLinear(Xor(x, b), Xor(y, c), 8);
  }

  lemma AbsorbAllLinear(x: Word, y: Word, u: seq<Word>, v: seq<Word>)
    requires |u| == |v|
    ensures AbsorbAll(Xor(x, y), Zip(Xor, u, v)) == Xor(AbsorbAll(x, u), AbsorbAll(y, v))
  {
    forall a: Word, b: Word, c: Word, d: Word ensures Absorb(Xor(a, b), Xor(c, d)) == Xor(Absorb(a, c), Absorb(b, d)) {
      AbsorbLinear(a, b, c, d);
    }
    FoldLinear(Xor, Absorb, x, y, u, v);
  }

  // ---------------------------------------------------------------- one to one

  /** The top bit says whether the polynomial was added. */
  lemma ShiftInjective(x: Word, y: Word)
    requires Shift(x) == Shift(y)
    ensures x == y
  {
    assert Shift(x)[31] == x[0] && Shift(y)[31] == y[0];
    forall i | 0 <= i < 32 ensures x[i] == y[i] {
      if i > 0 { assert Shift(x)[i - 1] == Shift(y)[i - 1]; }
    }
  }

  lemma ShiftIsInjective()
    ensures Injective(Shift)
  {
    forall x: Word, y: Word | Shift(x) == Shift(y) ensures x == y { ShiftInjective(x, y); }
  }

  lemma XorTwice(x: Word, b: Word)
    ensures Xor(Xor(x, b), b) == x
  {
  }

  lemma AbsorbInjective(x: Word, y: Word, b: Word)
    requires Absorb(x, b) == Absorb(y, b)
    ensures x == y
  {
    ShiftIsInjective();
    IterateInjective(Shift, Xor(x, b), Xor(y, b), 8);
    XorTwice(x, b);
    XorTwice(y, b);
  }

  lemma AbsorbAllInjective(x: Word, y: Word, message: seq<Word>)
    requires AbsorbAll(x, message) == AbsorbAll(y, message)
    ensures x == y
  {
    forall a: Word, b: Word, c: Word | Absorb(a, c) == Absorb(b, c) ensures a == b { AbsorbInjective(a, b, c); }
    FoldInjective(Absorb, x, y, message);
  }

  // ---------------------------------------------------------------- short differences

  /** While the low bits are clear the loop only shifts. */
  lemma {:induction false} ShiftsUndoShiftLeft(w: Word, k: nat)
    requires k <= 32 && forall i :: 32 - k <= i < 32 ==> !w[i]
    ensures Shifts(ShiftLeft(w, k), k) == w
    decreases k
  {
    if k == 0 {
      assert ShiftLeft(w, 0) == w;
    } else {
      assert Shift(ShiftLeft(w, k)) == ShiftLeft(w, k - 1);
      ShiftsUndoShiftLeft(w, k - 1);
    }
  }

  /** The bytes of a short message side by side in one word. */
  function Packed(e: seq<Word>): Word {
    if e == [] then ZERO else Xor(e[0], ShiftLeft(Packed(e[1..]), 8))
  }

  lemma {:induction false} PackedFits(e: seq<Word>)
    requires Bytes(e)
    ensures Fits(Packed(e), |e|)
  {
    if e != [] {
      assert Fits(e[0], 1);
      PackedFits(e[1..]);
    }
  }

  lemma FirstByteCancels(e: seq<Word>)
    requires e != []
    ensures Xor(Packed(e), e[0]) == ShiftLeft(Packed(e[1..]), 8)
  {
    SameBits(Xor(Packed(e), e[0]), ShiftLeft(Packed(e[1..]), 8));
  }

  lemma AbsorbFirstPacked(e: seq<Word>)
    requires Bytes(e) && 0 < |e| <= 4
    ensures Absorb(Packed(e), e[0]) == Packed(e[1..])
  {
    PackedFits(e[1..]);
    FirstByteCancels(e);
    ShiftsUndoShiftLeft(Packed(e[1..]), 8);
  }

  /** Starting from its own packed bytes, a message of at most four bytes is absorbed to zero. */
  lemma {:induction false} PackedAbsorbsToZero(e: seq<Word>)
    requires Bytes(e) && |e| <= 4
    ensures AbsorbAll(Packed(e), e) == ZERO
  {
    if e != [] {
      AbsorbFirstPacked(e);
      PackedAbsorbsToZero(e[1..]);
    }
  }

  lemma {:induction false} PackedZero(e: seq<Word>)
    requires Bytes(e) && |e| <= 4 && Packed(e) == ZERO
    ensures forall i :: 0 <= i < |e| ==> e[i] == ZERO
  {
    if e != [] {
      var rest := Packed(e[1..]);
      PackedFits(e[1..]);
      assert Fits(e[0], 1);
      forall j | 0 <= j < 32 ensures !e[0][j] {
        assert !Packed(e)[j];
      }
      assert e[0] == ZERO;
      forall j | 0 <= j < 32 ensures !rest[j] {
        if j < 24 { assert !Packed(e)[j + 8]; }
      }
      assert rest == ZERO;
      PackedZero(e[1..]);
    }
  }

  lemma {:induction false} ZipFacts(u: seq<Word>, v: seq<Word>)
    requires |u| == |v| && Bytes(u) && Bytes(v)
    ensures Bytes(Zip(Xor, u, v))
    ensures (forall i :: 0 <= i < |u| ==> Zip(Xor, u, v)[i] == ZERO) ==> u == v
  {
    if u != [] {
      ZipFacts(u[1..], v[1..]);
      assert Fits(u[0], 1) && Fits(v[0], 1);
      var e := Zip(Xor, u, v);
      assert forall i :: 0 < i < |e| ==> e[i] == Zip(Xor, u[1..], v[1..])[i - 1];
      if forall i :: 0 <= i < |e| ==> e[i] == ZERO {
        assert forall i :: 0 <= i < |u| - 1 ==> Zip(Xor, u[1..], v[1..])[i] == e[i + 1];
        assert u[0] == v[0] by {
          assert e[0] == ZERO;
          forall j | 0 <= j < 32 ensures u[0][j] == v[0][j] { assert !e[0][j]; }
        }
        assert u == [u[0]] + u[1..] && v == [v[0]] + v[1..];
      }
    }
  }

  /** Two messages of equal length that differ only inside some four consecutive bytes have different checksums. */
  lemma BurstsAreDetected(p: seq<Word>, u: seq<Word>, v: seq<Word>, s: seq<Word>)
    requires Bytes(u) && Bytes(v) && |u| == |v| <= 4 && u != v
    ensures Checksum(p + u + s) != Checksum(p + v + s)
  {
    var w := AbsorbAll(ONES, p);
    var a, b := AbsorbAll(w, u), AbsorbAll(w, v);
    FoldAppend(Absorb, ONES, p + u, s);
    FoldAppend(Absorb, ONES, p, u);
    FoldAppend(Absorb, ONES, p + v, s);
    FoldAppend(Absorb, ONES, p, v);
    WindowsDiffer(w, u, v);
    if AbsorbAll(a, s) == AbsorbAll(b, s) { AbsorbAllInjective(a, b, s); }
    XorOnes(AbsorbAll(a, s), AbsorbAll(b, s));
  }

  lemma XorOnes(a: Word, b: Word)
    ensures Xor(a, ONES) == Xor(b, ONES) ==> a == b
  {
    assert Xor(Xor(a, ONES), ONES) == a && Xor(Xor(b, ONES), ONES) == b;
  }

  lemma XorZero(a: Word, b: Word)
    ensures Xor(a, b) == ZERO <==> a == b
  {
    if Xor(a, b) == ZERO {
      forall i | 0 <= i < 32 ensures a[i] == b[i] { assert !Xor(a, b)[i]; }
      SameBits(a, b);
    }
    if a == b { SameBits(Xor(a, b), ZERO); }
  }

  /** Only the zero difference of at most four bytes is absorbed to zero. */
  lemma AbsorbedToZero(e: seq<Word>)
    requires Bytes(e) && |e| <= 4 && AbsorbAll(ZERO, e) == ZERO
    ensures forall i :: 0 <= i < |e| ==> e[i] == ZERO
  {
    PackedAbsorbsToZero(e);
    AbsorbAllInjective(Packed(e), ZERO, e);
    PackedZero(e);
  }

  lemma WindowsDiffer(w: Word, u: seq<Word>, v: seq<Word>)
    requires Bytes(u) && Bytes(v) && |u| == |v| <= 4 && u != v
    ensures AbsorbAll(w, u) != AbsorbAll(w, v)
  {
    ZipFacts(u, v);
    AbsorbAllLinear(w, w, u, v);
    XorZero(w, w);
    XorZero(AbsorbAll(w, u), AbsorbAll(w, v));
    if AbsorbAll(ZERO, Zip(Xor, u, v)) == ZERO { AbsorbedToZero(Zip(Xor, u, v)); }
  }

  // ---------------------------------------------------------------- the table form

  function LowByte(w: Word): (r: Word)
    ensures forall i :: 0 <= i < 32 ==> r[i] == (i < 8 && w[i])
  {
    seq(32, i requires 0 <= i < 32 => i < 8 && w[i])
  }

  /** What a table of 256 words would hold for a byte. */
  function Table(b: Word): Word {
    Shifts(b, 8)
  }

  lemma HighAndLow(w: Word, b: Word)
    requires Fits(b, 1)
    ensures Xor(w, b) == Xor(ShiftLeft(ShiftRight(w, 8), 8), LowByte(Xor(w, b)))
  {
    SameBits(Xor(w, b), Xor(ShiftLeft(ShiftRight(w, 8), 8), LowByte(Xor(w, b))));
  }

  /** Absorbing a byte is one table lookup and one shift by eight. */
  lemma TableForm(w: Word, b: Word)
    requires Fits(b, 1)
    ensures Absorb(w, b) == Xor(ShiftRight(w, 8), Table(LowByte(Xor(w, b))))
  {
    HighAndLow(w, b);
    ShiftsLinear(ShiftLeft(ShiftRight(w, 8), 8), LowByte(Xor(w, b)), 8);
    ShiftsUndoShiftLeft(ShiftRight(w, 8), 8);
  }

  /** One turn of the table-driven loop. */
  function Lookup(w: Word, b: Word): Word {
    Xor(ShiftRight(w, 8), Table(LowByte(Xor(w, b))))
  }

  lemma {:induction false} LookupsAbsorb(w: Word, message: seq<Word>)
    requires Bytes(message)
    ensures Fold(Lookup, w, message) == AbsorbAll(w, message)
    decreases message
  {
    if message != [] {
      TableForm(w, message[0]);
      LookupsAbsorb(Absorb(w, message[0]), message[1..]);
    }
  }

  /** The byte-table form computes the same checksum of every message. */
  lemma TableChecksum(message: seq<Word>)
    requires Bytes(message)
    ensures Checksum(message) == Xor(Fold(Lookup, ONES, message), ONES)
  {
    LookupsAbsorb(ONES, message);
  }
}
