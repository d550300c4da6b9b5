/** Bytes as numbers. */
module Bytes {

  lemma ByteRoundTrip(x: nat)
    requires x < 0x100
    ensures (x as bv8) as int == x
  {
  }

  /** The number that bytes stand for, high byte first. */
  function FromBigEndian(b: seq<bv8>): nat {
    if b == [] then 0 else FromBigEndian(b[..|b| - 1]) * 0x100 + (b[|b| - 1] as int)
  }

  lemma FourBytes(b0: bv8, b1: bv8, b2: bv8, b3: bv8)
    ensures FromBigEndian([b0, b1, b2, b3])
         == ((b0 as int * 0x100 + b1 as int) * 0x100 + b2 as int) * 0x100 + b3 as int
  {
    assert [b0, b1, b2, b3][..3] == [b0, b1, b2];
    assert [b0, b1, b2][..2] == [b0, b1];
    assert [b0, b1][..1] == [b0];
    assert [b0][..0] == [];
    assert FromBigEndian([b0]) == b0 as int;
    assert FromBigEndian([b0, b1]) == b0 as int * 0x100 + b1 as int;
    assert FromBigEndian([b0, b1, b2]) == (b0 as int * 0x100 + b1 as int) * 0x100 + b2 as int;
  }
}

/** The word helpers of common.h. */
module Words {
  import opened Bytes

  /** load32_le on four bytes. */
  function LoadLE(b0: bv8, b1: bv8, b2: bv8, b3: bv8): bv32 {
    (b0 as bv32) | ((b1 as bv32) << 8) | ((b2 as bv32) << 16) | ((b3 as bv32) << 24)
  }

  /** The big-endian load that sha256_transform spells out. */
  function LoadBE(b0: bv8, b1: bv8, b2: bv8, b3: bv8): bv32 {
    ((b0 as bv32) << 24) | ((b1 as bv32) << 16) | ((b2 as bv32) << 8) | (b3 as bv32)
  }

  function Rotl(x: bv32, n: bv6): bv32
    requires 0 < n < 32
  {
    (x << n) | (x >> (32 - n))
  }

  function Rotr(x: bv32, n: bv6): bv32
    requires 0 < n < 32
  {
    (x >> n) | (x << (32 - n))
  }

  /** Addition of uint32_t values, which wraps around. */
  function Add(x: bv32, y: bv32): bv32 {
    x + y
  }

  function Sub(x: bv32, y: bv32): bv32 {
    x - y
  }

  function Xor(x: bv32, y: bv32): bv32 {
    x ^ y
  }

  lemma SubOfSum(x: bv32, y: bv32)
    ensures Sub(x + y, y) == x
  {
  }

  lemma SumOfSub(x: bv32, y: bv32)
    ensures Add(x - y, y) == x
  {
  }

  lemma SubUndoesAdd(x: bv32, y: bv32)
    ensures Sub(Add(x, y), y) == x
  {
    hide Sub;
    SubOfSum(x, y);
  }

  lemma AddUndoesSub(x: bv32, y: bv32)
    ensures Add(Sub(x, y), y) == x
  {
    hide Add;
    SumOfSub(x, y);
  }

  lemma XorUndoes(x: bv32, y: bv32)
    ensures Xor(Xor(x, y), y) == x
  {
  }

  lemma RotrUndoesRotl(x: bv32, n: bv6)
    requires 0 < n < 32
    ensures Rotr(Rotl(x, n), n) == x
  {
  }

  lemma RotlUndoesRotr(x: bv32, n: bv6)
    requires 0 < n < 32
    ensures Rotl(Rotr(x, n), n) == x
  {
  }

  function Add4(w: bv32, x: bv32, y: bv32, z: bv32): bv32 {
    w + x + y + z
  }

  function LowByte(x: bv32): bv8 {
    (x & 0xFF) as bv8
  }

  function StoreLE(w: bv32): (b: seq<bv8>)
    ensures |b| == 4
  {
    [LowByte(w), LowByte(w >> 8), LowByte(w >> 16), LowByte(w >> 24)]
  }

  function StoreBE(w: bv32): (b: seq<bv8>)
    ensures |b| == 4
  {
    [LowByte(w >> 24), LowByte(w >> 16), LowByte(w >> 8), LowByte(w)]
  }

  lemma StoreAfterLoadLE(b0: bv8, b1: bv8, b2: bv8, b3: bv8)
    ensures StoreLE(LoadLE(b0, b1, b2, b3)) == [b0, b1, b2, b3]
  {
  }

  lemma LoadAfterStoreLE(w: bv32)
    ensures LoadLE(StoreLE(w)[0], StoreLE(w)[1], StoreLE(w)[2], StoreLE(w)[3]) == w
  {
  }

  // ----- what the loads and stores mean as numbers -----

  lemma WidenedByte(b: bv8)
    ensures (b as bv32) as int == b as int && b as bv32 < 0x100
  {
  }

  /** x with one more byte behind it. */
  function Shifted(x: bv32, b: bv8): bv32 {
    (x << 8) | (b as bv32)
  }

  lemma ShiftedTimes(x: bv32)
    requires x < 0x100_0000
    ensures (x << 8) as int == 0x100 * (x as int) && (x << 8) & 0xFF == 0
  {
  }

  lemma FilledByte(x: bv32, b: bv8)
    requires x & 0xFF == 0
    ensures (x | (b as bv32)) as int == x as int + b as int
  {
  }

  lemma ShiftedValue(x: bv32, b: bv8)
    requires x < 0x100_0000
    ensures Shifted(x, b) as int == 0x100 * (x as int) + b as int
  {
    ShiftedTimes(x);
    FilledByte(x << 8, b);
  }

  lemma LoadByShifts(b0: bv8, b1: bv8, b2: bv8, b3: bv8)
    ensures LoadBE(b0, b1, b2, b3) == Shifted(Shifted(Shifted(b0 as bv32, b1), b2), b3)
    ensures LoadLE(b3, b2, b1, b0) == Shifted(Shifted(Shifted(b0 as bv32, b1), b2), b3)
    ensures b0 as bv32 < 0x100_0000 && Shifted(b0 as bv32, b1) < 0x100_0000
    ensures Shifted(Shifted(b0 as bv32, b1), b2) < 0x100_0000
  {
  }

  /** A big-endian load gives the number that the bytes stand for, a little-endian load the
      one that they stand for backwards. */
  lemma LoadValue(b0: bv8, b1: bv8, b2: bv8, b3: bv8)
    ensures LoadBE(b0, b1, b2, b3) as int == FromBigEndian([b0, b1, b2, b3])
    ensures LoadLE(b3, b2, b1, b0) as int == FromBigEndian([b0, b1, b2, b3])
  {
    hide LoadBE, LoadLE, Shifted, FromBigEndian;
    LoadByShifts(b0, b1, b2, b3);
    WidenedByte(b0);
    ShiftedValue(b0 as bv32, b1);
    ShiftedValue(Shifted(b0 as bv32, b1), b2);
    ShiftedValue(Shifted(Shifted(b0 as bv32, b1), b2), b3);
    FourBytes(b0, b1, b2, b3);
  }

  lemma LoadAfterStoreBE(w: bv32)
    ensures LoadBE(StoreBE(w)[0], StoreBE(w)[1], StoreBE(w)[2], StoreBE(w)[3]) == w
  {
  }

  lemma LoadedValue(w: bv32, b0: bv8, b1: bv8, b2: bv8, b3: bv8)
    requires LoadBE(b0, b1, b2, b3) == w
    ensures FromBigEndian([b0, b1, b2, b3]) == w as int
  {
    hide LoadBE, LoadLE, FromBigEndian;
    LoadValue(b0, b1, b2, b3);
  }

  lemma LoadedBackwards(w: bv32, b0: bv8, b1: bv8, b2: bv8, b3: bv8)
    requires LoadLE(b0, b1, b2, b3) == w
    ensures FromBigEndian([b3, b2, b1, b0]) == w as int
  {
    hide LoadBE, LoadLE, FromBigEndian;
    LoadValue(b3, b2, b1, b0);
  }

  /** A big-endian store writes the word's value. */
  lemma StoreBEValue(w: bv32)
    ensures FromBigEndian(StoreBE(w)) == w as int
  {
    LoadAfterStoreBE(w);
    LoadedValue(w, StoreBE(w)[0], StoreBE(w)[1], StoreBE(w)[2], StoreBE(w)[3]);
    hide LoadBE, LowByte, FromBigEndian;
  }

  /** So does a little-endian store, backwards. */
  lemma StoreLEValue(w: bv32)
    ensures FromBigEndian([StoreLE(w)[3], StoreLE(w)[2], StoreLE(w)[1], StoreLE(w)[0]]) == w as int
  {
    LoadAfterStoreLE(w);
    LoadedBackwards(w, StoreLE(w)[0], StoreLE(w)[1], StoreLE(w)[2], StoreLE(w)[3]);
    hide LoadLE, StoreLE, FromBigEndian;
  }

  // ----- rotations, bit by bit -----

  predicate Bit(x: bv32, i: bv6)
    requires i < 32
  {
    (x >> i) & 1 == 1
  }

  function Up(x: bv32, n: bv6): bv32
    requires n <= 32
  {
    x << n
  }

  function Down(x: bv32, n: bv6): bv32
    requires n <= 32
  {
    x >> n
  }

  function Or(x: bv32, y: bv32): bv32 {
    x | y
  }

  lemma ShiftUpBit(x: bv32, n: bv6, i: bv6)
    requires n <= i < 32
    ensures Bit(x << n, i) == Bit(x, i - n)
  {
  }

  lemma UpBit(x: bv32, n: bv6, i: bv6)
    requires n <= i < 32
    ensures Bit(Up(x, n), i) == Bit(x, i - n)
  {
    hide Bit;
    ShiftUpBit(x, n, i);
  }

  lemma BelowUp(x: bv32, n: bv6, i: bv6)
    requires i < n < 32
    ensures !Bit(Up(x, n), i)
  {
  }

  lemma ShiftDownBit(x: bv32, n: bv6, i: bv6)
    requires n < 32 && i < 32 - n
    ensures Bit(x >> n, i) == Bit(x, i + n)
  {
  }

  lemma DownBit(x: bv32, n: bv6, i: bv6)
    requires n < 32 && i < 32 - n
    ensures Bit(Down(x, n), i) == Bit(x, i + n)
  {
    hide Bit;
    ShiftDownBit(x, n, i);
  }

  lemma AboveDown(x: bv32, n: bv6, i: bv6)
    requires n < 32 && 32 - n <= i < 32
    ensures !Bit(Down(x, n), i)
  {
  }

  lemma OrBit(x: bv32, y: bv32, i: bv6)
    requires i < 32
    ensures Bit(Or(x, y), i) == (Bit(x, i) || Bit(y, i))
  {
  }

  lemma RotationsAreShifts(x: bv32, n: bv6)
    requires 0 < n < 32
    ensures Rotl(x, n) == Or(Up(x, n), Down(x, 32 - n)) && Rotr(x, n) == Or(Down(x, n), Up(x, 32 - n))
  {
  }

  /** Bit i of the word rotated left comes from n places below, around the end. */
  lemma RotlMovesBits(x: bv32, n: bv6, i: bv6)
    requires 0 < n < 32 && i < 32
    ensures Bit(Rotl(x, n), i) == Bit(x, if i >= n then i - n else i + (32 - n))
  {
    hide Bit, Rotl, Up, Down, Or;
    RotationsAreShifts(x, n);
    OrBit(Up(x, n), Down(x, 32 - n), i);
    if i >= n {
      UpBit(x, n, i);
      AboveDown(x, 32 - n, i);
    } else {
      BelowUp(x, n, i);
      DownBit(x, 32 - n, i);
    }
  }

  /** Rotated right, from n places above. */
  lemma RotrMovesBits(x: bv32, n: bv6, i: bv6)
    requires 0 < n < 32 && i < 32
    ensures Bit(Rotr(x, n), i) == Bit(x, if i < 32 - n then i + n else i - (32 - n))
  {
    hide Bit, Rotr, Up, Down, Or;
    RotationsAreShifts(x, n);
    OrBit(Down(x, n), Up(x, 32 - n), i);
    if i < 32 - n {
      DownBit(x, n, i);
      BelowUp(x, 32 - n, i);
    } else {
      AboveDown(x, n, i);
      UpBit(x, 32 - n, i);
    }
  }
}
