/** The incremental interface of sha256.c on values, and the law it is for: hashing a
    message in pieces, however cut, gives the digest of the whole. */
module Sha256Stream {
  import opened Sha256Spec

  /** sha256_ctx: chaining value, 64-bit bit counter, and the bytes in the buffer. */
  datatype Ctx = Ctx(state: Hash, bitCount: nat, buffer: seq<bv8>)

  ghost predicate Valid(c: Ctx) {
    |c.buffer| < 64 && c.bitCount < TWO_64
  }

  const START := Ctx(IV, 0, [])

  /** How much one turn of the update loop copies. */
  function Take(c: Ctx, data: seq<bv8>): (n: nat)
    requires Valid(c)
    ensures n <= |data| && |c.buffer| + n <= 64
    ensures data != [] ==> n > 0
  {
    if 64 - |c.buffer| > |data| then |data| else 64 - |c.buffer|
  }

  /** One turn: copy, and compress the buffer when it is full. */
  function AbsorbStep(c: Ctx, piece: seq<bv8>): (r: Ctx)
    requires Valid(c) && |c.buffer| + |piece| <= 64
    ensures Valid(r)
  {
    var buffer := c.buffer + piece;
    if |buffer| == 64 then c.(state := Compress(c.state, buffer), buffer := []) else c.(buffer := buffer)
  }

  /** The loop of sha256_update. */
  function Absorb(c: Ctx, data: seq<bv8>): (r: Ctx)
    requires Valid(c)
    ensures Valid(r)
    decreases |data|
  {
    if data == [] then c
    else Absorb(AbsorbStep(c, data[..Take(c, data)]), data[Take(c, data)..])
  }

  lemma AbsorbNothing(c: Ctx, data: seq<bv8>)
    requires Valid(c) && data == []
    ensures Absorb(c, data) == c
  {
  }

  lemma AbsorbMore(c: Ctx, data: seq<bv8>)
    requires Valid(c) && data != []
    ensures Absorb(c, data) == Absorb(AbsorbStep(c, data[..Take(c, data)]), data[Take(c, data)..])
  {
  }

  function Update(c: Ctx, data: seq<bv8>): (r: Ctx)
    requires Valid(c)
    ensures Valid(r)
  {
    Absorb(c.(bitCount := (c.bitCount + (8 * |data|) % TWO_64) % TWO_64), data)
  }

  /** The chaining value that sha256_final serializes. */
  function FinalState(c: Ctx): Hash
    requires Valid(c)
  {
    var marked := c.buffer + [0x80];
    if |marked| > 56 then
      Compress(Compress(c.state, marked + Zeros(64 - |marked|)), Zeros(56) + BigEndian(c.bitCount, 8))
    else
      Compress(c.state, marked + Zeros(56 - |marked|) + BigEndian(c.bitCount, 8))
  }

  function Final(c: Ctx): seq<bv8>
    requires Valid(c)
  {
    Serialize(FinalState(c))
  }

  function UpdateAll(c: Ctx, pieces: seq<seq<bv8>>): (r: Ctx)
    requires Valid(c)
    ensures Valid(r)
    decreases |pieces|
  {
    if pieces == [] then c else UpdateAll(Update(c, pieces[0]), pieces[1..])
  }

  function Join(pieces: seq<seq<bv8>>): seq<bv8> {
    if pieces == [] then [] else pieces[0] + Join(pieces[1..])
  }

  // ----- what a context stands for -----

  function Whole(n: nat): (k: nat)
    ensures k <= n && k % 64 == 0 && n - k < 64
  {
    n - n % 64
  }

  /** All complete blocks of m have been compressed and the rest is in the buffer. */
  ghost predicate Holds(c: Ctx, m: seq<bv8>) {
    && c.buffer == m[Whole(|m|)..]
    && c.state == HashBlocks(m[..Whole(|m|)])
  }

  ghost predicate Represents(c: Ctx, m: seq<bv8>) {
    Holds(c, m) && c.bitCount == BitLength(m)
  }

  lemma HashOneMore(bytes: seq<bv8>, block: seq<bv8>)
    requires |bytes| % 64 == 0 && |block| == 64
    ensures HashBlocks(bytes + block) == Compress(HashBlocks(bytes), block)
  {
    assert (bytes + block)[..|bytes + block| - 64] == bytes;
    assert (bytes + block)[|bytes + block| - 64..] == block;
  }

  /** One turn of the update loop carries the message on by the bytes it takes. */
  lemma StepHolds(c: Ctx, m: seq<bv8>, piece: seq<bv8>)
    requires Valid(c) && Holds(c, m) && |c.buffer| + |piece| <= 64
    ensures Holds(AbsorbStep(c, piece), m + piece)
  {
    hide HashBlocks, Compress;
    var k, m' := Whole(|m|), m + piece;
    if |c.buffer| + |piece| < 64 {
      assert Whole(|m'|) == k;
      assert m'[..k] == m[..k];
    } else {
      assert Whole(|m'|) == |m'|;
      assert m' == m[..k] + (c.buffer + piece);
      assert m'[..|m'|] == m';
      HashOneMore(m[..k], c.buffer + piece);
    }
  }

  lemma {:induction false} AbsorbHolds(c: Ctx, m: seq<bv8>, data: seq<bv8>)
    requires Valid(c) && Holds(c, m)
    ensures Holds(Absorb(c, data), m + data) && Absorb(c, data).bitCount == c.bitCount
    decreases |data|
  {
    hide Holds, Compress;
    if data == [] {
      assert m + data == m;
    } else {
      var take := Take(c, data);
      var piece, rest := data[..take], data[take..];
      StepHolds(c, m, piece);
      assert m + data == (m + piece) + rest;
      AbsorbHolds(AbsorbStep(c, piece), m + piece, rest);
    }
  }

  lemma CountAdds(a: nat, b: nat)
    ensures (a % TWO_64 + b % TWO_64) % TWO_64 == (a + b) % TWO_64
  {
  }

  /** One update extends the message that the context stands for. */
  lemma UpdateExtends(c: Ctx, m: seq<bv8>, data: seq<bv8>)
    requires Valid(c) && Represents(c, m)
    ensures Represents(Update(c, data), m + data)
  {
    hide HashBlocks, Absorb, Whole;
    CountAdds(8 * |m|, 8 * |data|);
    AbsorbHolds(c.(bitCount := (c.bitCount + (8 * |data|) % TWO_64) % TWO_64), m, data);
  }

  /** With more than 55 bytes in the buffer the padding takes two blocks. */
  lemma TwoBlockPad(m: seq<bv8>, k: nat, tail: seq<bv8>, field: seq<bv8>)
    requires k % 64 == 0 && k <= |m| && tail == m[k..] && 55 < |tail| < 64 && field == BigEndian(BitLength(m), 8)
    ensures Pad(m) == (m[..k] + (tail + [0x80] + Zeros(63 - |tail|))) + (Zeros(56) + field)
  {
    hide BigEndian;
    assert ZeroCount(|m|) == 63 - |tail| + 56;
    assert Zeros(ZeroCount(|m|)) == Zeros(63 - |tail|) + Zeros(56);
  }

  /** Otherwise it fits into one. */
  lemma OneBlockPad(m: seq<bv8>, k: nat, tail: seq<bv8>, field: seq<bv8>)
    requires k % 64 == 0 && k <= |m| && tail == m[k..] && |tail| <= 55 && field == BigEndian(BitLength(m), 8)
    ensures Pad(m) == m[..k] + (tail + [0x80] + Zeros(55 - |tail|) + field)
  {
    hide BigEndian;
    assert ZeroCount(|m|) == 55 - |tail|;
  }

  /** Both branches of sha256_final compress exactly the padded message. */
  lemma FinalPads(c: Ctx, m: seq<bv8>)
    requires Valid(c) && Represents(c, m)
    ensures Final(c) == Digest(m)
  {
    hide HashBlocks, Compress, BigEndian, Serialize, Pad;
    var k, tail, field := Whole(|m|), c.buffer, BigEndian(c.bitCount, 8);
    PadIsWholeBlocks(m);
    if |tail| > 55 {
      var block1, block2 := tail + [0x80] + Zeros(63 - |tail|), Zeros(56) + field;
      TwoBlockPad(m, k, tail, field);
      HashOneMore(m[..k], block1);
      HashOneMore(m[..k] + block1, block2);
    } else {
      OneBlockPad(m, k, tail, field);
      HashOneMore(m[..k], tail + [0x80] + Zeros(55 - |tail|) + field);
    }
  }

  lemma EmptyAtStart()
    ensures Represents(START, [])
  {
  }

  lemma OneUpdateIsDigest(data: seq<bv8>)
    ensures Final(Update(START, data)) == Digest(data)
  {
    hide Update, Final, Digest, Represents;
    EmptyAtStart();
    UpdateExtends(START, [], data);
    assert [] + data == data;
    FinalPads(Update(START, data), data);
  }

  lemma {:induction false} UpdateAllExtends(c: Ctx, m: seq<bv8>, pieces: seq<seq<bv8>>)
    requires Valid(c) && Represents(c, m)
    ensures Represents(UpdateAll(c, pieces), m + Join(pieces))
    decreases |pieces|
  {
    hide Represents, Update;
    if pieces == [] {
      assert m + Join(pieces) == m;
    } else {
      UpdateExtends(c, m, pieces[0]);
      UpdateAllExtends(Update(c, pieces[0]), m + pieces[0], pieces[1..]);
      assert m + Join(pieces) == (m + pieces[0]) + Join(pieces[1..]);
    }
  }

  /** The streaming law: init, any updates, final is the FIPS 180-4 digest of the joined
      pieces (with the length field modulo 2^64 beyond the standard's domain). */
  lemma StreamingIsDigest(pieces: seq<seq<bv8>>)
    ensures Final(UpdateAll(START, pieces)) == Digest(Join(pieces))
  {
    hide Represents, UpdateAll, Final, Digest;
    EmptyAtStart();
    UpdateAllExtends(START, [], pieces);
    assert [] + Join(pieces) == Join(pieces);
    FinalPads(UpdateAll(START, pieces), Join(pieces));
  }
}
