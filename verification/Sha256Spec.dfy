/** SHA-256 as FIPS 180-4 defines it, on whole messages: padding (section 5.1.1),
    parsing (5.2.1), initial value (5.3.3) and hash computation (6.2). */
module Sha256Spec {
  import opened Bytes
  import opened Words

  function K0(t: nat): bv32 {
    match t
    case 0 => 0x428a2f98 case 1 => 0x71374491 case 2 => 0xb5c0fbcf case 3 => 0xe9b5dba5
    case 4 => 0x3956c25b case 5 => 0x59f111f1 case 6 => 0x923f82a4 case _ => 0xab1c5ed5
  }

  function K8(t: nat): bv32 {
    match t
    case 0 => 0xd807aa98 case 1 => 0x12835b01 case 2 => 0x243185be case 3 => 0x550c7dc3
    case 4 => 0x72be5d74 case 5 => 0x80deb1fe case 6 => 0x9bdc06a7 case _ => 0xc19bf174
  }

  function K16(t: nat): bv32 {
    match t
    case 0 => 0xe49b69c1 case 1 => 0xefbe4786 case 2 => 0x0fc19dc6 case 3 => 0x240ca1cc
    case 4 => 0x2de92c6f case 5 => 0x4a7484aa case 6 => 0x5cb0a9dc case _ => 0x76f988da
  }

  function K24(t: nat): bv32 {
    match t
    case 0 => 0x983e5152 case 1 => 0xa831c66d case 2 => 0xb00327c8 case 3 => 0xbf597fc7
    case 4 => 0xc6e00bf3 case 5 => 0xd5a79147 case 6 => 0x06ca6351 case _ => 0x14292967
  }

  function K32(t: nat): bv32 {
    match t
    case 0 => 0x27b70a85 case 1 => 0x2e1b2138 case 2 => 0x4d2c6dfc case 3 => 0x53380d13
    case 4 => 0x650a7354 case 5 => 0x766a0abb case 6 => 0x81c2c92e case _ => 0x92722c85
  }

  function K40(t: nat): bv32 {
    match t
    case 0 => 0xa2bfe8a1 case 1 => 0xa81a664b case 2 => 0xc24b8b70 case 3 => 0xc76c51a3
    case 4 => 0xd192e819 case 5 => 0xd6990624 case 6 => 0xf40e3585 case _ => 0x106aa070
  }

  function K48(t: nat): bv32 {
    match t
    case 0 => 0x19a4c116 case 1 => 0x1e376c08 case 2 => 0x2748774c case 3 => 0x34b0bcb5
    case 4 => 0x391c0cb3 case 5 => 0x4ed8aa4a case 6 => 0x5b9cca4f case _ => 0x682e6ff3
  }

  function K56(t: nat): bv32 {
    match t
    case 0 => 0x748f82ee case 1 => 0x78a5636f case 2 => 0x84c87814 case 3 => 0x8cc70208
    case 4 => 0x90befffa case 5 => 0xa4506ceb case 6 => 0xbef9a3f7 case _ => 0xc67178f2
  }

  /** The constants of section 4.2.2. */
  function K(t: nat): bv32 {
    if t < 8 then K0(t)
    else if t < 16 then K8(t - 8)
    else if t < 24 then K16(t - 16)
    else if t < 32 then K24(t - 24)
    else if t < 40 then K32(t - 32)
    else if t < 48 then K40(t - 40)
    else if t < 56 then K48(t - 48)
    else K56(t - 56)
  }

  datatype Hash = Hash(a: bv32, b: bv32, c: bv32, d: bv32, e: bv32, f: bv32, g: bv32, h: bv32)

  const IV := Hash(0x6a09e667, 0xbb67ae85, 0x3c6ef372, 0xa54ff53a,
                   0x510e527f, 0x9b05688c, 0x1f83d9ab, 0x5be0cd19)

  function Ch(x: bv32, y: bv32, z: bv32): bv32 { (x & y) ^ (!x & z) }
  function Maj(x: bv32, y: bv32, z: bv32): bv32 { (x & y) ^ (x & z) ^ (y & z) }
  function BigSigma0(x: bv32): bv32 { Rotr(x, 2) ^ Rotr(x, 13) ^ Rotr(x, 22) }
  function BigSigma1(x: bv32): bv32 { Rotr(x, 6) ^ Rotr(x, 11) ^ Rotr(x, 25) }
  function SmallSigma0(x: bv32): bv32 { Rotr(x, 7) ^ Rotr(x, 18) ^ (x >> 3) }
  function SmallSigma1(x: bv32): bv32 { Rotr(x, 17) ^ Rotr(x, 19) ^ (x >> 10) }

  /** The message schedule. */
  function W(block: seq<bv8>, t: nat): bv32
    requires |block| == 64 && t < 64
  {
    if t < 16 then LoadBE(block[4 * t], block[4 * t + 1], block[4 * t + 2], block[4 * t + 3])
    else Add4(SmallSigma1(W(block, t - 2)), W(block, t - 7), SmallSigma0(W(block, t - 15)), W(block, t - 16))
  }

  /** One round on the working variables. */
  function Round(v: Hash, k: bv32, w: bv32): Hash {
    var t1 := Add(Add(Add(Add(v.h, BigSigma1(v.e)), Ch(v.e, v.f, v.g)), k), w);
    var t2 := Add(BigSigma0(v.a), Maj(v.a, v.b, v.c));
    Hash(Add(t1, t2), v.a, v.b, v.c, Add(v.d, t1), v.e, v.f, v.g)
  }

  /** The working variables after the first n rounds. */
  function Rounds(v: Hash, block: seq<bv8>, n: nat): Hash
    requires |block| == 64 && n <= 64
  {
    if n == 0 then v else Round(Rounds(v, block, n - 1), K(n - 1), W(block, n - 1))
  }

  lemma NextRound(v: Hash, block: seq<bv8>, n: nat)
    requires |block| == 64 && n < 64
    ensures Rounds(v, block, n + 1) == Round(Rounds(v, block, n), K(n), W(block, n))
  {
  }

  /** The schedule recurrence in the order in which sha256.c adds its terms. */
  lemma NextWord(block: seq<bv8>, t: nat)
    requires |block| == 64 && 16 <= t < 64
    ensures W(block, t)
         == Add4(W(block, t - 16), SmallSigma0(W(block, t - 15)), W(block, t - 7), SmallSigma1(W(block, t - 2)))
  {
    hide SmallSigma0, SmallSigma1, Add4;
    ReorderedSum(W(block, t - 16), SmallSigma0(W(block, t - 15)), W(block, t - 7), SmallSigma1(W(block, t - 2)));
  }

  lemma ReorderedSum(x: bv32, s0: bv32, y: bv32, s1: bv32)
    ensures Add4(x, s0, y, s1) == Add4(s1, y, s0, x)
  {
  }

  lemma FirstWord(block: seq<bv8>, t: nat)
    requires |block| == 64 && t < 16
    ensures W(block, t) == LoadBE(block[4 * t], block[4 * t + 1], block[4 * t + 2], block[4 * t + 3])
  {
  }

  function Sum(x: Hash, y: Hash): Hash {
    Hash(Add(x.a, y.a), Add(x.b, y.b), Add(x.c, y.c), Add(x.d, y.d),
         Add(x.e, y.e), Add(x.f, y.f), Add(x.g, y.g), Add(x.h, y.h))
  }

  function Compress(v: Hash, block: seq<bv8>): Hash
    requires |block| == 64
  {
    Sum(v, Rounds(v, block, 64))
  }

  /** The chaining value after all the blocks of a whole number of them. */
  function HashBlocks(bytes: seq<bv8>): Hash
    requires |bytes| % 64 == 0
  {
    if bytes == [] then IV
    else Compress(HashBlocks(bytes[..|bytes| - 64]), bytes[|bytes| - 64..])
  }

  function Zeros(n: nat): (z: seq<bv8>)
    ensures |z| == n && forall i :: 0 <= i < n ==> z[i] == 0
  {
    seq(n, _ => 0)
  }

  /** n in k big-endian bytes. */
  function BigEndian(n: nat, k: nat): (b: seq<bv8>)
    ensures |b| == k
  {
    if k == 0 then [] else BigEndian(n / 0x100, k - 1) + [(n % 0x100) as bv8]
  }

  const TWO_64 := 0x1_0000_0000_0000_0000

  /** The length field. FIPS 180-4 defines it for messages below 2^64 bits, where the
      reduction changes nothing; beyond that it is what a 64-bit counter holds. */
  function BitLength(m: seq<bv8>): nat {
    (8 * |m|) % TWO_64
  }

  function ZeroCount(n: nat): nat {
    (55 - n) % 64
  }

  function Pad(m: seq<bv8>): seq<bv8> {
    m + [0x80] + Zeros(ZeroCount(|m|)) + BigEndian(BitLength(m), 8)
  }

  /** The words in order, each high byte first. */
  function WordsBE(ws: seq<bv32>): (b: seq<bv8>)
    ensures |b| == 4 * |ws|
  {
    if ws == [] then [] else WordsBE(ws[..|ws| - 1]) + StoreBE(ws[|ws| - 1])
  }

  function WordsOf(v: Hash): seq<bv32> {
    [v.a, v.b, v.c, v.d, v.e, v.f, v.g, v.h]
  }

  function Serialize(v: Hash): (d: seq<bv8>)
    ensures |d| == 32
  {
    WordsBE(WordsOf(v))
  }

  lemma ZerosFill(n: nat)
    ensures (n + 1 + ZeroCount(n) + 8) % 64 == 0
  {
  }

  lemma PadIsWholeBlocks(m: seq<bv8>)
    ensures |Pad(m)| % 64 == 0
  {
    hide ZeroCount, BitLength, BigEndian;
    ZerosFill(|m|);
    assert |Pad(m)| == |m| + 1 + ZeroCount(|m|) + 8;
  }

  function Digest(m: seq<bv8>): seq<bv8> {
    PadIsWholeBlocks(m);
    Serialize(HashBlocks(Pad(m)))
  }

  // ----- what the padding guarantees -----

  function Pow256(k: nat): (p: nat)
    ensures p > 0
  {
    if k == 0 then 1 else 0x100 * Pow256(k - 1)
  }

  lemma {:induction false} LengthFieldDecodes(n: nat, k: nat)
    requires n < Pow256(k)
    ensures FromBigEndian(BigEndian(n, k)) == n
  {
    if k > 0 {
      LengthFieldDecodes(n / 0x100, k - 1);
      ByteRoundTrip(n % 0x100);
      assert BigEndian(n, k)[..k - 1] == BigEndian(n / 0x100, k - 1);
    }
  }

  lemma DivideTwice(n: nat, p: nat)
    requires p > 0
    ensures (n / 0x100) / p == n / (0x100 * p)
  {
    var q, r := n / 0x100, n % 0x100;
    var q', r' := q / p, q % p;
    assert n == (0x100 * p) * q' + (0x100 * r' + r) by {
      assert q == p * q' + r';
      assert n == 0x100 * q + r;
      assert 0x100 * (p * q') == (0x100 * p) * q';
    }
    QuotientIs(n, 0x100 * p, q', 0x100 * r' + r);
  }

  lemma ProductAtLeast(d: nat, x: nat)
    requires x >= 1
    ensures d * x >= d
  {
  }

  lemma QuotientIs(n: nat, d: nat, q: nat, r: nat)
    requires 0 <= r < d && n == d * q + r
    ensures n / d == q
  {
    var q', r' := n / d, n % d;
    assert n == d * q' + r';
    if q > q' {
      assert d * q == d * q' + d * (q - q');
      ProductAtLeast(d, q - q');
    } else if q < q' {
      assert d * q' == d * q + d * (q' - q);
      ProductAtLeast(d, q' - q);
    }
  }

  /** Byte j of the field is what a shift by whole bytes brings to the bottom. */
  lemma {:induction false} BigEndianByShift(n: nat, k: nat, j: nat)
    requires j < k
    ensures BigEndian(n, k)[j] == ((n / Pow256(k - 1 - j)) % 0x100) as bv8
  {
    if j < k - 1 {
      BigEndianByShift(n / 0x100, k - 1, j);
      DivideTwice(n, Pow256(k - 2 - j));
    }
  }

  /** z zero bytes complete the last block of a message of n bytes. */
  predicate Completes(n: nat, z: nat) {
    (n + 1 + z) % 64 == 56
  }

  lemma BitLengthFits(m: seq<bv8>)
    ensures BitLength(m) == (8 * |m|) % 0x1_0000_0000_0000_0000
    ensures BitLength(m) < Pow256(8)
  {
  }

  lemma LeastZeros(n: nat)
    ensures Completes(n, ZeroCount(n))
    ensures forall z: nat :: Completes(n, z) ==> ZeroCount(n) <= z
  {
  }

  /** The padded message starts with the message, ends in its 64-bit big-endian bit length,
      and has the least number of zero bytes that fills the last block. */
  lemma PadShape(m: seq<bv8>)
    ensures m <= Pad(m) && Pad(m)[|m|] == 0x80
    ensures FromBigEndian(Pad(m)[|Pad(m)| - 8..]) == BitLength(m)
    ensures BitLength(m) == (8 * |m|) % 0x1_0000_0000_0000_0000
    ensures forall i :: |m| < i < |Pad(m)| - 8 ==> Pad(m)[i] == 0
    ensures Completes(|m|, |Pad(m)| - |m| - 9)
    ensures forall z: nat :: Completes(|m|, z) ==> |Pad(m)| <= |m| + 1 + z + 8
  {
    hide BigEndian, FromBigEndian, Pow256, BitLength, Completes, ZeroCount;
    BitLengthFits(m);
    LengthFieldDecodes(BitLength(m), 8);
    LeastZeros(|m|);
    var z, field := Zeros(ZeroCount(|m|)), BigEndian(BitLength(m), 8);
    assert Pad(m) == m + [0x80] + z + field;
    assert Pad(m)[|Pad(m)| - 8..] == field;
  }

  /** Different messages below 2^64 bits have different paddings. */
  lemma PadIsInjective(m: seq<bv8>, n: seq<bv8>)
    requires 8 * |m| < TWO_64 && 8 * |n| < TWO_64
    requires Pad(m) == Pad(n)
    ensures m == n
  {
    hide Pad, FromBigEndian;
    PadShape(m);
    PadShape(n);
    assert 8 * |m| == BitLength(m) == BitLength(n) == 8 * |n|;
    assert m == Pad(m)[..|m|] == Pad(n)[..|n|] == n;
  }
}
