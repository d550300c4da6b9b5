/** file_io.c: the XOR loop over 64-byte chunks and the nonce framing. A file is its
    bytes; a read is short only at the end of the file. */
module FileCrypt {
  import opened ChaCha20

  datatype Result = Success(bytes: seq<bv8>) | TooShort

  const WRAP := 0x1_0000_0000

  /** The block counter used for byte i. */
  function CounterAt(i: nat): (n: nat)
    ensures n < WRAP
  {
    (i / 64) % WRAP
  }

  function CounterWord(n: nat): bv32
    requires n < WRAP
  {
    n as bv32
  }

  /** Byte i of the keystream of RFC 8439, section 2.4, from counter 0, for a counter that
      wraps after 2^32 blocks. */
  function Keystream(key: Key, nonce: Nonce, i: nat): bv8 {
    Block(key, nonce, CounterWord(CounterAt(i)))[i % 64]
  }

  /** The stream cipher, one byte at a time. */
  function Crypt(key: Key, nonce: Nonce, data: seq<bv8>): (r: seq<bv8>)
    ensures |r| == |data|
  {
    seq(|data|, i requires 0 <= i < |data| => data[i] ^ Keystream(key, nonce, i))
  }

  function Encrypted(key: Key, nonce: Nonce, plain: seq<bv8>): seq<bv8> {
    nonce + Crypt(key, nonce, plain)
  }

  function Decrypted(key: Key, file: seq<bv8>): Result {
    if |file| < 12 then TooShort else Success(Crypt(key, file[..12], file[12..]))
  }

  // ----- laws -----

  lemma CryptUndoesItself(key: Key, nonce: Nonce, data: seq<bv8>)
    ensures Crypt(key, nonce, Crypt(key, nonce, data)) == data
  {
  }

  /** Decrypting an encrypted file gives back the plaintext, for every key, nonce and length;
      the file is twelve bytes longer. */
  lemma RoundTrip(key: Key, nonce: Nonce, plain: seq<bv8>)
    ensures Decrypted(key, Encrypted(key, nonce, plain)) == Success(plain)
    ensures |Encrypted(key, nonce, plain)| == |plain| + 12
  {
    hide Crypt;
    var file := Encrypted(key, nonce, plain);
    assert file[..12] == nonce && file[12..] == Crypt(key, nonce, plain);
    CryptUndoesItself(key, nonce, plain);
  }

  /** The other way round: every file that decrypts is the encryption of what it decrypts to,
      so no two files have the same nonce and plaintext. */
  lemma DecryptedThenEncrypted(key: Key, file: seq<bv8>)
    ensures Decrypted(key, file).Success? <==> |file| >= 12
    ensures |file| >= 12 ==> Encrypted(key, file[..12], Decrypted(key, file).bytes) == file
  {
    hide Crypt;
    if |file| >= 12 {
      CryptUndoesItself(key, file[..12], file[12..]);
      assert file == file[..12] + file[12..];
    }
  }

  /** Encryption is on-line: a prefix of the plaintext gives a prefix of the file. */
  lemma PrefixGivesPrefix(key: Key, nonce: Nonce, plain: seq<bv8>, n: nat)
    requires n <= |plain|
    ensures Encrypted(key, nonce, plain[..n]) == Encrypted(key, nonce, plain)[..12 + n]
  {
    hide Keystream;
  }

  lemma XorRegroups(x: bv8, y: bv8, z: bv8)
    ensures (x ^ y) ^ z == (x ^ z) ^ y
  {
  }

  function XorAll(a: seq<bv8>, b: seq<bv8>): (r: seq<bv8>)
    requires |a| == |b|
    ensures |r| == |a|
  {
    seq(|a|, i requires 0 <= i < |a| => a[i] ^ b[i])
  }

  /** The documented lack of authentication: changing ciphertext bits changes exactly the
      same bits of the plaintext. */
  lemma ChangesCarryOver(key: Key, nonce: Nonce, data: seq<bv8>, mask: seq<bv8>)
    requires |data| == |mask|
    ensures Crypt(key, nonce, XorAll(data, mask)) == XorAll(Crypt(key, nonce, data), mask)
  {
    hide Keystream;
    forall i | 0 <= i < |data|
      ensures Crypt(key, nonce, XorAll(data, mask))[i] == XorAll(Crypt(key, nonce, data), mask)[i]
    {
      XorRegroups(data[i], mask[i], Keystream(key, nonce, i));
    }
  }

  /** No two blocks of a message of n bytes share a counter. */
  ghost predicate CountersFresh(n: nat) {
    forall i, j :: 0 <= i < n && 0 <= j < n && CounterAt(i) == CounterAt(j) ==> i / 64 == j / 64
  }

  /** RFC 8439 wants every block of a message to have its own counter. The uint32_t counter
      gives that exactly up to 2^38 bytes; there it wraps silently. */
  lemma CountersFreshUpToWrap(n: nat)
    ensures CountersFresh(n) <==> n <= 64 * WRAP
  {
    if n > 64 * WRAP {
      assert CounterAt(0) == CounterAt(64 * WRAP);
    }
  }

  lemma XorZero(x: bv8)
    ensures 0 ^ x == x
  {
  }

  function Zeros(n: nat): seq<bv8> {
    seq(n, _ => 0)
  }

  lemma CounterOfBlock(m: nat, j: nat)
    requires j < 64
    ensures (64 * m + j) / 64 == m && (64 * m + j) % 64 == j
  {
  }

  /** The keystream, seen from outside: encrypting zeros gives the blocks one after the other,
      beginning with counter 0 and beginning again after 2^32 of them. */
  lemma ZerosGiveTheBlocks(key: Key, nonce: Nonce, n: nat, m: nat, j: nat)
    requires j < 64 && 64 * m + j < n
    ensures Crypt(key, nonce, Zeros(n))[64 * m + j] == Block(key, nonce, (m % 0x1_0000_0000) as bv32)[j]
  {
    hide Block;
    CounterOfBlock(m, j);
    XorZero(Keystream(key, nonce, 64 * m + j));
  }

  // ----- the C code -----

  /** fread: up to 64 bytes from pos into the buffer. */
  method Read(input: seq<bv8>, pos: nat, buffer: array<bv8>) returns (n: nat)
    requires pos <= |input| && buffer.Length == 64
    modifies buffer
    ensures n == (if |input| - pos < 64 then |input| - pos else 64)
    ensures buffer[..n] == input[pos..pos + n]
  {
    n := if |input| - pos < 64 then |input| - pos else 64;
    forall i | 0 <= i < n {
      buffer[i] := input[pos + i];
    }
  }

  lemma BlockOfPosition(pos: nat, counter: nat, j: nat)
    requires pos % 64 == 0 && counter == CounterAt(pos) && j < 64
    ensures CounterAt(pos + j) == counter && (pos + j) % 64 == j
  {
  }

  lemma CryptInChunk(key: Key, nonce: Nonce, input: seq<bv8>, pos: nat, counter: nat, j: nat)
    requires pos % 64 == 0 && counter == CounterAt(pos) && j < 64 && pos + j < |input|
    ensures Crypt(key, nonce, input)[pos + j] == input[pos + j] ^ Block(key, nonce, CounterWord(counter))[j]
  {
    hide Block, CounterWord, CounterAt;
    BlockOfPosition(pos, counter, j);
  }

  lemma NextCounter(pos: nat, counter: nat)
    requires pos % 64 == 0 && counter == CounterAt(pos)
    ensures (pos + 64) % 64 == 0 && (counter + 1) % WRAP == CounterAt(pos + 64)
  {
  }

  /** The inner loop: XOR the first n bytes with the keystream block. */
  method XorChunk(buffer: array<bv8>, keystream: array<bv8>, n: nat)
    requires buffer.Length == 64 && keystream.Length == 64 && buffer != keystream && n <= 64
    modifies buffer
    ensures forall j :: 0 <= j < n ==> buffer[j] == old(buffer[j]) ^ keystream[j]
  {
    for i := 0 to n
      invariant forall j :: 0 <= j < i ==> buffer[j] == old(buffer[j]) ^ keystream[j]
      invariant forall j :: i <= j < n ==> buffer[j] == old(buffer[j])
    {
      buffer[i] := buffer[i] ^ keystream[i];
    }
  }

  /** The body of chacha20_xor_stream's loop, after the read. */
  method CryptChunk(key: Key, nonce: Nonce, counter: nat, ghost input: seq<bv8>, ghost pos: nat,
                    buffer: array<bv8>, keystream: array<bv8>, n: nat)
    requires pos + n <= |input| && pos % 64 == 0 && counter == CounterAt(pos)
    requires buffer.Length == 64 && keystream.Length == 64 && buffer != keystream && n <= 64
    requires buffer[..n] == input[pos..pos + n]
    modifies buffer, keystream
    ensures buffer[..n] == Crypt(key, nonce, input)[pos..pos + n]
  {
    hide Block, Crypt;
    ghost var chunk := buffer[..n];
    BlockInto(key, nonce, CounterWord(counter), keystream);
    ghost var block := keystream[..];
    XorChunk(buffer, keystream, n);
    forall j | 0 <= j < n ensures buffer[j] == Crypt(key, nonce, input)[pos + j] {
      CryptInChunk(key, nonce, input, pos, counter, j);
      assert chunk[j] == input[pos + j];
      assert keystream[j] == block[j];
    }
  }

  /** chacha20_xor_stream: read, stop at the end of the file, XOR, write, count. */
  method XorStream(key: Key, nonce: Nonce, input: seq<bv8>) returns (output: seq<bv8>)
    ensures output == Crypt(key, nonce, input)
  {
    hide Crypt;
    var keystream, buffer := new bv8[64], new bv8[64];
    var counter, pos := 0, 0;
    output := [];
    while true
      invariant pos <= |input| && output == Crypt(key, nonce, input)[..pos]
      invariant pos < |input| ==> pos % 64 == 0 && counter == CounterAt(pos)
      decreases |input| - pos
    {
      var n := Read(input, pos, buffer);
      if n == 0 {
        break;
      }
      CryptChunk(key, nonce, counter, input, pos, buffer, keystream, n);
      output := output + buffer[..n];
      NextCounter(pos, counter);
      pos := pos + n;
      counter := (counter + 1) % WRAP;
    }
    assert Crypt(key, nonce, input)[..pos] == Crypt(key, nonce, input);
  }

  /** encrypt_file, for a nonce drawn elsewhere. */
  method EncryptFile(key: Key, nonce: Nonce, plain: seq<bv8>) returns (file: seq<bv8>)
    ensures file == Encrypted(key, nonce, plain)
  {
    var body := XorStream(key, nonce, plain);
    file := nonce + body;
  }

  /** decrypt_file */
  method DecryptFile(key: Key, file: seq<bv8>) returns (r: Result)
    ensures r == Decrypted(key, file)
  {
    if |file| < 12 {
      return TooShort;
    }
    var body := XorStream(key, file[..12], file[12..]);
    r := Success(body);
  }
}
