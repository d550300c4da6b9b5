/** sha256.c in place: a context object with a partial-block buffer, the compression loops
    over a 64-word array, and the padding loops of sha256_final. */
module Sha256 {
  import opened Words
  import opened Sha256Spec
  import Sha256Stream

  class Context {
    const state: array<bv32>
    var bitCount: nat
    const buffer: array<bv8>
    var bufferLen: nat

    ghost predicate Valid()
      reads this
    {
      state.Length == 8 && buffer.Length == 64 && bufferLen <= 64 && bitCount < TWO_64
    }

    ghost predicate Ready()
      reads this
    {
      Valid() && bufferLen < 64
    }

    function Value(): Hash
      requires Valid()
      reads this, state
    {
      Hash(state[0], state[1], state[2], state[3], state[4], state[5], state[6], state[7])
    }

    ghost function View(): (c: Sha256Stream.Ctx)
      requires Ready()
      reads this, state, buffer
      ensures Sha256Stream.Valid(c)
    {
      Sha256Stream.Ctx(Value(), bitCount, buffer[..bufferLen])
    }

    /** sha256_init */
    constructor ()
      ensures Ready() && fresh(state) && fresh(buffer)
      ensures View() == Sha256Stream.START
    {
      state := new bv32[8] [0x6a09e667, 0xbb67ae85, 0x3c6ef372, 0xa54ff53a,
                            0x510e527f, 0x9b05688c, 0x1f83d9ab, 0x5be0cd19];
      bitCount := 0;
      buffer := new bv8[64];
      bufferLen := 0;
    }

    /** The first two loops of sha256_transform. */
    method Schedule() returns (w: array<bv32>)
      requires Valid()
      ensures fresh(w) && w.Length == 64
      ensures forall t :: 0 <= t < 64 ==> w[t] == W(buffer[..], t)
    {
      hide SmallSigma0, SmallSigma1, LoadBE, W, Add4;
      w := new bv32[64];
      ghost var block := buffer[..];
      for i := 0 to 16
        invariant forall t :: 0 <= t < i ==> w[t] == W(block, t)
      {
        FirstWord(block, i);
        w[i] := LoadBE(buffer[i * 4], buffer[i * 4 + 1], buffer[i * 4 + 2], buffer[i * 4 + 3]);
      }
      for i := 16 to 64
        invariant forall t :: 0 <= t < i ==> w[t] == W(block, t)
      {
        var s0, s1 := SmallSigma0(w[i - 15]), SmallSigma1(w[i - 2]);
        NextWord(block, i);
        w[i] := Add4(w[i - 16], s0, w[i - 7], s1);
      }
    }

    /** The 64 rounds of sha256_transform. */
    method Mix(w: array<bv32>, ghost block: seq<bv8>) returns (v: Hash)
      requires Valid() && |block| == 64 && w.Length == 64
      requires forall t :: 0 <= t < 64 ==> w[t] == W(block, t)
      ensures v == Rounds(Value(), block, 64)
    {
      hide BigSigma0, BigSigma1, Ch, Maj, Add, W, Rounds;
      var a, b, cc, d := state[0], state[1], state[2], state[3];
      var e, f, g, h := state[4], state[5], state[6], state[7];
      ghost var v0 := Value();
      NoRounds(v0, block);
      for i := 0 to 64
        invariant Hash(a, b, cc, d, e, f, g, h) == Rounds(v0, block, i)
      {
        var S1 := BigSigma1(e);
        var ch := Ch(e, f, g);
        var tmp1 := Add(Add(Add(Add(h, S1), ch), K(i)), w[i]);
        var S0 := BigSigma0(a);
        var maj := Maj(a, b, cc);
        var tmp2 := Add(S0, maj);
        NextRound(v0, block, i);
        h := g; g := f; f := e; e := Add(d, tmp1);
        d := cc; cc := b; b := a; a := Add(tmp1, tmp2);
      }
      v := Hash(a, b, cc, d, e, f, g, h);
    }

    /** sha256_transform on the context's own buffer. */
    method Transform()
      requires Valid()
      modifies state
      ensures Valid() && Value() == Compress(old(Value()), buffer[..])
    {
      hide W, Rounds, Add;
      var w := Schedule();
      var v := Mix(w, buffer[..]);
      state[0] := Add(state[0], v.a); state[1] := Add(state[1], v.b); state[2] := Add(state[2], v.c); state[3] := Add(state[3], v.d);
      state[4] := Add(state[4], v.e); state[5] := Add(state[5], v.f); state[6] := Add(state[6], v.g); state[7] := Add(state[7], v.h);
    }

    /** sha256_update */
    method Update(data: seq<bv8>)
      requires Ready()
      modifies this`bitCount, this`bufferLen, state, buffer
      ensures Ready() && View() == Sha256Stream.Update(old(View()), data)
    {
      hide Compress, Sha256Stream.Absorb;
      bitCount := (bitCount + (8 * |data|) % TWO_64) % TWO_64;
      var pos := 0;
      ghost var goal := Sha256Stream.Absorb(View(), data);
      assert data[pos..] == data;
      while pos < |data|
        invariant pos <= |data| && Ready()
        invariant Sha256Stream.Absorb(View(), data[pos..]) == goal
      {
        var take := UpdateTurn(data, pos);
        pos := pos + take;
      }
      Sha256Stream.AbsorbNothing(View(), data[pos..]);
    }

    /** One turn of sha256_update's loop. */
    method UpdateTurn(data: seq<bv8>, pos: nat) returns (take: nat)
      requires Ready() && pos < |data|
      modifies this`bufferLen, state, buffer
      ensures Ready() && 0 < take <= |data| - pos
      ensures Sha256Stream.Absorb(View(), data[pos + take..]) == old(Sha256Stream.Absorb(View(), data[pos..]))
    {
      hide Compress, Sha256Stream.Absorb;
      ghost var before := View();
      take := 64 - bufferLen;
      if take > |data| - pos {
        take := |data| - pos;
      }
      Copy(data, pos, take);
      bufferLen := bufferLen + take;
      if bufferLen == 64 {
        assert buffer[..bufferLen] == buffer[..];
        Transform();
        bufferLen := 0;
      }
      assert data[pos..][..take] == data[pos..pos + take] && data[pos..][take..] == data[pos + take..];
      assert View() == Sha256Stream.AbsorbStep(before, data[pos..pos + take]);
      Sha256Stream.AbsorbMore(before, data[pos..]);
    }

    /** memcpy(buffer + bufferLen, data + pos, take) */
    method Copy(data: seq<bv8>, pos: nat, take: nat)
      requires Valid() && bufferLen + take <= 64 && pos + take <= |data|
      modifies buffer
      ensures buffer[..bufferLen + take] == old(buffer[..bufferLen]) + data[pos..pos + take]
    {
      for i := 0 to take
        invariant buffer[..bufferLen + i] == old(buffer[..bufferLen]) + data[pos..pos + i]
      {
        buffer[bufferLen + i] := data[pos + i];
      }
    }

    /** The zero-filling loops of sha256_final. */
    method Fill(end: nat)
      requires Valid() && bufferLen <= end <= 64
      modifies this`bufferLen, buffer
      ensures Valid() && bufferLen == end
      ensures buffer[..end] == old(buffer[..bufferLen]) + Zeros(end - old(bufferLen))
    {
      while bufferLen < end
        invariant Valid() && old(bufferLen) <= bufferLen <= end
        invariant buffer[..bufferLen] == old(buffer[..bufferLen]) + Zeros(bufferLen - old(bufferLen))
      {
        buffer[bufferLen] := 0;
        bufferLen := bufferLen + 1;
      }
    }

    /** The loop that appends the bit count, high byte first. */
    method AppendLength()
      requires Valid() && bufferLen == 56
      modifies this`bufferLen, buffer
      ensures Valid() && bufferLen == 64
      ensures buffer[..] == old(buffer[..56]) + BigEndian(bitCount, 8)
    {
      hide BigEndian;
      var i := 7;
      while i >= 0
        invariant -1 <= i <= 7 && Valid() && bufferLen == 63 - i
        invariant buffer[..56] == old(buffer[..56])
        invariant forall j :: 0 <= j < 7 - i ==> buffer[56 + j] == BigEndian(bitCount, 8)[j]
      {
        BigEndianByShift(bitCount, 8, 7 - i);
        buffer[bufferLen] := ((bitCount / Pow256(i)) % 0x100) as bv8;
        bufferLen := bufferLen + 1;
        i := i - 1;
      }
    }

    /** sha256_final's branch for a length field that does not fit: close this block. */
    method Spill(ghost marked: seq<bv8>)
      requires Valid() && bufferLen == |marked| && buffer[..bufferLen] == marked
      modifies this`bufferLen, state, buffer
      ensures Valid() && bufferLen == 0
      ensures Value() == Compress(old(Value()), marked + Zeros(64 - |marked|))
    {
      hide Compress;
      Fill(64);
      assert buffer[..64] == buffer[..];
      Transform();
      bufferLen := 0;
    }

    /** The padding part of sha256_final. */
    method Finish()
      requires Ready()
      modifies this`bufferLen, state, buffer
      ensures Valid() && Value() == Sha256Stream.FinalState(old(View()))
    {
      hide Compress, BigEndian;
      ghost var c := View();
      ghost var marked := c.buffer + [0x80];
      buffer[bufferLen] := 0x80;
      bufferLen := bufferLen + 1;
      assert buffer[..bufferLen] == marked;
      if bufferLen > 56 {
        Spill(marked);
        Fill(56);
        assert buffer[..56] == Zeros(56);
      } else {
        Fill(56);
      }
      AppendLength();
      Transform();
    }

    /** sha256_final */
    method Final() returns (out: array<bv8>)
      requires Ready()
      modifies this`bufferLen, state, buffer
      ensures fresh(out) && out[..] == Sha256Stream.Final(old(View()))
    {
      hide Sha256Stream.FinalState;
      Finish();
      out := Digest();
    }

    /** The serializing loop of sha256_final. */
    method Digest() returns (out: array<bv8>)
      requires Valid()
      ensures fresh(out) && out[..] == Serialize(Value())
    {
      hide StoreBE, WordsBE;
      out := new bv8[32];
      ghost var ws := state[..];
      assert ws == WordsOf(Value());
      NoWordsBE(ws);
      for i := 0 to 8
        invariant out[..4 * i] == WordsBE(ws[..i])
      {
        var w := state[i];
        ghost var done := WordsBE(ws[..i]);
        PutWordBE(out, 4 * i, w, done);
        NextWordBE(ws, i);
      }
      assert ws[..8] == ws && out[..32] == out[..];
    }
  }

  /** Four bytes of the digest, high byte first. */
  method PutWordBE(out: array<bv8>, at: nat, w: bv32, ghost done: seq<bv8>)
    requires at + 4 <= out.Length && out[..at] == done
    modifies out
    ensures out[..at + 4] == done + StoreBE(w)
  {
    hide LowByte;
    out[at + 0] := LowByte(w >> 24);
    out[at + 1] := LowByte(w >> 16);
    out[at + 2] := LowByte(w >> 8);
    out[at + 3] := LowByte(w);
  }

  lemma NoWordsBE(ws: seq<bv32>)
    ensures WordsBE(ws[..0]) == []
  {
  }

  lemma NextWordBE(ws: seq<bv32>, i: nat)
    requires i < |ws|
    ensures WordsBE(ws[..i + 1]) == WordsBE(ws[..i]) + StoreBE(ws[i])
  {
    assert ws[..i + 1][..i] == ws[..i];
  }

  lemma NoRounds(v: Hash, block: seq<bv8>)
    requires |block| == 64
    ensures Rounds(v, block, 0) == v
  {
  }

  /** sha256: the one-shot wrapper computes the FIPS 180-4 digest. */
  method Hash256(data: seq<bv8>) returns (out: array<bv8>)
    ensures fresh(out) && out[..] == Sha256Spec.Digest(data)
  {
    hide Sha256Stream.Final, Sha256Stream.Update, Sha256Spec.Digest;
    var c := new Context();
    c.Update(data);
    out := c.Final();
    Sha256Stream.OneUpdateIsDigest(data);
  }
}
