/** chacha20.c: the block function of RFC 8439, sections 2.1 to 2.3.

    The standard describes a round on the four by four matrix: all columns, or all
    diagonals, at once. That is the definition here; the C code's eight quarter rounds,
    one after the other on a flat array, are proved to compute it. */
module ChaCha20 {
  import opened Words

  // ----- quarter round -----

  datatype Quad = Quad(a: bv32, b: bv32, c: bv32, d: bv32)

  /** x += y; z ^= x; z <<<= n */
  function Mix(x: bv32, y: bv32, z: bv32, n: bv6): (bv32, bv32)
    requires 0 < n < 32
  {
    (Add(x, y), Rotl(Xor(z, Add(x, y)), n))
  }

  function QuarterRound(q: Quad): Quad {
    var (a1, d1) := Mix(q.a, q.b, q.d, 16);
    var (c1, b1) := Mix(q.c, d1, q.b, 12);
    var (a2, d2) := Mix(a1, b1, d1, 8);
    var (c2, b2) := Mix(c1, d2, b1, 7);
    Quad(a2, b2, c2, d2)
  }

  function Unmix(x: bv32, y: bv32, z: bv32, n: bv6): (bv32, bv32)
    requires 0 < n < 32
  {
    (Sub(x, y), Xor(Rotr(z, n), x))
  }

  function UnquarterRound(q: Quad): Quad {
    var (c1, b1) := Unmix(q.c, q.d, q.b, 7);
    var (a1, d1) := Unmix(q.a, b1, q.d, 8);
    var (c0, b0) := Unmix(c1, d1, b1, 12);
    var (a0, d0) := Unmix(a1, b0, d1, 16);
    Quad(a0, b0, c0, d0)
  }

  lemma UnmixUndoes(x: bv32, y: bv32, z: bv32, n: bv6)
    requires 0 < n < 32
    ensures var (x', z') := Mix(x, y, z, n); Unmix(x', y, z', n) == (x, z)
    ensures var (x', z') := Unmix(x, y, z, n); Mix(x', y, z', n) == (x, z)
  {
    hide Rotl, Rotr, Add, Sub, Xor;
    RotrUndoesRotl(Xor(z, Add(x, y)), n);
    XorUndoes(z, Add(x, y));
    SubUndoesAdd(x, y);
    AddUndoesSub(x, y);
    RotlUndoesRotr(z, n);
    XorUndoes(Rotr(z, n), x);
  }

  /** The quarter round is a permutation of four words: it has an inverse on both sides. */
  lemma QuarterRoundIsInvertible(q: Quad)
    ensures UnquarterRound(QuarterRound(q)) == q
    ensures QuarterRound(UnquarterRound(q)) == q
  {
    hide Mix, Unmix;
    var (a1, d1) := Mix(q.a, q.b, q.d, 16);
    var (c1, b1) := Mix(q.c, d1, q.b, 12);
    UnmixUndoes(q.a, q.b, q.d, 16);
    UnmixUndoes(q.c, d1, q.b, 12);
    UnmixUndoes(a1, b1, d1, 8);
    var (a2, d2) := Mix(a1, b1, d1, 8);
    UnmixUndoes(c1, d2, b1, 7);
    var (e1, f1) := Unmix(q.c, q.d, q.b, 7);
    UnmixUndoes(q.c, q.d, q.b, 7);
    var (g1, h1) := Unmix(q.a, f1, q.d, 8);
    UnmixUndoes(q.a, f1, q.d, 8);
    UnmixUndoes(e1, h1, f1, 12);
    var (e0, f0) := Unmix(e1, h1, f1, 12);
    UnmixUndoes(g1, f0, h1, 16);
  }

  // ----- rounds on the matrix -----

  type Matrix = s: seq<bv32> | |s| == 16 witness seq(16, _ => 0)

  /** The column (slant 0) or diagonal (slant 1) that starts at column k. */
  function Lane(s: Matrix, k: nat, slant: nat): Quad {
    Quad(s[k % 4], s[4 + (k + slant) % 4], s[8 + (k + 2 * slant) % 4], s[12 + (k + 3 * slant) % 4])
  }

  function Part(q: Quad, row: nat): bv32 {
    if row == 0 then q.a else if row == 1 then q.b else if row == 2 then q.c else q.d
  }

  /** The lane that cell i lies on. */
  function LaneOf(i: nat, slant: nat): nat {
    if slant == 0 then i % 4 else (i % 4 + 4 - i / 4) % 4
  }

  /** One round: every lane at once. */
  function RoundOf(s: Matrix, slant: nat): Matrix {
    seq(16, i requires 0 <= i < 16 => Part(QuarterRound(Lane(s, LaneOf(i, slant), slant)), i / 4))
  }

  function Unround(s: Matrix, slant: nat): Matrix {
    seq(16, i requires 0 <= i < 16 => Part(UnquarterRound(Lane(s, LaneOf(i, slant), slant)), i / 4))
  }

  function DoubleRound(s: Matrix): Matrix {
    RoundOf(RoundOf(s, 0), 1)
  }

  function DoubleRounds(s: Matrix, n: nat): Matrix {
    if n == 0 then s else DoubleRound(DoubleRounds(s, n - 1))
  }

  function UndoubleRounds(s: Matrix, n: nat): Matrix
    decreases n
  {
    if n == 0 then s else UndoubleRounds(Unround(Unround(s, 1), 0), n - 1)
  }

  lemma CellOnLane(s: Matrix, i: nat, slant: nat)
    requires i < 16 && slant <= 1
    ensures LaneOf(i, slant) < 4
    ensures Part(Lane(s, LaneOf(i, slant), slant), i / 4) == s[i]
  {
  }

  lemma LaneMeetsRows(k: nat, slant: nat)
    requires k < 4 && slant <= 1
    ensures LaneOf(k % 4, slant) == k && (k % 4) / 4 == 0
    ensures LaneOf(4 + (k + slant) % 4, slant) == k && (4 + (k + slant) % 4) / 4 == 1
    ensures LaneOf(8 + (k + 2 * slant) % 4, slant) == k && (8 + (k + 2 * slant) % 4) / 4 == 2
    ensures LaneOf(12 + (k + 3 * slant) % 4, slant) == k && (12 + (k + 3 * slant) % 4) / 4 == 3
  {
  }

  lemma LaneOfRound(s: Matrix, k: nat, slant: nat)
    requires k < 4 && slant <= 1
    ensures Lane(RoundOf(s, slant), k, slant) == QuarterRound(Lane(s, k, slant))
  {
    LaneMeetsRows(k, slant);
    hide QuarterRound, LaneOf;
  }

  lemma LaneOfUnround(s: Matrix, k: nat, slant: nat)
    requires k < 4 && slant <= 1
    ensures Lane(Unround(s, slant), k, slant) == UnquarterRound(Lane(s, k, slant))
  {
    LaneMeetsRows(k, slant);
    hide UnquarterRound, LaneOf;
  }

  lemma RoundIsInvertible(s: Matrix, slant: nat)
    requires slant <= 1
    ensures Unround(RoundOf(s, slant), slant) == s
    ensures RoundOf(Unround(s, slant), slant) == s
  {
    hide QuarterRound, UnquarterRound;
    forall i | 0 <= i < 16
      ensures Unround(RoundOf(s, slant), slant)[i] == s[i] && RoundOf(Unround(s, slant), slant)[i] == s[i]
    {
      var k := LaneOf(i, slant);
      CellOnLane(s, i, slant);
      LaneOfRound(s, k, slant);
      LaneOfUnround(s, k, slant);
      QuarterRoundIsInvertible(Lane(s, k, slant));
    }
  }

  /** Any number of double rounds, and so the 20-round core, is a permutation of the
      sixteen-word states: running the inverse rounds backwards undoes it. */
  lemma {:induction false} RoundsAreInvertible(s: Matrix, n: nat)
    ensures UndoubleRounds(DoubleRounds(s, n), n) == s
    ensures DoubleRounds(UndoubleRounds(s, n), n) == s
    decreases n
  {
    hide RoundOf, Unround;
    if n > 0 {
      var t := DoubleRounds(s, n - 1);
      RoundIsInvertible(RoundOf(t, 0), 1);
      RoundIsInvertible(t, 0);
      RoundsAreInvertible(s, n - 1);
      var u := Unround(Unround(s, 1), 0);
      RoundsAreInvertible(u, n - 1);
      RoundIsInvertible(Unround(s, 1), 0);
      RoundIsInvertible(s, 1);
    }
  }

  // ----- the block -----

  type Key = k: seq<bv8> | |k| == 32 witness seq(32, _ => 0)
  type Nonce = n: seq<bv8> | |n| == 12 witness seq(12, _ => 0)

  function Word(b: seq<bv8>, at: nat): bv32
    requires at + 4 <= |b|
  {
    LoadLE(b[at], b[at + 1], b[at + 2], b[at + 3])
  }

  function Initial(key: Key, nonce: Nonce, counter: bv32): Matrix {
    [0x61707865, 0x3320646e, 0x79622d32, 0x6b206574,
     Word(key, 0), Word(key, 4), Word(key, 8), Word(key, 12),
     Word(key, 16), Word(key, 20), Word(key, 24), Word(key, 28),
     counter, Word(nonce, 0), Word(nonce, 4), Word(nonce, 8)]
  }

  function Plus(s: Matrix, t: Matrix): Matrix {
    seq(16, i requires 0 <= i < 16 => Add(s[i], t[i]))
  }

  /** The words in order, each low byte first. */
  function WordsLE(ws: seq<bv32>): (b: seq<bv8>)
    ensures |b| == 4 * |ws|
  {
    if ws == [] then [] else WordsLE(ws[..|ws| - 1]) + StoreLE(ws[|ws| - 1])
  }

  function Block(key: Key, nonce: Nonce, counter: bv32): (b: seq<bv8>)
    ensures |b| == 64
  {
    var s := Initial(key, nonce, counter);
    WordsLE(Plus(DoubleRounds(s, 10), s))
  }

  lemma {:induction false} BytesOfWord(ws: seq<bv32>, i: nat)
    requires i < |ws|
    ensures WordsLE(ws)[4 * i..4 * i + 4] == StoreLE(ws[i])
  {
    hide StoreLE;
    var n := |ws| - 1;
    if i < n {
      BytesOfWord(ws[..n], i);
      assert WordsLE(ws)[..4 * n] == WordsLE(ws[..n]);
      assert WordsLE(ws)[4 * i..4 * i + 4] == WordsLE(ws[..n])[4 * i..4 * i + 4];
    }
  }

  lemma WordOfBytes(b: seq<bv8>, at: nat, w: bv32)
    requires at + 4 <= |b| && b[at..at + 4] == StoreLE(w)
    ensures Word(b, at) == w
  {
    hide StoreLE, LoadLE;
    assert b[at] == StoreLE(w)[0] && b[at + 1] == StoreLE(w)[1] && b[at + 2] == StoreLE(w)[2] && b[at + 3] == StoreLE(w)[3];
    LoadAfterStoreLE(w);
  }

  /** Section 2.3: word i of the block is word i of the state after twenty rounds plus word i of
      the initial state. */
  lemma WordOfBlock(key: Key, nonce: Nonce, counter: bv32, i: nat)
    requires i < 16
    ensures Word(Block(key, nonce, counter), 4 * i)
         == Add(DoubleRounds(Initial(key, nonce, counter), 10)[i], Initial(key, nonce, counter)[i])
  {
    hide Word, DoubleRounds, Initial, WordsLE, Add;
    var s := Initial(key, nonce, counter);
    var ws := Plus(DoubleRounds(s, 10), s);
    BytesOfWord(ws, i);
    WordOfBytes(Block(key, nonce, counter), 4 * i, ws[i]);
  }

  /** The characters of a text as bytes. */
  function Ascii(text: string): (b: seq<bv8>)
    requires forall i :: 0 <= i < |text| ==> text[i] as int < 0x100
    ensures |b| == |text| && forall i :: 0 <= i < |text| ==> b[i] == text[i] as int as bv8
  {
    seq(|text|, i requires 0 <= i < |text| => text[i] as int as bv8)
  }

  /** The first row spells "expand 32-byte k", then come the key, the counter and the nonce, all
      of them as little-endian words. */
  lemma InitialSpells(key: Key, nonce: Nonce, counter: bv32)
    ensures forall i :: 0 <= i < 4 ==> Initial(key, nonce, counter)[i] == Word(Ascii("expand 32-byte k"), 4 * i)
    ensures forall i :: 0 <= i < 8 ==> Initial(key, nonce, counter)[4 + i] == Word(key, 4 * i)
    ensures Initial(key, nonce, counter)[12] == counter
    ensures forall i :: 0 <= i < 3 ==> Initial(key, nonce, counter)[13 + i] == Word(nonce, 4 * i)
  {
    FirstRow();
    hide Word, Ascii;
  }

  lemma Letters0()
    ensures var b := Ascii("expand 32-byte k"); b[0] == 0x65 && b[1] == 0x78 && b[2] == 0x70 && b[3] == 0x61
  {
    assert "expand 32-byte k"[0] == 'e' && "expand 32-byte k"[1] == 'x' && "expand 32-byte k"[2] == 'p' && "expand 32-byte k"[3] == 'a';
  }

  lemma Letters1()
    ensures var b := Ascii("expand 32-byte k"); b[4] == 0x6e && b[5] == 0x64 && b[6] == 0x20 && b[7] == 0x33
  {
    assert "expand 32-byte k"[4] == 'n' && "expand 32-byte k"[5] == 'd' && "expand 32-byte k"[6] == ' ' && "expand 32-byte k"[7] == '3';
  }

  lemma Letters2()
    ensures var b := Ascii("expand 32-byte k"); b[8] == 0x32 && b[9] == 0x2d && b[10] == 0x62 && b[11] == 0x79
  {
    assert "expand 32-byte k"[8] == '2' && "expand 32-byte k"[9] == '-' && "expand 32-byte k"[10] == 'b' && "expand 32-byte k"[11] == 'y';
  }

  lemma Letters3()
    ensures var b := Ascii("expand 32-byte k"); b[12] == 0x74 && b[13] == 0x65 && b[14] == 0x20 && b[15] == 0x6b
  {
    assert "expand 32-byte k"[12] == 't' && "expand 32-byte k"[13] == 'e' && "expand 32-byte k"[14] == ' ' && "expand 32-byte k"[15] == 'k';
  }

  lemma WordOfFour(b: seq<bv8>, at: nat, b0: bv8, b1: bv8, b2: bv8, b3: bv8)
    requires at + 4 <= |b| && b[at] == b0 && b[at + 1] == b1 && b[at + 2] == b2 && b[at + 3] == b3
    ensures Word(b, at) == LoadLE(b0, b1, b2, b3)
  {
  }

  lemma FirstRow()
    ensures Word(Ascii("expand 32-byte k"), 0) == 0x61707865
    ensures Word(Ascii("expand 32-byte k"), 4) == 0x3320646e
    ensures Word(Ascii("expand 32-byte k"), 8) == 0x79622d32
    ensures Word(Ascii("expand 32-byte k"), 12) == 0x6b206574
  {
    hide Word, Ascii;
    var b := Ascii("expand 32-byte k");
    Letters0();
    WordOfFour(b, 0, 0x65, 0x78, 0x70, 0x61);
    Letters1();
    WordOfFour(b, 4, 0x6e, 0x64, 0x20, 0x33);
    Letters2();
    WordOfFour(b, 8, 0x32, 0x2d, 0x62, 0x79);
    Letters3();
    WordOfFour(b, 12, 0x74, 0x65, 0x20, 0x6b);
  }

  lemma WordDetermines(b: seq<bv8>, c: seq<bv8>, at: nat)
    requires at + 4 <= |b| == |c| && Word(b, at) == Word(c, at)
    ensures b[at..at + 4] == c[at..at + 4]
  {
    hide StoreLE, LoadLE;
    StoreAfterLoadLE(b[at], b[at + 1], b[at + 2], b[at + 3]);
    StoreAfterLoadLE(c[at], c[at + 1], c[at + 2], c[at + 3]);
    assert b[at..at + 4] == [b[at], b[at + 1], b[at + 2], b[at + 3]];
    assert c[at..at + 4] == [c[at], c[at + 1], c[at + 2], c[at + 3]];
  }

  /** Different keys, nonces or counters never meet in the state after the rounds. */
  lemma CoreSeparatesInputs(key: Key, nonce: Nonce, counter: bv32, key': Key, nonce': Nonce, counter': bv32)
    requires DoubleRounds(Initial(key, nonce, counter), 10) == DoubleRounds(Initial(key', nonce', counter'), 10)
    ensures key == key' && nonce == nonce' && counter == counter'
  {
    hide Word, DoubleRounds, UndoubleRounds;
    var s, s' := Initial(key, nonce, counter), Initial(key', nonce', counter');
    RoundsAreInvertible(s, 10);
    RoundsAreInvertible(s', 10);
    assert s == s';
    SameInitial(s, s', key, nonce, counter, key', nonce', counter');
  }

  lemma SameInitial(s: Matrix, s': Matrix, key: Key, nonce: Nonce, counter: bv32, key': Key, nonce': Nonce, counter': bv32)
    requires s == Initial(key, nonce, counter) && s' == Initial(key', nonce', counter') && s == s'
    ensures key == key' && nonce == nonce' && counter == counter'
  {
    hide Word;
    assert s[4] == s'[4] && s[5] == s'[5] && s[6] == s'[6] && s[7] == s'[7];
    assert s[8] == s'[8] && s[9] == s'[9] && s[10] == s'[10] && s[11] == s'[11];
    assert s[12] == s'[12] && s[13] == s'[13] && s[14] == s'[14] && s[15] == s'[15];
    WordDetermines(key, key', 0); WordDetermines(key, key', 4);
    WordDetermines(key, key', 8); WordDetermines(key, key', 12);
    WordDetermines(key, key', 16); WordDetermines(key, key', 20);
    WordDetermines(key, key', 24); WordDetermines(key, key', 28);
    WordDetermines(nonce, nonce', 0); WordDetermines(nonce, nonce', 4); WordDetermines(nonce, nonce', 8);
    PiecesAgree(key, key', 8);
    PiecesAgree(nonce, nonce', 3);
  }

  lemma PiecesAgree(b: seq<bv8>, c: seq<bv8>, n: nat)
    requires |b| == |c| == 4 * n
    requires forall j :: 0 <= j < n ==> b[4 * j..4 * j + 4] == c[4 * j..4 * j + 4]
    ensures b == c
  {
    forall i | 0 <= i < |b| ensures b[i] == c[i] {
      var j := i / 4;
      assert b[i] == b[4 * j..4 * j + 4][i % 4];
      assert c[i] == c[4 * j..4 * j + 4][i % 4];
    }
  }

  // ----- the C code -----

  /** One line of quarter_round: x += y; z ^= x; z <<<= n. */
  method MixInPlace(ws: array<bv32>, x: nat, y: nat, z: nat, n: bv6)
    requires x < ws.Length && y < ws.Length && z < ws.Length && x != y && x != z && y != z
    requires 0 < n < 32
    modifies ws
    ensures (ws[x], ws[z]) == Mix(old(ws[x]), old(ws[y]), old(ws[z]), n)
    ensures forall m :: 0 <= m < ws.Length && m != x && m != z ==> ws[m] == old(ws[m])
  {
    hide Add, Rotl, Xor;
    ws[x] := Add(ws[x], ws[y]);
    ws[z] := Xor(ws[z], ws[x]);
    ws[z] := Rotl(ws[z], n);
  }

  /** quarter_round on four cells of the working array. */
  method QuarterRoundInPlace(ws: array<bv32>, i: nat, j: nat, k: nat, l: nat)
    requires i < ws.Length && j < ws.Length && k < ws.Length && l < ws.Length
    requires i != j && i != k && i != l && j != k && j != l && k != l
    modifies ws
    ensures Quad(ws[i], ws[j], ws[k], ws[l]) == QuarterRound(old(Quad(ws[i], ws[j], ws[k], ws[l])))
    ensures forall m :: 0 <= m < ws.Length && m != i && m != j && m != k && m != l ==> ws[m] == old(ws[m])
  {
    hide Mix;
    MixInPlace(ws, i, j, l, 16);
    MixInPlace(ws, k, l, j, 12);
    MixInPlace(ws, i, j, l, 8);
    MixInPlace(ws, k, l, j, 7);
  }

  method ColumnRound(ws: array<bv32>)
    requires ws.Length == 16
    modifies ws
    ensures ws[..] == RoundOf(old(ws[..]), 0)
  {
    hide QuarterRound, RoundOf;
    ghost var s := ws[..];
    QuarterRoundInPlace(ws, 0, 4, 8, 12);
    QuarterRoundInPlace(ws, 1, 5, 9, 13);
    QuarterRoundInPlace(ws, 2, 6, 10, 14);
    QuarterRoundInPlace(ws, 3, 7, 11, 15);
    LanesMakeRound(s, ws[..], 0);
  }

  lemma Diagonals(s: Matrix)
    ensures Lane(s, 0, 1) == Quad(s[0], s[5], s[10], s[15]) && Lane(s, 1, 1) == Quad(s[1], s[6], s[11], s[12])
    ensures Lane(s, 2, 1) == Quad(s[2], s[7], s[8], s[13]) && Lane(s, 3, 1) == Quad(s[3], s[4], s[9], s[14])
  {
  }

  method DiagonalRound(ws: array<bv32>)
    requires ws.Length == 16
    modifies ws
    ensures ws[..] == RoundOf(old(ws[..]), 1)
  {
    hide QuarterRound, RoundOf, Lane;
    ghost var s := ws[..];
    QuarterRoundInPlace(ws, 0, 5, 10, 15);
    QuarterRoundInPlace(ws, 1, 6, 11, 12);
    QuarterRoundInPlace(ws, 2, 7, 8, 13);
    QuarterRoundInPlace(ws, 3, 4, 9, 14);
    Diagonals(s);
    Diagonals(ws[..]);
    LanesMakeRound(s, ws[..], 1);
  }

  /** Four lanes determine the matrix. */
  lemma LanesMakeRound(s: Matrix, t: Matrix, slant: nat)
    requires slant <= 1
    requires Lane(t, 0, slant) == QuarterRound(Lane(s, 0, slant)) && Lane(t, 1, slant) == QuarterRound(Lane(s, 1, slant))
    requires Lane(t, 2, slant) == QuarterRound(Lane(s, 2, slant)) && Lane(t, 3, slant) == QuarterRound(Lane(s, 3, slant))
    ensures t == RoundOf(s, slant)
  {
    hide QuarterRound, Lane, LaneOf, Part;
    forall i | 0 <= i < 16 ensures t[i] == RoundOf(s, slant)[i] {
      CellOnLane(t, i, slant);
    }
  }

  lemma NoWordsLE(ws: seq<bv32>)
    ensures WordsLE(ws[..0]) == []
  {
  }

  lemma NextWordLE(ws: seq<bv32>, i: nat)
    requires i < |ws|
    ensures WordsLE(ws[..i + 1]) == WordsLE(ws[..i]) + StoreLE(ws[i])
  {
    assert ws[..i + 1][..i] == ws[..i];
  }

  method PutWordLE(out: array<bv8>, at: nat, w: bv32, ghost done: seq<bv8>)
    requires at + 4 <= out.Length && out[..at] == done
    modifies out
    ensures out[..at + 4] == done + StoreLE(w)
  {
    hide LowByte;
    out[at + 0] := LowByte(w);
    out[at + 1] := LowByte(w >> 8);
    out[at + 2] := LowByte(w >> 16);
    out[at + 3] := LowByte(w >> 24);
  }

  /** The serializing loop of chacha20_block. */
  method PutWords(out: array<bv8>, ws: array<bv32>)
    requires out.Length == 64 && ws.Length == 16
    modifies out
    ensures out[..] == WordsLE(ws[..])
  {
    hide StoreLE, WordsLE;
    ghost var s := ws[..];
    NoWordsLE(s);
    for i := 0 to 16
      invariant ws[..] == s && out[..4 * i] == WordsLE(s[..i])
    {
      var w := ws[i];
      ghost var done := WordsLE(s[..i]);
      PutWordLE(out, 4 * i, w, done);
      NextWordLE(s, i);
    }
    assert s[..16] == s && out[..64] == out[..];
  }

  /** The ten double rounds of chacha20_block. */
  method TwentyRounds(ws: array<bv32>)
    requires ws.Length == 16
    modifies ws
    ensures ws[..] == DoubleRounds(old(ws[..]), 10)
  {
    hide RoundOf;
    ghost var s := ws[..];
    for i := 0 to 10
      invariant ws[..] == DoubleRounds(s, i)
    {
      ColumnRound(ws);
      DiagonalRound(ws);
    }
  }

  /** The initial state, as the array initializer of chacha20_block builds it. */
  method Setup(key: Key, nonce: Nonce, counter: bv32) returns (state: array<bv32>)
    ensures fresh(state) && state.Length == 16 && state[..] == Initial(key, nonce, counter)
  {
    hide Word;
    state := new bv32[16] [
      0x61707865, 0x3320646e, 0x79622d32, 0x6b206574,
      Word(key, 0), Word(key, 4), Word(key, 8), Word(key, 12),
      Word(key, 16), Word(key, 20), Word(key, 24), Word(key, 28),
      counter, Word(nonce, 0), Word(nonce, 4), Word(nonce, 8)];
  }

  /** The loop that adds the original state. */
  method FeedForward(ws: array<bv32>, state: array<bv32>)
    requires ws.Length == 16 && state.Length == 16 && ws != state
    modifies ws
    ensures ws[..] == Plus(old(ws[..]), state[..])
  {
    hide Add;
    for i := 0 to 16
      invariant forall j :: 0 <= j < i ==> ws[j] == Add(old(ws[j]), state[j])
      invariant forall j :: i <= j < 16 ==> ws[j] == old(ws[j])
    {
      ws[i] := Add(ws[i], state[i]);
    }
  }

  /** chacha20_block */
  method BlockInto(key: Key, nonce: Nonce, counter: bv32, out: array<bv8>)
    requires out.Length == 64
    modifies out
    ensures out[..] == Block(key, nonce, counter)
  {
    hide DoubleRounds, WordsLE, Initial, Plus;
    var state := Setup(key, nonce, counter);
    ghost var s := Initial(key, nonce, counter);
    var ws := new bv32[16];
    forall i | 0 <= i < 16 {
      ws[i] := state[i];
    }
    assert ws[..] == s;
    TwentyRounds(ws);
    FeedForward(ws, state);
    assert state[..] == s && ws[..] == Plus(DoubleRounds(s, 10), s);
    PutWords(out, ws);
  }
}
