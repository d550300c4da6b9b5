/** The example of RFC 8439, section 2.3.2: one block, double round by double round. It fixes the
    layout of the state, the rotations, the order and the number of the rounds, and the addition
    of the initial state. */
module ChaCha20Example {
  import opened Words
  import opened ChaCha20

  /** The quarter round of section 2.1.1. */
  lemma QuarterRoundExample()
    ensures QuarterRound(Quad(0x11111111, 0x01020304, 0x9b8d6f43, 0x01234567))
         == Quad(0xea2a92f4, 0xcb1cf8ce, 0x4581472e, 0x5881c4bb)
  {
  }

  // ----- rounds on four lanes -----

  datatype Four = Four(q0: Quad, q1: Quad, q2: Quad, q3: Quad)

  function Columns(f: Four): Matrix {
    [f.q0.a, f.q1.a, f.q2.a, f.q3.a, f.q0.b, f.q1.b, f.q2.b, f.q3.b,
     f.q0.c, f.q1.c, f.q2.c, f.q3.c, f.q0.d, f.q1.d, f.q2.d, f.q3.d]
  }

  /** The diagonals of the matrix with these columns. */
  function Slanted(f: Four): Four {
    Four(Quad(f.q0.a, f.q1.b, f.q2.c, f.q3.d), Quad(f.q1.a, f.q2.b, f.q3.c, f.q0.d),
         Quad(f.q2.a, f.q3.b, f.q0.c, f.q1.d), Quad(f.q3.a, f.q0.b, f.q1.c, f.q2.d))
  }

  function EachLane(f: Four): Four {
    Four(QuarterRound(f.q0), QuarterRound(f.q1), QuarterRound(f.q2), QuarterRound(f.q3))
  }

  lemma LanesOfColumns(f: Four)
    ensures Lane(Columns(f), 0, 0) == f.q0 && Lane(Columns(f), 1, 0) == f.q1
    ensures Lane(Columns(f), 2, 0) == f.q2 && Lane(Columns(f), 3, 0) == f.q3
  {
  }

  lemma LanesOfSlanted(f: Four)
    ensures Lane(Columns(f), 0, 1) == Slanted(f).q0 && Lane(Columns(f), 1, 1) == Slanted(f).q1
    ensures Lane(Columns(f), 2, 1) == Slanted(f).q2 && Lane(Columns(f), 3, 1) == Slanted(f).q3
  {
    hide Lane;
    Diagonals(Columns(f));
  }

  lemma ColumnStep(f: Four, g: Four)
    requires EachLane(f) == g
    ensures RoundOf(Columns(f), 0) == Columns(g)
  {
    hide QuarterRound, Columns, Lane, RoundOf;
    LanesOfColumns(f);
    LanesOfColumns(g);
    LanesMakeRound(Columns(f), Columns(g), 0);
  }

  lemma DiagonalStep(f: Four, g: Four)
    requires EachLane(Slanted(f)) == Slanted(g)
    ensures RoundOf(Columns(f), 1) == Columns(g)
  {
    hide QuarterRound, Columns, Lane, RoundOf;
    LanesOfSlanted(f);
    LanesOfSlanted(g);
    LanesMakeRound(Columns(f), Columns(g), 1);
  }

  // ----- the example -----

  function After0(): Four {
    Four(Quad(0x61707865, 0x03020100, 0x13121110, 0x00000001), Quad(0x3320646e, 0x07060504, 0x17161514, 0x09000000),
         Quad(0x79622d32, 0x0b0a0908, 0x1b1a1918, 0x4a000000), Quad(0x6b206574, 0x0f0e0d0c, 0x1f1e1d1c, 0x00000000))
  }

  function After1(): Four {
    Four(Quad(0xcd52e917, 0xc4b7cd22, 0x7bf7d740, 0x6b0d58a3), Quad(0x85ab03b4, 0x5c2e187a, 0x7eddd644, 0x6798471a),
         Quad(0xb3457395, 0xc95eb461, 0xf1a1bdf5, 0xd737f167), Quad(0xf96de7dd, 0x316c801a, 0x761246ca, 0xf173888d))
  }

  function After2(): Four {
    Four(Quad(0xcf1a7584, 0x901d2f40, 0x2dafb216, 0x10aef18d), Quad(0x048927ec, 0x7974b81c, 0x27c89cd6, 0x16218765),
         Quad(0x54051fda, 0x378dcfb4, 0xcd3c9aa0, 0x68f76705), Quad(0xc244ff28, 0xcd47fd0e, 0x79fc89c7, 0x04d6ee22))
  }

  function After3(): Four {
    Four(Quad(0x03a14032, 0xa7143ae0, 0xc90c6b18, 0xba35d777), Quad(0x66b15927, 0xa09b33dd, 0x5a202413, 0xb360f1bf),
         Quad(0x9d6b6b42, 0xa5daaf88, 0xc20e01b6, 0x8178315b), Quad(0xb84c4109, 0x2fd91a73, 0x72cd6b74, 0x2cd11b1a))
  }

  function After4(): Four {
    Four(Quad(0x9a2d3589, 0x0a1bffc6, 0xe46c6354, 0x2687d476), Quad(0x0b23fc4e, 0x5e5993f7, 0xc9503229, 0x54e65231),
         Quad(0x40af3b6b, 0x9904c2e7, 0x04fef5aa, 0x3594ffc5), Quad(0xceea8144, 0x0d334718, 0xf8933f72, 0x2b3bb2ca))
  }

  function After5(): Four {
    Four(Quad(0xc53318c5, 0x26d7cf73, 0xae2ca8db, 0x9e5ec228), Quad(0xca325d96, 0x6088d379, 0x42f67c72, 0x7d85a9f3),
         Quad(0x7e7d11cb, 0xc0f0e9bd, 0x71669aca, 0x201d0756), Quad(0x3404e2ca, 0xe310cdb9, 0x975c171d, 0x63fa6953))
  }

  function After6(): Four {
    Four(Quad(0x04a3131a, 0x36cc86c7, 0x07d13aca, 0x33b6686d), Quad(0x66176309, 0xbf8a4465, 0xeb0be9af, 0x795cc671),
         Quad(0x0415bab1, 0xf77dd720, 0x61599491, 0xc0049972), Quad(0x61b880a2, 0xfc0bdc90, 0x918512dc, 0xa0a81bde))
  }

  function After7(): Four {
    Four(Quad(0x9b70f51f, 0x93b08686, 0xd839165e, 0xa609f555), Quad(0x7ea8ac11, 0x6a4c50ae, 0x4c06e28a, 0x2c246549),
         Quad(0x21e54da9, 0x19212a5a, 0xd3fde99e, 0x95151853), Quad(0xca393b2f, 0x9b032958, 0x26acc13d, 0x2c847a0d))
  }

  function After8(): Four {
    Four(Quad(0xca5c85dd, 0x982563f8, 0x1c25931a, 0xa9b751fb), Quad(0x93a4f90e, 0x712aa9ff, 0x5180bb10, 0x382f3ce2),
         Quad(0xd9f0df58, 0x279a61e8, 0x779c27e7, 0x8db1757d), Quad(0x26dd82dd, 0x970f72bd, 0x54077e08, 0xcc38080b))
  }

  function After9(): Four {
    Four(Quad(0xb6b87de6, 0xdc33c122, 0x28c1fcb3, 0x21078b22), Quad(0x9a016148, 0x98e18fa3, 0xc4b38f9d, 0xb193e7a3),
         Quad(0x93859815, 0x5ffbe8fc, 0x83e2f5d7, 0xb2f49389), Quad(0x4915e6cc, 0xf7154b8b, 0x7d24b98b, 0x6cde6026))
  }

  function After10(): Four {
    Four(Quad(0x837778ab, 0xc4f2d0c7, 0x335271c2, 0xd19c12b4), Quad(0xe238d763, 0xfc62bb2f, 0xf29489f3, 0xb04e16de),
         Quad(0xa67ae21e, 0x8fa018fc, 0xeabda8fc, 0x9e83d0cb), Quad(0x5950bb2f, 0x3f5ec7b7, 0x82e46ebd, 0x4e3c50a2))
  }

  /** The columns after n double rounds. */
  function After(n: nat): Four {
    match n
    case 0 => After0() case 1 => After1() case 2 => After2() case 3 => After3()
    case 4 => After4() case 5 => After5() case 6 => After6() case 7 => After7()
    case 8 => After8() case 9 => After9() case _ => After10()
  }

  function Between0(): Four {
    Four(Quad(0xabbaa25c, 0x3a465196, 0x6b3ca454, 0xdec62ed2), Quad(0x1efa51ea, 0x1c7e64f6, 0x08eb14b1, 0x8862cc77),
         Quad(0x7354fbdf, 0xb12fb628, 0xbf8a9ac9, 0x6e35b345), Quad(0x83d2dc69, 0xf05b6976, 0xe444df3b, 0x52a647f1))
  }

  function Between1(): Four {
    Four(Quad(0xe3e1111b, 0xd65b5b5b, 0xe67aec54, 0x7be81c0d), Quad(0xa6291491, 0xf56af099, 0xf7a52d82, 0x1d92d0fd),
         Quad(0x5a82b80c, 0x4ccc8103, 0xdb470914, 0x13139f8c), Quad(0x4500fd45, 0xc94d29e2, 0xdfb40f1d, 0x7a26ecaa))
  }

  function Between2(): Four {
    Four(Quad(0xa22695f2, 0x1ece4458, 0xf2d36da6, 0x6fda6bf7), Quad(0xa908cf6c, 0xe82b726f, 0xf4dab980, 0x65a4b0ce),
         Quad(0xe6ae05b2, 0x5a21ab90, 0x7baf5573, 0x25e6d76e), Quad(0xfe0ff04b, 0x87698c64, 0xa78c270d, 0x1b7b11ec))
  }

  function Between3(): Four {
    Four(Quad(0xfecd0838, 0xcedf6624, 0x1d8a33ea, 0xa818b852), Quad(0x160ab468, 0xb11de6c4, 0x87dc1ca9, 0xb100446a),
         Quad(0x9a0ddf4e, 0xbd7810ef, 0x89bd34a5, 0x9c1d70b1), Quad(0xbac7154a, 0xd22b5643, 0x5505ef62, 0xa1d1befa))
  }

  function Between4(): Four {
    Four(Quad(0x85e7824a, 0x1c133ea1, 0xa3a66a86, 0xde008464), Quad(0x4940cd9e, 0xbba40b0f, 0xc0b4754f, 0x34f0058b),
         Quad(0xfbe7684b, 0x9413992a, 0x771b4ecb, 0x70846cfa), Quad(0x7335d03d, 0xa4ab2040, 0x165151a1, 0xa3271b09))
  }

  function Between5(): Four {
    Four(Quad(0x9950b826, 0x2121065a, 0x19078de2, 0x40ca72b3), Quad(0xcac7ccc6, 0xc12bdadb, 0x178ecc02, 0x3b9bf852),
         Quad(0x84a67673, 0xcae3acd1, 0xe6adbdb2, 0x78690378), Quad(0xdb3109a6, 0x594616cb, 0x52a9d50e, 0xe17d4902))
  }

  function Between6(): Four {
    Four(Quad(0x57c5e6da, 0x8e85d82f, 0x434b4749, 0x49ee03a6), Quad(0x35ce46a8, 0xb4819d06, 0x1d459c00, 0xd11a5554),
         Quad(0x0c041bb9, 0xb63be200, 0x111cfe2c, 0xa7202e04), Quad(0xfa91df79, 0xacd221e4, 0x55942604, 0x7d2215bc))
  }

  function Between7(): Four {
    Four(Quad(0xc0b18aee, 0xdeb54e9c, 0xa82d65d4, 0x4103c64e), Quad(0x087445ba, 0x802c883b, 0x687f11eb, 0x82816a91),
         Quad(0x36e52ad9, 0x06e86889, 0xe9d36207, 0xb584ca56), Quad(0xa777426a, 0x3c002680, 0x4242ddae, 0xfd0bd2b9))
  }

  function Between8(): Four {
    Four(Quad(0x765c6e9c, 0x9046ecaa, 0x46fa091e, 0x72a5aace), Quad(0x5ab09b11, 0x7b88d882, 0x5117e9b5, 0x5fa7f1c5),
         Quad(0x3ee7da04, 0xb9b577dd, 0x862ff22b, 0xda563e0a), Quad(0x37c31203, 0x156de7ed, 0xa3fcc7a6, 0x5263d7ca))
  }

  function Between9(): Four {
    Four(Quad(0x8a07ff15, 0x913768fe, 0x0a39aedc, 0x2d4cfe3e), Quad(0x0cadc51c, 0x442a0c0c, 0xc1428029, 0xe5466d1b),
         Quad(0x017c8da9, 0x598fe3bb, 0x7b48135f, 0xe4ccdc13), Quad(0x4afbe5df, 0x47d18828, 0x5a5f1098, 0x8ac92a18))
  }

  /** The columns after n double rounds and a column round. */
  function Between(n: nat): Four {
    match n
    case 0 => Between0() case 1 => Between1() case 2 => Between2() case 3 => Between3()
    case 4 => Between4() case 5 => Between5() case 6 => Between6() case 7 => Between7()
    case 8 => Between8() case _ => Between9()
  }

  ghost predicate StepsOn(n: nat) {
    EachLane(After(n)) == Between(n) && EachLane(Slanted(Between(n))) == Slanted(After(n + 1))
  }

  lemma ColumnsOf0() ensures EachLane(After0()) == Between0() {}
  lemma DiagonalsOf0() ensures EachLane(Slanted(Between0())) == Slanted(After1()) {}
  lemma ColumnsOf1() ensures EachLane(After1()) == Between1() {}
  lemma DiagonalsOf1() ensures EachLane(Slanted(Between1())) == Slanted(After2()) {}
  lemma ColumnsOf2() ensures EachLane(After2()) == Between2() {}
  lemma DiagonalsOf2() ensures EachLane(Slanted(Between2())) == Slanted(After3()) {}
  lemma ColumnsOf3() ensures EachLane(After3()) == Between3() {}
  lemma DiagonalsOf3() ensures EachLane(Slanted(Between3())) == Slanted(After4()) {}
  lemma ColumnsOf4() ensures EachLane(After4()) == Between4() {}
  lemma DiagonalsOf4() ensures EachLane(Slanted(Between4())) == Slanted(After5()) {}
  lemma ColumnsOf5() ensures EachLane(After5()) == Between5() {}
  lemma DiagonalsOf5() ensures EachLane(Slanted(Between5())) == Slanted(After6()) {}
  lemma ColumnsOf6() ensures EachLane(After6()) == Between6() {}
  lemma DiagonalsOf6() ensures EachLane(Slanted(Between6())) == Slanted(After7()) {}
  lemma ColumnsOf7() ensures EachLane(After7()) == Between7() {}
  lemma DiagonalsOf7() ensures EachLane(Slanted(Between7())) == Slanted(After8()) {}
  lemma ColumnsOf8() ensures EachLane(After8()) == Between8() {}
  lemma DiagonalsOf8() ensures EachLane(Slanted(Between8())) == Slanted(After9()) {}
  lemma ColumnsOf9() ensures EachLane(After9()) == Between9() {}
  lemma DiagonalsOf9() ensures EachLane(Slanted(Between9())) == Slanted(After10()) {}

  lemma AllStepOn(n: nat)
    requires n < 10
    ensures StepsOn(n)
  {
    hide EachLane, Slanted, After0, Between0, After1, Between1, After2, Between2, After3, Between3, After4, Between4, After5, Between5, After6, Between6, After7, Between7, After8, Between8, After9, Between9, After10;
    ColumnsOf0(); DiagonalsOf0();
    ColumnsOf1(); DiagonalsOf1();
    ColumnsOf2(); DiagonalsOf2();
    ColumnsOf3(); DiagonalsOf3();
    ColumnsOf4(); DiagonalsOf4();
    ColumnsOf5(); DiagonalsOf5();
    ColumnsOf6(); DiagonalsOf6();
    ColumnsOf7(); DiagonalsOf7();
    ColumnsOf8(); DiagonalsOf8();
    ColumnsOf9(); DiagonalsOf9();
  }

  lemma {:induction false} RoundsAre(n: nat)
    requires n <= 10
    ensures DoubleRounds(Columns(After(0)), n) == Columns(After(n))
  {
    hide After, Between, EachLane, Slanted, Columns, RoundOf;
    if n > 0 {
      RoundsAre(n - 1);
      AllStepOn(n - 1);
      ColumnStep(After(n - 1), Between(n - 1));
      DiagonalStep(Between(n - 1), After(n));
    }
  }

  function ExampleKey(): Key {
    seq(32, i requires 0 <= i < 32 => i as bv8)
  }

  function ExampleNonce(): Nonce {
    [0, 0, 0, 9, 0, 0, 0, 0x4a, 0, 0, 0, 0]
  }

  lemma KeyWord(i: nat)
    requires i < 8
    ensures Word(ExampleKey(), 4 * i) == LoadLE((4 * i) as bv8, (4 * i + 1) as bv8, (4 * i + 2) as bv8, (4 * i + 3) as bv8)
  {
  }

  lemma KeyBytes()
    ensures Word(ExampleKey(), 0) == 0x03020100 && Word(ExampleKey(), 4) == 0x07060504
    ensures Word(ExampleKey(), 8) == 0x0b0a0908 && Word(ExampleKey(), 12) == 0x0f0e0d0c
  {
    KeyWord(0); KeyWord(1); KeyWord(2); KeyWord(3);
  }

  lemma MoreKeyBytes()
    ensures Word(ExampleKey(), 16) == 0x13121110 && Word(ExampleKey(), 20) == 0x17161514
    ensures Word(ExampleKey(), 24) == 0x1b1a1918 && Word(ExampleKey(), 28) == 0x1f1e1d1c
  {
    KeyWord(4); KeyWord(5); KeyWord(6); KeyWord(7);
  }

  lemma NonceBytes()
    ensures Word(ExampleNonce(), 0) == 0x09000000 && Word(ExampleNonce(), 4) == 0x4a000000 && Word(ExampleNonce(), 8) == 0
  {
    var n := ExampleNonce();
    assert n[0] == 0 && n[1] == 0 && n[2] == 0 && n[3] == 9 && n[4] == 0 && n[5] == 0 && n[6] == 0 && n[7] == 0x4a;
  }

  lemma ExampleStart()
    ensures Initial(ExampleKey(), ExampleNonce(), 1) == Columns(After(0))
  {
    hide Word, ExampleKey, ExampleNonce;
    KeyBytes();
    MoreKeyBytes();
    NonceBytes();
  }

  /** The words of the block, as the standard prints them. */
  function Expected(): Matrix {
    [0xe4e7f110, 0x15593bd1, 0x1fdd0f50, 0xc47120a3,
     0xc7f4d1c7, 0x0368c033, 0x9aaa2204, 0x4e6cd4c3,
     0x466482d2, 0x09aa9f07, 0x05d7c214, 0xa2028bd9,
     0xd19c12b5, 0xb94e16de, 0xe883d0cb, 0x4e3c50a2]
  }

  function Result(): Four {
    Four(Quad(0xe4e7f110, 0xc7f4d1c7, 0x466482d2, 0xd19c12b5), Quad(0x15593bd1, 0x0368c033, 0x09aa9f07, 0xb94e16de),
         Quad(0x1fdd0f50, 0x9aaa2204, 0x05d7c214, 0xe883d0cb), Quad(0xc47120a3, 0x4e6cd4c3, 0xa2028bd9, 0x4e3c50a2))
  }

  lemma ResultAsPrinted()
    ensures Columns(Result()) == Expected()
  {
  }

  function AddQuads(p: Quad, q: Quad): Quad {
    Quad(Add(p.a, q.a), Add(p.b, q.b), Add(p.c, q.c), Add(p.d, q.d))
  }

  lemma SameLanes(s: Matrix, t: Matrix)
    requires Lane(s, 0, 0) == Lane(t, 0, 0) && Lane(s, 1, 0) == Lane(t, 1, 0)
    requires Lane(s, 2, 0) == Lane(t, 2, 0) && Lane(s, 3, 0) == Lane(t, 3, 0)
    ensures s == t
  {
    hide Lane, LaneOf, Part;
    forall i | 0 <= i < 16 ensures s[i] == t[i] {
      CellOnLane(s, i, 0);
      CellOnLane(t, i, 0);
    }
  }

  lemma LaneOfSum(s: Matrix, t: Matrix, k: nat)
    requires k < 4
    ensures Lane(Plus(s, t), k, 0) == AddQuads(Lane(s, k, 0), Lane(t, k, 0))
  {
    hide Add;
  }

  lemma LanesOfSum(f: Four, g: Four)
    ensures Plus(Columns(f), Columns(g))
         == Columns(Four(AddQuads(f.q0, g.q0), AddQuads(f.q1, g.q1), AddQuads(f.q2, g.q2), AddQuads(f.q3, g.q3)))
  {
    hide AddQuads, Columns, Lane, Plus;
    var h := Four(AddQuads(f.q0, g.q0), AddQuads(f.q1, g.q1), AddQuads(f.q2, g.q2), AddQuads(f.q3, g.q3));
    LanesOfColumns(f);
    LanesOfColumns(g);
    LanesOfColumns(h);
    LaneOfSum(Columns(f), Columns(g), 0);
    LaneOfSum(Columns(f), Columns(g), 1);
    LaneOfSum(Columns(f), Columns(g), 2);
    LaneOfSum(Columns(f), Columns(g), 3);
    SameLanes(Plus(Columns(f), Columns(g)), Columns(h));
  }

  lemma ResultIsSum()
    ensures AddQuads(After10().q0, After0().q0) == Result().q0 && AddQuads(After10().q1, After0().q1) == Result().q1
    ensures AddQuads(After10().q2, After0().q2) == Result().q2 && AddQuads(After10().q3, After0().q3) == Result().q3
  {
  }

  lemma ExampleSum()
    ensures Plus(Columns(After(10)), Columns(After(0))) == Expected()
  {
    hide Plus, Columns, AddQuads, After0, After10, Result, Expected;
    LanesOfSum(After10(), After0());
    ResultIsSum();
    ResultAsPrinted();
  }

  lemma BlockExample()
    ensures Block(ExampleKey(), ExampleNonce(), 1) == WordsLE(Expected())
  {
    hide WordsLE, Initial, DoubleRounds, Plus, Columns, After, Expected, ExampleKey, ExampleNonce;
    ExampleStart();
    RoundsAre(10);
    ExampleSum();
  }
}
