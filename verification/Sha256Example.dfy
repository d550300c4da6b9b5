/** The example of FIPS 180-4 for the message "abc", round by round: it fixes every constant,
    every function and the order of everything that the digest is made of. */
module Sha256Example {
  import opened Words
  import opened Sha256Spec

  function Message(): seq<bv8> {
    [0x61, 0x62, 0x63]
  }

  function Expected(): seq<bv8> {
    []
    + [0xba, 0x78, 0x16, 0xbf]
    + [0x8f, 0x01, 0xcf, 0xea]
    + [0x41, 0x41, 0x40, 0xde]
    + [0x5d, 0xae, 0x22, 0x23]
    + [0xb0, 0x03, 0x61, 0xa3]
    + [0x96, 0x17, 0x7a, 0x9c]
    + [0xb4, 0x10, 0xff, 0x61]
    + [0xf2, 0x00, 0x15, 0xad]
  }

  function Scheduled0(t: nat): bv32 {
    match t
    case 0 => 0x61626380 case 1 => 0x00000000 case 2 => 0x00000000 case 3 => 0x00000000
    case 4 => 0x00000000 case 5 => 0x00000000 case 6 => 0x00000000 case _ => 0x00000000
  }

  function Scheduled8(t: nat): bv32 {
    match t
    case 0 => 0x00000000 case 1 => 0x00000000 case 2 => 0x00000000 case 3 => 0x00000000
    case 4 => 0x00000000 case 5 => 0x00000000 case 6 => 0x00000000 case _ => 0x00000018
  }

  function Scheduled16(t: nat): bv32 {
    match t
    case 0 => 0x61626380 case 1 => 0x000f0000 case 2 => 0x7da86405 case 3 => 0x600003c6
    case 4 => 0x3e9d7b78 case 5 => 0x0183fc00 case 6 => 0x12dcbfdb case _ => 0xe2e2c38e
  }

  function Scheduled24(t: nat): bv32 {
    match t
    case 0 => 0xc8215c1a case 1 => 0xb73679a2 case 2 => 0xe5bc3909 case 3 => 0x32663c5b
    case 4 => 0x9d209d67 case 5 => 0xec8726cb case 6 => 0x702138a4 case _ => 0xd3b7973b
  }

  function Scheduled32(t: nat): bv32 {
    match t
    case 0 => 0x93f5997f case 1 => 0x3b68ba73 case 2 => 0xaff4ffc1 case 3 => 0xf10a5c62
    case 4 => 0x0a8b3996 case 5 => 0x72af830a case 6 => 0x9409e33e case _ => 0x24641522
  }

  function Scheduled40(t: nat): bv32 {
    match t
    case 0 => 0x9f47bf94 case 1 => 0xf0a64f5a case 2 => 0x3e246a79 case 3 => 0x27333ba3
    case 4 => 0x0c4763f2 case 5 => 0x840abf27 case 6 => 0x7a290d5d case _ => 0x065c43da
  }

  function Scheduled48(t: nat): bv32 {
    match t
    case 0 => 0xfb3e89cb case 1 => 0xcc7617db case 2 => 0xb9e66c34 case 3 => 0xa9993667
    case 4 => 0x84badedd case 5 => 0xc21462bc case 6 => 0x1487472c case _ => 0xb20f7a99
  }

  function Scheduled56(t: nat): bv32 {
    match t
    case 0 => 0xef57b9cd case 1 => 0xebe6b238 case 2 => 0x9fe3095e case 3 => 0x78bc8d4b
    case 4 => 0xa43fcf15 case 5 => 0x668b2ff8 case 6 => 0xeeaba2cc case _ => 0x12b1edeb
  }

  /** The message schedule of its one block. */
  function Scheduled(t: nat): bv32 {
    if t < 8 then Scheduled0(t)
    else if t < 16 then Scheduled8(t - 8)
    else if t < 24 then Scheduled16(t - 16)
    else if t < 32 then Scheduled24(t - 24)
    else if t < 40 then Scheduled32(t - 32)
    else if t < 48 then Scheduled40(t - 40)
    else if t < 56 then Scheduled48(t - 48)
    else Scheduled56(t - 56)
  }

  function Working0(t: nat): Hash {
    match t
    case 0 => Hash(0x6a09e667, 0xbb67ae85, 0x3c6ef372, 0xa54ff53a, 0x510e527f, 0x9b05688c, 0x1f83d9ab, 0x5be0cd19)
    case 1 => Hash(0x5d6aebcd, 0x6a09e667, 0xbb67ae85, 0x3c6ef372, 0xfa2a4622, 0x510e527f, 0x9b05688c, 0x1f83d9ab)
    case 2 => Hash(0x5a6ad9ad, 0x5d6aebcd, 0x6a09e667, 0xbb67ae85, 0x78ce7989, 0xfa2a4622, 0x510e527f, 0x9b05688c)
    case 3 => Hash(0xc8c347a7, 0x5a6ad9ad, 0x5d6aebcd, 0x6a09e667, 0xf92939eb, 0x78ce7989, 0xfa2a4622, 0x510e527f)
    case 4 => Hash(0xd550f666, 0xc8c347a7, 0x5a6ad9ad, 0x5d6aebcd, 0x24e00850, 0xf92939eb, 0x78ce7989, 0xfa2a4622)
    case 5 => Hash(0x04409a6a, 0xd550f666, 0xc8c347a7, 0x5a6ad9ad, 0x43ada245, 0x24e00850, 0xf92939eb, 0x78ce7989)
    case 6 => Hash(0x2b4209f5, 0x04409a6a, 0xd550f666, 0xc8c347a7, 0x714260ad, 0x43ada245, 0x24e00850, 0xf92939eb)
    case _ => Hash(0xe5030380, 0x2b4209f5, 0x04409a6a, 0xd550f666, 0x9b27a401, 0x714260ad, 0x43ada245, 0x24e00850)
  }

  function Working8(t: nat): Hash {
    match t
    case 0 => Hash(0x85a07b5f, 0xe5030380, 0x2b4209f5, 0x04409a6a, 0x0c657a79, 0x9b27a401, 0x714260ad, 0x43ada245)
    case 1 => Hash(0x8e04ecb9, 0x85a07b5f, 0xe5030380, 0x2b4209f5, 0x32ca2d8c, 0x0c657a79, 0x9b27a401, 0x714260ad)
    case 2 => Hash(0x8c87346b, 0x8e04ecb9, 0x85a07b5f, 0xe5030380, 0x1cc92596, 0x32ca2d8c, 0x0c657a79, 0x9b27a401)
    case 3 => Hash(0x4798a3f4, 0x8c87346b, 0x8e04ecb9, 0x85a07b5f, 0x436b23e8, 0x1cc92596, 0x32ca2d8c, 0x0c657a79)
    case 4 => Hash(0xf71fc5a9, 0x4798a3f4, 0x8c87346b, 0x8e04ecb9, 0x816fd6e9, 0x436b23e8, 0x1cc92596, 0x32ca2d8c)
    case 5 => Hash(0x87912990, 0xf71fc5a9, 0x4798a3f4, 0x8c87346b, 0x1e578218, 0x816fd6e9, 0x436b23e8, 0x1cc92596)
    case 6 => Hash(0xd932eb16, 0x87912990, 0xf71fc5a9, 0x4798a3f4, 0x745a48de, 0x1e578218, 0x816fd6e9, 0x436b23e8)
    case _ => Hash(0xc0645fde, 0xd932eb16, 0x87912990, 0xf71fc5a9, 0x0b92f20c, 0x745a48de, 0x1e578218, 0x816fd6e9)
  }

  function Working16(t: nat): Hash {
    match t
    case 0 => Hash(0xb0fa238e, 0xc0645fde, 0xd932eb16, 0x87912990, 0x07590dcd, 0x0b92f20c, 0x745a48de, 0x1e578218)
    case 1 => Hash(0x21da9a9b, 0xb0fa238e, 0xc0645fde, 0xd932eb16, 0x8034229c, 0x07590dcd, 0x0b92f20c, 0x745a48de)
    case 2 => Hash(0xc2fbd9d1, 0x21da9a9b, 0xb0fa238e, 0xc0645fde, 0x846ee454, 0x8034229c, 0x07590dcd, 0x0b92f20c)
    case 3 => Hash(0xfe777bbf, 0xc2fbd9d1, 0x21da9a9b, 0xb0fa238e, 0xcc899961, 0x846ee454, 0x8034229c, 0x07590dcd)
    case 4 => Hash(0xe1f20c33, 0xfe777bbf, 0xc2fbd9d1, 0x21da9a9b, 0xb0638179, 0xcc899961, 0x846ee454, 0x8034229c)
    case 5 => Hash(0x9dc68b63, 0xe1f20c33, 0xfe777bbf, 0xc2fbd9d1, 0x8ada8930, 0xb0638179, 0xcc899961, 0x846ee454)
    case 6 => Hash(0xc2606d6d, 0x9dc68b63, 0xe1f20c33, 0xfe777bbf, 0xe1257970, 0x8ada8930, 0xb0638179, 0xcc899961)
    case _ => Hash(0xa7a3623f, 0xc2606d6d, 0x9dc68b63, 0xe1f20c33, 0x49f5114a, 0xe1257970, 0x8ada8930, 0xb0638179)
  }

  function Working24(t: nat): Hash {
    match t
    case 0 => Hash(0xc5d53d8d, 0xa7a3623f, 0xc2606d6d, 0x9dc68b63, 0xaa47c347, 0x49f5114a, 0xe1257970, 0x8ada8930)
    case 1 => Hash(0x1c2c2838, 0xc5d53d8d, 0xa7a3623f, 0xc2606d6d, 0x2823ef91, 0xaa47c347, 0x49f5114a, 0xe1257970)
    case 2 => Hash(0xcde8037d, 0x1c2c2838, 0xc5d53d8d, 0xa7a3623f, 0x14383d8e, 0x2823ef91, 0xaa47c347, 0x49f5114a)
    case 3 => Hash(0xb62ec4bc, 0xcde8037d, 0x1c2c2838, 0xc5d53d8d, 0xc74c6516, 0x14383d8e, 0x2823ef91, 0xaa47c347)
    case 4 => Hash(0x77d37528, 0xb62ec4bc, 0xcde8037d, 0x1c2c2838, 0xedffbff8, 0xc74c6516, 0x14383d8e, 0x2823ef91)
    case 5 => Hash(0x363482c9, 0x77d37528, 0xb62ec4bc, 0xcde8037d, 0x6112a3b7, 0xedffbff8, 0xc74c6516, 0x14383d8e)
    case 6 => Hash(0xa0060b30, 0x363482c9, 0x77d37528, 0xb62ec4bc, 0xade79437, 0x6112a3b7, 0xedffbff8, 0xc74c6516)
    case _ => Hash(0xea992a22, 0xa0060b30, 0x363482c9, 0x77d37528, 0x0109ab3a, 0xade79437, 0x6112a3b7, 0xedffbff8)
  }

  function Working32(t: nat): Hash {
    match t
    case 0 => Hash(0x73b33bf5, 0xea992a22, 0xa0060b30, 0x363482c9, 0xba591112, 0x0109ab3a, 0xade79437, 0x6112a3b7)
    case 1 => Hash(0x98e12507, 0x73b33bf5, 0xea992a22, 0xa0060b30, 0x9cd9f5f6, 0xba591112, 0x0109ab3a, 0xade79437)
    case 2 => Hash(0xfe604df5, 0x98e12507, 0x73b33bf5, 0xea992a22, 0x59249dd3, 0x9cd9f5f6, 0xba591112, 0x0109ab3a)
    case 3 => Hash(0xa9a7738c, 0xfe604df5, 0x98e12507, 0x73b33bf5, 0x085f3833, 0x59249dd3, 0x9cd9f5f6, 0xba591112)
    case 4 => Hash(0x65a0cfe4, 0xa9a7738c, 0xfe604df5, 0x98e12507, 0xf4b002d6, 0x085f3833, 0x59249dd3, 0x9cd9f5f6)
    case 5 => Hash(0x41a65cb1, 0x65a0cfe4, 0xa9a7738c, 0xfe604df5, 0x0772a26b, 0xf4b002d6, 0x085f3833, 0x59249dd3)
    case 6 => Hash(0x34df1604, 0x41a65cb1, 0x65a0cfe4, 0xa9a7738c, 0xa507a53d, 0x0772a26b, 0xf4b002d6, 0x085f3833)
    case _ => Hash(0x6dc57a8a, 0x34df1604, 0x41a65cb1, 0x65a0cfe4, 0xf0781bc8, 0xa507a53d, 0x0772a26b, 0xf4b002d6)
  }

  function Working40(t: nat): Hash {
    match t
    case 0 => Hash(0x79ea687a, 0x6dc57a8a, 0x34df1604, 0x41a65cb1, 0x1efbc0a0, 0xf0781bc8, 0xa507a53d, 0x0772a26b)
    case 1 => Hash(0xd6670766, 0x79ea687a, 0x6dc57a8a, 0x34df1604, 0x26352d63, 0x1efbc0a0, 0xf0781bc8, 0xa507a53d)
    case 2 => Hash(0xdf46652f, 0xd6670766, 0x79ea687a, 0x6dc57a8a, 0x838b2711, 0x26352d63, 0x1efbc0a0, 0xf0781bc8)
    case 3 => Hash(0x17aa0dfe, 0xdf46652f, 0xd6670766, 0x79ea687a, 0xdecd4715, 0x838b2711, 0x26352d63, 0x1efbc0a0)
    case 4 => Hash(0x9d4baf93, 0x17aa0dfe, 0xdf46652f, 0xd6670766, 0xfda24c2e, 0xdecd4715, 0x838b2711, 0x26352d63)
    case 5 => Hash(0x26628815, 0x9d4baf93, 0x17aa0dfe, 0xdf46652f, 0xa80f11f0, 0xfda24c2e, 0xdecd4715, 0x838b2711)
    case 6 => Hash(0x72ab4b91, 0x26628815, 0x9d4baf93, 0x17aa0dfe, 0xb7755da1, 0xa80f11f0, 0xfda24c2e, 0xdecd4715)
    case _ => Hash(0xa14c14b0, 0x72ab4b91, 0x26628815, 0x9d4baf93, 0xd57b94a9, 0xb7755da1, 0xa80f11f0, 0xfda24c2e)
  }

  function Working48(t: nat): Hash {
    match t
    case 0 => Hash(0x4172328d, 0xa14c14b0, 0x72ab4b91, 0x26628815, 0xfecf0bc6, 0xd57b94a9, 0xb7755da1, 0xa80f11f0)
    case 1 => Hash(0x05757ceb, 0x4172328d, 0xa14c14b0, 0x72ab4b91, 0xbd714038, 0xfecf0bc6, 0xd57b94a9, 0xb7755da1)
    case 2 => Hash(0xf11bfaa8, 0x05757ceb, 0x4172328d, 0xa14c14b0, 0x6e5c390c, 0xbd714038, 0xfecf0bc6, 0xd57b94a9)
    case 3 => Hash(0x7a0508a1, 0xf11bfaa8, 0x05757ceb, 0x4172328d, 0x52f1ccf7, 0x6e5c390c, 0xbd714038, 0xfecf0bc6)
    case 4 => Hash(0x886e7a22, 0x7a0508a1, 0xf11bfaa8, 0x05757ceb, 0x49231c1e, 0x52f1ccf7, 0x6e5c390c, 0xbd714038)
    case 5 => Hash(0x101fd28f, 0x886e7a22, 0x7a0508a1, 0xf11bfaa8, 0x529e7d00, 0x49231c1e, 0x52f1ccf7, 0x6e5c390c)
    case 6 => Hash(0xf5702fdb, 0x101fd28f, 0x886e7a22, 0x7a0508a1, 0x9f4787c3, 0x529e7d00, 0x49231c1e, 0x52f1ccf7)
    case _ => Hash(0x3ec45cdb, 0xf5702fdb, 0x101fd28f, 0x886e7a22, 0xe50e1b4f, 0x9f4787c3, 0x529e7d00, 0x49231c1e)
  }

  function Working56(t: nat): Hash {
    match t
    case 0 => Hash(0x38cc9913, 0x3ec45cdb, 0xf5702fdb, 0x101fd28f, 0x54cb266b, 0xe50e1b4f, 0x9f4787c3, 0x529e7d00)
    case 1 => Hash(0xfcd1887b, 0x38cc9913, 0x3ec45cdb, 0xf5702fdb, 0x9b5e906c, 0x54cb266b, 0xe50e1b4f, 0x9f4787c3)
    case 2 => Hash(0xc062d46f, 0xfcd1887b, 0x38cc9913, 0x3ec45cdb, 0x7e44008e, 0x9b5e906c, 0x54cb266b, 0xe50e1b4f)
    case 3 => Hash(0xffb70472, 0xc062d46f, 0xfcd1887b, 0x38cc9913, 0x6d83bfc6, 0x7e44008e, 0x9b5e906c, 0x54cb266b)
    case 4 => Hash(0xb6ae8fff, 0xffb70472, 0xc062d46f, 0xfcd1887b, 0xb21bad3d, 0x6d83bfc6, 0x7e44008e, 0x9b5e906c)
    case 5 => Hash(0xb85e2ce9, 0xb6ae8fff, 0xffb70472, 0xc062d46f, 0x961f4894, 0xb21bad3d, 0x6d83bfc6, 0x7e44008e)
    case 6 => Hash(0x04d24d6c, 0xb85e2ce9, 0xb6ae8fff, 0xffb70472, 0x948d25b6, 0x961f4894, 0xb21bad3d, 0x6d83bfc6)
    case _ => Hash(0xd39a2165, 0x04d24d6c, 0xb85e2ce9, 0xb6ae8fff, 0xfb121210, 0x948d25b6, 0x961f4894, 0xb21bad3d)
  }

  function Working64(t: nat): Hash {
    Hash(0x506e3058, 0xd39a2165, 0x04d24d6c, 0xb85e2ce9, 0x5ef50f24, 0xfb121210, 0x948d25b6, 0x961f4894)
  }

  /** The working variables after t rounds. */
  function Working(t: nat): Hash {
    if t < 8 then Working0(t)
    else if t < 16 then Working8(t - 8)
    else if t < 24 then Working16(t - 16)
    else if t < 32 then Working24(t - 24)
    else if t < 40 then Working32(t - 32)
    else if t < 48 then Working40(t - 40)
    else if t < 56 then Working48(t - 48)
    else if t < 64 then Working56(t - 56)
    else Working64(t - 64)
  }

  // ----- the schedule -----

  function Block(): (b: seq<bv8>)
    ensures |b| == 64
  {
    Message() + [0x80] + Zeros(52) + Zeros(7) + [0x18]
  }

  ghost predicate Recurs(t: nat) {
    t >= 16 && Scheduled(t) == Add4(SmallSigma1(Scheduled(t - 2)), Scheduled(t - 7), SmallSigma0(Scheduled(t - 15)), Scheduled(t - 16))
  }

  lemma Recurs16()
    ensures Recurs(16) && Recurs(17) && Recurs(18) && Recurs(19)
  {
  }

  lemma Recurs20()
    ensures Recurs(20) && Recurs(21) && Recurs(22) && Recurs(23)
  {
  }

  lemma Recurs24()
    ensures Recurs(24) && Recurs(25) && Recurs(26) && Recurs(27)
  {
  }

  lemma Recurs28()
    ensures Recurs(28) && Recurs(29) && Recurs(30) && Recurs(31)
  {
  }

  lemma Recurs32()
    ensures Recurs(32) && Recurs(33) && Recurs(34) && Recurs(35)
  {
  }

  lemma Recurs36()
    ensures Recurs(36) && Recurs(37) && Recurs(38) && Recurs(39)
  {
  }

  lemma Recurs40()
    ensures Recurs(40) && Recurs(41) && Recurs(42) && Recurs(43)
  {
  }

  lemma Recurs44()
    ensures Recurs(44) && Recurs(45) && Recurs(46) && Recurs(47)
  {
  }

  lemma Recurs48()
    ensures Recurs(48) && Recurs(49) && Recurs(50) && Recurs(51)
  {
  }

  lemma Recurs52()
    ensures Recurs(52) && Recurs(53) && Recurs(54) && Recurs(55)
  {
  }

  lemma Recurs56()
    ensures Recurs(56) && Recurs(57) && Recurs(58) && Recurs(59)
  {
  }

  lemma Recurs60()
    ensures Recurs(60) && Recurs(61) && Recurs(62) && Recurs(63)
  {
  }

  lemma Recurrence(t: nat)
    requires 16 <= t < 64
    ensures Recurs(t)
  {
    hide Recurs, Scheduled, Add4, SmallSigma0, SmallSigma1;
    if t < 20 {
      Recurs16();
    } else if t < 24 {
      Recurs20();
    } else if t < 28 {
      Recurs24();
    } else if t < 32 {
      Recurs28();
    } else if t < 36 {
      Recurs32();
    } else if t < 40 {
      Recurs36();
    } else if t < 44 {
      Recurs40();
    } else if t < 48 {
      Recurs44();
    } else if t < 52 {
      Recurs48();
    } else if t < 56 {
      Recurs52();
    } else if t < 60 {
      Recurs56();
    } else {
      Recurs60();
    }
  }

  lemma FirstWords(t: nat)
    requires t < 16
    ensures LoadBE(Block()[4 * t], Block()[4 * t + 1], Block()[4 * t + 2], Block()[4 * t + 3]) == Scheduled(t)
  {
    if t == 0 {
      assert Block()[0] == 0x61 && Block()[1] == 0x62 && Block()[2] == 0x63 && Block()[3] == 0x80;
    } else if t == 15 {
      assert Block()[60] == 0 && Block()[61] == 0 && Block()[62] == 0 && Block()[63] == 0x18;
    } else {
      assert Block()[4 * t] == 0 && Block()[4 * t + 1] == 0 && Block()[4 * t + 2] == 0 && Block()[4 * t + 3] == 0;
    }
  }

  lemma {:induction false} ScheduleIs(t: nat)
    requires t < 64
    ensures W(Block(), t) == Scheduled(t)
  {
    hide Scheduled, Add4, SmallSigma0, SmallSigma1, LoadBE;
    if t < 16 {
      FirstWords(t);
    } else {
      Recurrence(t);
      ScheduleIs(t - 2);
      ScheduleIs(t - 7);
      ScheduleIs(t - 15);
      ScheduleIs(t - 16);
    }
  }

  // ----- the rounds -----

  ghost predicate StepsOn(t: nat) {
    Round(Working(t), K(t), Scheduled(t)) == Working(t + 1)
  }

  lemma StepsOn0() ensures StepsOn(0) {}
  lemma StepsOn1() ensures StepsOn(1) {}
  lemma StepsOn2() ensures StepsOn(2) {}
  lemma StepsOn3() ensures StepsOn(3) {}
  lemma StepsOn4() ensures StepsOn(4) {}
  lemma StepsOn5() ensures StepsOn(5) {}
  lemma StepsOn6() ensures StepsOn(6) {}
  lemma StepsOn7() ensures StepsOn(7) {}
  lemma StepsOn8() ensures StepsOn(8) {}
  lemma StepsOn9() ensures StepsOn(9) {}
  lemma StepsOn10() ensures StepsOn(10) {}
  lemma StepsOn11() ensures StepsOn(11) {}
  lemma StepsOn12() ensures StepsOn(12) {}
  lemma StepsOn13() ensures StepsOn(13) {}
  lemma StepsOn14() ensures StepsOn(14) {}
  lemma StepsOn15() ensures StepsOn(15) {}
  lemma StepsOn16() ensures StepsOn(16) {}
  lemma StepsOn17() ensures StepsOn(17) {}
  lemma StepsOn18() ensures StepsOn(18) {}
  lemma StepsOn19() ensures StepsOn(19) {}
  lemma StepsOn20() ensures StepsOn(20) {}
  lemma StepsOn21() ensures StepsOn(21) {}
  lemma StepsOn22() ensures StepsOn(22) {}
  lemma StepsOn23() ensures StepsOn(23) {}
  lemma StepsOn24() ensures StepsOn(24) {}
  lemma StepsOn25() ensures StepsOn(25) {}
  lemma StepsOn26() ensures StepsOn(26) {}
  lemma StepsOn27() ensures StepsOn(27) {}
  lemma StepsOn28() ensures StepsOn(28) {}
  lemma StepsOn29() ensures StepsOn(29) {}
  lemma StepsOn30() ensures StepsOn(30) {}
  lemma StepsOn31() ensures StepsOn(31) {}
  lemma StepsOn32() ensures StepsOn(32) {}
  lemma StepsOn33() ensures StepsOn(33) {}
  lemma StepsOn34() ensures StepsOn(34) {}
  lemma StepsOn35() ensures StepsOn(35) {}
  lemma StepsOn36() ensures StepsOn(36) {}
  lemma StepsOn37() ensures StepsOn(37) {}
  lemma StepsOn38() ensures StepsOn(38) {}
  lemma StepsOn39() ensures StepsOn(39) {}
  lemma StepsOn40() ensures StepsOn(40) {}
  lemma StepsOn41() ensures StepsOn(41) {}
  lemma StepsOn42() ensures StepsOn(42) {}
  lemma StepsOn43() ensures StepsOn(43) {}
  lemma StepsOn44() ensures StepsOn(44) {}
  lemma StepsOn45() ensures StepsOn(45) {}
  lemma StepsOn46() ensures StepsOn(46) {}
  lemma StepsOn47() ensures StepsOn(47) {}
  lemma StepsOn48() ensures StepsOn(48) {}
  lemma StepsOn49() ensures StepsOn(49) {}
  lemma StepsOn50() ensures StepsOn(50) {}
  lemma StepsOn51() ensures StepsOn(51) {}
  lemma StepsOn52() ensures StepsOn(52) {}
  lemma StepsOn53() ensures StepsOn(53) {}
  lemma StepsOn54() ensures StepsOn(54) {}
  lemma StepsOn55() ensures StepsOn(55) {}
  lemma StepsOn56() ensures StepsOn(56) {}
  lemma StepsOn57() ensures StepsOn(57) {}
  lemma StepsOn58() ensures StepsOn(58) {}
  lemma StepsOn59() ensures StepsOn(59) {}
  lemma StepsOn60() ensures StepsOn(60) {}
  lemma StepsOn61() ensures StepsOn(61) {}
  lemma StepsOn62() ensures StepsOn(62) {}
  lemma StepsOn63() ensures StepsOn(63) {}

  lemma StepsFrom0(t: nat)
    requires t < 16
    ensures StepsOn(t)
  {
    hide StepsOn, Working, K, Scheduled, Round;
    if t < 8 {
      StepsOn0(); StepsOn1(); StepsOn2(); StepsOn3(); StepsOn4(); StepsOn5(); StepsOn6(); StepsOn7();
    } else {
      StepsOn8(); StepsOn9(); StepsOn10(); StepsOn11(); StepsOn12(); StepsOn13(); StepsOn14(); StepsOn15();
    }
  }

  lemma StepsFrom16(t: nat)
    requires 16 <= t < 32
    ensures StepsOn(t)
  {
    hide StepsOn, Working, K, Scheduled, Round;
    if t < 24 {
      StepsOn16(); StepsOn17(); StepsOn18(); StepsOn19(); StepsOn20(); StepsOn21(); StepsOn22(); StepsOn23();
    } else {
      StepsOn24(); StepsOn25(); StepsOn26(); StepsOn27(); StepsOn28(); StepsOn29(); StepsOn30(); StepsOn31();
    }
  }

  lemma StepsFrom32(t: nat)
    requires 32 <= t < 48
    ensures StepsOn(t)
  {
    hide StepsOn, Working, K, Scheduled, Round;
    if t < 40 {
      StepsOn32(); StepsOn33(); StepsOn34(); StepsOn35(); StepsOn36(); StepsOn37(); StepsOn38(); StepsOn39();
    } else {
      StepsOn40(); StepsOn41(); StepsOn42(); StepsOn43(); StepsOn44(); StepsOn45(); StepsOn46(); StepsOn47();
    }
  }

  lemma StepsFrom48(t: nat)
    requires 48 <= t < 64
    ensures StepsOn(t)
  {
    hide StepsOn, Working, K, Scheduled, Round;
    if t < 56 {
      StepsOn48(); StepsOn49(); StepsOn50(); StepsOn51(); StepsOn52(); StepsOn53(); StepsOn54(); StepsOn55();
    } else {
      StepsOn56(); StepsOn57(); StepsOn58(); StepsOn59(); StepsOn60(); StepsOn61(); StepsOn62(); StepsOn63();
    }
  }

  lemma AllStepOn(t: nat)
    requires t < 64
    ensures StepsOn(t)
  {
    if t < 16 {
      StepsFrom0(t);
    } else if t < 32 {
      StepsFrom16(t);
    } else if t < 48 {
      StepsFrom32(t);
    } else {
      StepsFrom48(t);
    }
    hide StepsOn;
  }

  lemma {:induction false} RoundsAre(t: nat)
    requires t <= 64
    ensures Rounds(IV, Block(), t) == Working(t)
  {
    hide Scheduled, K, Round;
    if t == 0 {
      assert Working(0) == IV;
    } else {
      RoundsAre(t - 1);
      ScheduleIs(t - 1);
      AllStepOn(t - 1);
    }
  }

  // ----- the digest -----

  lemma {:induction false} BigEndianZero(k: nat)
    ensures BigEndian(0, k) == Zeros(k)
  {
    if k > 0 {
      BigEndianZero(k - 1);
    }
  }

  lemma ShortField(n: nat, k: nat)
    requires n < 0x100 && k > 0
    ensures BigEndian(n, k) == Zeros(k - 1) + [n as bv8]
  {
    BigEndianZero(k - 1);
  }

  lemma PaddedMessage()
    ensures Pad(Message()) == Block()
  {
    hide BigEndian;
    ShortField(24, 8);
    assert ZeroCount(3) == 52 && BitLength(Message()) == 24;
  }

  lemma LastSum()
    ensures Sum(IV, Working(64)) == Hash(0xba7816bf, 0x8f01cfea, 0x414140de, 0x5dae2223, 0xb00361a3, 0x96177a9c, 0xb410ff61, 0xf20015ad)
  {
  }

  lemma WordsOneMore(ws: seq<bv32>, w: bv32)
    ensures WordsBE(ws + [w]) == WordsBE(ws) + StoreBE(w)
  {
    assert (ws + [w])[..|ws|] == ws;
  }

  lemma FourWords(ws: seq<bv32>, a: bv32, b: bv32, c: bv32, d: bv32)
    ensures WordsBE(ws + [a] + [b] + [c] + [d]) == WordsBE(ws) + StoreBE(a) + StoreBE(b) + StoreBE(c) + StoreBE(d)
  {
    hide WordsBE, StoreBE;
    WordsOneMore(ws, a);
    WordsOneMore(ws + [a], b);
    WordsOneMore(ws + [a] + [b], c);
    WordsOneMore(ws + [a] + [b] + [c], d);
  }

  /** The digest is the eight words, one after the other. */
  lemma SerializeIs(a: bv32, b: bv32, c: bv32, d: bv32, e: bv32, f: bv32, g: bv32, h: bv32)
    ensures Serialize(Hash(a, b, c, d, e, f, g, h))
         == [] + StoreBE(a) + StoreBE(b) + StoreBE(c) + StoreBE(d) + StoreBE(e) + StoreBE(f) + StoreBE(g) + StoreBE(h)
  {
    hide StoreBE, WordsBE;
    var front := [] + [a] + [b] + [c] + [d];
    FourWords([], a, b, c, d);
    FourWords(front, e, f, g, h);
    NoWordsBE();
    assert front + [e] + [f] + [g] + [h] == WordsOf(Hash(a, b, c, d, e, f, g, h));
  }

  lemma NoWordsBE()
    ensures WordsBE([]) == []
  {
  }

  lemma WordBytes0() ensures StoreBE(0xba7816bf) == [0xba, 0x78, 0x16, 0xbf] {}
  lemma WordBytes1() ensures StoreBE(0x8f01cfea) == [0x8f, 0x01, 0xcf, 0xea] {}
  lemma WordBytes2() ensures StoreBE(0x414140de) == [0x41, 0x41, 0x40, 0xde] {}
  lemma WordBytes3() ensures StoreBE(0x5dae2223) == [0x5d, 0xae, 0x22, 0x23] {}
  lemma WordBytes4() ensures StoreBE(0xb00361a3) == [0xb0, 0x03, 0x61, 0xa3] {}
  lemma WordBytes5() ensures StoreBE(0x96177a9c) == [0x96, 0x17, 0x7a, 0x9c] {}
  lemma WordBytes6() ensures StoreBE(0xb410ff61) == [0xb4, 0x10, 0xff, 0x61] {}
  lemma WordBytes7() ensures StoreBE(0xf20015ad) == [0xf2, 0x00, 0x15, 0xad] {}

  lemma DigestBytes()
    ensures Serialize(Hash(0xba7816bf, 0x8f01cfea, 0x414140de, 0x5dae2223, 0xb00361a3, 0x96177a9c, 0xb410ff61, 0xf20015ad)) == Expected()
  {
    hide Serialize, StoreBE;
    SerializeIs(0xba7816bf, 0x8f01cfea, 0x414140de, 0x5dae2223, 0xb00361a3, 0x96177a9c, 0xb410ff61, 0xf20015ad);
    WordBytes0(); WordBytes1(); WordBytes2(); WordBytes3(); WordBytes4(); WordBytes5(); WordBytes6(); WordBytes7();
  }

  /** The digest of "abc" is ba7816bf 8f01cfea 414140de 5dae2223 b00361a3 96177a9c b410ff61
      f20015ad. */
  lemma DigestOfAbc()
    ensures Digest(Message()) == Expected()
  {
    hide Rounds, Serialize, Sum, Working, Expected;
    PaddedMessage();
    RoundsAre(64);
    LastSum();
    DigestBytes();
    assert Block()[64..] == [] && Block()[..0] == [] && Block()[0..] == Block();
  }
}
