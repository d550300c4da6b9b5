/** Where the constants of SHA-256 come from: sections 4.2.2 and 5.3.3 of FIPS 180-4 take the
    first 32 bits of the fractional parts of cube and square roots of the first primes. */
module Sha256Constants {
  import opened Sha256Spec

  function Prime0(t: nat): nat {
    match t
    case 0 => 2 case 1 => 3 case 2 => 5 case 3 => 7 case 4 => 11 case 5 => 13 case 6 => 17 case _ => 19
  }

  function Prime8(t: nat): nat {
    match t
    case 0 => 23 case 1 => 29 case 2 => 31 case 3 => 37 case 4 => 41 case 5 => 43 case 6 => 47 case _ => 53
  }

  function Prime16(t: nat): nat {
    match t
    case 0 => 59 case 1 => 61 case 2 => 67 case 3 => 71 case 4 => 73 case 5 => 79 case 6 => 83 case _ => 89
  }

  function Prime24(t: nat): nat {
    match t
    case 0 => 97 case 1 => 101 case 2 => 103 case 3 => 107 case 4 => 109 case 5 => 113 case 6 => 127 case _ => 131
  }

  function Prime32(t: nat): nat {
    match t
    case 0 => 137 case 1 => 139 case 2 => 149 case 3 => 151 case 4 => 157 case 5 => 163 case 6 => 167 case _ => 173
  }

  function Prime40(t: nat): nat {
    match t
    case 0 => 179 case 1 => 181 case 2 => 191 case 3 => 193 case 4 => 197 case 5 => 199 case 6 => 211 case _ => 223
  }

  function Prime48(t: nat): nat {
    match t
    case 0 => 227 case 1 => 229 case 2 => 233 case 3 => 239 case 4 => 241 case 5 => 251 case 6 => 257 case _ => 263
  }

  function Prime56(t: nat): nat {
    match t
    case 0 => 269 case 1 => 271 case 2 => 277 case 3 => 281 case 4 => 283 case 5 => 293 case 6 => 307 case _ => 311
  }

  /** The first 64 primes. */
  function Prime(t: nat): nat {
    if t < 8 then Prime0(t)
    else if t < 16 then Prime8(t - 8)
    else if t < 24 then Prime16(t - 16)
    else if t < 32 then Prime24(t - 24)
    else if t < 40 then Prime32(t - 32)
    else if t < 48 then Prime40(t - 40)
    else if t < 56 then Prime48(t - 48)
    else Prime56(t - 56)
  }

  // ----- they are the first primes -----

  ghost predicate IsPrime(p: nat) {
    p >= 2 && forall d :: 2 <= d < p ==> p % d != 0
  }

  predicate HasSmallFactor(p: nat) {
    p % 2 == 0 || p % 3 == 0 || p % 5 == 0 || p % 7 == 0 || p % 11 == 0 || p % 13 == 0 || p % 17 == 0
  }

  lemma MultipleIsMultiple(q: nat, m: nat)
    requires q > 0
    ensures (q * m) % q == 0
  {
    QuotientIs(q * m, q, m, 0);
    assert q * m == q * ((q * m) / q) + (q * m) % q;
  }

  lemma MultipleOf(p: nat, q: nat, k: nat, e: nat)
    requires q > 0 && p == (q * k) * e
    ensures p % q == 0
  {
    assert p == q * (k * e);
    MultipleIsMultiple(q, k * e);
  }

  /** A number with a factor between 2 and 17 has a prime one. */
  lemma FactorOf(p: nat, d: nat, e: nat)
    requires 2 <= d <= 17 && p == d * e
    ensures HasSmallFactor(p)
  {
    if d % 2 == 0 {
      MultipleOf(p, 2, d / 2, e);
    } else if d % 3 == 0 {
      MultipleOf(p, 3, d / 3, e);
    } else if d % 5 == 0 {
      MultipleOf(p, 5, d / 5, e);
    } else {
      MultipleOf(p, d, 1, e);
    }
  }

  lemma {:induction false} ProductAtLeast(d: nat, e: nat)
    requires d >= 18 && e >= 18
    ensures d * e >= 324
  {
    assert d * e >= 18 * e;
  }

  lemma TrialDivision(p: nat)
    requires 17 < p < 324 && !HasSmallFactor(p)
    ensures IsPrime(p)
  {
    forall d | 2 <= d < p ensures p % d != 0 {
      if p % d == 0 {
        var e := p / d;
        assert p == d * e && e >= 1;
        if d <= 17 {
          FactorOf(p, d, e);
        } else if e <= 17 {
          assert e != 1;
          FactorOf(p, e, d);
        } else {
          ProductAtLeast(d, e);
        }
      }
    }
  }

  /** Every number from lo up to but not including hi has a small factor. */
  predicate AllFactored(lo: nat, hi: nat)
    decreases hi - lo
  {
    lo < hi ==> HasSmallFactor(lo) && AllFactored(lo + 1, hi)
  }

  lemma {:induction false} FactoredIn(lo: nat, hi: nat, q: nat)
    requires AllFactored(lo, hi) && lo <= q < hi
    ensures HasSmallFactor(q)
    decreases hi - lo
  {
    if lo < q {
      FactoredIn(lo + 1, hi, q);
    }
  }

  ghost predicate GapFactored(i: nat) {
    AllFactored(Prime(i) + 1, Prime(i + 1))
  }

  lemma Gap7() ensures GapFactored(7) {}
  lemma Gap8() ensures GapFactored(8) {}
  lemma Gap9() ensures GapFactored(9) {}
  lemma Gap10() ensures GapFactored(10) {}
  lemma Gap11() ensures GapFactored(11) {}
  lemma Gap12() ensures GapFactored(12) {}
  lemma Gap13() ensures GapFactored(13) {}
  lemma Gap14() ensures GapFactored(14) {}
  lemma Gap15() ensures GapFactored(15) {}
  lemma Gap16() ensures GapFactored(16) {}
  lemma Gap17() ensures GapFactored(17) {}
  lemma Gap18() ensures GapFactored(18) {}
  lemma Gap19() ensures GapFactored(19) {}
  lemma Gap20() ensures GapFactored(20) {}
  lemma Gap21() ensures GapFactored(21) {}
  lemma Gap22() ensures GapFactored(22) {}
  lemma Gap23() ensures GapFactored(23) {}
  lemma Gap24() ensures GapFactored(24) {}
  lemma Gap25() ensures GapFactored(25) {}
  lemma Gap26() ensures GapFactored(26) {}
  lemma Gap27() ensures GapFactored(27) {}
  lemma Gap28() ensures GapFactored(28) {}
  lemma Gap29() ensures GapFactored(29) {}
  lemma Gap30() ensures GapFactored(30) {}
  lemma Gap31() ensures GapFactored(31) {}
  lemma Gap32() ensures GapFactored(32) {}
  lemma Gap33() ensures GapFactored(33) {}
  lemma Gap34() ensures GapFactored(34) {}
  lemma Gap35() ensures GapFactored(35) {}
  lemma Gap36() ensures GapFactored(36) {}
  lemma Gap37() ensures GapFactored(37) {}
  lemma Gap38() ensures GapFactored(38) {}
  lemma Gap39() ensures GapFactored(39) {}
  lemma Gap40() ensures GapFactored(40) {}
  lemma Gap41() ensures GapFactored(41) {}
  lemma Gap42() ensures GapFactored(42) {}
  lemma Gap43() ensures GapFactored(43) {}
  lemma Gap44() ensures GapFactored(44) {}
  lemma Gap45() ensures GapFactored(45) {}
  lemma Gap46() ensures GapFactored(46) {}
  lemma Gap47() ensures GapFactored(47) {}
  lemma Gap48() ensures GapFactored(48) {}
  lemma Gap49() ensures GapFactored(49) {}
  lemma Gap50() ensures GapFactored(50) {}
  lemma Gap51() ensures GapFactored(51) {}
  lemma Gap52() ensures GapFactored(52) {}
  lemma Gap53() ensures GapFactored(53) {}
  lemma Gap54() ensures GapFactored(54) {}
  lemma Gap55() ensures GapFactored(55) {}
  lemma Gap56() ensures GapFactored(56) {}
  lemma Gap57() ensures GapFactored(57) {}
  lemma Gap58() ensures GapFactored(58) {}
  lemma Gap59() ensures GapFactored(59) {}
  lemma Gap60() ensures GapFactored(60) {}
  lemma Gap61() ensures GapFactored(61) {}
  lemma Gap62() ensures GapFactored(62) {}

  lemma GapsFactored(i: nat)
    requires 7 <= i < 63
    ensures GapFactored(i)
  {
    hide GapFactored, Prime, AllFactored;
    if i < 21 {
      Gap7(); Gap8(); Gap9(); Gap10(); Gap11(); Gap12(); Gap13(); Gap14(); Gap15(); Gap16(); Gap17(); Gap18(); Gap19(); Gap20();
    } else if i < 35 {
      Gap21(); Gap22(); Gap23(); Gap24(); Gap25(); Gap26(); Gap27(); Gap28(); Gap29(); Gap30(); Gap31(); Gap32(); Gap33(); Gap34();
    } else if i < 49 {
      Gap35(); Gap36(); Gap37(); Gap38(); Gap39(); Gap40(); Gap41(); Gap42(); Gap43(); Gap44(); Gap45(); Gap46(); Gap47(); Gap48();
    } else {
      Gap49(); Gap50(); Gap51(); Gap52(); Gap53(); Gap54(); Gap55(); Gap56(); Gap57(); Gap58(); Gap59(); Gap60(); Gap61(); Gap62();
    }
  }

  lemma TableHasNoSmallFactor(i: nat)
    requires 7 <= i < 64
    ensures !HasSmallFactor(Prime(i)) && 17 < Prime(i) < 324
  {
  }

  /** Some entry of the table is the last that does not exceed q. */
  lemma {:induction false} Locate(k: nat, q: nat) returns (i: nat)
    requires k < 64 && Prime(k) <= q
    ensures i < 64 && Prime(i) <= q && (i == 63 || q < Prime(i + 1))
    decreases 64 - k
  {
    hide Prime;
    if k == 63 || q < Prime(k + 1) {
      i := k;
    } else {
      i := Locate(k + 1, q);
    }
  }

  lemma SmallFactorMeansComposite(q: nat)
    requires HasSmallFactor(q) && q > 17
    ensures !IsPrime(q)
  {
    var d := if q % 2 == 0 then 2 else if q % 3 == 0 then 3 else if q % 5 == 0 then 5 else if q % 7 == 0 then 7
      else if q % 11 == 0 then 11 else if q % 13 == 0 then 13 else 17;
    assert q % d == 0;
  }

  lemma SmallPrimes(q: nat)
    requires q <= 17
    ensures IsPrime(q) <==> q == 2 || q == 3 || q == 5 || q == 7 || q == 11 || q == 13 || q == 17
  {
    if q == 4 || q == 6 || q == 8 || q == 10 || q == 12 || q == 14 || q == 16 {
      assert q % 2 == 0;
    } else if q == 9 || q == 15 {
      assert q % 3 == 0;
    }
  }

  lemma TableStarts()
    ensures Prime(0) == 2 && Prime(1) == 3 && Prime(2) == 5 && Prime(3) == 7 && Prime(4) == 11 && Prime(5) == 13
    ensures Prime(6) == 17 && Prime(7) == 19 && Prime(63) == 311
  {
  }

  lemma TableIsPrime(i: nat)
    requires i < 64
    ensures IsPrime(Prime(i))
  {
    hide IsPrime;
    if i < 7 {
      TableStarts();
      SmallPrimes(Prime(i));
    } else {
      TableHasNoSmallFactor(i);
      TrialDivision(Prime(i));
    }
  }

  /** The table holds exactly the primes below 312, of which there are 64. */
  lemma TableIsTheFirstPrimes(q: nat)
    requires q < 312
    ensures IsPrime(q) <==> exists i: nat :: i < 64 && Prime(i) == q
  {
    hide IsPrime, Prime, GapFactored, AllFactored;
    TableStarts();
    if i: nat :| i < 64 && Prime(i) == q {
      TableIsPrime(i);
    } else if q <= 17 {
      SmallPrimes(q);
    } else {
      var i := Locate(6, q);
      if i < 7 {
        assert q == 18 && i == 6;
      } else {
        GapMeans(i, q);
      }
      SmallFactorMeansComposite(q);
    }
  }

  lemma GapMeans(i: nat, q: nat)
    requires 7 <= i < 64 && Prime(i) < q < 312 && (i == 63 || q < Prime(i + 1))
    ensures HasSmallFactor(q)
  {
    hide Prime, AllFactored;
    TableStarts();
    GapsFactored(i);
    FactoredIn(Prime(i) + 1, Prime(i + 1), q);
  }

  // ----- the roots -----

  const TWO_32 := 0x1_0000_0000

  /** n is the cube root of p, times 2^32 and rounded down. */
  predicate IsCubeRoot(p: nat, n: nat) {
    n * n * n <= p * TWO_32 * TWO_32 * TWO_32 < (n + 1) * (n + 1) * (n + 1)
  }

  predicate IsSquareRoot(p: nat, n: nat) {
    n * n <= p * TWO_32 * TWO_32 < (n + 1) * (n + 1)
  }

  /** K(i) is the fractional part of the cube root of the i-th prime, times 2^32, rounded down. */
  ghost predicate FromCubeRoot(i: nat) {
    exists r: nat :: IsCubeRoot(Prime(i), r * TWO_32 + K(i) as int)
  }

  predicate CubeEntry(i: nat, k: bv32, p: nat, r: nat, n: nat) {
    K(i) == k && Prime(i) == p && n == r * TWO_32 + k as int && IsCubeRoot(p, n)
  }

  lemma CubeEntryMeans(i: nat, k: bv32, p: nat, r: nat, n: nat)
    requires CubeEntry(i, k, p, r, n)
    ensures FromCubeRoot(i)
  {
    hide K, Prime, IsCubeRoot;
    assert IsCubeRoot(Prime(i), r * TWO_32 + K(i) as int);
  }

  lemma Cube0() ensures FromCubeRoot(0) { CubeEntryMeans(0, 0x428a2f98, 2, 1, 0x1_428a2f98); }
  lemma Cube1() ensures FromCubeRoot(1) { CubeEntryMeans(1, 0x71374491, 3, 1, 0x1_71374491); }
  lemma Cube2() ensures FromCubeRoot(2) { CubeEntryMeans(2, 0xb5c0fbcf, 5, 1, 0x1_b5c0fbcf); }
  lemma Cube3() ensures FromCubeRoot(3) { CubeEntryMeans(3, 0xe9b5dba5, 7, 1, 0x1_e9b5dba5); }
  lemma Cube4() ensures FromCubeRoot(4) { CubeEntryMeans(4, 0x3956c25b, 11, 2, 0x2_3956c25b); }
  lemma Cube5() ensures FromCubeRoot(5) { CubeEntryMeans(5, 0x59f111f1, 13, 2, 0x2_59f111f1); }
  lemma Cube6() ensures FromCubeRoot(6) { CubeEntryMeans(6, 0x923f82a4, 17, 2, 0x2_923f82a4); }
  lemma Cube7() ensures FromCubeRoot(7) { CubeEntryMeans(7, 0xab1c5ed5, 19, 2, 0x2_ab1c5ed5); }
  lemma Cube8() ensures FromCubeRoot(8) { CubeEntryMeans(8, 0xd807aa98, 23, 2, 0x2_d807aa98); }
  lemma Cube9() ensures FromCubeRoot(9) { CubeEntryMeans(9, 0x12835b01, 29, 3, 0x3_12835b01); }
  lemma Cube10() ensures FromCubeRoot(10) { CubeEntryMeans(10, 0x243185be, 31, 3, 0x3_243185be); }
  lemma Cube11() ensures FromCubeRoot(11) { CubeEntryMeans(11, 0x550c7dc3, 37, 3, 0x3_550c7dc3); }
  lemma Cube12() ensures FromCubeRoot(12) { CubeEntryMeans(12, 0x72be5d74, 41, 3, 0x3_72be5d74); }
  lemma Cube13() ensures FromCubeRoot(13) { CubeEntryMeans(13, 0x80deb1fe, 43, 3, 0x3_80deb1fe); }
  lemma Cube14() ensures FromCubeRoot(14) { CubeEntryMeans(14, 0x9bdc06a7, 47, 3, 0x3_9bdc06a7); }
  lemma Cube15() ensures FromCubeRoot(15) { CubeEntryMeans(15, 0xc19bf174, 53, 3, 0x3_c19bf174); }
  lemma Cube16() ensures FromCubeRoot(16) { CubeEntryMeans(16, 0xe49b69c1, 59, 3, 0x3_e49b69c1); }
  lemma Cube17() ensures FromCubeRoot(17) { CubeEntryMeans(17, 0xefbe4786, 61, 3, 0x3_efbe4786); }
  lemma Cube18() ensures FromCubeRoot(18) { CubeEntryMeans(18, 0x0fc19dc6, 67, 4, 0x4_0fc19dc6); }
  lemma Cube19() ensures FromCubeRoot(19) { CubeEntryMeans(19, 0x240ca1cc, 71, 4, 0x4_240ca1cc); }
  lemma Cube20() ensures FromCubeRoot(20) { CubeEntryMeans(20, 0x2de92c6f, 73, 4, 0x4_2de92c6f); }
  lemma Cube21() ensures FromCubeRoot(21) { CubeEntryMeans(21, 0x4a7484aa, 79, 4, 0x4_4a7484aa); }
  lemma Cube22() ensures FromCubeRoot(22) { CubeEntryMeans(22, 0x5cb0a9dc, 83, 4, 0x4_5cb0a9dc); }
  lemma Cube23() ensures FromCubeRoot(23) { CubeEntryMeans(23, 0x76f988da, 89, 4, 0x4_76f988da); }
  lemma Cube24() ensures FromCubeRoot(24) { CubeEntryMeans(24, 0x983e5152, 97, 4, 0x4_983e5152); }
  lemma Cube25() ensures FromCubeRoot(25) { CubeEntryMeans(25, 0xa831c66d, 101, 4, 0x4_a831c66d); }
  lemma Cube26() ensures FromCubeRoot(26) { CubeEntryMeans(26, 0xb00327c8, 103, 4, 0x4_b00327c8); }
  lemma Cube27() ensures FromCubeRoot(27) { CubeEntryMeans(27, 0xbf597fc7, 107, 4, 0x4_bf597fc7); }
  lemma Cube28() ensures FromCubeRoot(28) { CubeEntryMeans(28, 0xc6e00bf3, 109, 4, 0x4_c6e00bf3); }
  lemma Cube29() ensures FromCubeRoot(29) { CubeEntryMeans(29, 0xd5a79147, 113, 4, 0x4_d5a79147); }
  lemma Cube30() ensures FromCubeRoot(30) { CubeEntryMeans(30, 0x06ca6351, 127, 5, 0x5_06ca6351); }
  lemma Cube31() ensures FromCubeRoot(31) { CubeEntryMeans(31, 0x14292967, 131, 5, 0x5_14292967); }
  lemma Cube32() ensures FromCubeRoot(32) { CubeEntryMeans(32, 0x27b70a85, 137, 5, 0x5_27b70a85); }
  lemma Cube33() ensures FromCubeRoot(33) { CubeEntryMeans(33, 0x2e1b2138, 139, 5, 0x5_2e1b2138); }
  lemma Cube34() ensures FromCubeRoot(34) { CubeEntryMeans(34, 0x4d2c6dfc, 149, 5, 0x5_4d2c6dfc); }
  lemma Cube35() ensures FromCubeRoot(35) { CubeEntryMeans(35, 0x53380d13, 151, 5, 0x5_53380d13); }
  lemma Cube36() ensures FromCubeRoot(36) { CubeEntryMeans(36, 0x650a7354, 157, 5, 0x5_650a7354); }
  lemma Cube37() ensures FromCubeRoot(37) { CubeEntryMeans(37, 0x766a0abb, 163, 5, 0x5_766a0abb); }
  lemma Cube38() ensures FromCubeRoot(38) { CubeEntryMeans(38, 0x81c2c92e, 167, 5, 0x5_81c2c92e); }
  lemma Cube39() ensures FromCubeRoot(39) { CubeEntryMeans(39, 0x92722c85, 173, 5, 0x5_92722c85); }
  lemma Cube40() ensures FromCubeRoot(40) { CubeEntryMeans(40, 0xa2bfe8a1, 179, 5, 0x5_a2bfe8a1); }
  lemma Cube41() ensures FromCubeRoot(41) { CubeEntryMeans(41, 0xa81a664b, 181, 5, 0x5_a81a664b); }
  lemma Cube42() ensures FromCubeRoot(42) { CubeEntryMeans(42, 0xc24b8b70, 191, 5, 0x5_c24b8b70); }
  lemma Cube43() ensures FromCubeRoot(43) { CubeEntryMeans(43, 0xc76c51a3, 193, 5, 0x5_c76c51a3); }
  lemma Cube44() ensures FromCubeRoot(44) { CubeEntryMeans(44, 0xd192e819, 197, 5, 0x5_d192e819); }
  lemma Cube45() ensures FromCubeRoot(45) { CubeEntryMeans(45, 0xd6990624, 199, 5, 0x5_d6990624); }
  lemma Cube46() ensures FromCubeRoot(46) { CubeEntryMeans(46, 0xf40e3585, 211, 5, 0x5_f40e3585); }
  lemma Cube47() ensures FromCubeRoot(47) { CubeEntryMeans(47, 0x106aa070, 223, 6, 0x6_106aa070); }
  lemma Cube48() ensures FromCubeRoot(48) { CubeEntryMeans(48, 0x19a4c116, 227, 6, 0x6_19a4c116); }
  lemma Cube49() ensures FromCubeRoot(49) { CubeEntryMeans(49, 0x1e376c08, 229, 6, 0x6_1e376c08); }
  lemma Cube50() ensures FromCubeRoot(50) { CubeEntryMeans(50, 0x2748774c, 233, 6, 0x6_2748774c); }
  lemma Cube51() ensures FromCubeRoot(51) { CubeEntryMeans(51, 0x34b0bcb5, 239, 6, 0x6_34b0bcb5); }
  lemma Cube52() ensures FromCubeRoot(52) { CubeEntryMeans(52, 0x391c0cb3, 241, 6, 0x6_391c0cb3); }
  lemma Cube53() ensures FromCubeRoot(53) { CubeEntryMeans(53, 0x4ed8aa4a, 251, 6, 0x6_4ed8aa4a); }
  lemma Cube54() ensures FromCubeRoot(54) { CubeEntryMeans(54, 0x5b9cca4f, 257, 6, 0x6_5b9cca4f); }
  lemma Cube55() ensures FromCubeRoot(55) { CubeEntryMeans(55, 0x682e6ff3, 263, 6, 0x6_682e6ff3); }
  lemma Cube56() ensures FromCubeRoot(56) { CubeEntryMeans(56, 0x748f82ee, 269, 6, 0x6_748f82ee); }
  lemma Cube57() ensures FromCubeRoot(57) { CubeEntryMeans(57, 0x78a5636f, 271, 6, 0x6_78a5636f); }
  lemma Cube58() ensures FromCubeRoot(58) { CubeEntryMeans(58, 0x84c87814, 277, 6, 0x6_84c87814); }
  lemma Cube59() ensures FromCubeRoot(59) { CubeEntryMeans(59, 0x8cc70208, 281, 6, 0x6_8cc70208); }
  lemma Cube60() ensures FromCubeRoot(60) { CubeEntryMeans(60, 0x90befffa, 283, 6, 0x6_90befffa); }
  lemma Cube61() ensures FromCubeRoot(61) { CubeEntryMeans(61, 0xa4506ceb, 293, 6, 0x6_a4506ceb); }
  lemma Cube62() ensures FromCubeRoot(62) { CubeEntryMeans(62, 0xbef9a3f7, 307, 6, 0x6_bef9a3f7); }
  lemma Cube63() ensures FromCubeRoot(63) { CubeEntryMeans(63, 0xc67178f2, 311, 6, 0x6_c67178f2); }

  lemma CubesFrom0(i: nat)
    requires i < 16
    ensures FromCubeRoot(i)
  {
    hide FromCubeRoot;
    if i < 8 {
      Cube0(); Cube1(); Cube2(); Cube3(); Cube4(); Cube5(); Cube6(); Cube7();
    } else {
      Cube8(); Cube9(); Cube10(); Cube11(); Cube12(); Cube13(); Cube14(); Cube15();
    }
  }

  lemma CubesFrom16(i: nat)
    requires 16 <= i < 32
    ensures FromCubeRoot(i)
  {
    hide FromCubeRoot;
    if i < 24 {
      Cube16(); Cube17(); Cube18(); Cube19(); Cube20(); Cube21(); Cube22(); Cube23();
    } else {
      Cube24(); Cube25(); Cube26(); Cube27(); Cube28(); Cube29(); Cube30(); Cube31();
    }
  }

  lemma CubesFrom32(i: nat)
    requires 32 <= i < 48
    ensures FromCubeRoot(i)
  {
    hide FromCubeRoot;
    if i < 40 {
      Cube32(); Cube33(); Cube34(); Cube35(); Cube36(); Cube37(); Cube38(); Cube39();
    } else {
      Cube40(); Cube41(); Cube42(); Cube43(); Cube44(); Cube45(); Cube46(); Cube47();
    }
  }

  lemma CubesFrom48(i: nat)
    requires 48 <= i < 64
    ensures FromCubeRoot(i)
  {
    hide FromCubeRoot;
    if i < 56 {
      Cube48(); Cube49(); Cube50(); Cube51(); Cube52(); Cube53(); Cube54(); Cube55();
    } else {
      Cube56(); Cube57(); Cube58(); Cube59(); Cube60(); Cube61(); Cube62(); Cube63();
    }
  }

  /** Section 4.2.2: every round constant comes from the cube root of its prime. */
  lemma ConstantsAreCubeRoots(i: nat)
    requires i < 64
    ensures FromCubeRoot(i)
  {
    hide FromCubeRoot;
    if i < 16 {
      CubesFrom0(i);
    } else if i < 32 {
      CubesFrom16(i);
    } else if i < 48 {
      CubesFrom32(i);
    } else {
      CubesFrom48(i);
    }
  }

  ghost predicate FromSquareRoot(w: bv32, p: nat) {
    exists r: nat :: IsSquareRoot(p, r * TWO_32 + w as int)
  }

  lemma SquareEntryMeans(w: bv32, p: nat, r: nat, n: nat)
    requires n == r * TWO_32 + w as int && IsSquareRoot(p, n)
    ensures FromSquareRoot(w, p)
  {
    hide IsSquareRoot;
    assert IsSquareRoot(p, r * TWO_32 + w as int);
  }

  /** Section 5.3.3: so does the initial value, from the square roots of the first eight. */
  lemma InitialValueIsSquareRoots()
    ensures FromSquareRoot(IV.a, 2) && FromSquareRoot(IV.b, 3) && FromSquareRoot(IV.c, 5) && FromSquareRoot(IV.d, 7)
    ensures FromSquareRoot(IV.e, 11) && FromSquareRoot(IV.f, 13) && FromSquareRoot(IV.g, 17) && FromSquareRoot(IV.h, 19)
  {
    SquareEntryMeans(0x6a09e667, 2, 1, 0x1_6a09e667);
    SquareEntryMeans(0xbb67ae85, 3, 1, 0x1_bb67ae85);
    SquareEntryMeans(0x3c6ef372, 5, 2, 0x2_3c6ef372);
    SquareEntryMeans(0xa54ff53a, 7, 2, 0x2_a54ff53a);
    SquareEntryMeans(0x510e527f, 11, 3, 0x3_510e527f);
    SquareEntryMeans(0x9b05688c, 13, 3, 0x3_9b05688c);
    SquareEntryMeans(0x1f83d9ab, 17, 4, 0x4_1f83d9ab);
    SquareEntryMeans(0x5be0cd19, 19, 4, 0x4_5be0cd19);
  }
}
