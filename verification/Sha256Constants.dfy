/** Which numbers the constants of SHA-256 are: fractions of the roots of the first primes. */
module Sha256Constants {
  import opened Sha256Spec

  // ----- the first primes

  predicate IsPrime(n: nat) {
    n >= 2 && forall d | 2 <= d < n :: n % d != 0
  }

  const PRIMES0: seq<nat> := [2, 3, 5, 7, 11, 13, 17, 19]
  const PRIMES1: seq<nat> := [23, 29, 31, 37, 41, 43, 47, 53]
  const PRIMES2: seq<nat> := [59, 61, 67, 71, 73, 79, 83, 89]
  const PRIMES3: seq<nat> := [97, 101, 103, 107, 109, 113, 127, 131]
  const PRIMES4: seq<nat> := [137, 139, 149, 151, 157, 163, 167, 173]
  const PRIMES5: seq<nat> := [179, 181, 191, 193, 197, 199, 211, 223]
  const PRIMES6: seq<nat> := [227, 229, 233, 239, 241, 251, 257, 263]
  const PRIMES7: seq<nat> := [269, 271, 277, 281, 283, 293, 307, 311]

  const PRIMES: seq<nat> := PRIMES0 + PRIMES1 + PRIMES2 + PRIMES3 + PRIMES4 + PRIMES5 + PRIMES6 + PRIMES7

  predicate HasSmallFactor(n: nat) {
    (n > 2 && n % 2 == 0) || (n > 3 && n % 3 == 0) || (n > 5 && n % 5 == 0) || (n > 7 && n % 7 == 0) ||
    (n > 11 && n % 11 == 0) || (n > 13 && n % 13 == 0) || (n > 17 && n % 17 == 0)
  }

  lemma FactorOfFactor(d: nat, e: nat, f: nat)
    requires f in {2, 3, 5, 7, 11, 13, 17} && d % f == 0
    ensures (d * e) % f == 0
  {
    Regroup(d / f, f, e);
    Quotient(d * e, f, d / f * e);
  }

  lemma Regroup(q: nat, f: nat, e: nat)
    ensures q * f * e == f * (q * e)
  {
  }

  lemma Smaller(f: nat, d: int)
    requires f > 0 && 0 <= f * d < f
    ensures d == 0
  {
  }

  lemma Quotient(n: nat, f: nat, q: nat)
    requires f > 0 && n == f * q
    ensures n % f == 0
  {
    var r := n % f;
    var d := q - n / f;
    assert f * (n / f) + r == n;
    assert f * d == r < f;
    Smaller(f, d);
  }

  /** Below 361 a number without small factor is prime. */
  lemma NoSmallFactor(n: nat)
    requires 2 <= n < 361 && !HasSmallFactor(n)
    ensures IsPrime(n)
  {
    hide HasSmallFactor;
    forall d | 2 <= d < n ensures n % d != 0 {
      if n % d == 0 {
        DivisorPair(n, d);
        assert false;
      }
    }
  }

  lemma DivisorPair(n: nat, d: nat)
    requires 2 <= d < n < 361 && n % d == 0
    ensures HasSmallFactor(n)
  {
    hide HasSmallFactor;
    var e := n / d;
    assert n == d * e && n == e * d;
    assert e >= 2 by { Whole(d, e, n); }
    if d <= 18 {
      SmallDivisor(d, e);
    } else {
      if e >= 19 { Product(d, e); }
      SmallDivisor(e, d);
    }
  }

  lemma Whole(d: nat, e: nat, n: nat)
    requires n == d * e && d < n
    ensures e >= 2
  {
  }

  lemma Product(d: nat, e: nat)
    requires d >= 19 && e >= 19
    ensures d * e >= 361
  {
    assert d * e == (d - 19) * (e - 19) + 19 * (d + e) - 361;
    assert (d - 19) * (e - 19) >= 0;
  }

  lemma SmallDivisor(d: nat, e: nat)
    requires 2 <= d <= 18 && e >= 2
    ensures HasSmallFactor(d * e)
  {
    var f := if d % 2 == 0 then 2 else if d % 3 == 0 then 3 else if d % 5 == 0 then 5 else if d % 7 == 0 then 7
             else if d % 11 == 0 then 11 else if d % 13 == 0 then 13 else 17;
    assert d % f == 0 && f <= d;
    FactorOfFactor(d, e, f);
    assert d * e >= 2 * d;
  }

  lemma SmallFactor(n: nat)
    requires HasSmallFactor(n)
    ensures !IsPrime(n)
  {
  }

  /** The number at position `i` is the first prime after the one before it. */
  predicate IsNextPrime(i: nat)
    requires i < 64
  {
    |PRIMES| == 64 && IsPrime(PRIMES[i]) && forall q: nat | (if i == 0 then 0 else PRIMES[i - 1]) < q < PRIMES[i] :: !IsPrime(q)
  }

  /** No primes from `q` up to `p`. */
  predicate Bridged(q: nat, p: nat)
    decreases if q < p then p - q else 0
  {
    q >= p || (HasSmallFactor(q) && Bridged(q + 1, p))
  }

  lemma {:induction false} BridgedMeans(q: nat, p: nat, n: nat)
    requires Bridged(q, p) && q <= n < p
    ensures !IsPrime(n)
    decreases p - q
  {
    hide HasSmallFactor, IsPrime;
    if n == q { SmallFactor(n); } else { BridgedMeans(q + 1, p, n); }
  }

  lemma Next(i: nat, q: nat, p: nat)
    requires i < 64 && |PRIMES| == 64 && PRIMES[i] == p && q == (if i == 0 then 2 else PRIMES[i - 1] + 1)
    requires 2 <= p < 361 && !HasSmallFactor(p) && Bridged(q, p)
    ensures IsNextPrime(i)
  {
    hide HasSmallFactor;
    NoSmallFactor(p);
    forall n: nat | q <= n < p ensures !IsPrime(n) { BridgedMeans(q, p, n); }
  }

  lemma WordsFrom0()
    ensures |PRIMES| == |K| == 64 && PRIMES[0] == 2 && PRIMES[1] == 3 && PRIMES[2] == 5 && PRIMES[3] == 7 && PRIMES[4] == 11 &&
            PRIMES[5] == 13 && PRIMES[6] == 17 && PRIMES[7] == 19
    ensures K[0] == 0x428a2f98 && K[1] == 0x71374491 && K[2] == 0xb5c0fbcf && K[3] == 0xe9b5dba5 &&
            K[4] == 0x3956c25b && K[5] == 0x59f111f1 && K[6] == 0x923f82a4 && K[7] == 0xab1c5ed5
  {

  }

  lemma WordsFrom8()
    ensures |PRIMES| == |K| == 64 && PRIMES[8] == 23 && PRIMES[9] == 29 && PRIMES[10] == 31 && PRIMES[11] == 37 && PRIMES[12] == 41 &&
            PRIMES[13] == 43 && PRIMES[14] == 47 && PRIMES[15] == 53
    ensures K[8] == 0xd807aa98 && K[9] == 0x12835b01 && K[10] == 0x243185be && K[11] == 0x550c7dc3 &&
            K[12] == 0x72be5d74 && K[13] == 0x80deb1fe && K[14] == 0x9bdc06a7 && K[15] == 0xc19bf174
  {

  }

  lemma WordsFrom16()
    ensures |PRIMES| == |K| == 64 && PRIMES[16] == 59 && PRIMES[17] == 61 && PRIMES[18] == 67 && PRIMES[19] == 71 && PRIMES[20] == 73 &&
            PRIMES[21] == 79 && PRIMES[22] == 83 && PRIMES[23] == 89
    ensures K[16] == 0xe49b69c1 && K[17] == 0xefbe4786 && K[18] == 0x0fc19dc6 && K[19] == 0x240ca1cc &&
            K[20] == 0x2de92c6f && K[21] == 0x4a7484aa && K[22] == 0x5cb0a9dc && K[23] == 0x76f988da
  {

  }

  lemma WordsFrom24()
    ensures |PRIMES| == |K| == 64 && PRIMES[24] == 97 && PRIMES[25] == 101 && PRIMES[26] == 103 && PRIMES[27] == 107 && PRIMES[28] == 109 &&
            PRIMES[29] == 113 && PRIMES[30] == 127 && PRIMES[31] == 131
    ensures K[24] == 0x983e5152 && K[25] == 0xa831c66d && K[26] == 0xb00327c8 && K[27] == 0xbf597fc7 &&
            K[28] == 0xc6e00bf3 && K[29] == 0xd5a79147 && K[30] == 0x06ca6351 && K[31] == 0x14292967
  {

  }

  lemma WordsFrom32()
    ensures |PRIMES| == |K| == 64 && PRIMES[32] == 137 && PRIMES[33] == 139 && PRIMES[34] == 149 && PRIMES[35] == 151 && PRIMES[36] == 157 &&
            PRIMES[37] == 163 && PRIMES[38] == 167 && PRIMES[39] == 173
    ensures K[32] == 0x27b70a85 && K[33] == 0x2e1b2138 && K[34] == 0x4d2c6dfc && K[35] == 0x53380d13 &&
            K[36] == 0x650a7354 && K[37] == 0x766a0abb && K[38] == 0x81c2c92e && K[39] == 0x92722c85
  {

  }

  lemma WordsFrom40()
    ensures |PRIMES| == |K| == 64 && PRIMES[40] == 179 && PRIMES[41] == 181 && PRIMES[42] == 191 && PRIMES[43] == 193 && PRIMES[44] == 197 &&
            PRIMES[45] == 199 && PRIMES[46] == 211 && PRIMES[47] == 223
    ensures K[40] == 0xa2bfe8a1 && K[41] == 0xa81a664b && K[42] == 0xc24b8b70 && K[43] == 0xc76c51a3 &&
            K[44] == 0xd192e819 && K[45] == 0xd6990624 && K[46] == 0xf40e3585 && K[47] == 0x106aa070
  {

  }

  lemma WordsFrom48()
    ensures |PRIMES| == |K| == 64 && PRIMES[48] == 227 && PRIMES[49] == 229 && PRIMES[50] == 233 && PRIMES[51] == 239 && PRIMES[52] == 241 &&
            PRIMES[53] == 251 && PRIMES[54] == 257 && PRIMES[55] == 263
    ensures K[48] == 0x19a4c116 && K[49] == 0x1e376c08 && K[50] == 0x2748774c && K[51] == 0x34b0bcb5 &&
            K[52] == 0x391c0cb3 && K[53] == 0x4ed8aa4a && K[54] == 0x5b9cca4f && K[55] == 0x682e6ff3
  {

  }

  lemma WordsFrom56()
    ensures |PRIMES| == |K| == 64 && PRIMES[56] == 269 && PRIMES[57] == 271 && PRIMES[58] == 277 && PRIMES[59] == 281 && PRIMES[60] == 283 &&
            PRIMES[61] == 293 && PRIMES[62] == 307 && PRIMES[63] == 311
    ensures K[56] == 0x748f82ee && K[57] == 0x78a5636f && K[58] == 0x84c87814 && K[59] == 0x8cc70208 &&
            K[60] == 0x90befffa && K[61] == 0xa4506ceb && K[62] == 0xbef9a3f7 && K[63] == 0xc67178f2
  {

  }

  lemma PrimesFrom0()
    ensures forall i | 0 <= i < 8 :: IsNextPrime(i)
  {
    hide IsNextPrime, IsPrime, PRIMES, K;
    WordsFrom0();
    Next(0, 2, 2); Next(1, 3, 3); Next(2, 4, 5); Next(3, 6, 7);
    Next(4, 8, 11); Next(5, 12, 13); Next(6, 14, 17); Next(7, 18, 19);
  }

  lemma PrimesFrom8()
    ensures forall i | 8 <= i < 16 :: IsNextPrime(i)
  {
    hide IsNextPrime, IsPrime, PRIMES, K;
    WordsFrom8();
    WordsFrom0();
    Next(8, 20, 23); Next(9, 24, 29); Next(10, 30, 31); Next(11, 32, 37);
    Next(12, 38, 41); Next(13, 42, 43); Next(14, 44, 47); Next(15, 48, 53);
  }

  lemma PrimesFrom16()
    ensures forall i | 16 <= i < 24 :: IsNextPrime(i)
  {
    hide IsNextPrime, IsPrime, PRIMES, K;
    WordsFrom16();
    WordsFrom8();
    Next(16, 54, 59); Next(17, 60, 61); Next(18, 62, 67); Next(19, 68, 71);
    Next(20, 72, 73); Next(21, 74, 79); Next(22, 80, 83); Next(23, 84, 89);
  }

  lemma PrimesFrom24()
    ensures forall i | 24 <= i < 32 :: IsNextPrime(i)
  {
    hide IsNextPrime, IsPrime, PRIMES, K;
    WordsFrom24();
    WordsFrom16();
    Next(24, 90, 97); Next(25, 98, 101); Next(26, 102, 103); Next(27, 104, 107);
    Next(28, 108, 109); Next(29, 110, 113); Next(30, 114, 127); Next(31, 128, 131);
  }

  lemma PrimesFrom32()
    ensures forall i | 32 <= i < 40 :: IsNextPrime(i)
  {
    hide IsNextPrime, IsPrime, PRIMES, K;
    WordsFrom32();
    WordsFrom24();
    Next(32, 132, 137); Next(33, 138, 139); Next(34, 140, 149); Next(35, 150, 151);
    Next(36, 152, 157); Next(37, 158, 163); Next(38, 164, 167); Next(39, 168, 173);
  }

  lemma PrimesFrom40()
    ensures forall i | 40 <= i < 48 :: IsNextPrime(i)
  {
    hide IsNextPrime, IsPrime, PRIMES, K;
    WordsFrom40();
    WordsFrom32();
    Next(40, 174, 179); Next(41, 180, 181); Next(42, 182, 191); Next(43, 192, 193);
    Next(44, 194, 197); Next(45, 198, 199); Next(46, 200, 211); Next(47, 212, 223);
  }

  lemma PrimesFrom48()
    ensures forall i | 48 <= i < 56 :: IsNextPrime(i)
  {
    hide IsNextPrime, IsPrime, PRIMES, K;
    WordsFrom48();
    WordsFrom40();
    Next(48, 224, 227); Next(49, 228, 229); Next(50, 230, 233); Next(51, 234, 239);
    Next(52, 240, 241); Next(53, 242, 251); Next(54, 252, 257); Next(55, 258, 263);
  }

  lemma PrimesFrom56()
    ensures forall i | 56 <= i < 64 :: IsNextPrime(i)
  {
    hide IsNextPrime, IsPrime, PRIMES, K;
    WordsFrom56();
    WordsFrom48();
    Next(56, 264, 269); Next(57, 270, 271); Next(58, 272, 277); Next(59, 278, 281);
    Next(60, 282, 283); Next(61, 284, 293); Next(62, 294, 307); Next(63, 308, 311);
  }

  // ----- fractions of roots

  /** `k` is the first 32 bits of the fraction of the cube root of `p`, whose whole part is `c`. */
  predicate CubeRoot(p: nat, c: nat, k: nat) {
    var x := 0x1_0000_0000 * c + k;
    x * x * x <= p * 0x1_0000_0000_0000_0000_0000_0000 < (x + 1) * (x + 1) * (x + 1)
  }

  predicate SquareRoot(p: nat, c: nat, h: nat) {
    var x := 0x1_0000_0000 * c + h;
    x * x <= p * 0x1_0000_0000_0000_0000 < (x + 1) * (x + 1)
  }

  predicate CubeFraction(i: nat, c: nat)
    requires i < 64
  {
    |PRIMES| == |K| == 64 && CubeRoot(PRIMES[i], c, K[i] as nat)
  }

  predicate SquareFraction(i: nat, c: nat)
    requires i < 8
  {
    |PRIMES| == 64 && SquareRoot(PRIMES[i], c, H0[i] as nat)
  }

  ghost predicate IsCubeFraction(i: nat)
    requires i < 64
  {
    exists c: nat :: CubeFraction(i, c)
  }

  ghost predicate IsSquareFraction(i: nat)
    requires i < 8
  {
    exists c: nat :: SquareFraction(i, c)
  }

  lemma Constant(i: nat, p: nat, c: nat, k: nat)
    requires i < 64 && |PRIMES| == |K| == 64 && PRIMES[i] == p && K[i] as nat == k && CubeRoot(p, c, k)
    ensures IsCubeFraction(i)
  {
    assert CubeFraction(i, c);
  }

  lemma ConstantsFrom0()
    ensures forall i | 0 <= i < 8 :: IsCubeFraction(i)
  {
    hide IsCubeFraction, CubeFraction, PRIMES, K;
    WordsFrom0();
    Constant(0, 2, 1, 0x428a2f98); Constant(1, 3, 1, 0x71374491);
    Constant(2, 5, 1, 0xb5c0fbcf); Constant(3, 7, 1, 0xe9b5dba5);
    Constant(4, 11, 2, 0x3956c25b); Constant(5, 13, 2, 0x59f111f1);
    Constant(6, 17, 2, 0x923f82a4); Constant(7, 19, 2, 0xab1c5ed5);
  }

  lemma ConstantsFrom8()
    ensures forall i | 8 <= i < 16 :: IsCubeFraction(i)
  {
    hide IsCubeFraction, CubeFraction, PRIMES, K;
    WordsFrom8();
    Constant(8, 23, 2, 0xd807aa98); Constant(9, 29, 3, 0x12835b01);
    Constant(10, 31, 3, 0x243185be); Constant(11, 37, 3, 0x550c7dc3);
    Constant(12, 41, 3, 0x72be5d74); Constant(13, 43, 3, 0x80deb1fe);
    Constant(14, 47, 3, 0x9bdc06a7); Constant(15, 53, 3, 0xc19bf174);
  }

  lemma ConstantsFrom16()
    ensures forall i | 16 <= i < 24 :: IsCubeFraction(i)
  {
    hide IsCubeFraction, CubeFraction, PRIMES, K;
    WordsFrom16();
    Constant(16, 59, 3, 0xe49b69c1); Constant(17, 61, 3, 0xefbe4786);
    Constant(18, 67, 4, 0x0fc19dc6); Constant(19, 71, 4, 0x240ca1cc);
    Constant(20, 73, 4, 0x2de92c6f); Constant(21, 79, 4, 0x4a7484aa);
    Constant(22, 83, 4, 0x5cb0a9dc); Constant(23, 89, 4, 0x76f988da);
  }

  lemma ConstantsFrom24()
    ensures forall i | 24 <= i < 32 :: IsCubeFraction(i)
  {
    hide IsCubeFraction, CubeFraction, PRIMES, K;
    WordsFrom24();
    Constant(24, 97, 4, 0x983e5152); Constant(25, 101, 4, 0xa831c66d);
    Constant(26, 103, 4, 0xb00327c8); Constant(27, 107, 4, 0xbf597fc7);
    Constant(28, 109, 4, 0xc6e00bf3); Constant(29, 113, 4, 0xd5a79147);
    Constant(30, 127, 5, 0x06ca6351); Constant(31, 131, 5, 0x14292967);
  }

  lemma ConstantsFrom32()
    ensures forall i | 32 <= i < 40 :: IsCubeFraction(i)
  {
    hide IsCubeFraction, CubeFraction, PRIMES, K;
    WordsFrom32();
    Constant(32, 137, 5, 0x27b70a85); Constant(33, 139, 5, 0x2e1b2138);
    Constant(34, 149, 5, 0x4d2c6dfc); Constant(35, 151, 5, 0x53380d13);
    Constant(36, 157, 5, 0x650a7354); Constant(37, 163, 5, 0x766a0abb);
    Constant(38, 167, 5, 0x81c2c92e); Constant(39, 173, 5, 0x92722c85);
  }

  lemma ConstantsFrom40()
    ensures forall i | 40 <= i < 48 :: IsCubeFraction(i)
  {
    hide IsCubeFraction, CubeFraction, PRIMES, K;
    WordsFrom40();
    Constant(40, 179, 5, 0xa2bfe8a1); Constant(41, 181, 5, 0xa81a664b);
    Constant(42, 191, 5, 0xc24b8b70); Constant(43, 193, 5, 0xc76c51a3);
    Constant(44, 197, 5, 0xd192e819); Constant(45, 199, 5, 0xd6990624);
    Constant(46, 211, 5, 0xf40e3585); Constant(47, 223, 6, 0x106aa070);
  }

  lemma ConstantsFrom48()
    ensures forall i | 48 <= i < 56 :: IsCubeFraction(i)
  {
    hide IsCubeFraction, CubeFraction, PRIMES, K;
    WordsFrom48();
    Constant(48, 227, 6, 0x19a4c116); Constant(49, 229, 6, 0x1e376c08);
    Constant(50, 233, 6, 0x2748774c); Constant(51, 239, 6, 0x34b0bcb5);
    Constant(52, 241, 6, 0x391c0cb3); Constant(53, 251, 6, 0x4ed8aa4a);
    Constant(54, 257, 6, 0x5b9cca4f); Constant(55, 263, 6, 0x682e6ff3);
  }

  lemma ConstantsFrom56()
    ensures forall i | 56 <= i < 64 :: IsCubeFraction(i)
  {
    hide IsCubeFraction, CubeFraction, PRIMES, K;
    WordsFrom56();
    Constant(56, 269, 6, 0x748f82ee); Constant(57, 271, 6, 0x78a5636f);
    Constant(58, 277, 6, 0x84c87814); Constant(59, 281, 6, 0x8cc70208);
    Constant(60, 283, 6, 0x90befffa); Constant(61, 293, 6, 0xa4506ceb);
    Constant(62, 307, 6, 0xbef9a3f7); Constant(63, 311, 6, 0xc67178f2);
  }

  lemma Initial(i: nat, p: nat, c: nat, h: nat)
    requires i < 8 && |PRIMES| == 64 && PRIMES[i] == p && H0[i] as nat == h && SquareRoot(p, c, h)
    ensures IsSquareFraction(i)
  {
    assert SquareFraction(i, c);
  }

  /** The constants of section 4.2.2 are the fractions of the cube roots of the first 64 primes. */
  lemma ConstantsAreCubeRoots(i: nat)
    requires i < 64
    ensures IsNextPrime(i) && IsCubeFraction(i)
  {
    hide IsCubeFraction, IsNextPrime;
    if i < 8 {
      PrimesFrom0();
      ConstantsFrom0();
    } else if i < 16 {
      PrimesFrom8();
      ConstantsFrom8();
    } else if i < 24 {
      PrimesFrom16();
      ConstantsFrom16();
    } else if i < 32 {
      PrimesFrom24();
      ConstantsFrom24();
    } else if i < 40 {
      PrimesFrom32();
      ConstantsFrom32();
    } else if i < 48 {
      PrimesFrom40();
      ConstantsFrom40();
    } else if i < 56 {
      PrimesFrom48();
      ConstantsFrom48();
    } else {
      PrimesFrom56();
      ConstantsFrom56();
    }
  }

  /** The initial hash value of section 5.3.3: the fractions of the square roots of the first 8 primes. */
  lemma InitialAreSquareRoots(i: nat)
    requires i < 8
    ensures IsSquareFraction(i)
  {
    hide IsSquareFraction;
    InitialFractions();
  }

  lemma InitialFractions()
    ensures forall i | 0 <= i < 8 :: IsSquareFraction(i)
  {
    hide SquareFraction, IsSquareFraction;
    assert IsSquareFraction(0) by { assert PRIMES[0] == 2 && H0[0] == 0x6a09e667; Initial(0, 2, 1, 0x6a09e667); }
    assert IsSquareFraction(1) by { assert PRIMES[1] == 3 && H0[1] == 0xbb67ae85; Initial(1, 3, 1, 0xbb67ae85); }
    assert IsSquareFraction(2) by { assert PRIMES[2] == 5 && H0[2] == 0x3c6ef372; Initial(2, 5, 2, 0x3c6ef372); }
    assert IsSquareFraction(3) by { assert PRIMES[3] == 7 && H0[3] == 0xa54ff53a; Initial(3, 7, 2, 0xa54ff53a); }
    assert IsSquareFraction(4) by { assert PRIMES[4] == 11 && H0[4] == 0x510e527f; Initial(4, 11, 3, 0x510e527f); }
    assert IsSquareFraction(5) by { assert PRIMES[5] == 13 && H0[5] == 0x9b05688c; Initial(5, 13, 3, 0x9b05688c); }
    assert IsSquareFraction(6) by { assert PRIMES[6] == 17 && H0[6] == 0x1f83d9ab; Initial(6, 17, 4, 0x1f83d9ab); }
    assert IsSquareFraction(7) by { assert PRIMES[7] == 19 && H0[7] == 0x5be0cd19; Initial(7, 19, 4, 0x5be0cd19); }
  }
}
