/** A published example: the digest of "abc". */
module Sha256Example {
  import opened Sha256Spec
  import opened Sha256Constants

  const ABC: Block := [0x61626380, 0, 0, 0, 0, 0, 0, 0, 0, 0, 0, 0, 0, 0, 0, 0x18]

  // ----- the message schedule

  const WORDS0: seq<bv32> := [0x61626380, 0x00000000, 0x00000000, 0x00000000, 0x00000000, 0x00000000, 0x00000000, 0x00000000]
  const WORDS1: seq<bv32> := [0x00000000, 0x00000000, 0x00000000, 0x00000000, 0x00000000, 0x00000000, 0x00000000, 0x00000018]
  const WORDS2: seq<bv32> := [0x61626380, 0x000f0000, 0x7da86405, 0x600003c6, 0x3e9d7b78, 0x0183fc00, 0x12dcbfdb, 0xe2e2c38e]
  const WORDS3: seq<bv32> := [0xc8215c1a, 0xb73679a2, 0xe5bc3909, 0x32663c5b, 0x9d209d67, 0xec8726cb, 0x702138a4, 0xd3b7973b]
  const WORDS4: seq<bv32> := [0x93f5997f, 0x3b68ba73, 0xaff4ffc1, 0xf10a5c62, 0x0a8b3996, 0x72af830a, 0x9409e33e, 0x24641522]
  const WORDS5: seq<bv32> := [0x9f47bf94, 0xf0a64f5a, 0x3e246a79, 0x27333ba3, 0x0c4763f2, 0x840abf27, 0x7a290d5d, 0x065c43da]
  const WORDS6: seq<bv32> := [0xfb3e89cb, 0xcc7617db, 0xb9e66c34, 0xa9993667, 0x84badedd, 0xc21462bc, 0x1487472c, 0xb20f7a99]
  const WORDS7: seq<bv32> := [0xef57b9cd, 0xebe6b238, 0x9fe3095e, 0x78bc8d4b, 0xa43fcf15, 0x668b2ff8, 0xeeaba2cc, 0x12b1edeb]

  const WORDS: seq<bv32> := WORDS0 + WORDS1 + WORDS2 + WORDS3 + WORDS4 + WORDS5 + WORDS6 + WORDS7

  lemma Listed0()
    ensures |WORDS| == 64 && WORDS[0] == 0x61626380 && WORDS[1] == 0x00000000 && WORDS[2] == 0x00000000 && WORDS[3] == 0x00000000 &&
            WORDS[4] == 0x00000000 && WORDS[5] == 0x00000000 && WORDS[6] == 0x00000000 && WORDS[7] == 0x00000000
  {
  }

  lemma Listed8()
    ensures |WORDS| == 64 && WORDS[8] == 0x00000000 && WORDS[9] == 0x00000000 && WORDS[10] == 0x00000000 && WORDS[11] == 0x00000000 &&
            WORDS[12] == 0x00000000 && WORDS[13] == 0x00000000 && WORDS[14] == 0x00000000 && WORDS[15] == 0x00000018
  {
  }

  lemma Listed16()
    ensures |WORDS| == 64 && WORDS[16] == 0x61626380 && WORDS[17] == 0x000f0000 && WORDS[18] == 0x7da86405 && WORDS[19] == 0x600003c6 &&
            WORDS[20] == 0x3e9d7b78 && WORDS[21] == 0x0183fc00 && WORDS[22] == 0x12dcbfdb && WORDS[23] == 0xe2e2c38e
  {
  }

  lemma Listed24()
    ensures |WORDS| == 64 && WORDS[24] == 0xc8215c1a && WORDS[25] == 0xb73679a2 && WORDS[26] == 0xe5bc3909 && WORDS[27] == 0x32663c5b &&
            WORDS[28] == 0x9d209d67 && WORDS[29] == 0xec8726cb && WORDS[30] == 0x702138a4 && WORDS[31] == 0xd3b7973b
  {
  }

  lemma Listed32()
    ensures |WORDS| == 64 && WORDS[32] == 0x93f5997f && WORDS[33] == 0x3b68ba73 && WORDS[34] == 0xaff4ffc1 && WORDS[35] == 0xf10a5c62 &&
            WORDS[36] == 0x0a8b3996 && WORDS[37] == 0x72af830a && WORDS[38] == 0x9409e33e && WORDS[39] == 0x24641522
  {
  }

  lemma Listed40()
    ensures |WORDS| == 64 && WORDS[40] == 0x9f47bf94 && WORDS[41] == 0xf0a64f5a && WORDS[42] == 0x3e246a79 && WORDS[43] == 0x27333ba3 &&
            WORDS[44] == 0x0c4763f2 && WORDS[45] == 0x840abf27 && WORDS[46] == 0x7a290d5d && WORDS[47] == 0x065c43da
  {
  }

  lemma Listed48()
    ensures |WORDS| == 64 && WORDS[48] == 0xfb3e89cb && WORDS[49] == 0xcc7617db && WORDS[50] == 0xb9e66c34 && WORDS[51] == 0xa9993667 &&
            WORDS[52] == 0x84badedd && WORDS[53] == 0xc21462bc && WORDS[54] == 0x1487472c && WORDS[55] == 0xb20f7a99
  {
  }

  lemma Listed56()
    ensures |WORDS| == 64 && WORDS[56] == 0xef57b9cd && WORDS[57] == 0xebe6b238 && WORDS[58] == 0x9fe3095e && WORDS[59] == 0x78bc8d4b &&
            WORDS[60] == 0xa43fcf15 && WORDS[61] == 0x668b2ff8 && WORDS[62] == 0xeeaba2cc && WORDS[63] == 0x12b1edeb
  {
  }

  predicate IsExtended(t: nat)
    requires 16 <= t < 64
  {
    |WORDS| == 64 && WORDS[t] == Extend(WORDS[t - 2], WORDS[t - 7], WORDS[t - 15], WORDS[t - 16])
  }

  lemma Extended16()
    ensures forall t | 16 <= t < 24 :: IsExtended(t)
  {
    hide WORDS;
    Listed0();
    Listed8();
    Listed16();
    assert IsExtended(16) && IsExtended(17) && IsExtended(18) && IsExtended(19);
    assert IsExtended(20) && IsExtended(21) && IsExtended(22) && IsExtended(23);
  }

  lemma Extended24()
    ensures forall t | 24 <= t < 32 :: IsExtended(t)
  {
    hide WORDS;
    Listed8();
    Listed16();
    Listed24();
    assert IsExtended(24) && IsExtended(25) && IsExtended(26) && IsExtended(27);
    assert IsExtended(28) && IsExtended(29) && IsExtended(30) && IsExtended(31);
  }

  lemma Extended32()
    ensures forall t | 32 <= t < 40 :: IsExtended(t)
  {
    hide WORDS;
    Listed16();
    Listed24();
    Listed32();
    assert IsExtended(32) && IsExtended(33) && IsExtended(34) && IsExtended(35);
    assert IsExtended(36) && IsExtended(37) && IsExtended(38) && IsExtended(39);
  }

  lemma Extended40()
    ensures forall t | 40 <= t < 48 :: IsExtended(t)
  {
    hide WORDS;
    Listed24();
    Listed32();
    Listed40();
    assert IsExtended(40) && IsExtended(41) && IsExtended(42) && IsExtended(43);
    assert IsExtended(44) && IsExtended(45) && IsExtended(46) && IsExtended(47);
  }

  lemma Extended48()
    ensures forall t | 48 <= t < 56 :: IsExtended(t)
  {
    hide WORDS;
    Listed32();
    Listed40();
    Listed48();
    assert IsExtended(48) && IsExtended(49) && IsExtended(50) && IsExtended(51);
    assert IsExtended(52) && IsExtended(53) && IsExtended(54) && IsExtended(55);
  }

  lemma Extended56()
    ensures forall t | 56 <= t < 64 :: IsExtended(t)
  {
    hide WORDS;
    Listed40();
    Listed48();
    Listed56();
    assert IsExtended(56) && IsExtended(57) && IsExtended(58) && IsExtended(59);
    assert IsExtended(60) && IsExtended(61) && IsExtended(62) && IsExtended(63);
  }

  lemma AllExtended(t: nat)
    requires 16 <= t < 64
    ensures IsExtended(t)
  {
    hide IsExtended;
    if t < 24 {
      Extended16();
    } else if t < 32 {
      Extended24();
    } else if t < 40 {
      Extended32();
    } else if t < 48 {
      Extended40();
    } else if t < 56 {
      Extended48();
    } else {
      Extended56();
    }
  }

  lemma FirstWords(t: nat)
    requires t < 16
    ensures |WORDS| == 64 && ABC[t] == WORDS[t]
  {
    hide WORDS;
    Listed0();
    Listed8();
  }

  lemma {:induction false} ScheduleListed(t: nat)
    requires t < 64
    ensures |WORDS| == 64 && Schedule(ABC, t) == WORDS[t]
  {
    hide Extend, WORDS, ABC;
    if t < 16 {
      FirstWords(t);
    } else {
      AllExtended(t);
      ScheduleListed(t - 2);
      ScheduleListed(t - 7);
      ScheduleListed(t - 15);
      ScheduleListed(t - 16);
    }
  }

  // ----- the rounds

  /** One round with the numbers filled in. */
  lemma Step(t: nat, v: Vars, k: bv32, w: bv32) returns (v': Vars)
    requires t < 64 && Rounds(H0, ABC, t) == v && K[t] == k && |WORDS| == 64 && WORDS[t] == w
    ensures v' == Round(v, k, w) && Rounds(H0, ABC, t + 1) == v'
  {
    hide Round, H0, ABC, WORDS, K;
    v' := Round(v, k, w);
    ScheduleListed(t);
  }

  lemma Rounds0()
    ensures Rounds(H0, ABC, 0) == Vars(0x6a09e667, 0xbb67ae85, 0x3c6ef372, 0xa54ff53a, 0x510e527f, 0x9b05688c, 0x1f83d9ab, 0x5be0cd19)
  {
  }

  lemma Rounds8()
    ensures Rounds(H0, ABC, 8) == Vars(0x85a07b5f, 0xe5030380, 0x2b4209f5, 0x04409a6a, 0x0c657a79, 0x9b27a401, 0x714260ad, 0x43ada245)
  {
    hide ABC, H0, K, WORDS, Rounds;
    Rounds0();
    Listed0();
    WordsFrom0();
    var v := Vars(0x6a09e667, 0xbb67ae85, 0x3c6ef372, 0xa54ff53a, 0x510e527f, 0x9b05688c, 0x1f83d9ab, 0x5be0cd19);
    v := Step(0, v, 0x428a2f98, 0x61626380);
    v := Step(1, v, 0x71374491, 0x00000000);
    v := Step(2, v, 0xb5c0fbcf, 0x00000000);
    v := Step(3, v, 0xe9b5dba5, 0x00000000);
    v := Step(4, v, 0x3956c25b, 0x00000000);
    v := Step(5, v, 0x59f111f1, 0x00000000);
    v := Step(6, v, 0x923f82a4, 0x00000000);
    v := Step(7, v, 0xab1c5ed5, 0x00000000);
  }

  lemma Rounds16()
    ensures Rounds(H0, ABC, 16) == Vars(0xb0fa238e, 0xc0645fde, 0xd932eb16, 0x87912990, 0x07590dcd, 0x0b92f20c, 0x745a48de, 0x1e578218)
  {
    hide ABC, H0, K, WORDS, Rounds;
    Rounds8();
    Listed8();
    WordsFrom8();
    var v := Vars(0x85a07b5f, 0xe5030380, 0x2b4209f5, 0x04409a6a, 0x0c657a79, 0x9b27a401, 0x714260ad, 0x43ada245);
    v := Step(8, v, 0xd807aa98, 0x00000000);
    v := Step(9, v, 0x12835b01, 0x00000000);
    v := Step(10, v, 0x243185be, 0x00000000);
    v := Step(11, v, 0x550c7dc3, 0x00000000);
    v := Step(12, v, 0x72be5d74, 0x00000000);
    v := Step(13, v, 0x80deb1fe, 0x00000000);
    v := Step(14, v, 0x9bdc06a7, 0x00000000);
    v := Step(15, v, 0xc19bf174, 0x00000018);
  }

  lemma Rounds24()
    ensures Rounds(H0, ABC, 24) == Vars(0xc5d53d8d, 0xa7a3623f, 0xc2606d6d, 0x9dc68b63, 0xaa47c347, 0x49f5114a, 0xe1257970, 0x8ada8930)
  {
    hide ABC, H0, K, WORDS, Rounds;
    Rounds16();
    Listed16();
    WordsFrom16();
    var v := Vars(0xb0fa238e, 0xc0645fde, 0xd932eb16, 0x87912990, 0x07590dcd, 0x0b92f20c, 0x745a48de, 0x1e578218);
    v := Step(16, v, 0xe49b69c1, 0x61626380);
    v := Step(17, v, 0xefbe4786, 0x000f0000);
    v := Step(18, v, 0x0fc19dc6, 0x7da86405);
    v := Step(19, v, 0x240ca1cc, 0x600003c6);
    v := Step(20, v, 0x2de92c6f, 0x3e9d7b78);
    v := Step(21, v, 0x4a7484aa, 0x0183fc00);
    v := Step(22, v, 0x5cb0a9dc, 0x12dcbfdb);
    v := Step(23, v, 0x76f988da, 0xe2e2c38e);
  }

  lemma Rounds32()
    ensures Rounds(H0, ABC, 32) == Vars(0x73b33bf5, 0xea992a22, 0xa0060b30, 0x363482c9, 0xba591112, 0x0109ab3a, 0xade79437, 0x6112a3b7)
  {
    hide ABC, H0, K, WORDS, Rounds;
    Rounds24();
    Listed24();
    WordsFrom24();
    var v := Vars(0xc5d53d8d, 0xa7a3623f, 0xc2606d6d, 0x9dc68b63, 0xaa47c347, 0x49f5114a, 0xe1257970, 0x8ada8930);
    v := Step(24, v, 0x983e5152, 0xc8215c1a);
    v := Step(25, v, 0xa831c66d, 0xb73679a2);
    v := Step(26, v, 0xb00327c8, 0xe5bc3909);
    v := Step(27, v, 0xbf597fc7, 0x32663c5b);
    v := Step(28, v, 0xc6e00bf3, 0x9d209d67);
    v := Step(29, v, 0xd5a79147, 0xec8726cb);
    v := Step(30, v, 0x06ca6351, 0x702138a4);
    v := Step(31, v, 0x14292967, 0xd3b7973b);
  }

  lemma Rounds40()
    ensures Rounds(H0, ABC, 40) == Vars(0x79ea687a, 0x6dc57a8a, 0x34df1604, 0x41a65cb1, 0x1efbc0a0, 0xf0781bc8, 0xa507a53d, 0x0772a26b)
  {
    hide ABC, H0, K, WORDS, Rounds;
    Rounds32();
    Listed32();
    WordsFrom32();
    var v := Vars(0x73b33bf5, 0xea992a22, 0xa0060b30, 0x363482c9, 0xba591112, 0x0109ab3a, 0xade79437, 0x6112a3b7);
    v := Step(32, v, 0x27b70a85, 0x93f5997f);
    v := Step(33, v, 0x2e1b2138, 0x3b68ba73);
    v := Step(34, v, 0x4d2c6dfc, 0xaff4ffc1);
    v := Step(35, v, 0x53380d13, 0xf10a5c62);
    v := Step(36, v, 0x650a7354, 0x0a8b3996);
    v := Step(37, v, 0x766a0abb, 0x72af830a);
    v := Step(38, v, 0x81c2c92e, 0x9409e33e);
    v := Step(39, v, 0x92722c85, 0x24641522);
  }

  lemma Rounds48()
    ensures Rounds(H0, ABC, 48) == Vars(0x4172328d, 0xa14c14b0, 0x72ab4b91, 0x26628815, 0xfecf0bc6, 0xd57b94a9, 0xb7755da1, 0xa80f11f0)
  {
    hide ABC, H0, K, WORDS, Rounds;
    Rounds40();
    Listed40();
    WordsFrom40();
    var v := Vars(0x79ea687a, 0x6dc57a8a, 0x34df1604, 0x41a65cb1, 0x1efbc0a0, 0xf0781bc8, 0xa507a53d, 0x0772a26b);
    v := Step(40, v, 0xa2bfe8a1, 0x9f47bf94);
    v := Step(41, v, 0xa81a664b, 0xf0a64f5a);
    v := Step(42, v, 0xc24b8b70, 0x3e246a79);
    v := Step(43, v, 0xc76c51a3, 0x27333ba3);
    v := Step(44, v, 0xd192e819, 0x0c4763f2);
    v := Step(45, v, 0xd6990624, 0x840abf27);
    v := Step(46, v, 0xf40e3585, 0x7a290d5d);
    v := Step(47, v, 0x106aa070, 0x065c43da);
  }

  lemma Rounds56()
    ensures Rounds(H0, ABC, 56) == Vars(0x38cc9913, 0x3ec45cdb, 0xf5702fdb, 0x101fd28f, 0x54cb266b, 0xe50e1b4f, 0x9f4787c3, 0x529e7d00)
  {
    hide ABC, H0, K, WORDS, Rounds;
    Rounds48();
    Listed48();
    WordsFrom48();
    var v := Vars(0x4172328d, 0xa14c14b0, 0x72ab4b91, 0x26628815, 0xfecf0bc6, 0xd57b94a9, 0xb7755da1, 0xa80f11f0);
    v := Step(48, v, 0x19a4c116, 0xfb3e89cb);
    v := Step(49, v, 0x1e376c08, 0xcc7617db);
    v := Step(50, v, 0x2748774c, 0xb9e66c34);
    v := Step(51, v, 0x34b0bcb5, 0xa9993667);
    v := Step(52, v, 0x391c0cb3, 0x84badedd);
    v := Step(53, v, 0x4ed8aa4a, 0xc21462bc);
    v := Step(54, v, 0x5b9cca4f, 0x1487472c);
    v := Step(55, v, 0x682e6ff3, 0xb20f7a99);
  }

  lemma Rounds64()
    ensures Rounds(H0, ABC, 64) == Vars(0x506e3058, 0xd39a2165, 0x04d24d6c, 0xb85e2ce9, 0x5ef50f24, 0xfb121210, 0x948d25b6, 0x961f4894)
  {
    hide ABC, H0, K, WORDS, Rounds;
    Rounds56();
    Listed56();
    WordsFrom56();
    var v := Vars(0x38cc9913, 0x3ec45cdb, 0xf5702fdb, 0x101fd28f, 0x54cb266b, 0xe50e1b4f, 0x9f4787c3, 0x529e7d00);
    v := Step(56, v, 0x748f82ee, 0xef57b9cd);
    v := Step(57, v, 0x78a5636f, 0xebe6b238);
    v := Step(58, v, 0x84c87814, 0x9fe3095e);
    v := Step(59, v, 0x8cc70208, 0x78bc8d4b);
    v := Step(60, v, 0x90befffa, 0xa43fcf15);
    v := Step(61, v, 0xa4506ceb, 0x668b2ff8);
    v := Step(62, v, 0xbef9a3f7, 0xeeaba2cc);
    v := Step(63, v, 0xc67178f2, 0x12b1edeb);
  }

  // ----- padding and digest

  lemma Padded(m: seq<bv8>)
    requires m == [0x61, 0x62, 0x63]
    ensures |Pad(m)| == 64 && Pad(m)[..4] == [0x61, 0x62, 0x63, 0x80] && Pad(m)[63] == 0x18
    ensures forall i | 4 <= i < 63 :: Pad(m)[i] == 0
  {
    hide BigEndian;
    LengthBytes();
    PadLength(m);
    var z, l := Zeros(ZeroCount(|m|)), BigEndian(8 * |m|, 8);
    assert l == [0, 0, 0, 0, 0, 0, 0, 0x18];
    assert |m| == 3 && |z| == 52 && Pad(m) == m + [0x80] + z + l;
  }

  lemma LengthBytes()
    ensures BigEndian(24, 8) == [0, 0, 0, 0, 0, 0, 0, 0x18]
  {
    ZeroBytes(7);
    assert BigEndian(0, 7) == [0, 0, 0, 0, 0, 0, 0];
    assert BigEndian(24, 8) == BigEndian(0, 7) + [0x18];
  }

  lemma {:induction false} ZeroBytes(n: nat)
    ensures BigEndian(0, n) == Zeros(n)
  {
    if n > 0 {
      ZeroBytes(n - 1);
      assert Zeros(n) == Zeros(n - 1) + [0];
    }
  }

  lemma ParsedBlock(p: seq<bv8>)
    requires |p| == 64 && p[..4] == [0x61, 0x62, 0x63, 0x80] && p[63] == 0x18 && forall i | 4 <= i < 63 :: p[i] == 0
    ensures Parse(p) == ABC
  {
    var b := Parse(p);
    assert p[0] == p[..4][0] && p[1] == p[..4][1] && p[2] == p[..4][2] && p[3] == p[..4][3];
    assert b[0] == 0x61626380;
    assert b[15] == 0x18;
    forall i | 1 <= i < 15 ensures b[i] == 0 {}
    forall i | 0 <= i < 16 ensures b[i] == ABC[i] {}
  }

  lemma Compressed()
    ensures Compress(H0, ABC) == [0xba7816bf, 0x8f01cfea, 0x414140de, 0x5dae2223, 0xb00361a3, 0x96177a9c, 0xb410ff61, 0xf20015ad]
  {
    hide ABC, Rounds;
    Rounds64();
  }

  lemma DigestBytes(hash: Hash)
    requires hash == [0xba7816bf, 0x8f01cfea, 0x414140de, 0x5dae2223, 0xb00361a3, 0x96177a9c, 0xb410ff61, 0xf20015ad]
    ensures Digest(hash) == [0xba, 0x78, 0x16, 0xbf, 0x8f, 0x01, 0xcf, 0xea, 0x41, 0x41, 0x40, 0xde, 0x5d, 0xae, 0x22, 0x23,
      0xb0, 0x03, 0x61, 0xa3, 0x96, 0x17, 0x7a, 0x9c, 0xb4, 0x10, 0xff, 0x61, 0xf2, 0x00, 0x15, 0xad]
  {
    hide WordBytes, Digest;
    FirstHalf(hash);
    OneMore(hash, 4);
    OneMore(hash, 5);
    OneMore(hash, 6);
    OneMore(hash, 7);
    assert hash[..8] == hash;
    BytesOfWords();
  }

  lemma FirstHalf(hash: Hash)
    requires hash == [0xba7816bf, 0x8f01cfea, 0x414140de, 0x5dae2223, 0xb00361a3, 0x96177a9c, 0xb410ff61, 0xf20015ad]
    ensures Digest(hash[..4]) == [0xba, 0x78, 0x16, 0xbf, 0x8f, 0x01, 0xcf, 0xea, 0x41, 0x41, 0x40, 0xde, 0x5d, 0xae, 0x22, 0x23]
  {
    hide WordBytes;
    OneMore(hash, 0);
    OneMore(hash, 1);
    OneMore(hash, 2);
    OneMore(hash, 3);
    assert hash[..0] == [] && Digest([]) == [];
    BytesOfWords();
  }

  lemma OneMore(hash: Hash, n: nat)
    requires n < 8
    ensures Digest(hash[..n + 1]) == Digest(hash[..n]) + WordBytes(hash[n])
  {
    assert hash[..n + 1][..n] == hash[..n];
  }

  lemma BytesOfWords()
    ensures WordBytes(0xba7816bf) == [0xba, 0x78, 0x16, 0xbf]
    ensures WordBytes(0x8f01cfea) == [0x8f, 0x01, 0xcf, 0xea]
    ensures WordBytes(0x414140de) == [0x41, 0x41, 0x40, 0xde]
    ensures WordBytes(0x5dae2223) == [0x5d, 0xae, 0x22, 0x23]
    ensures WordBytes(0xb00361a3) == [0xb0, 0x03, 0x61, 0xa3]
    ensures WordBytes(0x96177a9c) == [0x96, 0x17, 0x7a, 0x9c]
    ensures WordBytes(0xb410ff61) == [0xb4, 0x10, 0xff, 0x61]
    ensures WordBytes(0xf20015ad) == [0xf2, 0x00, 0x15, 0xad]
  {
  }

  /** The digest that FIPS 180 publishes for the message "abc". */
  lemma DigestOfAbc(m: seq<bv8>)
    requires m == [0x61, 0x62, 0x63]
    ensures Sha256(m) == [0xba, 0x78, 0x16, 0xbf, 0x8f, 0x01, 0xcf, 0xea, 0x41, 0x41, 0x40, 0xde, 0x5d, 0xae, 0x22, 0x23,
      0xb0, 0x03, 0x61, 0xa3, 0x96, 0x17, 0x7a, 0x9c, 0xb4, 0x10, 0xff, 0x61, 0xf2, 0x00, 0x15, 0xad]
  {
    hide Pad, Parse, Compress, ABC, H0, Digest;
    Padded(m);
    ParsedBlock(Pad(m));
    var p := Pad(m);
    assert p[..|p| - 64] == [] && p[|p| - 64..] == p;
    assert HashBlocks(p) == Compress(H0, ABC);
    Compressed();
    DigestBytes(HashBlocks(p));
  }
}
