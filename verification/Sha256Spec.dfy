/** SHA-256 on whole bytes, as FIPS 180-4 defines it. */
module Sha256Spec {

  type Block = b: seq<bv32> | |b| == 16 witness seq(16, _ => 0)
  type Hash = h: seq<bv32> | |h| == 8 witness seq(8, _ => 0)

  // ----- section 3.2: rotation; section 4.1.2: functions

  function Rotr(x: bv32, n: bv8): bv32
    requires 0 < n < 32
  {
    (x >> n) | (x << (32 - n))
  }

  function Ch(x: bv32, y: bv32, z: bv32): bv32 { (x & y) ^ (!x & z) }
  function Maj(x: bv32, y: bv32, z: bv32): bv32 { (x & y) ^ (x & z) ^ (y & z) }
  function BigSigma0(x: bv32): bv32 { Rotr(x, 2) ^ Rotr(x, 13) ^ Rotr(x, 22) }
  function BigSigma1(x: bv32): bv32 { Rotr(x, 6) ^ Rotr(x, 11) ^ Rotr(x, 25) }
  function SmallSigma0(x: bv32): bv32 { Rotr(x, 7) ^ Rotr(x, 18) ^ (x >> 3) }
  function SmallSigma1(x: bv32): bv32 { Rotr(x, 17) ^ Rotr(x, 19) ^ (x >> 10) }

  /** Where `x` has ones `Ch` is `y`, elsewhere `z`. */
  lemma ChSelects(x: bv32, y: bv32, z: bv32)
    ensures Ch(x, y, z) & x == y & x && Ch(x, y, z) & !x == z & !x
  {
  }

  /** Where `x` and `y` agree `Maj` is what both are, elsewhere `z`. */
  lemma MajSelects(x: bv32, y: bv32, z: bv32)
    ensures Maj(x, y, z) & !(x ^ y) == x & !(x ^ y) && Maj(x, y, z) & (x ^ y) == z & (x ^ y)
  {
  }

  // The bits that one bit of the argument sets in the four sums.

  lemma BigSigma0OfBit(i: bv8)
    requires i < 32
    ensures BigSigma0(1 << i) == (1 << ((i - 2) & 31)) ^ (1 << ((i - 13) & 31)) ^ (1 << ((i - 22) & 31))
  {
  }

  lemma BigSigma1OfBit(i: bv8)
    requires i < 32
    ensures BigSigma1(1 << i) == (1 << ((i - 6) & 31)) ^ (1 << ((i - 11) & 31)) ^ (1 << ((i - 25) & 31))
  {
  }

  lemma SmallSigma0OfBit(i: bv8)
    requires i < 32
    ensures SmallSigma0(1 << i) == (1 << ((i - 7) & 31)) ^ (1 << ((i - 18) & 31)) ^ (if i < 3 then 0 else 1 << (i - 3))
  {
  }

  lemma SmallSigma1OfBit(i: bv8)
    requires i < 32
    ensures SmallSigma1(1 << i) == (1 << ((i - 17) & 31)) ^ (1 << ((i - 19) & 31)) ^ (if i < 10 then 0 else 1 << (i - 10))
  {
  }

  // ----- section 4.2.2: constants

  const ROW0: seq<bv32> := [0x428a2f98, 0x71374491, 0xb5c0fbcf, 0xe9b5dba5, 0x3956c25b, 0x59f111f1, 0x923f82a4, 0xab1c5ed5]
  const ROW1: seq<bv32> := [0xd807aa98, 0x12835b01, 0x243185be, 0x550c7dc3, 0x72be5d74, 0x80deb1fe, 0x9bdc06a7, 0xc19bf174]
  const ROW2: seq<bv32> := [0xe49b69c1, 0xefbe4786, 0x0fc19dc6, 0x240ca1cc, 0x2de92c6f, 0x4a7484aa, 0x5cb0a9dc, 0x76f988da]
  const ROW3: seq<bv32> := [0x983e5152, 0xa831c66d, 0xb00327c8, 0xbf597fc7, 0xc6e00bf3, 0xd5a79147, 0x06ca6351, 0x14292967]
  const ROW4: seq<bv32> := [0x27b70a85, 0x2e1b2138, 0x4d2c6dfc, 0x53380d13, 0x650a7354, 0x766a0abb, 0x81c2c92e, 0x92722c85]
  const ROW5: seq<bv32> := [0xa2bfe8a1, 0xa81a664b, 0xc24b8b70, 0xc76c51a3, 0xd192e819, 0xd6990624, 0xf40e3585, 0x106aa070]
  const ROW6: seq<bv32> := [0x19a4c116, 0x1e376c08, 0x2748774c, 0x34b0bcb5, 0x391c0cb3, 0x4ed8aa4a, 0x5b9cca4f, 0x682e6ff3]
  const ROW7: seq<bv32> := [0x748f82ee, 0x78a5636f, 0x84c87814, 0x8cc70208, 0x90befffa, 0xa4506ceb, 0xbef9a3f7, 0xc67178f2]

  const K: seq<bv32> := ROW0 + ROW1 + ROW2 + ROW3 + ROW4 + ROW5 + ROW6 + ROW7

  // ----- section 5.3.3: initial hash value

  const H0: Hash := [0x6a09e667, 0xbb67ae85, 0x3c6ef372, 0xa54ff53a, 0x510e527f, 0x9b05688c, 0x1f83d9ab, 0x5be0cd19]

  // ----- section 5.1.1: padding; section 5.2.1: parsing

  function Zeros(n: nat): seq<bv8> {
    seq(n, _ => 0)
  }

  /** The last `count` base-256 digits of a number, most significant first. */
  function BigEndian(n: nat, count: nat): (r: seq<bv8>)
    ensures |r| == count
  {
    if count == 0 then [] else BigEndian(n / 256, count - 1) + [(n % 256) as bv8]
  }

  /** The number of zero bytes after the byte 0x80. */
  function ZeroCount(length: nat): nat {
    (119 - length % 64) % 64
  }

  /** The smallest solution of the padding equation l + 1 + k = 448 mod 512, in bytes. */
  lemma ZeroCountSmallest(length: nat, z: nat)
    ensures (length + 1 + ZeroCount(length)) % 64 == 56
    ensures (length + 1 + z) % 64 == 56 ==> ZeroCount(length) <= z
  {
    var q, r := length / 64, length % 64;
    assert length == 64 * q + r;
    if (length + 1 + z) % 64 == 56 {
      assert (r + 1 + z) % 64 == 56;
    }
  }

  function Pad(m: seq<bv8>): seq<bv8> {
    m + [0x80] + Zeros(ZeroCount(|m|)) + BigEndian(8 * |m|, 8)
  }

  lemma PadBlocks(m: seq<bv8>)
    ensures |Pad(m)| % 64 == 0
  {
    ZeroCountSmallest(|m|, 0);
    PadLength(m);
    var n := |m| + 1 + ZeroCount(|m|);
    assert n == 64 * (n / 64) + 56;
  }

  lemma PadLength(m: seq<bv8>)
    ensures |Pad(m)| == |m| + 1 + ZeroCount(|m|) + 8
  {
  }

  function ToWord(a: bv8, b: bv8, c: bv8, d: bv8): bv32 {
    ((a as bv32) << 24) | ((b as bv32) << 16) | ((c as bv32) << 8) | (d as bv32)
  }

  function Parse(bytes: seq<bv8>): Block
    requires |bytes| == 64
  {
    seq(16, i requires 0 <= i < 16 => ToWord(bytes[4 * i], bytes[4 * i + 1], bytes[4 * i + 2], bytes[4 * i + 3]))
  }

  // ----- section 6.2.2: hash computation

  function Extend(w2: bv32, w7: bv32, w15: bv32, w16: bv32): bv32 {
    SmallSigma1(w2) + w7 + SmallSigma0(w15) + w16
  }

  /** The message schedule, one word of it. */
  function Schedule(block: Block, t: nat): bv32 {
    if t < 16 then block[t]
    else Extend(Schedule(block, t - 2), Schedule(block, t - 7), Schedule(block, t - 15), Schedule(block, t - 16))
  }

  datatype Vars = Vars(a: bv32, b: bv32, c: bv32, d: bv32, e: bv32, f: bv32, g: bv32, h: bv32)

  function Sum(x: bv32, y: bv32): bv32 { x + y }
  function T1(v: Vars, k: bv32, w: bv32): bv32 { v.h + BigSigma1(v.e) + Ch(v.e, v.f, v.g) + k + w }
  function T2(v: Vars): bv32 { BigSigma0(v.a) + Maj(v.a, v.b, v.c) }

  function Round(v: Vars, k: bv32, w: bv32): Vars {
    Vars(Sum(T1(v, k, w), T2(v)), v.a, v.b, v.c, Sum(v.d, T1(v, k, w)), v.e, v.f, v.g)
  }

  /** The working variables after `t` rounds. */
  function Rounds(hash: Hash, block: Block, t: nat): Vars
    requires t <= 64
  {
    if t == 0 then Vars(hash[0], hash[1], hash[2], hash[3], hash[4], hash[5], hash[6], hash[7])
    else Round(Rounds(hash, block, t - 1), K[t - 1], Schedule(block, t - 1))
  }

  function Compress(hash: Hash, block: Block): Hash {
    var v := Rounds(hash, block, 64);
    [Sum(v.a, hash[0]), Sum(v.b, hash[1]), Sum(v.c, hash[2]), Sum(v.d, hash[3]),
     Sum(v.e, hash[4]), Sum(v.f, hash[5]), Sum(v.g, hash[6]), Sum(v.h, hash[7])]
  }

  /** All blocks of a padded message, from the initial hash value on. */
  function HashBlocks(bytes: seq<bv8>): Hash
    requires |bytes| % 64 == 0
  {
    if bytes == [] then H0
    else Compress(HashBlocks(bytes[..|bytes| - 64]), Parse(bytes[|bytes| - 64..]))
  }

  function WordBytes(w: bv32): seq<bv8> {
    [(w >> 24) as bv8, ((w >> 16) & 0xff) as bv8, ((w >> 8) & 0xff) as bv8, (w & 0xff) as bv8]
  }

  function Digest(hash: seq<bv32>): seq<bv8> {
    if hash == [] then [] else Digest(hash[..|hash| - 1]) + WordBytes(hash[|hash| - 1])
  }

  function Sha256(m: seq<bv8>): seq<bv8> {
    PadBlocks(m);
    Digest(HashBlocks(Pad(m)))
  }
}
