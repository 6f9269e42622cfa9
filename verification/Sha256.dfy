/** The streaming SHA-256 of the library: a 64-byte buffer, a 16-word rolling message schedule and
    compression in place. */
module Sha256Stream {
  import opened Sha256Spec

  // ----- the rolling window

  /** w[j] + s0 + w[j + 9] + s1, indices modulo 16. */
  function NextInWindow(w0: bv32, w1: bv32, w9: bv32, w14: bv32): bv32 {
    w0 + SmallSigma0(w1) + w9 + SmallSigma1(w14)
  }

  lemma NextIsExtend(w0: bv32, w1: bv32, w9: bv32, w14: bv32)
    ensures NextInWindow(w0, w1, w9, w14) == Extend(w14, w9, w1, w0)
  {
    hide SmallSigma0, SmallSigma1;
  }

  /** Before word 16 * i + j is made, slot `x` of the window holds the latest word congruent to `x`. */
  function Latest(i: nat, j: nat, x: nat): int {
    if x < j then 16 * i + x else 16 * (i - 1) + x
  }

  ghost predicate Window(w: array<bv32>, block: Block, i: nat, j: nat)
    requires w.Length == 16
    reads w
  {
    forall x: nat | x < 16 && Latest(i, j, x) >= 0 :: w[x] == Schedule(block, Latest(i, j, x))
  }

  lemma LatestWords(i: nat, j: nat)
    requires j < 16
    ensures Latest(i, j, j) == 16 * i + j - 16
    ensures Latest(i, j, (j + 1) % 16) == 16 * i + j - 15
    ensures Latest(i, j, (j + 9) % 16) == 16 * i + j - 7
    ensures Latest(i, j, (j + 14) % 16) == 16 * i + j - 2
  {
    assert (j + 1) % 16 == if j < 15 then j + 1 else j - 15;
    assert (j + 9) % 16 == if j < 7 then j + 9 else j - 7;
    assert (j + 14) % 16 == if j < 2 then j + 14 else j - 2;
  }

  /** Make the next word of the schedule in its slot. */
  method NextWord(w: array<bv32>, p: seq<bv8>, i: nat, j: nat)
    requires w.Length == 16 && |p| == 64 && i < 4 && j < 16
    requires Window(w, Parse(p), i, j)
    modifies w
    ensures w[j] == Schedule(Parse(p), 16 * i + j)
    ensures Window(w, Parse(p), i, j + 1)
  {
    hide Extend, NextInWindow, ToWord;
    ghost var block := Parse(p);
    if i == 0 {
      w[j] := ToWord(p[4 * j], p[4 * j + 1], p[4 * j + 2], p[4 * j + 3]);
    } else {
      LatestWords(i, j);
      NextIsExtend(w[j], w[(j + 1) % 16], w[(j + 9) % 16], w[(j + 14) % 16]);
      w[j] := NextInWindow(w[j], w[(j + 1) % 16], w[(j + 9) % 16], w[(j + 14) % 16]);
    }
    forall x: nat | x < 16 && Latest(i, j + 1, x) >= 0 ensures w[x] == Schedule(block, Latest(i, j + 1, x)) {
      if x != j { assert Latest(i, j + 1, x) == Latest(i, j, x); }
    }
  }

  // ----- one round on the working variables

  function VarsOf(ah: array<bv32>): Vars
    requires ah.Length == 8
    reads ah
  {
    Vars(ah[0], ah[1], ah[2], ah[3], ah[4], ah[5], ah[6], ah[7])
  }

  method ApplyRound(ah: array<bv32>, k: bv32, w: bv32)
    requires ah.Length == 8
    modifies ah
    ensures VarsOf(ah) == Round(old(VarsOf(ah)), k, w)
  {
    hide T1, T2, Sum;
    var v := VarsOf(ah);
    var temp1 := T1(v, k, w);
    var temp2 := T2(v);
    ah[7] := ah[6];
    ah[6] := ah[5];
    ah[5] := ah[4];
    ah[4] := Sum(ah[3], temp1);
    ah[3] := ah[2];
    ah[2] := ah[1];
    ah[1] := ah[0];
    ah[0] := Sum(temp1, temp2);
  }

  lemma RoundsStart(hash: Hash, block: Block, t: nat)
    requires t == 0
    ensures Rounds(hash, block, t) == Vars(hash[0], hash[1], hash[2], hash[3], hash[4], hash[5], hash[6], hash[7])
  {
  }

  lemma RoundsStep(hash: Hash, block: Block, t: nat)
    requires t < 64
    ensures Rounds(hash, block, t + 1) == Round(Rounds(hash, block, t), K[t], Schedule(block, t))
  {
    hide Round, Schedule;
  }

  /** Sixteen rounds, each on the word just made. */
  method SixteenRounds(ah: array<bv32>, w: array<bv32>, p: seq<bv8>, i: nat, ghost hash: Hash)
    requires ah.Length == 8 && w.Length == 16 && ah != w && |p| == 64 && i < 4
    requires Window(w, Parse(p), i, 0) && VarsOf(ah) == Rounds(hash, Parse(p), 16 * i)
    modifies ah, w
    ensures Window(w, Parse(p), i + 1, 0) && VarsOf(ah) == Rounds(hash, Parse(p), 16 * (i + 1))
  {
    hide Round, Rounds, Schedule;
    for j := 0 to 16
      invariant Window(w, Parse(p), i, j) && VarsOf(ah) == Rounds(hash, Parse(p), 16 * i + j)
    {
      NextWord(w, p, i, j);
      RoundsStep(hash, Parse(p), 16 * i + j);
      ApplyRound(ah, K[16 * i + j], w[j]);
    }
    forall x: nat | x < 16 ensures Latest(i + 1, 0, x) == Latest(i, 16, x) {}
  }

  lemma SumCommutes(x: bv32, y: bv32)
    ensures Sum(x, y) == Sum(y, x)
  {
  }

  /** consume_chunk: the compression of one block, as specified with the full 64-word schedule. */
  method ConsumeChunk(h: array<bv32>, p: seq<bv8>)
    requires h.Length == 8 && |p| == 64
    modifies h
    ensures h[..] == Compress(old(h[..]), Parse(p))
  {
    hide Round, Rounds, Schedule, Sum;
    ghost var hash: Hash := h[..];
    var ah := new bv32[8](i requires 0 <= i < 8 reads h => h[i]);
    var w := new bv32[16];
    RoundsStart(hash, Parse(p), 0);
    for i := 0 to 4
      invariant Window(w, Parse(p), i, 0) && VarsOf(ah) == Rounds(hash, Parse(p), 16 * i)
      invariant h[..] == hash
    {
      SixteenRounds(ah, w, p, i, hash);
    }
    AddInto(h, ah);
  }

  /** Add the compressed chunk to the hash value. */
  method AddInto(h: array<bv32>, ah: array<bv32>)
    requires h.Length == 8 && ah.Length == 8 && h != ah
    modifies h
    ensures forall x | 0 <= x < 8 :: h[x] == Sum(ah[x], old(h[x]))
  {
    hide Sum;
    for i := 0 to 8
      invariant forall x | 0 <= x < i :: h[x] == Sum(ah[x], old(h[x]))
      invariant forall x | i <= x < 8 :: h[x] == old(h[x])
    {
      SumCommutes(h[i], ah[i]);
      h[i] := Sum(h[i], ah[i]);
    }
  }

  // ----- the stream

  /** The hash state and the buffer together stand for the bytes `m` written so far. */
  ghost predicate Absorbed(m: seq<bv8>, chunk: seq<bv8>, pos: nat, h: seq<bv32>) {
    pos == |m| % 64 && pos <= |chunk| &&
    chunk[..pos] == m[|m| - pos..] && h == HashBlocks(m[..|m| - pos])
  }

  /** One more full block. */
  lemma BlockAbsorbed(m: seq<bv8>, piece: seq<bv8>, chunk: seq<bv8>, pos: nat, h: seq<bv32>, block: seq<bv8>)
    requires Absorbed(m, chunk, pos, h) && pos + |piece| == 64
    requires block == chunk[..pos] + piece
    ensures |h| == 8 && (|m + piece|) % 64 == 0
    ensures HashBlocks(m + piece) == Compress(h, Parse(block))
  {
    hide Compress, Parse;
    var n := m + piece;
    var start := |m| - pos;
    assert n[..start] == m[..start];
    assert n[start..] == m[start..] + piece;
    assert |n| - 64 == start;
  }

  lemma PieceBuffered(m: seq<bv8>, piece: seq<bv8>, chunk: seq<bv8>, pos: nat, h: seq<bv32>, chunk': seq<bv8>)
    requires Absorbed(m, chunk, pos, h) && pos + |piece| < 64 && pos + |piece| <= |chunk'|
    requires chunk'[..pos + |piece|] == chunk[..pos] + piece
    ensures Absorbed(m + piece, chunk', pos + |piece|, h)
  {
    hide HashBlocks;
    var n := m + piece;
    var start := |m| - pos;
    assert n[..start] == m[..start];
    assert n[start..] == m[start..] + piece;
    assert |n| % 64 == pos + |piece|;
  }

  lemma NothingBuffered(m: seq<bv8>, chunk: seq<bv8>, h: seq<bv32>)
    requires |m| % 64 == 0 && h == HashBlocks(m)
    ensures Absorbed(m, chunk, 0, h)
  {
    hide HashBlocks;
    assert m[..|m|] == m;
  }

  // ----- padding in the buffer

  function Pow256(count: nat): nat {
    if count == 0 then 1 else 256 * Pow256(count - 1)
  }

  /** The digits of a number do not depend on what lies above them. */
  lemma {:induction false} BigEndianWraps(n: nat, q: nat, count: nat)
    ensures BigEndian(n + q * Pow256(count), count) == BigEndian(n, count)
    decreases count
  {
    if count > 0 {
      var p := q * Pow256(count - 1);
      assert q * Pow256(count) == 256 * p;
      assert (n + 256 * p) / 256 == n / 256 + p && (n + 256 * p) % 256 == n % 256;
      BigEndianWraps(n / 256, q, count - 1);
    }
  }

  /** A length counter that wraps at 2^64 still gives the 64-bit bit length. */
  lemma LengthWraps(length: nat, wrapped: nat)
    requires wrapped == length % 0x1_0000_0000_0000_0000
    ensures BigEndian(8 * length, 8) == BigEndian(8 * wrapped, 8)
  {
    var q := length / 0x1_0000_0000_0000_0000;
    assert Pow256(8) == 0x1_0000_0000_0000_0000;
    assert 8 * length == 8 * wrapped + (8 * q) * Pow256(8);
    BigEndianWraps(8 * wrapped, 8 * q, 8);
  }

  /** The marker and the length fit: one block. */
  lemma PaddedInOne(m: seq<bv8>, chunk: seq<bv8>, pos: nat, h: seq<bv32>, length: seq<bv8>, last: seq<bv8>)
    requires Absorbed(m, chunk, pos, h) && pos < 56 && length == BigEndian(8 * |m|, 8)
    requires last == chunk[..pos] + [0x80] + Zeros(55 - pos) + length
    ensures |last| == 64 && |h| == 8 && Digest(Compress(h, Parse(last))) == Sha256(m)
  {
    hide Compress, Parse, Digest, HashBlocks, BigEndian, Pad;
    var piece := [0x80] + Zeros(55 - pos) + length;
    Regroup(chunk[..pos], [0x80], Zeros(55 - pos), length);
    BlockAbsorbed(m, piece, chunk, pos, h, last);
    PadInOne(m, pos);
  }

  lemma ZeroCounts(length: nat, pos: nat)
    requires pos == length % 64
    ensures ZeroCount(length) == if pos < 56 then 55 - pos else 119 - pos
  {
  }

  lemma Regroup(a: seq<bv8>, b: seq<bv8>, c: seq<bv8>, d: seq<bv8>)
    ensures a + b + c + d == a + (b + c + d) && a + b + c + d == a + (b + (c + d))
  {
  }

  lemma Regroup5(a: seq<bv8>, b: seq<bv8>, c: seq<bv8>, d: seq<bv8>, e: seq<bv8>)
    ensures a + b + (c + d) + e == a + (b + c) + (d + e)
  {
  }

  lemma PadInOne(m: seq<bv8>, pos: nat)
    requires pos == |m| % 64 < 56
    ensures Pad(m) == m + ([0x80] + Zeros(55 - pos) + BigEndian(8 * |m|, 8))
  {
    hide BigEndian, Zeros, ZeroCount;
    ZeroCounts(|m|, pos);
    Regroup(m, [0x80], Zeros(55 - pos), BigEndian(8 * |m|, 8));
  }

  lemma PadInTwo(m: seq<bv8>, pos: nat)
    requires 56 <= pos == |m| % 64
    ensures Pad(m) == m + ([0x80] + Zeros(63 - pos)) + (Zeros(56) + BigEndian(8 * |m|, 8))
  {
    hide BigEndian, Zeros, ZeroCount;
    ZeroCounts(|m|, pos);
    ZerosSplit(63 - pos, 56);
    Regroup5(m, [0x80], Zeros(63 - pos), Zeros(56), BigEndian(8 * |m|, 8));
  }

  lemma ZerosSplit(a: nat, b: nat)
    ensures Zeros(a + b) == Zeros(a) + Zeros(b)
  {
  }

  /** They do not: zeros to the end of this block, and a second one. */
  lemma PaddedInTwo(m: seq<bv8>, chunk: seq<bv8>, pos: nat, h: seq<bv32>, first: seq<bv8>, length: seq<bv8>, last: seq<bv8>)
    requires Absorbed(m, chunk, pos, h) && 56 <= pos && length == BigEndian(8 * |m|, 8)
    requires first == chunk[..pos] + ([0x80] + Zeros(63 - pos))
    requires last == Zeros(56) + length
    ensures |first| == 64 && |last| == 64 && |h| == 8
    ensures Digest(Compress(Compress(h, Parse(first)), Parse(last))) == Sha256(m)
  {
    hide Compress, Parse, Digest, HashBlocks, BigEndian, Pad;
    var piece := [0x80] + Zeros(63 - pos);
    BlockAbsorbed(m, piece, chunk, pos, h, first);
    var n := m + piece;
    NothingBuffered(n, [], HashBlocks(n));
    assert [][..0] + last == last;
    BlockAbsorbed(n, last, [], 0, HashBlocks(n), last);
    PadInTwo(m, pos);
  }

  class Context {
    const hash: array<bv8>
    const chunk: array<bv8>
    const h: array<bv32>
    var chunkPos: nat
    var spaceLeft: nat
    var totalLen: nat
    ghost var written: seq<bv8>

    ghost predicate Buffers()
      reads this
    {
      chunk.Length == 64 && h.Length == 8 && hash.Length == 32 && chunk != hash &&
      spaceLeft > 0 && chunkPos + spaceLeft == 64
    }

    ghost predicate Valid()
      reads this, chunk, h
    {
      Buffers() && totalLen == |written| % 0x1_0000_0000_0000_0000 && Absorbed(written, chunk[..], chunkPos, h[..])
    }

    /** sha_256_init */
    constructor (hash: array<bv8>)
      requires hash.Length == 32
      ensures Valid() && written == [] && this.hash == hash && fresh(chunk) && fresh(h)
    {
      this.hash := hash;
      chunk := new bv8[64];
      h := new bv32[8](i requires 0 <= i < 8 => H0[i]);
      chunkPos, spaceLeft, totalLen, written := 0, 64, 0, [];
      new;
      assert h[..] == H0;
      NothingBuffered([], chunk[..], h[..]);
    }

    /** The buffer case of sha_256_write: copy what fits, and compress a full buffer. */
    method Fill(piece: seq<bv8>, ghost m: seq<bv8>)
      requires Buffers() && Absorbed(m, chunk[..], chunkPos, h[..]) && 0 < |piece| <= spaceLeft
      modifies this`chunkPos, this`spaceLeft, chunk, h
      ensures Buffers() && Absorbed(m + piece, chunk[..], chunkPos, h[..])
    {
      hide HashBlocks, Compress, Parse;
      ghost var before, hv, pos := chunk[..], h[..], chunkPos;
      forall i | 0 <= i < |piece| {
        chunk[chunkPos + i] := piece[i];
      }
      assert h[..] == hv && chunk[..pos + |piece|] == before[..pos] + piece;
      spaceLeft := spaceLeft - |piece|;
      if spaceLeft == 0 {
        var full := chunk[..];
        assert full == before[..pos] + piece;
        BlockAbsorbed(m, piece, before, pos, hv, full);
        ConsumeChunk(h, full);
        chunkPos, spaceLeft := 0, 64;
        NothingBuffered(m + piece, chunk[..], h[..]);
      } else {
        chunkPos := chunkPos + |piece|;
        PieceBuffered(m, piece, before, pos, hv, chunk[..]);
      }
    }

    /** The direct case of sha_256_write: compress a block of the input without copying it. */
    method Direct(block: seq<bv8>, ghost m: seq<bv8>)
      requires Buffers() && Absorbed(m, chunk[..], chunkPos, h[..]) && spaceLeft == 64 == |block|
      modifies h
      ensures Absorbed(m + block, chunk[..], chunkPos, h[..])
    {
      hide HashBlocks, Compress, Parse;
      ghost var hv := h[..];
      assert chunk[..0] + block == block;
      BlockAbsorbed(m, block, chunk[..], 0, hv, block);
      ConsumeChunk(h, block);
      NothingBuffered(m + block, chunk[..], h[..]);
    }

    /** sha_256_write: full blocks straight from the input, the rest through the buffer. */
    method Write(data: seq<bv8>)
      requires Valid()
      modifies this, chunk, h
      ensures Valid() && written == old(written) + data
    {
      hide HashBlocks, Compress, Parse, Absorbed;
      totalLen := (totalLen + |data|) % 0x1_0000_0000_0000_0000;
      var p := 0;
      assert written + data[..0] == written;
      while p < |data|
        invariant 0 <= p <= |data| && Buffers() && written == old(written)
        invariant Absorbed(written + data[..p], chunk[..], chunkPos, h[..])
        invariant totalLen == (old(totalLen) + |data|) % 0x1_0000_0000_0000_0000
      {
        ghost var m := written + data[..p];
        if spaceLeft == 64 && |data| - p >= 64 {
          Direct(data[p..p + 64], m);
          assert m + data[p..p + 64] == written + data[..p + 64];
          p := p + 64;
        } else {
          var consumed := if |data| - p < spaceLeft then |data| - p else spaceLeft;
          Fill(data[p..p + consumed], m);
          assert m + data[p..p + consumed] == written + data[..p + consumed];
          p := p + consumed;
        }
      }
      written := written + data;
      assert data[..p] == data;
    }

    // ----- sha_256_close

    /** Pad with 0x80, zeros and the bit length, in one block or in two, and write out the hash. */
    method Close()
      requires Valid()
      modifies this, chunk, h, hash
      ensures hash[..] == Sha256(old(written))
    {
      hide HashBlocks, Compress, Parse, Sha256, Digest, Absorbed;
      LengthWraps(|written|, totalLen);
      if spaceLeft - 1 < 8 {
        CloseInTwo();
      } else {
        CloseInOne();
      }
      WriteHash();
    }

    method CloseInOne()
      requires Valid() && spaceLeft - 1 >= 8 && BigEndian(8 * |written|, 8) == BigEndian(8 * totalLen, 8)
      modifies chunk, h
      ensures Digest(h[..]) == Sha256(written)
    {
      hide HashBlocks, Compress, Parse, Sha256, Digest, BigEndian;
      ghost var before, hv := chunk[..], h[..];
      chunk[chunkPos] := 0x80;
      ZeroFill(chunkPos + 1, 56);
      PutLength();
      var last := chunk[..];
      assert h[..] == hv && last == before[..chunkPos] + [0x80] + Zeros(55 - chunkPos) + BigEndian(8 * totalLen, 8);
      PaddedInOne(written, before, chunkPos, hv, BigEndian(8 * totalLen, 8), last);
      ConsumeChunk(h, last);
    }

    method CloseInTwo()
      requires Valid() && spaceLeft - 1 < 8 && BigEndian(8 * |written|, 8) == BigEndian(8 * totalLen, 8)
      modifies chunk, h
      ensures Digest(h[..]) == Sha256(written)
    {
      hide HashBlocks, Compress, Parse, Sha256, Digest, BigEndian;
      ghost var before, hv := chunk[..], h[..];
      chunk[chunkPos] := 0x80;
      ZeroFill(chunkPos + 1, 64);
      var first := chunk[..];
      assert h[..] == hv && first == before[..chunkPos] + ([0x80] + Zeros(63 - chunkPos));
      ConsumeChunk(h, first);
      ZeroFill(0, 56);
      PutLength();
      var last := chunk[..];
      assert last == Zeros(56) + BigEndian(8 * totalLen, 8);
      PaddedInTwo(written, before, chunkPos, hv, first, BigEndian(8 * totalLen, 8), last);
      ConsumeChunk(h, last);
    }

    method ZeroFill(from: nat, to: nat)
      requires from <= to <= chunk.Length
      modifies chunk
      ensures chunk[..] == old(chunk[..from]) + Zeros(to - from) + old(chunk[to..])
    {
      forall i | from <= i < to {
        chunk[i] := 0;
      }
    }

    /** The last eight bytes: the number of bits, most significant byte first. */
    method PutLength()
      requires Buffers()
      modifies chunk
      ensures chunk[..] == old(chunk[..56]) + BigEndian(8 * totalLen, 8)
    {
      var len := totalLen;
      chunk[63] := (8 * len % 256) as bv8;
      len := len / 32;
      var i := 6;
      assert BigEndian(8 * totalLen, 8) == BigEndian(len, 7) + chunk[63..];
      while i >= 0
        invariant -1 <= i <= 6
        invariant BigEndian(8 * totalLen, 8) == BigEndian(len, i + 1) + chunk[57 + i..]
        invariant chunk[..56] == old(chunk[..56])
      {
        chunk[56 + i] := (len % 256) as bv8;
        assert chunk[56 + i..] == [chunk[56 + i]] + chunk[57 + i..];
        len := len / 256;
        i := i - 1;
      }
      assert chunk[..] == chunk[..56] + chunk[56..];
    }

    method WriteHash()
      requires Buffers()
      modifies hash
      ensures hash[..] == Digest(h[..])
    {
      var j := 0;
      for i := 0 to 8
        invariant j == 4 * i
        invariant hash[..j] == Digest(h[..i])
      {
        var bytes := WordBytes(h[i]);
        hash[j], hash[j + 1], hash[j + 2], hash[j + 3] := bytes[0], bytes[1], bytes[2], bytes[3];
        assert hash[..j + 4] == hash[..j] + bytes;
        assert h[..i + 1][..i] == h[..i] && h[..i + 1][i] == h[i];
        j := j + 4;
      }
      assert hash[..32] == hash[..] && h[..8] == h[..];
    }
  }

  function Flatten(pieces: seq<seq<bv8>>): seq<bv8> {
    if pieces == [] then [] else Flatten(pieces[..|pieces| - 1]) + pieces[|pieces| - 1]
  }

  /** However a message is cut into writes, the digest is the SHA-256 of the whole message. */
  method DigestOf(pieces: seq<seq<bv8>>) returns (digest: seq<bv8>)
    ensures digest == Sha256(Flatten(pieces))
  {
    hide Sha256;
    var hash := new bv8[32];
    var context := new Context(hash);
    for i := 0 to |pieces|
      invariant context.Valid() && context.hash == hash && context.written == Flatten(pieces[..i])
      invariant fresh(context) && fresh(context.chunk) && fresh(context.h) && fresh(hash)
    {
      context.Write(pieces[i]);
      assert pieces[..i + 1][..i] == pieces[..i];
    }
    assert pieces[..|pieces|] == pieces;
    context.Close();
    digest := hash[..];
  }

  /** calc_sha_256 */
  method CalcSha256(input: seq<bv8>) returns (digest: seq<bv8>)
    ensures digest == Sha256(input)
  {
    hide Sha256;
    var hash := new bv8[32];
    var context := new Context(hash);
    context.Write(input);
    assert [] + input == input;
    context.Close();
    digest := hash[..];
  }
}
