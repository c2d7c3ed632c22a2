/** The incremental digest of src/libclelf/clelf_md5.c (little-endian build), refining RFC 1321. */
module Md5 {

  import Basics
  import opened Md5Spec
  import opened Md5Transform

  /** What a context that has been fed message m must hold; the rest of its bytes are dead. */
  datatype Progress = Progress(h: Regs, live: seq<byte>, low: uint32, high: uint32)

  ghost function ProgressOf(m: seq<byte>): Progress {
    Progress(Chain(m, |m| / 64), m[64 * (|m| / 64)..], LowBits(|m|), HighBits(|m|))
  }

  // ---- the 64-bit counter

  /** (t >> 3) & 0x3f */
  function InBuffer(t: uint32): (k: nat) { t / 8 % 64 }

  lemma {:induction false} InBufferIsTail(len: nat)
    ensures InBuffer(LowBits(len)) == len % 64
  {
    hide LowBits;
    var q := LowIsMultiple(len);
    RestOf64(len - q * 0x2000_0000, 0x80_0000 * q);
  }

  /** The low word is eight times the length, short of a multiple of 2^29. */
  lemma {:induction false} LowIsMultiple(len: nat) returns (q: nat)
    ensures q * 0x2000_0000 <= len && LowBits(len) == 8 * (len - q * 0x2000_0000)
  {
    q := 8 * len / 0x1_0000_0000;
  }

  lemma {:induction false} RestOf64(r: nat, p: nat)
    ensures (64 * p + r) % 64 == r % 64
  {
  }

  /** The carry out of the low word and the top three bits of len are what the high word must grow by. */
  lemma {:induction false} CarryIsExact(total: nat, len: nat, low: uint32, high: nat)
    requires len < 0x1_0000_0000
    requires low == (LowBits(total) + 8 * len % 0x1_0000_0000) % 0x1_0000_0000
    requires high == if low < LowBits(total) then (HighBits(total) + 1) % 0x1_0000_0000 else HighBits(total)
    ensures low == LowBits(total + len)
    ensures (high + len / 0x2000_0000) % 0x1_0000_0000 == HighBits(total + len)
  {
    SumParts(8 * total, 8 * len);
    TopBits(len);
    var q, c := 8 * total / 0x1_0000_0000, if low < LowBits(total) then 1 else 0;
    AddModulo(q, c);
    AddModulo(q + c, len / 0x2000_0000);
    CarryOut(LowBits(total), 8 * len % 0x1_0000_0000);
    assert 8 * (total + len) == 8 * total + 8 * len;
  }

  /** Adding low words: the carry shows in the sum being below either summand. */
  lemma {:induction false} CarryOut(t: uint32, s: uint32)
    ensures (t + s) % 0x1_0000_0000 < t <==> 0x1_0000_0000 <= t + s
  {
  }

  lemma {:induction false} TopBits(len: nat)
    ensures 8 * len / 0x1_0000_0000 == len / 0x2000_0000
  {
  }

  lemma {:induction false} SumParts(a: nat, b: nat)
    ensures (a + b) % 0x1_0000_0000 == (a % 0x1_0000_0000 + b % 0x1_0000_0000) % 0x1_0000_0000
    ensures (a + b) / 0x1_0000_0000 == a / 0x1_0000_0000 + b / 0x1_0000_0000
      + if a % 0x1_0000_0000 + b % 0x1_0000_0000 < 0x1_0000_0000 then 0 else 1
  {
  }

  lemma {:induction false} AddModulo(a: nat, b: nat)
    ensures (a % 0x1_0000_0000 + b) % 0x1_0000_0000 == (a + b) % 0x1_0000_0000
  {
    var q := a / 0x1_0000_0000;
    assert a == q * 0x1_0000_0000 + a % 0x1_0000_0000;
  }

  // ---- blocks

  lemma {:induction false} NextBlock(m: seq<byte>, n: nat)
    requires 64 * n + 64 <= |m|
    ensures Chain(m, n + 1) == Compress(Chain(m, n), Words(m[64 * n..64 * n + 64]))
  {
  }

  function Trailer(len: nat): (b: seq<byte>)
    ensures |b| == 8
  {
    CounterBytes(LowBits(len)) + CounterBytes(HighBits(len))
  }

  lemma {:induction false} PaddedParts(m: seq<byte>)
    ensures Padded(m) == m + ([0x80] + Zeros(PadLength(|m|)) + Trailer(|m|))
  {
    hide LowBits, HighBits, CounterBytes, PadLength, Zeros;
  }

  /** At most 55 waiting bytes: the padding ends in the same block. */
  lemma {:induction false} OneBlock(m: seq<byte>)
    requires |m| % 64 < 56
    ensures |Padded(m)| == 64 * (|m| / 64) + 64
    ensures Padded(m)[64 * (|m| / 64)..] == m[64 * (|m| / 64)..] + [0x80] + Zeros(55 - |m| % 64) + Trailer(|m|)
  {
    hide Padded, Trailer;
    PaddedParts(m);
  }

  /** Otherwise it takes another block of 56 zeros and the length. */
  lemma {:induction false} TwoBlocks(m: seq<byte>)
    requires 56 <= |m| % 64
    ensures |Padded(m)| == 64 * (|m| / 64) + 128
    ensures Padded(m)[64 * (|m| / 64)..64 * (|m| / 64) + 64] == m[64 * (|m| / 64)..] + [0x80] + Zeros(63 - |m| % 64)
    ensures Padded(m)[64 * (|m| / 64) + 64..] == Zeros(56) + Trailer(|m|)
  {
    hide Padded, Trailer;
    PaddedParts(m);
    assert Zeros(PadLength(|m|)) == Zeros(63 - |m| % 64) + Zeros(56);
  }

  /** A slice of the whole message that ends inside the new data. */
  lemma {:induction false} AcrossTheSeam(m: seq<byte>, data: seq<byte>, from: nat, pos: nat)
    requires from <= |m| && pos <= |data|
    ensures (m + data)[from..|m| + pos] == m[from..] + data[..pos]
    ensures (m + data)[from..] == m[from..] + data
  {
  }

  class MD5Context {
    const buf: array<word>
    const bits: array<uint32>
    const inn: array<byte>

    ghost predicate Valid() {
      buf.Length == 4 && bits.Length == 2 && inn.Length == 64
    }

    /** The context has absorbed message m and nothing else. */
    ghost predicate Absorbed(m: seq<byte>)
      reads buf, bits, inn
      requires Valid()
    {
      Progress(RegsOf(buf[..]), inn[..|m| % 64], bits[0], bits[1]) == ProgressOf(m)
    }

    /** MD5Init on a fresh context. */
    constructor ()
      ensures Valid() && fresh(buf) && fresh(bits) && fresh(inn)
      ensures Absorbed([])
    {
      buf := new word[] [0x67452301, 0xefcdab89, 0x98badcfe, 0x10325476];
      bits := new uint32[] [0, 0];
      inn := new byte[64];
    }

    /** The top of MD5Update: adds len bytes to the bit count and returns how many bytes were waiting. */
    method Count(len: nat, ghost m: seq<byte>) returns (waiting: nat)
      requires Valid() && Absorbed(m) && len < 0x1_0000_0000
      modifies bits
      ensures bits[0] == LowBits(|m| + len) && bits[1] == HighBits(|m| + len)
      ensures waiting == |m| % 64
    {
      var t := bits[0];
      bits[0] := (t + 8 * len % 0x1_0000_0000) % 0x1_0000_0000;
      if bits[0] < t {
        var high: nat := bits[1];
        bits[1] := (high + 1) % 0x1_0000_0000;
      }
      CarryIsExact(|m|, len, bits[0], bits[1]);
      var high: nat := bits[1];
      bits[1] := (high + len / 0x2000_0000) % 0x1_0000_0000;
      InBufferIsTail(|m|);
      waiting := InBuffer(t);
    }

    /** Fills the buffer from position at on and compresses it: block n of the whole message. */
    method Absorb(at: nat, src: seq<byte>, ghost whole: seq<byte>, ghost n: nat)
      requires Valid() && at + |src| == 64 && 64 * n + 64 <= |whole|
      requires RegsOf(buf[..]) == Chain(whole, n)
      requires inn[..at] + src == whole[64 * n..64 * n + 64]
      modifies buf, inn
      ensures RegsOf(buf[..]) == Chain(whole, n + 1)
    {
      Basics.Memcpy(inn, at, src);
      assert inn[..] == whole[64 * n..64 * n + 64];
      NextBlock(whole, n);
      MD5Transform(buf, Words(inn[..]));
    }

    /** The 64-byte chunks of data from position start on. */
    method Chunks(data: seq<byte>, start: nat, ghost whole: seq<byte>, ghost n0: nat) returns (pos: nat, ghost n: nat)
      requires Valid() && start <= |data| && start <= 64 * n0 && 64 * n0 <= |whole|
      requires whole[64 * n0..] == data[start..]
      requires RegsOf(buf[..]) == Chain(whole, n0)
      modifies buf, inn
      ensures start <= pos <= |data| < pos + 64 && 64 * n - pos == 64 * n0 - start && 64 * n <= |whole|
      ensures RegsOf(buf[..]) == Chain(whole, n)
    {
      hide Compress, Chain, RegsOf;
      pos, n := start, n0;
      while |data| - pos >= 64
        invariant start <= pos <= |data| && 64 * n - pos == 64 * n0 - start
        invariant RegsOf(buf[..]) == Chain(whole, n)
      {
        assert data[pos..pos + 64] == data[start..][pos - start..pos - start + 64];
        assert inn[..0] + data[pos..pos + 64] == whole[64 * n..64 * n + 64];
        Absorb(0, data[pos..pos + 64], whole, n);
        pos, n := pos + 64, n + 1;
      }
    }

    lemma {:induction false} Parts(m: seq<byte>)
      requires Valid() && Absorbed(m)
      ensures RegsOf(buf[..]) == Chain(m, |m| / 64) && inn[..|m| % 64] == m[64 * (|m| / 64)..]
      ensures bits[0] == LowBits(|m|) && bits[1] == HighBits(|m|)
    {
    }

    lemma {:induction false} Whole(m: seq<byte>)
      requires Valid() && bits[0] == LowBits(|m|) && bits[1] == HighBits(|m|)
      requires RegsOf(buf[..]) == Chain(m, |m| / 64) && inn[..|m| % 64] == m[64 * (|m| / 64)..]
      ensures Absorbed(m)
    {
    }

    /** Keeps what is left of the message, less than a block, for later. */
    method Tail(rest: seq<byte>, ghost whole: seq<byte>, ghost n: nat)
      requires Valid() && 64 * n <= |whole| && whole[64 * n..] == rest && |rest| < 64
      requires bits[0] == LowBits(|whole|) && bits[1] == HighBits(|whole|)
      requires RegsOf(buf[..]) == Chain(whole, n)
      modifies inn
      ensures Absorbed(whole)
    {
      hide Compress, Chain, Absorbed, LowBits, HighBits, RegsOf;
      Basics.Memcpy(inn, 0, rest);
      assert n == |whole| / 64;
      Whole(whole);
    }

    /** A piece too short to complete the waiting block is added to it. */
    method AddToBlock(waiting: nat, data: seq<byte>, ghost m: seq<byte>)
      requires Valid() && waiting == |m| % 64 && waiting + |data| < 64
      requires bits[0] == LowBits(|m + data|) && bits[1] == HighBits(|m + data|)
      requires RegsOf(buf[..]) == Chain(m, |m| / 64) && inn[..waiting] == m[64 * (|m| / 64)..]
      modifies inn
      ensures Absorbed(m + data)
    {
      hide Compress, Chain, Absorbed, LowBits, HighBits, RegsOf;
      ghost var whole, n := m + data, |m| / 64;
      ChainOfPrefix(m, data, n);
      Basics.Memcpy(inn, waiting, data);
      assert |whole| / 64 == n;
      AcrossTheSeam(m, data, 64 * n, |data|);
      assert inn[..waiting + |data|] == inn[..waiting] + data;
      Whole(whole);
    }

    /** The leading odd-sized chunk completes the waiting block. */
    method CompleteBlock(waiting: nat, data: seq<byte>, ghost m: seq<byte>) returns (pos: nat)
      requires Valid() && 0 < waiting == |m| % 64 && 64 <= waiting + |data|
      requires RegsOf(buf[..]) == Chain(m, |m| / 64) && inn[..waiting] == m[64 * (|m| / 64)..]
      modifies buf, inn
      ensures pos == 64 - waiting && |m| + pos == 64 * (|m| / 64 + 1)
      ensures RegsOf(buf[..]) == Chain(m + data, |m| / 64 + 1)
    {
      hide Compress, Chain, RegsOf;
      ghost var whole, n := m + data, |m| / 64;
      ChainOfPrefix(m, data, n);
      pos := 64 - waiting;
      AcrossTheSeam(m, data, 64 * n, pos);
      Absorb(waiting, data[..pos], whole, n);
    }

    method MD5Update(data: seq<byte>, ghost m: seq<byte>)
      requires Valid() && Absorbed(m) && |data| < 0x1_0000_0000
      modifies buf, bits, inn
      ensures Absorbed(m + data)
    {
      hide Compress, Chain, Absorbed, LowBits, HighBits, RegsOf;
      Parts(m);
      var t := Count(|data|, m);
      ghost var whole, n := m + data, |m| / 64;
      var pos := 0;
      if t != 0 {
        if |data| < 64 - t {
          AddToBlock(t, data, m);
          return;
        }
        pos := CompleteBlock(t, data, m);
        n := n + 1;
      } else {
        ChainOfPrefix(m, data, n);
      }
      pos, n := Chunks(data, pos, whole, n);
      Tail(data[pos..], whole, n);
    }

    /** Writes the length in bits into the last two words of the buffer. */
    method WriteLength(ghost len: nat)
      requires Valid() && bits[0] == LowBits(len) && bits[1] == HighBits(len)
      modifies inn
      ensures inn[..] == old(inn[..56]) + Trailer(len)
    {
      hide LowBits, HighBits, CounterBytes;
      Basics.Memcpy(inn, 56, CounterBytes(bits[0]));
      Basics.Memcpy(inn, 60, CounterBytes(bits[1]));
    }

    /** Pads out the buffer to 56 bytes, compressing it first when the length would not fit: returns the last block. */
    method Pad(ghost m: seq<byte>) returns (ghost n: nat)
      requires Valid() && Absorbed(m)
      modifies buf, inn
      ensures |Padded(m)| == 64 * n + 64
      ensures RegsOf(buf[..]) == Chain(Padded(m), n) && inn[..56] + Trailer(|m|) == Padded(m)[64 * n..]
    {
      hide Compress, Chain, Padded, LowBits, HighBits, RegsOf, Absorbed, Trailer, Zeros;
      Parts(m);
      n := |m| / 64;
      ghost var padded := Padded(m);
      PaddedParts(m);
      ChainOfPrefix(m, padded[|m|..], n);
      InBufferIsTail(|m|);
      var count := InBuffer(bits[0]);
      inn[count] := 0x80;
      assert inn[..count + 1] == m[64 * n..] + [0x80];
      count := 64 - 1 - count;
      if count < 8 {
        TwoBlocks(m);
        Absorb(64 - count, Zeros(count), padded, n);
        n := n + 1;
        Basics.Memcpy(inn, 0, Zeros(56));
      } else {
        OneBlock(m);
        Basics.Memcpy(inn, 64 - count, Zeros(count - 8));
      }
    }

    /** The digest, after which the clearing covers only the first eight bytes: the size of a pointer. */
    method MD5Final(digest: array<byte>, ghost m: seq<byte>)
      requires Valid() && Absorbed(m) && digest.Length == 16 && digest != inn
      modifies buf, inn, digest
      ensures digest[..] == Digest(m)
      ensures buf[0] == 0 && buf[1] == 0 && BytesOf(buf[2]) + BytesOf(buf[3]) == digest[8..]
    {
      hide Compress, Chain, Padded, BytesOf, Words, Absorbed, Trailer, LowBits, HighBits;
      LastBlock(m);
      Basics.Memcpy(digest, 0, RegBytes(RegsOf(buf[..])));
      buf[0] := 0;
      buf[1] := 0;
    }

    /** Pads, and compresses the last block. */
    method LastBlock(ghost m: seq<byte>)
      requires Valid() && Absorbed(m)
      modifies buf, inn
      ensures RegBytes(RegsOf(buf[..])) == Digest(m)
    {
      hide Compress, Chain, Padded, RegBytes, RegsOf, Words, Absorbed, Trailer, LowBits, HighBits;
      Parts(m);
      ghost var n := Pad(m);
      WriteLength(|m|);
      NextBlock(Padded(m), n);
      assert inn[..] == Padded(m)[64 * n..64 * n + 64];
      MD5Transform(buf, Words(inn[..]));
      assert |Padded(m)| / 64 == n + 1;
    }
  }

  /** The length is narrowed to the 32 bits of MD5Update's parameter, so a longer buffer loses its tail. */
  method clelf_md5(data: seq<byte>, hash: array<byte>)
    requires hash.Length == 16
    modifies hash
    ensures hash[..] == Digest(data[..|data| % 0x1_0000_0000])
    ensures |data| < 0x1_0000_0000 ==> hash[..] == Digest(data)
  {
    hide *;
    var narrowed := data[..|data| % 0x1_0000_0000];
    var md5c := new MD5Context();
    md5c.MD5Update(narrowed, []);
    assert [] + narrowed == narrowed;
    md5c.MD5Final(hash, narrowed);
    assert |data| < 0x1_0000_0000 ==> narrowed == data;
  }

  /** Contexts that absorbed the same message agree in everything but dead bytes, however it was cut up. */
  lemma {:induction false} SplitsAgree(a: MD5Context, b: MD5Context, m: seq<byte>)
    requires a.Valid() && b.Valid() && a.Absorbed(m) && b.Absorbed(m)
    ensures a.buf[..] == b.buf[..] && a.bits[..] == b.bits[..]
    ensures a.inn[..|m| % 64] == b.inn[..|m| % 64]
  {
    hide Chain, LowBits, HighBits;
    assert RegsOf(a.buf[..]) == RegsOf(b.buf[..]);
    assert a.buf[..] == [a.buf[0], a.buf[1], a.buf[2], a.buf[3]];
    assert b.buf[..] == [b.buf[0], b.buf[1], b.buf[2], b.buf[3]];
    assert a.bits[..] == [a.bits[0], a.bits[1]] && b.bits[..] == [b.bits[0], b.bits[1]];
  }

  function Concat(chunks: seq<seq<byte>>): seq<byte> {
    if chunks == [] then [] else Concat(chunks[..|chunks| - 1]) + chunks[|chunks| - 1]
  }

  /** A client of the context: successive updates with the pieces absorb their concatenation. */
  method AnySplit(chunks: seq<seq<byte>>) returns (ctx: MD5Context)
    requires forall c :: c in chunks ==> |c| < 0x1_0000_0000
    ensures fresh(ctx) && ctx.Valid() && ctx.Absorbed(Concat(chunks))
  {
    ctx := new MD5Context();
    for i := 0 to |chunks|
      invariant fresh(ctx) && fresh(ctx.buf) && fresh(ctx.bits) && fresh(ctx.inn)
      invariant ctx.Valid() && ctx.Absorbed(Concat(chunks[..i]))
    {
      assert chunks[..i + 1][..i] == chunks[..i];
      ctx.MD5Update(chunks[i], Concat(chunks[..i]));
    }
    assert chunks[..|chunks|] == chunks;
  }
}
