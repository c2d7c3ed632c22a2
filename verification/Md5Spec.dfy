/** The MD5 message digest as RFC 1321 defines it, over bytes and 32-bit words. */
module Md5Spec {

  type byte = bv8

  type word = bv32

  /** A byte count modulo 64 and the like are plain numbers; a 32-bit counter is one below 2^32. */
  type uint32 = x: int | 0 <= x < 0x1_0000_0000

  // ---- words and bytes, low-order byte first (section 2)

  function WordOf(b: seq<byte>): word
    requires |b| == 4
  {
    (b[0] as bv32) | ((b[1] as bv32) << 8) | ((b[2] as bv32) << 16) | ((b[3] as bv32) << 24)
  }

  function BytesOf(w: word): (b: seq<byte>)
    ensures |b| == 4
  {
    [(w & 0xff) as bv8, ((w >> 8) & 0xff) as bv8, ((w >> 16) & 0xff) as bv8, ((w >> 24) & 0xff) as bv8]
  }

  lemma {:induction false} WordOfBytes(w: word)
    ensures WordOf(BytesOf(w)) == w
  {
    WordRoundTrip(w);
  }

  lemma {:induction false} WordRoundTrip(w: word)
    ensures ((w & 0xff) as bv8 as bv32) | (((w >> 8) & 0xff) as bv8 as bv32 << 8)
          | (((w >> 16) & 0xff) as bv8 as bv32 << 16) | (((w >> 24) & 0xff) as bv8 as bv32 << 24) == w
  {
  }

  /** The sixteen words of a block. */
  function Words(block: seq<byte>): (x: seq<word>)
    requires |block| == 64
    ensures |x| == 16
  {
    seq(16, k requires 0 <= k < 16 => WordOf(block[4 * k..4 * k + 4]))
  }

  // ---- the auxiliary functions and tables (section 3.4)

  function F(x: word, y: word, z: word): word { (x & y) | (!x & z) }

  function G(x: word, y: word, z: word): word { (x & z) | (y & !z) }

  function H(x: word, y: word, z: word): word { x ^ y ^ z }

  function I(x: word, y: word, z: word): word { y ^ (x | !z) }

  function Aux(i: nat, x: word, y: word, z: word): word {
    if i < 16 then F(x, y, z) else if i < 32 then G(x, y, z) else if i < 48 then H(x, y, z) else I(x, y, z)
  }

  /** Circular left shift by one of the sixteen amounts that occur; 23 stands for every other number. */
  function Rotate(w: word, s: nat): word {
    match s
    case 4 => w.RotateLeft(4) case 5 => w.RotateLeft(5) case 6 => w.RotateLeft(6) case 7 => w.RotateLeft(7)
    case 9 => w.RotateLeft(9) case 10 => w.RotateLeft(10) case 11 => w.RotateLeft(11) case 12 => w.RotateLeft(12)
    case 14 => w.RotateLeft(14) case 15 => w.RotateLeft(15) case 16 => w.RotateLeft(16) case 17 => w.RotateLeft(17)
    case 20 => w.RotateLeft(20) case 21 => w.RotateLeft(21) case 22 => w.RotateLeft(22) case _ => w.RotateLeft(23)
  }

  /** A step's message word, shift amount and element of the table constructed from the sine function. */
  datatype Row = Row(k: index, s: nat, t: word)

  type index = k: nat | k < 16 witness 0

  /** The 64 steps in the order in which section 3.4 lists them, counted from 0, eight to a function. */
  function RowOf(i: nat): Row
    requires i < 64
  {
    if i < 32 then
      if i < 16 then (if i < 8 then Rows0(i) else Rows8(i)) else if i < 24 then Rows16(i) else Rows24(i)
    else
      if i < 48 then (if i < 40 then Rows32(i) else Rows40(i)) else if i < 56 then Rows48(i) else Rows56(i)
  }

  function Rows0(i: nat): Row {
    match i
    case 0 => Row(0, 7, 0xd76aa478) case 1 => Row(1, 12, 0xe8c7b756)
    case 2 => Row(2, 17, 0x242070db) case 3 => Row(3, 22, 0xc1bdceee)
    case 4 => Row(4, 7, 0xf57c0faf) case 5 => Row(5, 12, 0x4787c62a)
    case 6 => Row(6, 17, 0xa8304613) case _ => Row(7, 22, 0xfd469501)
  }

  function Rows8(i: nat): Row {
    match i
    case 8 => Row(8, 7, 0x698098d8) case 9 => Row(9, 12, 0x8b44f7af)
    case 10 => Row(10, 17, 0xffff5bb1) case 11 => Row(11, 22, 0x895cd7be)
    case 12 => Row(12, 7, 0x6b901122) case 13 => Row(13, 12, 0xfd987193)
    case 14 => Row(14, 17, 0xa679438e) case _ => Row(15, 22, 0x49b40821)
  }

  function Rows16(i: nat): Row {
    match i
    case 16 => Row(1, 5, 0xf61e2562) case 17 => Row(6, 9, 0xc040b340)
    case 18 => Row(11, 14, 0x265e5a51) case 19 => Row(0, 20, 0xe9b6c7aa)
    case 20 => Row(5, 5, 0xd62f105d) case 21 => Row(10, 9, 0x02441453)
    case 22 => Row(15, 14, 0xd8a1e681) case _ => Row(4, 20, 0xe7d3fbc8)
  }

  function Rows24(i: nat): Row {
    match i
    case 24 => Row(9, 5, 0x21e1cde6) case 25 => Row(14, 9, 0xc33707d6)
    case 26 => Row(3, 14, 0xf4d50d87) case 27 => Row(8, 20, 0x455a14ed)
    case 28 => Row(13, 5, 0xa9e3e905) case 29 => Row(2, 9, 0xfcefa3f8)
    case 30 => Row(7, 14, 0x676f02d9) case _ => Row(12, 20, 0x8d2a4c8a)
  }

  function Rows32(i: nat): Row {
    match i
    case 32 => Row(5, 4, 0xfffa3942) case 33 => Row(8, 11, 0x8771f681)
    case 34 => Row(11, 16, 0x6d9d6122) case 35 => Row(14, 23, 0xfde5380c)
    case 36 => Row(1, 4, 0xa4beea44) case 37 => Row(4, 11, 0x4bdecfa9)
    case 38 => Row(7, 16, 0xf6bb4b60) case _ => Row(10, 23, 0xbebfbc70)
  }

  function Rows40(i: nat): Row {
    match i
    case 40 => Row(13, 4, 0x289b7ec6) case 41 => Row(0, 11, 0xeaa127fa)
    case 42 => Row(3, 16, 0xd4ef3085) case 43 => Row(6, 23, 0x04881d05)
    case 44 => Row(9, 4, 0xd9d4d039) case 45 => Row(12, 11, 0xe6db99e5)
    case 46 => Row(15, 16, 0x1fa27cf8) case _ => Row(2, 23, 0xc4ac5665)
  }

  function Rows48(i: nat): Row {
    match i
    case 48 => Row(0, 6, 0xf4292244) case 49 => Row(7, 10, 0x432aff97)
    case 50 => Row(14, 15, 0xab9423a7) case 51 => Row(5, 21, 0xfc93a039)
    case 52 => Row(12, 6, 0x655b59c3) case 53 => Row(3, 10, 0x8f0ccc92)
    case 54 => Row(10, 15, 0xffeff47d) case _ => Row(1, 21, 0x85845dd1)
  }

  function Rows56(i: nat): Row {
    match i
    case 56 => Row(8, 6, 0x6fa87e4f) case 57 => Row(15, 10, 0xfe2ce6e0)
    case 58 => Row(6, 15, 0xa3014314) case 59 => Row(13, 21, 0x4e0811a1)
    case 60 => Row(4, 6, 0xf7537e82) case 61 => Row(11, 10, 0xbd3af235)
    case 62 => Row(2, 15, 0x2ad7d2bb) case _ => Row(9, 21, 0xeb86d391)
  }

  // Each pass strides through the block's words in its own way and repeats four shift amounts.

  lemma {:induction false} Pass1Rows(i: nat)
    requires 0 <= i < 16
    ensures RowOf(i).k == i
    ensures RowOf(i).s == [7, 12, 17, 22][i % 4]
  {
    assert i < 8 || 8 <= i;
  }

  lemma {:induction false} Pass2Rows(i: nat)
    requires 16 <= i < 32
    ensures RowOf(i).k == (5 * i + 1) % 16
    ensures RowOf(i).s == [5, 9, 14, 20][i % 4]
  {
    assert i < 24 || 24 <= i;
  }

  lemma {:induction false} Pass3Rows(i: nat)
    requires 32 <= i < 48
    ensures RowOf(i).k == (3 * i + 5) % 16
    ensures RowOf(i).s == [4, 11, 16, 23][i % 4]
  {
    assert i < 40 || 40 <= i;
  }

  lemma {:induction false} Pass4Rows(i: nat)
    requires 48 <= i < 64
    ensures RowOf(i).k == 7 * i % 16
    ensures RowOf(i).s == [6, 10, 15, 21][i % 4]
  {
    assert i < 56 || 56 <= i;
  }

  // ---- one block (section 3.4)

  /** Addition of words, modulo 2^32. */
  function Plus(w: word, v: word): word { w + v }

  datatype Regs = Regs(a: word, b: word, c: word, d: word)

  function Sum(a: word, f: word, m: word, k: word): word { a + f + m + k }

  /** b + ((a + f + m + k) <<< s) */
  function Mix(a: word, f: word, m: word, k: word, b: word, s: nat): word {
    Plus(b, Rotate(Sum(a, f, m, k), s))
  }

  /** The operation of step i on registers a, b, c, d. */
  function Op(i: nat, a: word, b: word, c: word, d: word, x: seq<word>): word
    requires i < 64 && |x| == 16
  {
    var r := RowOf(i);
    Mix(a, Aux(i, b, c, d), x[r.k], r.t, b, r.s)
  }

  /** Step i, after which the registers trade places. */
  function Round(i: nat, r: Regs, x: seq<word>): Regs
    requires i < 64 && |x| == 16
  {
    Regs(r.d, Op(i, r.a, r.b, r.c, r.d, x), r.b, r.c)
  }

  function Rounds(n: nat, r: Regs, x: seq<word>): Regs
    requires n <= 64 && |x| == 16
  {
    if n == 0 then r else Round(n - 1, Rounds(n - 1, r, x), x)
  }

  function Compress(h: Regs, x: seq<word>): Regs
    requires |x| == 16
  {
    var r := Rounds(64, h, x);
    Regs(Plus(h.a, r.a), Plus(h.b, r.b), Plus(h.c, r.c), Plus(h.d, r.d))
  }

  // ---- whole messages (sections 3.1 to 3.5)

  const InitRegs := Regs(0x67452301, 0xefcdab89, 0x98badcfe, 0x10325476)

  /** The chaining state after the first n blocks. */
  function Chain(m: seq<byte>, n: nat): Regs
    requires 64 * n <= |m|
  {
    if n == 0 then InitRegs else Compress(Chain(m, n - 1), Words(m[64 * (n - 1)..64 * n]))
  }

  /** What follows the first n blocks does not matter to them. */
  lemma {:induction false} ChainOfPrefix(m: seq<byte>, more: seq<byte>, n: nat)
    requires 64 * n <= |m|
    ensures Chain(m + more, n) == Chain(m, n)
  {
    hide Compress;
    if n > 0 {
      ChainOfPrefix(m, more, n - 1);
      assert (m + more)[64 * (n - 1)..64 * n] == m[64 * (n - 1)..64 * n];
    }
  }

  function Zeros(n: nat): (z: seq<byte>)
    ensures |z| == n
  {
    seq(n, _ => 0)
  }

  /** A one bit, then zeros until the length is 56 modulo 64. */
  function PadLength(len: nat): nat { (119 - len % 64) % 64 }

  lemma {:induction false} PadLengthIsLeast(len: nat)
    ensures (len + 1 + PadLength(len)) % 64 == 56 && PadLength(len) < 64
  {
  }

  /** The two words of the bit length modulo 2^64, low-order word first. */
  function LowBits(len: nat): uint32 { 8 * len % 0x1_0000_0000 }

  function HighBits(len: nat): uint32 { 8 * len / 0x1_0000_0000 % 0x1_0000_0000 }

  /** Together they are the bit length modulo 2^64. */
  lemma {:induction false} BitsOfLength(len: nat)
    ensures LowBits(len) + 0x1_0000_0000 * HighBits(len) == 8 * len % 0x1_0000_0000_0000_0000
  {
    var n := 8 * len;
    var q := n / 0x1_0000_0000;
    assert n == q * 0x1_0000_0000 + LowBits(len);
    assert q == q / 0x1_0000_0000 * 0x1_0000_0000 + HighBits(len);
  }

  /** The byte of a number below 256, by its two hexadecimal digits. */
  function Octet(n: nat): byte
    requires n < 0x100
  {
    (Digit(n / 16) as bv8 << 4) | Digit(n % 16) as bv8
  }

  function Digit(n: nat): bv4
    requires n < 16
  {
    n as bv4
  }

  /** A counter word, low-order byte first. */
  function CounterBytes(n: uint32): (b: seq<byte>)
    ensures |b| == 4
  {
    [Octet(n % 0x100), Octet(n / 0x100 % 0x100), Octet(n / 0x1_0000 % 0x100), Octet(n / 0x100_0000)]
  }

  function Padded(m: seq<byte>): (p: seq<byte>)
    ensures |p| == |m| + 1 + PadLength(|m|) + 8
  {
    m + [0x80] + Zeros(PadLength(|m|)) + CounterBytes(LowBits(|m|)) + CounterBytes(HighBits(|m|))
  }

  function RegBytes(r: Regs): (b: seq<byte>)
    ensures |b| == 16
  {
    BytesOf(r.a) + BytesOf(r.b) + BytesOf(r.c) + BytesOf(r.d)
  }

  function Digest(m: seq<byte>): seq<byte> {
    RegBytes(Chain(Padded(m), |Padded(m)| / 64))
  }
}
