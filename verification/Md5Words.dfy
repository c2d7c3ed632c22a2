/** What the words of the digest are as numbers and bytes, apart from how Md5Spec writes them. */
module Md5Words {

  import opened Md5Spec

  // ---- numbers of bit vectors

  function Number1(x: bv1): nat { x as nat }

  function Number4(x: bv4): nat { x as nat }

  function Number8(x: bv8): nat { x as nat }

  function Number16(x: bv16): nat { x as nat }

  function Number(x: word): nat { x as nat }

  // ---- bytes of words

  /** A word is the number that its bytes spell, low-order byte first. */
  lemma {:induction false} WordIsNumber(b: seq<byte>)
    requires |b| == 4
    ensures Number(WordOf(b))
         == Number8(b[0]) + 0x100 * Number8(b[1]) + 0x1_0000 * Number8(b[2]) + 0x100_0000 * Number8(b[3])
  {
    SpelledOut(b[0], b[1], b[2], b[3]);
  }

  lemma {:induction false} SpelledOut(b0: byte, b1: byte, b2: byte, b3: byte)
    ensures ((b0 as word) | (b1 as word << 8) | (b2 as word << 16) | (b3 as word << 24)) as nat
         == Number8(b0) + 0x100 * Number8(b1) + 0x1_0000 * Number8(b2) + 0x100_0000 * Number8(b3)
  {
  }

  /** The bytes of a word are those that it was made of. */
  lemma {:induction false} BytesOfWord(b: seq<byte>)
    requires |b| == 4
    ensures BytesOf(WordOf(b)) == b
  {
    ByteBits(b[0], b[1], b[2], b[3]);
  }

  lemma {:induction false} ByteBits(b0: byte, b1: byte, b2: byte, b3: byte)
    ensures var w := (b0 as word) | (b1 as word << 8) | (b2 as word << 16) | (b3 as word << 24);
      && (w & 0xff) as bv8 == b0 && ((w >> 8) & 0xff) as bv8 == b1
      && ((w >> 16) & 0xff) as bv8 == b2 && ((w >> 24) & 0xff) as bv8 == b3
  {
  }

  /** The words of a block hold its bytes in their order. */
  lemma {:induction false} BytesOfWords(block: seq<byte>, k: nat, j: nat)
    requires |block| == 64 && k < 16 && j < 4
    ensures BytesOf(Words(block)[k])[j] == block[4 * k + j]
  {
    hide BytesOf, WordOf;
    BytesOfWord(block[4 * k..4 * k + 4]);
  }

  /** Registers written out as bytes and read back as words are the registers, in their order. */
  lemma {:induction false} WordsOfRegBytes(r: Regs, block: seq<byte>)
    requires |block| == 64 && RegBytes(r) <= block
    ensures Words(block)[..4] == [r.a, r.b, r.c, r.d]
  {
    hide BytesOf, WordOf;
    var b := RegBytes(r);
    assert block == b + block[16..];
    assert b[0..4] == BytesOf(r.a) && b[4..8] == BytesOf(r.b);
    assert b[8..12] == BytesOf(r.c) && b[12..16] == BytesOf(r.d);
    WordHolds(block, 0, r.a);
    WordHolds(block, 1, r.b);
    WordHolds(block, 2, r.c);
    WordHolds(block, 3, r.d);
  }

  lemma {:induction false} WordHolds(block: seq<byte>, k: nat, w: word)
    requires |block| == 64 && k < 16 && block[4 * k..4 * k + 4] == BytesOf(w)
    ensures Words(block)[k] == w
  {
    hide BytesOf, WordOf;
    WordOfBytes(w);
  }

  /** The length field spells the counter word. */
  lemma {:induction false} CounterIsNumber(n: uint32)
    ensures Number(WordOf(CounterBytes(n))) == n
  {
    hide WordOf, Number, Number8, Octet;
    WordIsNumber(CounterBytes(n));
    OctetIsNumber(n % 0x100);
    OctetIsNumber(n / 0x100 % 0x100);
    OctetIsNumber(n / 0x1_0000 % 0x100);
    OctetIsNumber(n / 0x100_0000);
    BaseOf256(n);
  }

  lemma {:induction false} OctetIsNumber(n: nat)
    requires n < 0x100
    ensures Number8(Octet(n)) == n
  {
    hide Number8, Number4, Digit;
    DigitIsNumber(n / 16);
    DigitIsNumber(n % 16);
    Joined8(Digit(n / 16), Digit(n % 16));
  }

  lemma {:induction false} DigitIsNumber(n: nat)
    requires n < 16
    ensures Number4(Digit(n)) == n
  {
  }

  lemma {:induction false} BaseOf256(n: nat)
    ensures n == n % 0x100 + 0x100 * (n / 0x100 % 0x100) + 0x1_0000 * (n / 0x1_0000 % 0x100)
      + 0x100_0000 * (n / 0x100_0000)
  {
    var q := n / 0x100;
    assert n / 0x1_0000 == q / 0x100 && n / 0x100_0000 == q / 0x1_0000;
    var p := q / 0x100;
    assert q / 0x1_0000 == p / 0x100;
  }

  // ---- addition, by halves

  /** The sum of two digits and a carry, in twice their width. */
  function Sum4(a: bv4, b: bv4, c: bv1): bv8 { a as bv8 + b as bv8 + c as bv8 }

  function Sum8(a: bv8, b: bv8, c: bv1): bv16 { a as bv16 + b as bv16 + c as bv16 }

  function Sum16(a: bv16, b: bv16, c: bv1): bv32 { a as bv32 + b as bv32 + c as bv32 }

  /** It is a carry and a digit. */
  lemma {:induction false} Add4(a: bv4, b: bv4, c: bv1) returns (d: bv1, s: bv4)
    ensures Sum4(a, b, c) == (d as bv8 << 4) + s as bv8
    ensures Number4(a) + Number4(b) + Number1(c) == 16 * Number1(d) + Number4(s)
  {
    var r := Sum4(a, b, c);
    d, s := (r >> 4) as bv1, (r & 0xf) as bv4;
  }

  lemma {:induction false} Halves8(a: bv8) returns (h: bv4, l: bv4)
    ensures a == (h as bv8 << 4) + l as bv8
  {
    h, l := (a >> 4) as bv4, (a & 0xf) as bv4;
  }

  lemma {:induction false} Joined8(h: bv4, l: bv4)
    ensures Number8((h as bv8 << 4) + l as bv8) == 0x10 * Number4(h) + Number4(l)
  {
  }

  /** The carry of the low halves goes into the high ones. */
  lemma {:induction false} Carries8(ah: bv4, al: bv4, bh: bv4, bl: bv4, c: bv1, k: bv1, l: bv4, d: bv1, h: bv4)
    requires Sum4(al, bl, c) == (k as bv8 << 4) + l as bv8
    requires Sum4(ah, bh, k) == (d as bv8 << 4) + h as bv8
    ensures Sum8((ah as bv8 << 4) + al as bv8, (bh as bv8 << 4) + bl as bv8, c)
         == (d as bv16 << 8) + ((h as bv8 << 4) + l as bv8) as bv16
  {
    CarryBits8(ah, al, bh, bl, c, k, l, d, h);
  }

  lemma {:induction false} CarryBits8(ah: bv4, al: bv4, bh: bv4, bl: bv4, c: bv1, k: bv1, l: bv4, d: bv1, h: bv4)
    requires al as bv8 + bl as bv8 + c as bv8 == (k as bv8 << 4) + l as bv8
    requires ah as bv8 + bh as bv8 + k as bv8 == (d as bv8 << 4) + h as bv8
    ensures ((ah as bv8 << 4) + al as bv8) as bv16 + ((bh as bv8 << 4) + bl as bv8) as bv16 + c as bv16
         == (d as bv16 << 8) + ((h as bv8 << 4) + l as bv8) as bv16
  {
  }

  lemma {:induction false} Add8(a: bv8, b: bv8, c: bv1) returns (d: bv1, s: bv8)
    ensures Sum8(a, b, c) == (d as bv16 << 8) + s as bv16
    ensures Number8(a) + Number8(b) + Number1(c) == 0x100 * Number1(d) + Number8(s)
  {
    hide *;
    var ah, al := Halves8(a);
    var bh, bl := Halves8(b);
    var k, l := Add4(al, bl, c);
    var h;
    d, h := Add4(ah, bh, k);
    s := (h as bv8 << 4) + l as bv8;
    Carries8(ah, al, bh, bl, c, k, l, d, h);
    Joined8(ah, al);
    Joined8(bh, bl);
    Joined8(h, l);
  }

  lemma {:induction false} Halves16(a: bv16) returns (h: bv8, l: bv8)
    ensures a == (h as bv16 << 8) + l as bv16
  {
    h, l := (a >> 8) as bv8, (a & 0xff) as bv8;
  }

  lemma {:induction false} Joined16(h: bv8, l: bv8)
    ensures Number16((h as bv16 << 8) + l as bv16) == 0x100 * Number8(h) + Number8(l)
  {
  }

  /** The carry of the low halves goes into the high ones. */
  lemma {:induction false} Carries16(ah: bv8, al: bv8, bh: bv8, bl: bv8, c: bv1, k: bv1, l: bv8, d: bv1, h: bv8)
    requires Sum8(al, bl, c) == (k as bv16 << 8) + l as bv16
    requires Sum8(ah, bh, k) == (d as bv16 << 8) + h as bv16
    ensures Sum16((ah as bv16 << 8) + al as bv16, (bh as bv16 << 8) + bl as bv16, c)
         == (d as bv32 << 16) + ((h as bv16 << 8) + l as bv16) as bv32
  {
    CarryBits16(ah, al, bh, bl, c, k, l, d, h);
  }

  lemma {:induction false} CarryBits16(ah: bv8, al: bv8, bh: bv8, bl: bv8, c: bv1, k: bv1, l: bv8, d: bv1, h: bv8)
    requires al as bv16 + bl as bv16 + c as bv16 == (k as bv16 << 8) + l as bv16
    requires ah as bv16 + bh as bv16 + k as bv16 == (d as bv16 << 8) + h as bv16
    ensures ((ah as bv16 << 8) + al as bv16) as bv32 + ((bh as bv16 << 8) + bl as bv16) as bv32 + c as bv32
         == (d as bv32 << 16) + ((h as bv16 << 8) + l as bv16) as bv32
  {
  }

  lemma {:induction false} Add16(a: bv16, b: bv16, c: bv1) returns (d: bv1, s: bv16)
    ensures Sum16(a, b, c) == (d as bv32 << 16) + s as bv32
    ensures Number16(a) + Number16(b) + Number1(c) == 0x10000 * Number1(d) + Number16(s)
  {
    hide *;
    var ah, al := Halves16(a);
    var bh, bl := Halves16(b);
    var k, l := Add8(al, bl, c);
    var h;
    d, h := Add8(ah, bh, k);
    s := (h as bv16 << 8) + l as bv16;
    Carries16(ah, al, bh, bl, c, k, l, d, h);
    Joined16(ah, al);
    Joined16(bh, bl);
    Joined16(h, l);
  }

  lemma {:induction false} Halves32(a: bv32) returns (h: bv16, l: bv16)
    ensures a == (h as bv32 << 16) + l as bv32
  {
    h, l := (a >> 16) as bv16, (a & 0xffff) as bv16;
  }

  lemma {:induction false} Joined32(h: bv16, l: bv16)
    ensures Number((h as bv32 << 16) + l as bv32) == 0x10000 * Number16(h) + Number16(l)
  {
  }

  lemma {:induction false} NoCarry(a: bv16, b: bv16)
    ensures Sum16(a, b, 0) == a as word + b as word
  {
  }

  lemma {:induction false} Carries32(ah: bv16, al: bv16, bh: bv16, bl: bv16, k: bv1, l: bv16, d: bv1, h: bv16)
    requires al as word + bl as word == (k as word << 16) + l as word
    requires Sum16(ah, bh, k) == (d as word << 16) + h as word
    ensures Plus((ah as word << 16) + al as word, (bh as word << 16) + bl as word) == (h as word << 16) + l as word
  {
    CarryBits32(ah, al, bh, bl, k, l, d, h);
  }

  lemma {:induction false} CarryBits32(ah: bv16, al: bv16, bh: bv16, bl: bv16, k: bv1, l: bv16, d: bv1, h: bv16)
    requires al as word + bl as word == (k as word << 16) + l as word
    requires ah as word + bh as word + k as word == (d as word << 16) + h as word
    ensures ((ah as word << 16) + al as word) + ((bh as word << 16) + bl as word) == (h as word << 16) + l as word
  {
  }

  lemma {:induction false} AddWords(w: word, v: word) returns (d: bv1)
    ensures Number(w) + Number(v) == 0x1_0000_0000 * Number1(d) + Number(Plus(w, v))
  {
    hide *;
    var ah, al := Halves32(w);
    var bh, bl := Halves32(v);
    var k, l := Add16(al, bl, 0);
    var h;
    d, h := Add16(ah, bh, k);
    NoCarry(al, bl);
    Carries32(ah, al, bh, bl, k, l, d, h);
    Joined32(ah, al);
    Joined32(bh, bl);
    Joined32(h, l);
    Bounds(Plus(w, v));
  }

  lemma {:induction false} Bounds(w: word)
    ensures Number(w) < 0x1_0000_0000 && Number1(0) == 0
  {
  }

  /** Addition of words is addition of their numbers modulo 2^32. */
  lemma {:induction false} PlusIsModular(w: word, v: word)
    ensures Number(Plus(w, v)) == (Number(w) + Number(v)) % 0x1_0000_0000
  {
    hide *;
    var d := AddWords(w, v);
    Bounds(Plus(w, v));
  }
}
