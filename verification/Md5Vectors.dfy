/** Two of the test vectors in the appendix of RFC 1321, round by round. */
module Md5Vectors {

  import opened Md5Spec

  /** The padded block of a message of at most three bytes: its first word and its length in bits. */
  predicate IsBlock(x: seq<word>, first: word, bits: word) {
    && |x| == 16 && x[0] == first && x[14] == bits
    && x[1] == x[2] == x[3] == x[4] == x[5] == x[6] == x[7] == 0
    && x[8] == x[9] == x[10] == x[11] == x[12] == x[13] == x[15] == 0
  }

  lemma {:induction false} FirstRounds(x: seq<word>)
    requires |x| == 16
    ensures Rounds(0, InitRegs, x) == InitRegs
  {
  }

  lemma {:induction false} FourRounds(n: nat, x: seq<word>)
    requires n + 4 <= 64 && |x| == 16
    ensures Rounds(n + 4, InitRegs, x) ==
      Round(n + 3, Round(n + 2, Round(n + 1, Round(n, Rounds(n, InitRegs, x), x), x), x), x)
  {
    hide Round;
    assert Rounds(n + 2, InitRegs, x) == Round(n + 1, Round(n, Rounds(n, InitRegs, x), x), x);
  }

  /** The block of a short message: its bytes and the one bit, zeros, and its length in bits. */
  lemma {:induction false} ShortPadded(m: seq<byte>)
    requires |m| <= 3
    ensures |Padded(m)| == 64
    ensures Words(Padded(m))[0] == WordOf((m + [0x80, 0, 0, 0])[..4])
    ensures forall k :: 1 <= k < 14 ==> Words(Padded(m))[k] == WordOf([0, 0, 0, 0])
    ensures Words(Padded(m))[14] == WordOf(CounterBytes(8 * |m|)) && Words(Padded(m))[15] == WordOf(CounterBytes(0))
  {
    hide WordOf, CounterBytes, Words, Padded;
    var p := Padded(m);
    PaddedBytes(m);
    forall k | 0 <= k < 16 ensures Words(p)[k] == WordOf(p[4 * k..4 * k + 4]) {
      WordAt(p, k);
    }
    forall k | 1 <= k < 14 ensures Words(p)[k] == WordOf([0, 0, 0, 0]) {
      assert p[4 * k..4 * k + 4] == [0, 0, 0, 0];
    }
  }

  lemma {:induction false} WordAt(p: seq<byte>, k: nat)
    requires |p| == 64 && k < 16
    ensures Words(p)[k] == WordOf(p[4 * k..4 * k + 4])
  {
  }

  lemma {:induction false} PaddedBytes(m: seq<byte>)
    requires |m| <= 3
    ensures |Padded(m)| == 64
    ensures Padded(m)[0..4] == (m + [0x80, 0, 0, 0])[..4]
    ensures forall i :: 4 <= i < 56 ==> Padded(m)[i] == 0
    ensures Padded(m)[56..60] == CounterBytes(8 * |m|) && Padded(m)[60..64] == CounterBytes(0)
  {
    hide CounterBytes;
  }

  lemma {:induction false} CounterWords()
    ensures WordOf(CounterBytes(0)) == 0 && WordOf(CounterBytes(24)) == 24
  {
    CounterOctets();
  }

  lemma {:induction false} CounterOctets()
    ensures Octet(0) == 0 && Octet(24) == 24
  {
  }

  /** The digest of a message whose padding fits one block. */
  lemma {:induction false} OneBlock(m: seq<byte>)
    requires |Padded(m)| == 64
    ensures Digest(m) == RegBytes(Compress(InitRegs, Words(Padded(m))))
  {
    hide Padded, Words, Compress, RegBytes;
    var p := Padded(m);
    assert Chain(p, 0) == InitRegs;
    assert Chain(p, 1) == Compress(Chain(p, 0), Words(p[64 * 0..64 * 1]));
    assert p[64 * 0..64 * 1] == p;
  }

  // ---- the empty message

  lemma {:induction false} Empty16(x: seq<word>)
    requires IsBlock(x, 0x00000080, 0)
    ensures Rounds(16, InitRegs, x) == Regs(0xf56c7cf1, 0xd6819c6a, 0x5aa53f75, 0x374943a7)
  {
    hide Rounds;
    FirstRounds(x);
    FourRounds(0, x);
    assert Op(0, 0x67452301, 0xefcdab89, 0x98badcfe, 0x10325476, x) == 0xa5202774;
    assert Op(1, 0x10325476, 0xa5202774, 0xefcdab89, 0x98badcfe, x) == 0xf59592dd;
    assert Op(2, 0x98badcfe, 0xf59592dd, 0xa5202774, 0xefcdab89, x) == 0xe7f06b23;
    assert Op(3, 0xefcdab89, 0xe7f06b23, 0xf59592dd, 0xa5202774, x) == 0x1b163203;
    FourRounds(4, x);
    assert Op(4, 0xa5202774, 0x1b163203, 0xe7f06b23, 0xf59592dd, x) == 0x32033344;
    assert Op(5, 0xf59592dd, 0x32033344, 0x1b163203, 0xe7f06b23, x) == 0x2f35d494;
    assert Op(6, 0xe7f06b23, 0x2f35d494, 0x32033344, 0x1b163203, x) == 0xf5b158db;
    assert Op(7, 0x1b163203, 0xf5b158db, 0x2f35d494, 0x32033344, x) == 0x9bc13ce9;
    FourRounds(8, x);
    assert Op(8, 0x32033344, 0x9bc13ce9, 0xf5b158db, 0x2f35d494, x) == 0x3893b991;
    assert Op(9, 0x2f35d494, 0x3893b991, 0x9bc13ce9, 0xf5b158db, x) == 0xfce4a312;
    assert Op(10, 0xf5b158db, 0xfce4a312, 0x3893b991, 0x9bc13ce9, x) == 0xe1ef0576;
    assert Op(11, 0x9bc13ce9, 0xe1ef0576, 0xfce4a312, 0x3893b991, x) == 0x70768a29;
    FourRounds(12, x);
    assert Op(12, 0x3893b991, 0x70768a29, 0xe1ef0576, 0xfce4a312, x) == 0xf56c7cf1;
    assert Op(13, 0xfce4a312, 0xf56c7cf1, 0x70768a29, 0xe1ef0576, x) == 0x374943a7;
    assert Op(14, 0xe1ef0576, 0x374943a7, 0xf56c7cf1, 0x70768a29, x) == 0x5aa53f75;
    assert Op(15, 0x70768a29, 0x5aa53f75, 0x374943a7, 0xf56c7cf1, x) == 0xd6819c6a;
  }

  lemma {:induction false} Empty32(x: seq<word>)
    requires IsBlock(x, 0x00000080, 0)
    ensures Rounds(32, InitRegs, x) == Regs(0x13707036, 0xa2205f1f, 0x1c31c384, 0xae7813db)
  {
    hide Rounds;
    Empty16(x);
    FourRounds(16, x);
    assert Op(16, 0xf56c7cf1, 0xd6819c6a, 0x5aa53f75, 0x374943a7, x) == 0x1c7d7513;
    assert Op(17, 0x374943a7, 0x1c7d7513, 0xd6819c6a, 0x5aa53f75, x) == 0x7bd57a3a;
    assert Op(18, 0x5aa53f75, 0x7bd57a3a, 0x1c7d7513, 0xd6819c6a, x) == 0xc095f13a;
    assert Op(19, 0xd6819c6a, 0xc095f13a, 0x7bd57a3a, 0x1c7d7513, x) == 0xbd782e17;
    FourRounds(20, x);
    assert Op(20, 0x1c7d7513, 0xbd782e17, 0xc095f13a, 0x7bd57a3a, x) == 0x3d1e3e6c;
    assert Op(21, 0x7bd57a3a, 0x3d1e3e6c, 0xbd782e17, 0xc095f13a, x) == 0x68b7b3e3;
    assert Op(22, 0xc095f13a, 0x68b7b3e3, 0x3d1e3e6c, 0xbd782e17, x) == 0xeb41643e;
    assert Op(23, 0xbd782e17, 0xeb41643e, 0x68b7b3e3, 0x3d1e3e6c, x) == 0xe422531a;
    FourRounds(24, x);
    assert Op(24, 0x3d1e3e6c, 0xe422531a, 0xeb41643e, 0x68b7b3e3, x) == 0x306ec122;
    assert Op(25, 0x68b7b3e3, 0x306ec122, 0xe422531a, 0xeb41643e, x) == 0xd28c77c2;
    assert Op(26, 0xeb41643e, 0xd28c77c2, 0x306ec122, 0xe422531a, x) == 0xa3c663da;
    assert Op(27, 0xe422531a, 0xa3c663da, 0xd28c77c2, 0x306ec122, x) == 0xa0572807;
    FourRounds(28, x);
    assert Op(28, 0x306ec122, 0xa0572807, 0xa3c663da, 0xd28c77c2, x) == 0x13707036;
    assert Op(29, 0xd28c77c2, 0x13707036, 0xa0572807, 0xa3c663da, x) == 0xae7813db;
    assert Op(30, 0xa3c663da, 0xae7813db, 0x13707036, 0xa0572807, x) == 0x1c31c384;
    assert Op(31, 0xa0572807, 0x1c31c384, 0xae7813db, 0x13707036, x) == 0xa2205f1f;
  }

  lemma {:induction false} Empty48(x: seq<word>)
    requires IsBlock(x, 0x00000080, 0)
    ensures Rounds(48, InitRegs, x) == Regs(0x3f55edfd, 0xca7d2dbd, 0x68d84ea2, 0x22a31f54)
  {
    hide Rounds;
    Empty32(x);
    FourRounds(32, x);
    assert Op(32, 0x13707036, 0xa2205f1f, 0x1c31c384, 0xae7813db, x) == 0xdf63eaa1;
    assert Op(33, 0xae7813db, 0xdf63eaa1, 0xa2205f1f, 0x1c31c384, x) == 0xc3689f5b;
    assert Op(34, 0x1c31c384, 0xc3689f5b, 0xdf63eaa1, 0xa2205f1f, x) == 0x12f3e755;
    assert Op(35, 0xa2205f1f, 0x12f3e755, 0xc3689f5b, 0xdf63eaa1, x) == 0x004b6669;
    FourRounds(36, x);
    assert Op(36, 0xdf63eaa1, 0x004b6669, 0x12f3e755, 0xc3689f5b, x) == 0x5f7a9b2e;
    assert Op(37, 0xc3689f5b, 0x5f7a9b2e, 0x004b6669, 0x12f3e755, x) == 0xabc34e16;
    assert Op(38, 0x12f3e755, 0xabc34e16, 0x5f7a9b2e, 0x004b6669, x) == 0x91ca4cb7;
    assert Op(39, 0x004b6669, 0x91ca4cb7, 0xabc34e16, 0x5f7a9b2e, x) == 0xc5dc8c15;
    FourRounds(40, x);
    assert Op(40, 0x5f7a9b2e, 0xc5dc8c15, 0x91ca4cb7, 0xabc34e16, x) == 0x4497169d;
    assert Op(41, 0xabc34e16, 0x4497169d, 0xc5dc8c15, 0x91ca4cb7, x) == 0x76fd93d4;
    assert Op(42, 0x91ca4cb7, 0x76fd93d4, 0x4497169d, 0xc5dc8c15, x) == 0xfd95f243;
    assert Op(43, 0xc5dc8c15, 0xfd95f243, 0x76fd93d4, 0x4497169d, x) == 0x0fe32453;
    FourRounds(44, x);
    assert Op(44, 0x4497169d, 0x0fe32453, 0xfd95f243, 0x76fd93d4, x) == 0x3f55edfd;
    assert Op(45, 0x76fd93d4, 0x3f55edfd, 0x0fe32453, 0xfd95f243, x) == 0x22a31f54;
    assert Op(46, 0xfd95f243, 0x22a31f54, 0x3f55edfd, 0x0fe32453, x) == 0x68d84ea2;
    assert Op(47, 0x0fe32453, 0x68d84ea2, 0x22a31f54, 0x3f55edfd, x) == 0xca7d2dbd;
  }

  lemma {:induction false} Empty56(x: seq<word>)
    requires IsBlock(x, 0x00000080, 0)
    ensures Rounds(56, InitRegs, x) == Regs(0x5625a114, 0x1e77fa61, 0x392ad0d0, 0x3450f42b)
  {
    hide Rounds;
    Empty48(x);
    FourRounds(48, x);
    assert Op(48, 0x3f55edfd, 0xca7d2dbd, 0x68d84ea2, 0x22a31f54, x) == 0x93aa2577;
    assert Op(49, 0x22a31f54, 0x93aa2577, 0xca7d2dbd, 0x68d84ea2, x) == 0x1688dc85;
    assert Op(50, 0x68d84ea2, 0x1688dc85, 0x93aa2577, 0xca7d2dbd, x) == 0xcd85b8cb;
    assert Op(51, 0xca7d2dbd, 0xcd85b8cb, 0x1688dc85, 0x93aa2577, x) == 0x561e0689;
    FourRounds(52, x);
    assert Op(52, 0x93aa2577, 0x561e0689, 0xcd85b8cb, 0x1688dc85, x) == 0x5625a114;
    assert Op(53, 0x1688dc85, 0x5625a114, 0x561e0689, 0xcd85b8cb, x) == 0x3450f42b;
    assert Op(54, 0xcd85b8cb, 0x3450f42b, 0x5625a114, 0x561e0689, x) == 0x392ad0d0;
    assert Op(55, 0x561e0689, 0x392ad0d0, 0x3450f42b, 0x5625a114, x) == 0x1e77fa61;
  }

  lemma {:induction false} Empty64(x: seq<word>)
    requires IsBlock(x, 0x00000080, 0)
    ensures Rounds(64, InitRegs, x) == Regs(0x7246fad3, 0x14e45506, 0xff4ea3eb, 0x6e10a476)
  {
    hide Rounds;
    Empty56(x);
    FourRounds(56, x);
    assert Op(56, 0x5625a114, 0x1e77fa61, 0x392ad0d0, 0x3450f42b, x) == 0x474a9c8c;
    assert Op(57, 0x3450f42b, 0x474a9c8c, 0x1e77fa61, 0x392ad0d0, x) == 0xdfce00bc;
    assert Op(58, 0x392ad0d0, 0xdfce00bc, 0x474a9c8c, 0x1e77fa61, x) == 0x36594b14;
    assert Op(59, 0x1e77fa61, 0x36594b14, 0xdfce00bc, 0x474a9c8c, x) == 0x30130182;
    FourRounds(60, x);
    assert Op(60, 0x474a9c8c, 0x30130182, 0x36594b14, 0xdfce00bc, x) == 0x7246fad3;
    assert Op(61, 0xdfce00bc, 0x7246fad3, 0x30130182, 0x36594b14, x) == 0x6e10a476;
    assert Op(62, 0x36594b14, 0x6e10a476, 0x7246fad3, 0x30130182, x) == 0xff4ea3eb;
    assert Op(63, 0x30130182, 0xff4ea3eb, 0x6e10a476, 0x7246fad3, x) == 0x14e45506;
  }

  lemma {:induction false} EmptyPadded()
    ensures |Padded([])| == 64 && IsBlock(Words(Padded([])), 0x00000080, 0)
  {
    hide Padded, Words, CounterBytes;
    ShortPadded([]);
    CounterWords();
    assert ([] + [0x80, 0, 0, 0])[..4] == [0x80, 0x00, 0x00, 0x00];
  }

  /** The digest of the empty message. */
  lemma {:induction false} EmptyDigest()
    ensures Digest([])
         == [0xd4, 0x1d, 0x8c, 0xd9, 0x8f, 0x00, 0xb2, 0x04,
             0xe9, 0x80, 0x09, 0x98, 0xec, 0xf8, 0x42, 0x7e]
  {
    hide Padded, Words, Rounds, IsBlock, Digest;
    EmptyPadded();
    Empty64(Words(Padded([])));
    OneBlock([]);
  }
  // ---- "abc"

  lemma {:induction false} Abc16(x: seq<word>)
    requires IsBlock(x, 0x80636261, 24)
    ensures Rounds(16, InitRegs, x) == Regs(0xdda9b9a6, 0x72aff2e0, 0xe396856b, 0xa1051895)
  {
    hide Rounds;
    FirstRounds(x);
    FourRounds(0, x);
    assert Op(0, 0x67452301, 0xefcdab89, 0x98badcfe, 0x10325476, x) == 0xd6d117b4;
    assert Op(1, 0x10325476, 0xd6d117b4, 0xefcdab89, 0x98badcfe, x) == 0x344a8432;
    assert Op(2, 0x98badcfe, 0x344a8432, 0xd6d117b4, 0xefcdab89, x) == 0x2f6fbd72;
    assert Op(3, 0xefcdab89, 0x2f6fbd72, 0x344a8432, 0xd6d117b4, x) == 0x7ad956f2;
    FourRounds(4, x);
    assert Op(4, 0xd6d117b4, 0x7ad956f2, 0x2f6fbd72, 0x344a8432, x) == 0xc73741ef;
    assert Op(5, 0x344a8432, 0xc73741ef, 0x7ad956f2, 0x2f6fbd72, x) == 0x8bac3051;
    assert Op(6, 0x2f6fbd72, 0x8bac3051, 0xc73741ef, 0x7ad956f2, x) == 0x207dc67b;
    assert Op(7, 0x7ad956f2, 0x207dc67b, 0x8bac3051, 0xc73741ef, x) == 0x928d99f6;
    FourRounds(8, x);
    assert Op(8, 0xc73741ef, 0x928d99f6, 0x207dc67b, 0x8bac3051, x) == 0x854b3712;
    assert Op(9, 0x8bac3051, 0x854b3712, 0x928d99f6, 0x207dc67b, x) == 0x74e2f284;
    assert Op(10, 0x207dc67b, 0x74e2f284, 0x854b3712, 0x928d99f6, x) == 0x3020401c;
    assert Op(11, 0x928d99f6, 0x3020401c, 0x74e2f284, 0x854b3712, x) == 0x5ed49596;
    FourRounds(12, x);
    assert Op(12, 0x854b3712, 0x5ed49596, 0x3020401c, 0x74e2f284, x) == 0xdda9b9a6;
    assert Op(13, 0x74e2f284, 0xdda9b9a6, 0x5ed49596, 0x3020401c, x) == 0xa1051895;
    assert Op(14, 0x3020401c, 0xa1051895, 0xdda9b9a6, 0x5ed49596, x) == 0xe396856b;
    assert Op(15, 0x5ed49596, 0xe396856b, 0xa1051895, 0xdda9b9a6, x) == 0x72aff2e0;
  }

  lemma {:induction false} Abc32(x: seq<word>)
    requires IsBlock(x, 0x80636261, 24)
    ensures Rounds(32, InitRegs, x) == Regs(0x790a77fb, 0x726342d3, 0xa62884aa, 0x9f47e4f8)
  {
    hide Rounds;
    Abc16(x);
    FourRounds(16, x);
    assert Op(16, 0xdda9b9a6, 0x72aff2e0, 0xe396856b, 0xa1051895, x) == 0x3e9e9126;
    assert Op(17, 0xa1051895, 0x3e9e9126, 0x72aff2e0, 0xe396856b, x) == 0x4a1d804e;
    assert Op(18, 0xe396856b, 0x4a1d804e, 0x3e9e9126, 0x72aff2e0, x) == 0xe25e1652;
    assert Op(19, 0x72aff2e0, 0xe25e1652, 0x4a1d804e, 0x3e9e9126, x) == 0xb5b204e4;
    FourRounds(20, x);
    assert Op(20, 0x3e9e9126, 0xb5b204e4, 0xe25e1652, 0x4a1d804e, x) == 0x59a8ffda;
    assert Op(21, 0x4a1d804e, 0x59a8ffda, 0xb5b204e4, 0xe25e1652, x) == 0x6d002f1e;
    assert Op(22, 0xe25e1652, 0x6d002f1e, 0x59a8ffda, 0xb5b204e4, x) == 0xabfc7920;
    assert Op(23, 0xb5b204e4, 0xabfc7920, 0x6d002f1e, 0x59a8ffda, x) == 0x47092c07;
    FourRounds(24, x);
    assert Op(24, 0x59a8ffda, 0x47092c07, 0xabfc7920, 0x6d002f1e, x) == 0xb7f268cf;
    assert Op(25, 0x6d002f1e, 0xb7f268cf, 0x47092c07, 0xabfc7920, x) == 0x09388eff;
    assert Op(26, 0xabfc7920, 0x09388eff, 0xb7f268cf, 0x47092c07, x) == 0xfe1623b1;
    assert Op(27, 0x47092c07, 0xfe1623b1, 0x09388eff, 0xb7f268cf, x) == 0x786acb8f;
    FourRounds(28, x);
    assert Op(28, 0xb7f268cf, 0x786acb8f, 0xfe1623b1, 0x09388eff, x) == 0x790a77fb;
    assert Op(29, 0x09388eff, 0x790a77fb, 0x786acb8f, 0xfe1623b1, x) == 0x9f47e4f8;
    assert Op(30, 0xfe1623b1, 0x9f47e4f8, 0x790a77fb, 0x786acb8f, x) == 0xa62884aa;
    assert Op(31, 0x786acb8f, 0xa62884aa, 0x9f47e4f8, 0x790a77fb, x) == 0x726342d3;
  }

  lemma {:induction false} Abc48(x: seq<word>)
    requires IsBlock(x, 0x80636261, 24)
    ensures Rounds(48, InitRegs, x) == Regs(0x7f2e507b, 0x7beb9700, 0x8fae6399, 0x99d9679d)
  {
    hide Rounds;
    Abc32(x);
    FourRounds(32, x);
    assert Op(32, 0x790a77fb, 0x726342d3, 0xa62884aa, 0x9f47e4f8, x) == 0xb3707ebf;
    assert Op(33, 0x9f47e4f8, 0xb3707ebf, 0x726342d3, 0xa62884aa, x) == 0x60127b2e;
    assert Op(34, 0xa62884aa, 0x60127b2e, 0xb3707ebf, 0x726342d3, x) == 0x8d212ff5;
    assert Op(35, 0x726342d3, 0x8d212ff5, 0x60127b2e, 0xb3707ebf, x) == 0x3b0875c7;
    FourRounds(36, x);
    assert Op(36, 0xb3707ebf, 0x3b0875c7, 0x8d212ff5, 0x60127b2e, x) == 0x21b117b9;
    assert Op(37, 0x60127b2e, 0x21b117b9, 0x3b0875c7, 0x8d212ff5, x) == 0x6e7429d5;
    assert Op(38, 0x8d212ff5, 0x6e7429d5, 0x21b117b9, 0x3b0875c7, x) == 0x3575227e;
    assert Op(39, 0x3b0875c7, 0x3575227e, 0x6e7429d5, 0x21b117b9, x) == 0x5a2f5ea5;
    FourRounds(40, x);
    assert Op(40, 0x21b117b9, 0x5a2f5ea5, 0x3575227e, 0x6e7429d5, x) == 0x11de1779;
    assert Op(41, 0x6e7429d5, 0x11de1779, 0x5a2f5ea5, 0x3575227e, x) == 0xfadcaa38;
    assert Op(42, 0x3575227e, 0xfadcaa38, 0x11de1779, 0x5a2f5ea5, x) == 0x31c465ca;
    assert Op(43, 0x5a2f5ea5, 0x31c465ca, 0xfadcaa38, 0x11de1779, x) == 0x4c6124f4;
    FourRounds(44, x);
    assert Op(44, 0x11de1779, 0x4c6124f4, 0x31c465ca, 0xfadcaa38, x) == 0x7f2e507b;
    assert Op(45, 0xfadcaa38, 0x7f2e507b, 0x4c6124f4, 0x31c465ca, x) == 0x99d9679d;
    assert Op(46, 0x31c465ca, 0x99d9679d, 0x7f2e507b, 0x4c6124f4, x) == 0x8fae6399;
    assert Op(47, 0x4c6124f4, 0x8fae6399, 0x99d9679d, 0x7f2e507b, x) == 0x7beb9700;
  }

  lemma {:induction false} Abc56(x: seq<word>)
    requires IsBlock(x, 0x80636261, 24)
    ensures Rounds(56, InitRegs, x) == Regs(0x06cc5e8a, 0x3bfa2c27, 0x7d632dd0, 0x5b0d97aa)
  {
    hide Rounds;
    Abc48(x);
    FourRounds(48, x);
    assert Op(48, 0x7f2e507b, 0x7beb9700, 0x8fae6399, 0x99d9679d, x) == 0x7b201df8;
    assert Op(49, 0x99d9679d, 0x7b201df8, 0x7beb9700, 0x8fae6399, x) == 0xf4e8e96e;
    assert Op(50, 0x8fae6399, 0xf4e8e96e, 0x7b201df8, 0x7beb9700, x) == 0xb298cefd;
    assert Op(51, 0x7beb9700, 0xb298cefd, 0xf4e8e96e, 0x7b201df8, x) == 0x8bf025c4;
    FourRounds(52, x);
    assert Op(52, 0x7b201df8, 0x8bf025c4, 0xb298cefd, 0xf4e8e96e, x) == 0x06cc5e8a;
    assert Op(53, 0xf4e8e96e, 0x06cc5e8a, 0x8bf025c4, 0xb298cefd, x) == 0x5b0d97aa;
    assert Op(54, 0xb298cefd, 0x5b0d97aa, 0x06cc5e8a, 0x8bf025c4, x) == 0x7d632dd0;
    assert Op(55, 0x8bf025c4, 0x7d632dd0, 0x5b0d97aa, 0x06cc5e8a, x) == 0x3bfa2c27;
  }

  lemma {:induction false} Abc64(x: seq<word>)
    requires IsBlock(x, 0x80636261, 24)
    ensures Rounds(64, InitRegs, x) == Regs(0x310ade8f, 0xc08226b3, 0xe484b9d8, 0x624d8cb2)
  {
    hide Rounds;
    Abc56(x);
    FourRounds(56, x);
    assert Op(56, 0x06cc5e8a, 0x3bfa2c27, 0x7d632dd0, 0x5b0d97aa, x) == 0x7f81cc35;
    assert Op(57, 0x5b0d97aa, 0x7f81cc35, 0x3bfa2c27, 0x7d632dd0, x) == 0x094454ab;
    assert Op(58, 0x7d632dd0, 0x094454ab, 0x7f81cc35, 0x3bfa2c27, x) == 0x4f9dbe3f;
    assert Op(59, 0x3bfa2c27, 0x4f9dbe3f, 0x094454ab, 0x7f81cc35, x) == 0x7327d604;
    FourRounds(60, x);
    assert Op(60, 0x7f81cc35, 0x7327d604, 0x4f9dbe3f, 0x094454ab, x) == 0x310ade8f;
    assert Op(61, 0x094454ab, 0x310ade8f, 0x7327d604, 0x4f9dbe3f, x) == 0x624d8cb2;
    assert Op(62, 0x4f9dbe3f, 0x624d8cb2, 0x310ade8f, 0x7327d604, x) == 0xe484b9d8;
    assert Op(63, 0x7327d604, 0xe484b9d8, 0x624d8cb2, 0x310ade8f, x) == 0xc08226b3;
  }

  lemma {:induction false} AbcPadded()
    ensures |Padded([0x61, 0x62, 0x63])| == 64 && IsBlock(Words(Padded([0x61, 0x62, 0x63])), 0x80636261, 24)
  {
    hide Padded, Words, CounterBytes;
    ShortPadded([0x61, 0x62, 0x63]);
    CounterWords();
    assert ([0x61, 0x62, 0x63] + [0x80, 0, 0, 0])[..4] == [0x61, 0x62, 0x63, 0x80];
  }

  /** The digest of these three bytes. */
  lemma {:induction false} AbcDigest()
    ensures Digest([0x61, 0x62, 0x63])
         == [0x90, 0x01, 0x50, 0x98, 0x3c, 0xd2, 0x4f, 0xb0,
             0xd6, 0x96, 0x3f, 0x7d, 0x28, 0xe1, 0x7f, 0x72]
  {
    hide Padded, Words, Rounds, IsBlock, Digest;
    AbcPadded();
    Abc64(Words(Padded([0x61, 0x62, 0x63])));
    OneBlock([0x61, 0x62, 0x63]);
  }
}
