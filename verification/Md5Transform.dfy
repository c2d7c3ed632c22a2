/** The unrolled block transform of src/libclelf/clelf_md5.c, refining the round loop of RFC 1321. */
module Md5Transform {

  import opened Md5Spec

  // ---- MD5Transform

  /** The four core functions; the first is optimised, the second is the first with its arguments turned. */
  function F1(x: word, y: word, z: word): word { z ^ (x & (y ^ z)) }

  function F2(x: word, y: word, z: word): word { F1(z, x, y) }

  function F3(x: word, y: word, z: word): word { x ^ y ^ z }

  function F4(x: word, y: word, z: word): word { y ^ (x | !z) }

  lemma {:induction false} Multiplex(x: word, y: word, z: word)
    ensures z ^ (x & (y ^ z)) == (x & y) | (!x & z)
  {
  }

  lemma {:induction false} CoreFunctions(x: word, y: word, z: word)
    ensures F1(x, y, z) == F(x, y, z)
    ensures F3(x, y, z) == H(x, y, z) && F4(x, y, z) == I(x, y, z)
  {
    Multiplex(x, y, z);
  }

  lemma {:induction false} SecondFunction(x: word, y: word, z: word)
    ensures F2(x, y, z) == G(x, y, z)
  {
    Turned(x, y, z);
  }

  lemma {:induction false} Turned(x: word, y: word, z: word)
    ensures y ^ (z & (x ^ y)) == (x & z) | (y & !z)
  {
  }

  /** w<<s | w>>(32-s) */
  function ShiftOr(w: word, s: nat): (r: word)
    ensures r == Rotate(w, s)
  {
    match s
    case 4 => (w << 4) | (w >> 28) case 5 => (w << 5) | (w >> 27)
    case 6 => (w << 6) | (w >> 26) case 7 => (w << 7) | (w >> 25)
    case 9 => (w << 9) | (w >> 23) case 10 => (w << 10) | (w >> 22)
    case 11 => (w << 11) | (w >> 21) case 12 => (w << 12) | (w >> 20)
    case 14 => (w << 14) | (w >> 18) case 15 => (w << 15) | (w >> 17)
    case 16 => (w << 16) | (w >> 16) case 17 => (w << 17) | (w >> 15)
    case 20 => (w << 20) | (w >> 12) case 21 => (w << 21) | (w >> 11)
    case 22 => (w << 22) | (w >> 10) case _ => (w << 23) | (w >> 9)
  }

  /** w += f + data */
  function Added(w: word, f: word, data: word): word { w + (f + data) }

  /** The central step: w += f + data, w = w<<s | w>>(32-s), w += x. */
  function MD5STEP(f: word, w: word, x: word, data: word, s: nat): word {
    Plus(ShiftOr(Added(w, f, data), s), x)
  }

  lemma {:induction false} AddedIsSum(w: word, f: word, m: word, k: word)
    ensures Added(w, f, m + k) == Sum(w, f, m, k)
  {
  }

  lemma {:induction false} PlusCommutes(x: word, y: word)
    ensures Plus(x, y) == Plus(y, x)
  {
  }

  lemma {:induction false} StepIsMix(a: word, f: word, m: word, k: word, b: word, s: nat)
    ensures MD5STEP(f, a, b, m + k, s) == Mix(a, f, m, k, b, s)
  {
    hide Added, Sum, Plus, Rotate, ShiftOr;
    AddedIsSum(a, f, m, k);
    PlusCommutes(b, Rotate(Sum(a, f, m, k), s));
  }

  /** The core function a step is given. */
  datatype Core = UseF1 | UseF2 | UseF3 | UseF4

  function Apply(f: Core, x: word, y: word, z: word): word {
    match f
    case UseF1 => F1(x, y, z)
    case UseF2 => F2(x, y, z)
    case UseF3 => F3(x, y, z)
    case UseF4 => F4(x, y, z)
  }

  function CoreOf(i: nat): Core {
    if i < 16 then UseF1 else if i < 32 then UseF2 else if i < 48 then UseF3 else UseF4
  }

  lemma {:induction false} ApplyIsAux(i: nat, x: word, y: word, z: word)
    ensures Apply(CoreOf(i), x, y, z) == Aux(i, x, y, z)
  {
    if 16 <= i < 32 {
      SecondFunction(x, y, z);
    } else {
      CoreFunctions(x, y, z);
    }
  }

  /** The registers before each of the 64 steps and after the last. */
  ghost predicate IsRun(r: nat -> Regs, x: seq<word>)
    requires |x| == 16
  {
    forall i: nat {:trigger Round(i, r(i), x)} :: i < 64 ==> r(i + 1) == Round(i, r(i), x)
  }

  ghost function Runs(x: seq<word>): iset<nat -> Regs>
    requires |x| == 16
  {
    iset r: nat -> Regs | IsRun(r, x)
  }

  /** One step on operands the tables name for step i; the sum of m and k is the macro's data. */
  method Step(f: Core, w: word, x: word, y: word, z: word, m: word, k: word, s: nat,
              ghost i: nat, ghost run: nat -> Regs, ghost block: seq<word>)
    returns (v: word)
    requires i < 64 && |block| == 16 && run in Runs(block)
    requires f == CoreOf(i) && RowOf(i).s == s && RowOf(i).t == k && block[RowOf(i).k] == m
    requires run(i) == Regs(w, x, y, z)
    ensures run(i + 1) == Regs(z, v, x, y)
  {
    v := MD5STEP(Apply(f, x, y, z), w, x, m + k, s);
    StepIsMix(w, Apply(f, x, y, z), m, k, x, s);
    ApplyIsAux(i, x, y, z);
    assert run(i + 1) == Round(i, run(i), block);
  }

  method Steps0To7(a0: word, b0: word, c0: word, d0: word, x: seq<word>, ghost run: nat -> Regs)
    returns (a: word, b: word, c: word, d: word)
    requires |x| == 16 && run in Runs(x) && run(0) == Regs(a0, b0, c0, d0)
    ensures run(8) == Regs(a, b, c, d)
  {
    a, b, c, d := a0, b0, c0, d0;
    a := Step(UseF1, a, b, c, d, x[0], 0xd76aa478, 7, 0, run, x);
    d := Step(UseF1, d, a, b, c, x[1], 0xe8c7b756, 12, 1, run, x);
    c := Step(UseF1, c, d, a, b, x[2], 0x242070db, 17, 2, run, x);
    b := Step(UseF1, b, c, d, a, x[3], 0xc1bdceee, 22, 3, run, x);
    a := Step(UseF1, a, b, c, d, x[4], 0xf57c0faf, 7, 4, run, x);
    d := Step(UseF1, d, a, b, c, x[5], 0x4787c62a, 12, 5, run, x);
    c := Step(UseF1, c, d, a, b, x[6], 0xa8304613, 17, 6, run, x);
    b := Step(UseF1, b, c, d, a, x[7], 0xfd469501, 22, 7, run, x);
  }

  method Steps8To15(a0: word, b0: word, c0: word, d0: word, x: seq<word>, ghost run: nat -> Regs)
    returns (a: word, b: word, c: word, d: word)
    requires |x| == 16 && run in Runs(x) && run(8) == Regs(a0, b0, c0, d0)
    ensures run(16) == Regs(a, b, c, d)
  {
    a, b, c, d := a0, b0, c0, d0;
    a := Step(UseF1, a, b, c, d, x[8], 0x698098d8, 7, 8, run, x);
    d := Step(UseF1, d, a, b, c, x[9], 0x8b44f7af, 12, 9, run, x);
    c := Step(UseF1, c, d, a, b, x[10], 0xffff5bb1, 17, 10, run, x);
    b := Step(UseF1, b, c, d, a, x[11], 0x895cd7be, 22, 11, run, x);
    a := Step(UseF1, a, b, c, d, x[12], 0x6b901122, 7, 12, run, x);
    d := Step(UseF1, d, a, b, c, x[13], 0xfd987193, 12, 13, run, x);
    c := Step(UseF1, c, d, a, b, x[14], 0xa679438e, 17, 14, run, x);
    b := Step(UseF1, b, c, d, a, x[15], 0x49b40821, 22, 15, run, x);
  }

  method Steps16To23(a0: word, b0: word, c0: word, d0: word, x: seq<word>, ghost run: nat -> Regs)
    returns (a: word, b: word, c: word, d: word)
    requires |x| == 16 && run in Runs(x) && run(16) == Regs(a0, b0, c0, d0)
    ensures run(24) == Regs(a, b, c, d)
  {
    a, b, c, d := a0, b0, c0, d0;
    a := Step(UseF2, a, b, c, d, x[1], 0xf61e2562, 5, 16, run, x);
    d := Step(UseF2, d, a, b, c, x[6], 0xc040b340, 9, 17, run, x);
    c := Step(UseF2, c, d, a, b, x[11], 0x265e5a51, 14, 18, run, x);
    b := Step(UseF2, b, c, d, a, x[0], 0xe9b6c7aa, 20, 19, run, x);
    a := Step(UseF2, a, b, c, d, x[5], 0xd62f105d, 5, 20, run, x);
    d := Step(UseF2, d, a, b, c, x[10], 0x02441453, 9, 21, run, x);
    c := Step(UseF2, c, d, a, b, x[15], 0xd8a1e681, 14, 22, run, x);
    b := Step(UseF2, b, c, d, a, x[4], 0xe7d3fbc8, 20, 23, run, x);
  }

  method Steps24To31(a0: word, b0: word, c0: word, d0: word, x: seq<word>, ghost run: nat -> Regs)
    returns (a: word, b: word, c: word, d: word)
    requires |x| == 16 && run in Runs(x) && run(24) == Regs(a0, b0, c0, d0)
    ensures run(32) == Regs(a, b, c, d)
  {
    a, b, c, d := a0, b0, c0, d0;
    a := Step(UseF2, a, b, c, d, x[9], 0x21e1cde6, 5, 24, run, x);
    d := Step(UseF2, d, a, b, c, x[14], 0xc33707d6, 9, 25, run, x);
    c := Step(UseF2, c, d, a, b, x[3], 0xf4d50d87, 14, 26, run, x);
    b := Step(UseF2, b, c, d, a, x[8], 0x455a14ed, 20, 27, run, x);
    a := Step(UseF2, a, b, c, d, x[13], 0xa9e3e905, 5, 28, run, x);
    d := Step(UseF2, d, a, b, c, x[2], 0xfcefa3f8, 9, 29, run, x);
    c := Step(UseF2, c, d, a, b, x[7], 0x676f02d9, 14, 30, run, x);
    b := Step(UseF2, b, c, d, a, x[12], 0x8d2a4c8a, 20, 31, run, x);
  }

  method Steps32To39(a0: word, b0: word, c0: word, d0: word, x: seq<word>, ghost run: nat -> Regs)
    returns (a: word, b: word, c: word, d: word)
    requires |x| == 16 && run in Runs(x) && run(32) == Regs(a0, b0, c0, d0)
    ensures run(40) == Regs(a, b, c, d)
  {
    a, b, c, d := a0, b0, c0, d0;
    a := Step(UseF3, a, b, c, d, x[5], 0xfffa3942, 4, 32, run, x);
    d := Step(UseF3, d, a, b, c, x[8], 0x8771f681, 11, 33, run, x);
    c := Step(UseF3, c, d, a, b, x[11], 0x6d9d6122, 16, 34, run, x);
    b := Step(UseF3, b, c, d, a, x[14], 0xfde5380c, 23, 35, run, x);
    a := Step(UseF3, a, b, c, d, x[1], 0xa4beea44, 4, 36, run, x);
    d := Step(UseF3, d, a, b, c, x[4], 0x4bdecfa9, 11, 37, run, x);
    c := Step(UseF3, c, d, a, b, x[7], 0xf6bb4b60, 16, 38, run, x);
    b := Step(UseF3, b, c, d, a, x[10], 0xbebfbc70, 23, 39, run, x);
  }

  method Steps40To47(a0: word, b0: word, c0: word, d0: word, x: seq<word>, ghost run: nat -> Regs)
    returns (a: word, b: word, c: word, d: word)
    requires |x| == 16 && run in Runs(x) && run(40) == Regs(a0, b0, c0, d0)
    ensures run(48) == Regs(a, b, c, d)
  {
    a, b, c, d := a0, b0, c0, d0;
    a := Step(UseF3, a, b, c, d, x[13], 0x289b7ec6, 4, 40, run, x);
    d := Step(UseF3, d, a, b, c, x[0], 0xeaa127fa, 11, 41, run, x);
    c := Step(UseF3, c, d, a, b, x[3], 0xd4ef3085, 16, 42, run, x);
    b := Step(UseF3, b, c, d, a, x[6], 0x04881d05, 23, 43, run, x);
    a := Step(UseF3, a, b, c, d, x[9], 0xd9d4d039, 4, 44, run, x);
    d := Step(UseF3, d, a, b, c, x[12], 0xe6db99e5, 11, 45, run, x);
    c := Step(UseF3, c, d, a, b, x[15], 0x1fa27cf8, 16, 46, run, x);
    b := Step(UseF3, b, c, d, a, x[2], 0xc4ac5665, 23, 47, run, x);
  }

  method Steps48To55(a0: word, b0: word, c0: word, d0: word, x: seq<word>, ghost run: nat -> Regs)
    returns (a: word, b: word, c: word, d: word)
    requires |x| == 16 && run in Runs(x) && run(48) == Regs(a0, b0, c0, d0)
    ensures run(56) == Regs(a, b, c, d)
  {
    a, b, c, d := a0, b0, c0, d0;
    a := Step(UseF4, a, b, c, d, x[0], 0xf4292244, 6, 48, run, x);
    d := Step(UseF4, d, a, b, c, x[7], 0x432aff97, 10, 49, run, x);
    c := Step(UseF4, c, d, a, b, x[14], 0xab9423a7, 15, 50, run, x);
    b := Step(UseF4, b, c, d, a, x[5], 0xfc93a039, 21, 51, run, x);
    a := Step(UseF4, a, b, c, d, x[12], 0x655b59c3, 6, 52, run, x);
    d := Step(UseF4, d, a, b, c, x[3], 0x8f0ccc92, 10, 53, run, x);
    c := Step(UseF4, c, d, a, b, x[10], 0xffeff47d, 15, 54, run, x);
    b := Step(UseF4, b, c, d, a, x[1], 0x85845dd1, 21, 55, run, x);
  }

  method Steps56To63(a0: word, b0: word, c0: word, d0: word, x: seq<word>, ghost run: nat -> Regs)
    returns (a: word, b: word, c: word, d: word)
    requires |x| == 16 && run in Runs(x) && run(56) == Regs(a0, b0, c0, d0)
    ensures run(64) == Regs(a, b, c, d)
  {
    a, b, c, d := a0, b0, c0, d0;
    a := Step(UseF4, a, b, c, d, x[8], 0x6fa87e4f, 6, 56, run, x);
    d := Step(UseF4, d, a, b, c, x[15], 0xfe2ce6e0, 10, 57, run, x);
    c := Step(UseF4, c, d, a, b, x[6], 0xa3014314, 15, 58, run, x);
    b := Step(UseF4, b, c, d, a, x[13], 0x4e0811a1, 21, 59, run, x);
    a := Step(UseF4, a, b, c, d, x[4], 0xf7537e82, 6, 60, run, x);
    d := Step(UseF4, d, a, b, c, x[11], 0xbd3af235, 10, 61, run, x);
    c := Step(UseF4, c, d, a, b, x[2], 0x2ad7d2bb, 15, 62, run, x);
    b := Step(UseF4, b, c, d, a, x[9], 0xeb86d391, 21, 63, run, x);
  }

  lemma {:induction false} RoundsRun(h: Regs, x: seq<word>)
    requires |x| == 16
    ensures RunFrom(h, x) in Runs(x)
  {
  }

  function RunFrom(h: Regs, x: seq<word>): nat -> Regs
    requires |x| == 16
  {
    (n: nat) => if n <= 64 then Rounds(n, h, x) else h
  }

  method AllSteps(a0: word, b0: word, c0: word, d0: word, x: seq<word>, ghost run: nat -> Regs)
    returns (a: word, b: word, c: word, d: word)
    requires |x| == 16 && run in Runs(x) && run(0) == Regs(a0, b0, c0, d0)
    ensures run(64) == Regs(a, b, c, d)
  {
    a, b, c, d := Steps0To7(a0, b0, c0, d0, x, run);
    a, b, c, d := Steps8To15(a, b, c, d, x, run);
    a, b, c, d := Steps16To23(a, b, c, d, x, run);
    a, b, c, d := Steps24To31(a, b, c, d, x, run);
    a, b, c, d := Steps32To39(a, b, c, d, x, run);
    a, b, c, d := Steps40To47(a, b, c, d, x, run);
    a, b, c, d := Steps48To55(a, b, c, d, x, run);
    a, b, c, d := Steps56To63(a, b, c, d, x, run);
  }

  /** The sixty-four steps and the final additions are the compression of one block. */
  method MD5Transform(buf: array<word>, x: seq<word>)
    requires buf.Length == 4 && |x| == 16
    modifies buf
    ensures RegsOf(buf[..]) == Compress(RegsOf(old(buf[..])), x)
  {
    hide Plus;
    ghost var h := RegsOf(buf[..]);
    ghost var run := RunFrom(h, x);
    RoundsRun(h, x);
    var a, b, c, d := AllSteps(buf[0], buf[1], buf[2], buf[3], x, run);
    assert Rounds(64, h, x) == Regs(a, b, c, d);
    buf[0] := Plus(buf[0], a);
    buf[1] := Plus(buf[1], b);
    buf[2] := Plus(buf[2], c);
    buf[3] := Plus(buf[3], d);
  }

  function RegsOf(b: seq<word>): Regs
    requires |b| == 4
  {
    Regs(b[0], b[1], b[2], b[3])
  }

}
