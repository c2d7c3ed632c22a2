/** Kernel arguments: slots of a kernel's buffer, and the copy each launch takes (kernel.c, event.c). */
module KernelArgs {

  import opened Basics

  datatype Kind = Void | Data | Global | Local | Constant | Sampler | Image2D | Image3D | Other

  datatype Code = Success | InvalidArgSize | InvalidArgValue | NotSupported

  /** What the program says of a kernel: each argument's kind and size, and the size of the whole buffer. */
  datatype Signature = Signature(kinds: seq<Kind>, sizes: seq<nat>, bufSize: nat)

  const WORD := 8

  // ---- slots

  /** The running sum that arg_off records. */
  function Off(sizes: seq<nat>, i: nat): nat
    requires i <= |sizes|
  {
    if i == 0 then 0 else Off(sizes, i - 1) + sizes[i - 1]
  }

  ghost predicate WellSized(sig: Signature) {
    |sig.kinds| == |sig.sizes| && Off(sig.sizes, |sig.sizes|) <= sig.bufSize < 0x1_0000_0000
  }

  /** The slots follow one another from the start of the buffer, without overlap and without a gap. */
  lemma {:induction false} SlotsAreDisjoint(sizes: seq<nat>, i: nat, j: nat)
    requires i < j <= |sizes|
    ensures Off(sizes, 0) == 0 && Off(sizes, i) + sizes[i] == Off(sizes, i + 1) <= Off(sizes, j)
  {
    if i + 1 < j {
      SlotsAreDisjoint(sizes, i, j - 1);
    }
  }

  lemma {:induction false} OffBelow(sig: Signature, i: nat)
    requires WellSized(sig) && i < |sig.sizes|
    ensures Off(sig.sizes, i) + sig.sizes[i] <= Off(sig.sizes, |sig.sizes|) <= sig.bufSize
  {
    SlotsAreDisjoint(sig.sizes, i, |sig.sizes|);
  }

  // ---- setting one argument

  /** A number in w bytes, low-order byte first, as storing through a size_t pointer leaves it. */
  function LittleEndian(w: nat, n: nat): (b: seq<byte>)
    ensures |b| == w
  {
    if w == 0 then [] else [n % 256] + LittleEndian(w - 1, n / 256)
  }

  function FromLittleEndian(b: seq<byte>): nat {
    if b == [] then 0 else b[0] + 256 * FromLittleEndian(b[1..])
  }

  function Power256(w: nat): nat {
    if w == 0 then 1 else 256 * Power256(w - 1)
  }

  lemma {:induction false} LittleEndianRoundTrip(w: nat, n: nat)
    requires n < Power256(w)
    ensures FromLittleEndian(LittleEndian(w, n)) == n
  {
    if w > 0 {
      LittleEndianRoundTrip(w - 1, n / 256);
      assert LittleEndian(w, n)[1..] == LittleEndian(w - 1, n / 256);
    }
  }

  /** Byte j is the j-th digit of the number to base 256. */
  lemma {:induction false} LittleEndianAt(w: nat, n: nat, j: nat)
    requires j < w
    ensures Power256(j) > 0 && LittleEndian(w, n)[j] == n / Power256(j) % 256
  {
    if j > 0 {
      LittleEndianAt(w - 1, n / 256, j - 1);
      DivideTwice(n, Power256(j - 1));
    }
  }

  lemma {:induction false} DivideTwice(n: nat, b: nat)
    requires b > 0
    ensures n / 256 / b == n / (256 * b)
  {
    var q := n / 256 / b;
    var r := n - 256 * (b * q);
    assert n / 256 == b * q + n / 256 % b;
    assert 0 <= r < 256 * b;
    assert n == 256 * b * q + r;
    Quotient(n, 256 * b, q, r);
  }

  lemma {:induction false} Quotient(n: nat, b: nat, q: nat, r: nat)
    requires n == b * q + r && r < b
    ensures n / b == q
  {
    var d := n / b - q;
    assert n == b * (n / b) + n % b;
    assert b * d == r - n % b;
  }

  /** The return code, and the bytes stored from the start of the slot on. */
  datatype Effect = Effect(code: Code, bytes: seq<byte>)

  function Asked(sig: Signature, argn: nat, size: nat): nat
    requires argn < |sig.sizes|
  {
    if size == 0 then sig.sizes[argn] else size
  }

  /** A null value with a size implies local memory. */
  function Implied(sig: Signature, argn: nat, size: nat, value: Option<seq<byte>>): Kind
    requires argn < |sig.sizes| && argn < |sig.kinds|
  {
    if Asked(sig, argn, size) > 0 && value.None? then Local else sig.kinds[argn]
  }

  function SetEffect(sig: Signature, argn: nat, size: nat, value: Option<seq<byte>>): Effect
    requires argn < |sig.sizes| && argn < |sig.kinds|
    requires value.Some? ==> Asked(sig, argn, size) <= |value.value|
  {
    var n := Asked(sig, argn, size);
    match Implied(sig, argn, size, value)
    case Void => Effect(Success, [])
    case Data =>
      if n != sig.sizes[argn] then Effect(InvalidArgSize, [])
      else if value.None? then Effect(InvalidArgValue, [])
      else Effect(Success, value.value[..n])
    case Global => SetPointer(sig, argn, n, value)
    case Constant => SetPointer(sig, argn, n, value)
    case Local =>
      if value.Some? then Effect(InvalidArgValue, [])
      else if n == 0 then Effect(InvalidArgSize, [])
      else Effect(Success, LittleEndian(WORD, n))
    case Sampler => Effect(if n != WORD then InvalidArgSize else NotSupported, [])
    case Image2D => Effect(NotSupported, [])
    case Image3D => Effect(NotSupported, [])
    case Other => Effect(Success, [])
  }

  /** Global and constant memory: the value is a pointer to a memory object. */
  function SetPointer(sig: Signature, argn: nat, n: nat, value: Option<seq<byte>>): Effect
    requires argn < |sig.sizes|
    requires value.Some? ==> n <= |value.value|
  {
    if n != sig.sizes[argn] then Effect(InvalidArgSize, [])
    else if value.None? then Effect(InvalidArgValue, [])
    else if n != WORD then Effect(InvalidArgSize, [])
    else Effect(Success, value.value[..n])
  }

  // What is refused, for a value of n bytes that does not imply local memory.

  /** The kinds whose value is copied into the slot. */
  predicate Copied(kind: Kind) { kind.Data? || kind.Global? || kind.Constant? }

  /** The size is wrong for the declaration, or for a pointer to an object. */
  predicate WrongSize(kind: Kind, declared: nat, n: nat, value: Option<seq<byte>>) {
    || (Copied(kind) && n != declared)
    || ((kind.Global? || kind.Constant?) && value.Some? && n != WORD)
    || (kind.Local? && value.None?) || (kind.Sampler? && n != WORD)
  }

  /** The value is missing, or local memory has one. */
  predicate WrongValue(kind: Kind, declared: nat, n: nat, value: Option<seq<byte>>) {
    || (Copied(kind) && n == declared && value.None?)
    || (kind.Local? && value.Some?)
  }

  predicate Unsupported(kind: Kind, n: nat) {
    kind.Image2D? || kind.Image3D? || (kind.Sampler? && n == WORD)
  }

  /** A request for local memory always succeeds and stores the size asked for. */
  lemma {:induction false} LocalRequest(sig: Signature, argn: nat, size: nat)
    requires argn < |sig.sizes| && argn < |sig.kinds|
    requires 0 < (if size == 0 then sig.sizes[argn] else size) < Power256(WORD)
    ensures var e := SetEffect(sig, argn, size, None);
      && e.code == Success && |e.bytes| == WORD
      && FromLittleEndian(e.bytes) == if size == 0 then sig.sizes[argn] else size
  {
    LittleEndianRoundTrip(WORD, Asked(sig, argn, size));
  }

  lemma {:induction false} LargeRequest(sig: Signature, argn: nat, size: nat)
    requires argn < |sig.sizes| && argn < |sig.kinds| && Asked(sig, argn, size) > 0
    ensures SetEffect(sig, argn, size, None).code == Success
    ensures |SetEffect(sig, argn, size, None).bytes| == WORD
  {
  }

  /** For every other call, each return code has its own condition, and bytes are stored only on success. */
  lemma {:induction false} CodeIff(sig: Signature, argn: nat, size: nat, value: Option<seq<byte>>)
    requires argn < |sig.sizes| && argn < |sig.kinds|
    requires value.Some? ==> Asked(sig, argn, size) <= |value.value|
    requires value.Some? || (size == 0 && sig.sizes[argn] == 0)
    ensures var n := if size == 0 then sig.sizes[argn] else size;
      var kind, declared, e := sig.kinds[argn], sig.sizes[argn], SetEffect(sig, argn, size, value);
      && (e.code == InvalidArgSize <==> WrongSize(kind, declared, n, value))
      && (e.code == InvalidArgValue <==> WrongValue(kind, declared, n, value))
      && (e.code == NotSupported <==> Unsupported(kind, n))
      && e.bytes == (if e.code == Success && Copied(kind) then value.value[..n] else []) && |e.bytes| <= declared
  {
  }

  /** Stored bytes stay in the slot, except that a null value needs a slot of a machine word. */
  lemma {:induction false} StaysInSlotIff(sig: Signature, argn: nat, size: nat, value: Option<seq<byte>>)
    requires argn < |sig.sizes| && argn < |sig.kinds|
    requires value.Some? ==> Asked(sig, argn, size) <= |value.value|
    ensures |SetEffect(sig, argn, size, value).bytes| <= sig.sizes[argn]
       <==> value.Some? || Asked(sig, argn, size) == 0 || WORD <= sig.sizes[argn]
  {
  }

  function Write(buf: seq<byte>, at: nat, bytes: seq<byte>): (b: seq<byte>)
    requires at + |bytes| <= |buf|
    ensures |b| == |buf|
  {
    buf[..at] + bytes + buf[at + |bytes|..]
  }

  // ---- setting all of them

  /** Every value is readable over its slot, and null only where the slot holds a machine word. */
  ghost predicate Settable(sig: Signature, args: seq<Option<seq<byte>>>) {
    && |args| <= |sig.sizes|
    && forall i :: 0 <= i < |args| ==>
         if args[i].Some? then sig.sizes[i] <= |args[i].value| else sig.sizes[i] == 0 || WORD <= sig.sizes[i]
  }

  function EffectAt(sig: Signature, args: seq<Option<seq<byte>>>, i: nat): (e: Effect)
    requires |sig.kinds| == |sig.sizes| && Settable(sig, args) && i < |args|
    ensures |e.bytes| <= sig.sizes[i]
  {
    StaysInSlotIff(sig, i, 0, args[i]);
    SetEffect(sig, i, 0, args[i])
  }

  /** The buffer after the first n arguments; coprthr_dexec does not look at the return codes. */
  function BufAfter(sig: Signature, buf: seq<byte>, args: seq<Option<seq<byte>>>, n: nat): (b: seq<byte>)
    requires WellSized(sig) && Off(sig.sizes, |sig.sizes|) <= |buf| && Settable(sig, args) && n <= |args|
    ensures |b| == |buf|
  {
    if n == 0 then buf else
      OffBelow(sig, n - 1);
      Write(BufAfter(sig, buf, args, n - 1), Off(sig.sizes, n - 1), EffectAt(sig, args, n - 1).bytes)
  }

  /** A slot holds what its own argument put there; the rest of it keeps the kernel's earlier bytes. */
  lemma {:induction false} SlotAfter(sig: Signature, buf: seq<byte>, args: seq<Option<seq<byte>>>, n: nat, i: nat)
    requires WellSized(sig) && Off(sig.sizes, |sig.sizes|) <= |buf| && Settable(sig, args) && i < n <= |args|
    ensures var at, given := Off(sig.sizes, i), EffectAt(sig, args, i).bytes;
      && at + |given| <= at + sig.sizes[i] <= |buf|
      && BufAfter(sig, buf, args, n)[at..at + sig.sizes[i]] == given + buf[at + |given|..at + sig.sizes[i]]
  {
    hide EffectAt, Write;
    OffBelow(sig, i);
    OffBelow(sig, n - 1);
    var at, size := Off(sig.sizes, i), sig.sizes[i];
    var before := BufAfter(sig, buf, args, n - 1);
    if i < n - 1 {
      SlotsAreDisjoint(sig.sizes, i, n - 1);
      SlotAfter(sig, buf, args, n - 1, i);
      WriteAbove(before, Off(sig.sizes, n - 1), EffectAt(sig, args, n - 1).bytes, at, at + size);
    } else {
      var given := EffectAt(sig, args, i).bytes;
      LaterUntouched(sig, buf, args, n - 1, at);
      WriteHere(before, at, given, at + size);
      SameTail(before, buf, at, at + |given|, at + size);
    }
  }

  lemma {:induction false} SameTail(a: seq<byte>, b: seq<byte>, at: nat, lo: nat, hi: nat)
    requires at <= lo <= hi <= |a| == |b| && a[at..] == b[at..]
    ensures a[lo..hi] == b[lo..hi]
  {
    forall k | lo <= k < hi ensures a[k] == b[k] {
      assert a[at..][k - at] == b[at..][k - at];
    }
  }

  lemma {:induction false} WriteMeans(buf: seq<byte>, at: nat, bytes: seq<byte>)
    requires at + |bytes| <= |buf|
    ensures Stored(buf, Write(buf, at, bytes), at, bytes)
    ensures bytes == [] ==> Write(buf, at, bytes) == buf
  {
  }

  lemma {:induction false} WriteAbove(buf: seq<byte>, at: nat, bytes: seq<byte>, lo: nat, hi: nat)
    requires lo <= hi <= at && at + |bytes| <= |buf|
    ensures Write(buf, at, bytes)[lo..hi] == buf[lo..hi]
  {
  }

  lemma {:induction false} WriteHere(buf: seq<byte>, at: nat, bytes: seq<byte>, hi: nat)
    requires at + |bytes| <= hi <= |buf|
    ensures Write(buf, at, bytes)[at..hi] == bytes + buf[at + |bytes|..hi]
  {
  }

  lemma {:induction false} LaterUntouched(sig: Signature, buf: seq<byte>, args: seq<Option<seq<byte>>>, n: nat, k: nat)
    requires WellSized(sig) && Off(sig.sizes, |sig.sizes|) <= |buf| && Settable(sig, args) && n <= |args|
    requires Off(sig.sizes, n) <= k <= |buf|
    ensures BufAfter(sig, buf, args, n)[k..] == buf[k..]
  {
    if n > 0 {
      LaterUntouched(sig, buf, args, n - 1, k);
    }
  }

  /** Arguments passed by value or by memory object, of the declared sizes, determine their slots alone. */
  ghost predicate ByValue(sig: Signature, i: nat, value: Option<seq<byte>>)
    requires i < |sig.kinds| && i < |sig.sizes|
  {
    && value.Some? && sig.sizes[i] <= |value.value|
    && (sig.kinds[i].Data? || ((sig.kinds[i].Global? || sig.kinds[i].Constant?) && sig.sizes[i] == WORD))
  }

  lemma {:induction false} SlotIsGivenValue(sig: Signature, buf: seq<byte>, args: seq<Option<seq<byte>>>, i: nat)
    requires WellSized(sig) && Off(sig.sizes, |sig.sizes|) <= |buf| && Settable(sig, args) && i < |args|
    requires ByValue(sig, i, args[i])
    ensures Off(sig.sizes, i) + sig.sizes[i] <= |buf|
    ensures BufAfter(sig, buf, args, |args|)[Off(sig.sizes, i)..Off(sig.sizes, i) + sig.sizes[i]]
         == args[i].value[..sig.sizes[i]]
  {
    SlotAfter(sig, buf, args, |args|, i);
  }

  /** A null argument's slot reads the size that the program declares for it. */
  lemma {:induction false} SlotIsLocalSize(sig: Signature, buf: seq<byte>, args: seq<Option<seq<byte>>>, i: nat)
    requires WellSized(sig) && Off(sig.sizes, |sig.sizes|) <= |buf| && Settable(sig, args) && i < |args|
    requires args[i].None? && WORD <= sig.sizes[i] < Power256(WORD)
    ensures Off(sig.sizes, i) + WORD <= |buf|
    ensures FromLittleEndian(BufAfter(sig, buf, args, |args|)[Off(sig.sizes, i)..Off(sig.sizes, i) + WORD])
         == sig.sizes[i]
  {
    hide BufAfter, Off, FromLittleEndian;
    SlotAfter(sig, buf, args, |args|, i);
    LocalRequest(sig, i, 0);
    var at, after := Off(sig.sizes, i), BufAfter(sig, buf, args, |args|);
    var slot := after[at..at + sig.sizes[i]];
    assert after[at..at + WORD] == slot[..WORD] == SetEffect(sig, i, 0, args[i]).bytes;
  }

  // ---- the kernel and its launches

  /** Exactly the bytes given stand from position at on; the others are what they were. */
  ghost predicate Stored(before: seq<byte>, after: seq<byte>, at: nat, bytes: seq<byte>) {
    && |before| == |after| && at + |bytes| <= |after| && after[at..at + |bytes|] == bytes
    && after[..at] == before[..at] && after[at + |bytes|..] == before[at + |bytes|..]
  }

  /** What setting an argument answers and leaves: a null value with a size stores that size; otherwise each code
      has its own condition, a value that is copied is stored on success, and nothing else changes the buffer. */
  ghost predicate Answered(sig: Signature, argn: nat, size: nat, value: Option<seq<byte>>, code: Code,
            before: seq<byte>, after: seq<byte>)
    requires argn < |sig.sizes| && argn < |sig.kinds|
  {
    var n, at := if size == 0 then sig.sizes[argn] else size, Off(sig.sizes, argn);
    var kind, declared := sig.kinds[argn], sig.sizes[argn];
    if value.None? && n > 0 then
      && code == Success && at + WORD <= |after| && Stored(before, after, at, after[at..at + WORD])
      && (n < Power256(WORD) ==> FromLittleEndian(after[at..at + WORD]) == n)
    else
      && (code == InvalidArgSize <==> WrongSize(kind, declared, n, value))
      && (code == InvalidArgValue <==> WrongValue(kind, declared, n, value))
      && (code == NotSupported <==> Unsupported(kind, n))
      && (if code == Success && Copied(kind) then
            value.Some? && n <= |value.value| && Stored(before, after, at, value.value[..n])
          else before == after)
  }

  /** Assignment to a uint32_t. */
  function Narrow(n: nat): nat { n % 0x1_0000_0000 }

  lemma {:induction false} Narrows(n: nat)
    requires n < 0x1_0000_0000
    ensures Narrow(n) == n
  {
  }

  /** The running-sum loop; an offset is an unsigned 32-bit number. */
  method FillOffsets(offsets: array<nat>, sig: Signature)
    requires WellSized(sig) && offsets.Length == |sig.sizes|
    modifies offsets
    ensures forall i :: 0 <= i < |sig.sizes| ==> offsets[i] == Off(sig.sizes, i)
  {
    hide Narrow;
    var sz := 0;
    for i := 0 to |sig.sizes|
      invariant sz == Off(sig.sizes, i)
      invariant forall k :: 0 <= k < i ==> offsets[k] == Off(sig.sizes, k)
    {
      OffBelow(sig, i);
      Narrows(sz);
      offsets[i] := Narrow(sz);
      sz := sz + sig.sizes[i];
    }
  }

  class Kernel {
    const sig: Signature
    const arg_off: array<nat>
    const arg_buf: array<byte>

    ghost predicate Valid()
      reads arg_off
    {
      && WellSized(sig)
      && arg_off.Length == |sig.sizes| && arg_buf.Length == (if |sig.sizes| == 0 then 0 else sig.bufSize)
      && forall i :: 0 <= i < |sig.sizes| ==> arg_off[i] == Off(sig.sizes, i)
    }

    /** __do_create_kernel_1: nothing is allocated for a kernel without arguments. */
    constructor (signature: Signature)
      requires WellSized(signature)
      ensures Valid() && sig == signature && fresh(arg_off) && fresh(arg_buf)
    {
      sig := signature;
      var narg := |signature.sizes|;
      arg_off := new nat[narg];
      arg_buf := new byte[if narg == 0 then 0 else signature.bufSize];
      new;
      FillOffsets(arg_off, sig);
    }

    /** __do_set_kernel_arg_1: the caller vouches for argn, for the bytes behind the value and for a null
        value's word. */
    method SetArg(argn: nat, size: nat, value: Option<seq<byte>>) returns (code: Code)
      requires Valid() && argn < |sig.sizes|
      requires value.Some? ==> (if size == 0 then sig.sizes[argn] else size) <= |value.value|
      requires value.None? && 0 < size + sig.sizes[argn] ==> Off(sig.sizes, argn) + WORD <= arg_buf.Length
      modifies arg_buf
      ensures Off(sig.sizes, argn) + |SetEffect(sig, argn, size, value).bytes| <= arg_buf.Length
      ensures code == SetEffect(sig, argn, size, value).code
      ensures arg_buf[..] == Write(old(arg_buf[..]), Off(sig.sizes, argn), SetEffect(sig, argn, size, value).bytes)
      ensures Answered(sig, argn, size, value, code, old(arg_buf[..]), arg_buf[..])
    {
      hide Answered;
      ArgMeans(argn, size, value);
      var p := arg_off[argn];
      var kind := sig.kinds[argn];
      var n := if size == 0 then sig.sizes[argn] else size;
      if n > 0 && value.None? {
        kind := Local;
      }
      match kind
      case Void => return Success;
      case Data =>
        if n != sig.sizes[argn] { return InvalidArgSize; }
        if value.None? { return InvalidArgValue; }
        Memcpy(arg_buf, p, value.value[..n]);
        return Success;
      case Global =>
        code := SetMemory(p, argn, n, value);
        return;
      case Constant =>
        code := SetMemory(p, argn, n, value);
        return;
      case Local =>
        if value.Some? { return InvalidArgValue; }
        if n == 0 { return InvalidArgSize; }
        Memcpy(arg_buf, p, LittleEndian(WORD, n));
        return Success;
      case Sampler =>
        if n != WORD { return InvalidArgSize; }
        return NotSupported;
      case Image2D => return NotSupported;
      case Image3D => return NotSupported;
      case Other => return Success;
    }

    lemma {:induction false} ArgMeans(argn: nat, size: nat, value: Option<seq<byte>>)
      requires Valid() && argn < |sig.sizes|
      requires value.Some? ==> Asked(sig, argn, size) <= |value.value|
      requires value.None? && 0 < size + sig.sizes[argn] ==> Off(sig.sizes, argn) + WORD <= arg_buf.Length
      ensures var e, at, buf := SetEffect(sig, argn, size, value), Off(sig.sizes, argn), arg_buf[..];
        && at + |e.bytes| <= arg_buf.Length
        && Answered(sig, argn, size, value, e.code, buf, Write(buf, at, e.bytes))
    {
      hide SetEffect, Unsupported, FromLittleEndian, Write;
      OffBelow(sig, argn);
      if value.Some? || Asked(sig, argn, size) == 0 {
        CodeIff(sig, argn, size, value);
      } else if Asked(sig, argn, size) < Power256(WORD) {
        LocalRequest(sig, argn, size);
      } else {
        LargeRequest(sig, argn, size);
      }
      WriteMeans(arg_buf[..], Off(sig.sizes, argn), SetEffect(sig, argn, size, value).bytes);
    }

    method SetMemory(p: nat, argn: nat, n: nat, value: Option<seq<byte>>) returns (code: Code)
      requires argn < |sig.sizes| && (value.Some? ==> n <= |value.value|)
      requires p + |SetPointer(sig, argn, n, value).bytes| <= arg_buf.Length
      modifies arg_buf
      ensures code == SetPointer(sig, argn, n, value).code
      ensures arg_buf[..] == Write(old(arg_buf[..]), p, SetPointer(sig, argn, n, value).bytes)
    {
      if n != sig.sizes[argn] { return InvalidArgSize; }
      if value.None? { return InvalidArgValue; }
      if n != WORD { return InvalidArgSize; }
      Memcpy(arg_buf, p, value.value[..n]);
      return Success;
    }
  }

  /** __clone: a copy that nobody else refers to. */
  method Clone(src: array<byte>) returns (copy: array<byte>)
    ensures fresh(copy) && copy[..] == src[..]
  {
    copy := new byte[src.Length];
    forall i | 0 <= i < src.Length {
      copy[i] := src[i];
    }
  }

  /** The loop of coprthr_dexec. */
  method SetAll(krn: Kernel, args: seq<Option<seq<byte>>>)
    requires krn.Valid() && Settable(krn.sig, args)
    modifies krn.arg_buf
    ensures krn.arg_buf[..] == BufAfter(krn.sig, old(krn.arg_buf[..]), args, |args|)
  {
    ghost var before := krn.arg_buf[..];
    for i := 0 to |args|
      invariant krn.arg_buf[..] == BufAfter(krn.sig, before, args, i)
    {
      OffBelow(krn.sig, i);
      StaysInSlotIff(krn.sig, i, 0, args[i]);
      var _ := krn.SetArg(i, 0, args[i]);
    }
  }

  /** The launches of a client that the worker has not reached yet. */
  class Launches {
    var queue: seq<array<byte>>
    /** The argument bytes at the time of each launch. */
    ghost var given: seq<seq<byte>>

    ghost predicate Valid()
      reads this, queue
    {
      |queue| == |given| && forall i :: 0 <= i < |queue| ==> queue[i][..] == given[i]
    }

    constructor ()
      ensures Valid() && queue == [] && given == []
    {
      queue, given := [], [];
    }

    /** coprthr_dexec: sets the arguments in the kernel's own buffer, then queues a copy of it. */
    method DExec(krn: Kernel, args: seq<Option<seq<byte>>>)
      requires Valid() && krn.Valid() && krn.arg_buf !in queue
      requires Settable(krn.sig, args)
      modifies this, krn.arg_buf
      ensures Valid() && krn.Valid()
      ensures given == old(given) + [BufAfter(krn.sig, old(krn.arg_buf[..]), args, |args|)]
      ensures |queue| == |old(queue)| + 1 && queue[..|old(queue)|] == old(queue) && fresh(queue[|old(queue)|])
    {
      SetAll(krn, args);
      var copy := Clone(krn.arg_buf);
      queue, given := queue + [copy], given + [krn.arg_buf[..]];
    }

    /** The worker takes the oldest launch: its arguments are those given to its own call. */
    method RunHead() returns (bytes: seq<byte>)
      requires Valid() && queue != []
      modifies this
      ensures Valid() && bytes == old(given)[0]
      ensures queue == old(queue)[1..] && given == old(given)[1..]
    {
      bytes := queue[0][..];
      queue, given := queue[1..], given[1..];
    }
  }
}
