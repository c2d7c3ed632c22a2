/** The arguments of a kept kernel: a set that is refused leaves the earlier value (clarg.c, ocl_kernel.c). */
module CleteArgs {

  import opened Basics
  import opened CleteTree
  import opened CleteIndex
  import opened CleteNames
  import opened CleteLists
  import opened CleteKernel
  import opened CletePattern
  import opened CleteLaunch
  import opened CleteTheorems

  /** How a parameter is declared: memory, a scalar of the element type, or a size. */
  datatype ParamKind = Pointer | Element | Integer

  /** The element's width in bytes, and what a machine word or an int of another kind means as an element or a size. */
  datatype Abi = Abi(width: nat, asElement: Arg -> Elem, asSize: Elem -> nat)

  const POINTER_WIDTH := 8
  const INT_WIDTH := 4

  /** One set. For a memory parameter the value is followed as a pointer, which only a memory object survives;
      the others are copied when the width is right, and otherwise refused. */
  function SetOne(kind: ParamKind, earlier: Arg, arg: Arg, abi: Abi): Option<Arg> {
    match kind
    case Pointer => if arg.Buffer? then Some(arg) else None
    case Element =>
      if arg.Value? then Some(arg)
      else
        var width := if arg.Buffer? then POINTER_WIDTH else INT_WIDTH;
        Some(if abi.width == width then Value(abi.asElement(arg)) else earlier)
    case Integer =>
      if arg.Size? then Some(arg)
      else Some(if arg.Value? && abi.width == INT_WIDTH then Size(abi.asSize(arg.value)) else earlier)
  }

  function WidthOf(a: Arg, abi: Abi): nat {
    match a
    case Buffer(_) => POINTER_WIDTH
    case Value(_) => abi.width
    case Size(_) => INT_WIDTH
  }

  function WidthOfKind(kind: ParamKind, abi: Abi): nat {
    match kind
    case Pointer => POINTER_WIDTH
    case Element => abi.width
    case Integer => INT_WIDTH
  }

  /** The slots after the first n sets; a position past the last parameter is refused. */
  function SetFirst(kinds: seq<ParamKind>, earlier: seq<Arg>, args: seq<Arg>, abi: Abi, n: nat): (s: Option<seq<Arg>>)
    requires |earlier| == |kinds| && n <= |args|
    ensures s.Some? ==> |s.value| == |kinds|
  {
    if n == 0 then Some(earlier)
    else
      var s := SetFirst(kinds, earlier, args, abi, n - 1);
      if s.None? || n - 1 >= |kinds| then s
      else
        var a := SetOne(kinds[n - 1], s.value[n - 1], args[n - 1], abi);
        if a.None? then None else Some(s.value[n - 1 := a.value])
  }

  function SetArgs(kinds: seq<ParamKind>, earlier: seq<Arg>, args: seq<Arg>, abi: Abi): (s: Option<seq<Arg>>)
    requires |earlier| == |kinds|
    ensures s.Some? ==> |s.value| == |kinds|
  {
    SetFirst(kinds, earlier, args, abi, |args|)
  }

  lemma {:induction false} CrashStays(kinds: seq<ParamKind>, earlier: seq<Arg>, args: seq<Arg>, abi: Abi, n: nat,
            m: nat)
    requires |earlier| == |kinds| && n <= m <= |args| && SetFirst(kinds, earlier, args, abi, n).None?
    ensures SetFirst(kinds, earlier, args, abi, m).None?
  {
    if n < m {
      CrashStays(kinds, earlier, args, abi, n, m - 1);
    }
  }

  /** Each slot is set once, from its own earlier value. */
  lemma {:induction false} SetFirstMeans(kinds: seq<ParamKind>, earlier: seq<Arg>, args: seq<Arg>, abi: Abi, n: nat)
    requires |earlier| == |kinds| && n <= |args|
    ensures var s := SetFirst(kinds, earlier, args, abi, n);
      && (s.None? <==> exists k :: 0 <= k < n && k < |kinds| && SetOne(kinds[k], earlier[k], args[k], abi).None?)
      && (s.Some? ==> forall k :: 0 <= k < |kinds| ==>
            s.value[k] == if k < n then SetOne(kinds[k], earlier[k], args[k], abi).value else earlier[k])
  {
    if n > 0 {
      SetFirstMeans(kinds, earlier, args, abi, n - 1);
    }
  }

  /** The sets end in a crash exactly when a memory parameter is given a scalar or a size. */
  lemma {:induction false} CrashIff(kinds: seq<ParamKind>, earlier: seq<Arg>, args: seq<Arg>, abi: Abi)
    requires |earlier| == |kinds|
    ensures SetArgs(kinds, earlier, args, abi).None?
       <==> exists k :: 0 <= k < |kinds| && k < |args| && kinds[k].Pointer? && !args[k].Buffer?
  {
    SetFirstMeans(kinds, earlier, args, abi, |args|);
    assert forall k :: 0 <= k < |kinds| && k < |args| ==>
      (SetOne(kinds[k], earlier[k], args[k], abi).None? <==> kinds[k].Pointer? && !args[k].Buffer?);
  }

  predicate HasKind(a: Arg, kind: ParamKind) {
    match kind
    case Pointer => a.Buffer?
    case Element => a.Value?
    case Integer => a.Size?
  }

  ghost predicate HaveKinds(args: seq<Arg>, kinds: seq<ParamKind>) {
    |args| == |kinds| && forall k :: 0 <= k < |args| ==> HasKind(args[k], kinds[k])
  }

  /** A scalar or size parameter keeps its earlier value exactly when it is offered nothing or something of another
      width; of its own width, it takes the argument, as a value of its own kind. */
  lemma {:induction false} SlotByWidth(kinds: seq<ParamKind>, earlier: seq<Arg>, args: seq<Arg>, abi: Abi, k: nat)
    requires HaveKinds(earlier, kinds) && SetArgs(kinds, earlier, args, abi).Some?
    requires k < |kinds| && !kinds[k].Pointer?
    ensures SetArgs(kinds, earlier, args, abi).value[k] ==
      if k >= |args| || WidthOf(args[k], abi) != WidthOfKind(kinds[k], abi) then earlier[k]
      else if HasKind(args[k], kinds[k]) then args[k]
      else if kinds[k].Element? then Value(abi.asElement(args[k]))
      else Size(abi.asSize(args[k].value))
  {
    SetFirstMeans(kinds, earlier, args, abi, |args|);
  }

  /** What a slot holds is always of its parameter's kind. */
  lemma {:induction false} KindsKept(kinds: seq<ParamKind>, earlier: seq<Arg>, args: seq<Arg>, abi: Abi)
    requires HaveKinds(earlier, kinds) && SetArgs(kinds, earlier, args, abi).Some?
    ensures HaveKinds(SetArgs(kinds, earlier, args, abi).value, kinds)
  {
    SetFirstMeans(kinds, earlier, args, abi, |args|);
  }

  /** Arguments of the right kinds are all taken. */
  lemma {:induction false} MatchingTaken(kinds: seq<ParamKind>, earlier: seq<Arg>, args: seq<Arg>, abi: Abi)
    requires |earlier| == |kinds| && HaveKinds(args, kinds)
    ensures SetArgs(kinds, earlier, args, abi) == Some(args)
  {
    SetFirstMeans(kinds, earlier, args, abi, |args|);
    CrashIff(kinds, earlier, args, abi);
    assert SetArgs(kinds, earlier, args, abi).value == args;
  }

  // ---- the parameters of a generated kernel

  function KindOf(o: Object): ParamKind { if o.Array? then Pointer else Element }

  /** The declared parameters: one for each object, then the sizes. */
  function Kinds(e: Expr<Object>, lhs: Object): (kinds: seq<ParamKind>)
    requires lhs.Array?
    ensures |kinds| == |Params(e, lhs)| + |lhs.shape|
  {
    seq(|Params(e, lhs)|, i requires 0 <= i < |Params(e, lhs)| => KindOf(Params(e, lhs)[i].obj))
    + seq(|lhs.shape|, _ => Integer)
  }

  lemma {:induction false} BindHasKinds(e: Expr<Object>, lhs: Object)
    requires lhs.Array? && lhs.shape != []
    ensures HaveKinds(Bind(e, lhs), Kinds(e, lhs))
  {
    hide Params;
  }

  /** The overloads take arrays of rank at least 1. */
  ghost predicate Shaped(e: Expr<Object>) { forall o :: o in Leaves(e) && o.Array? ==> o.shape != [] }

  /** What the kept kernel runs with: the slots after the sets of the new call. */
  function Slots(e1: Expr<Object>, l1: Object, earlier: seq<Arg>, e: Expr<Object>, lhs: Object, abi: Abi)
    : (s: Option<seq<Arg>>)
    requires l1.Array? && lhs.Array? && lhs.shape != [] && |earlier| == |Kinds(e1, l1)|
    ensures s.Some? ==> |s.value| == |Params(e1, l1)| + |l1.shape|
  {
    SetArgs(Kinds(e1, l1), earlier, Bind(e, lhs), abi)
  }

  /** Every parameter is given an object of its kind, or is memory where the objects run out. */
  ghost predicate KindsMatch(e1: Expr<Object>, l1: Object, e: Expr<Object>, lhs: Object) {
    && (forall k :: 0 <= k < |Params(e1, l1)| && k < |Params(e, lhs)| ==>
          KindOf(Params(e1, l1)[k].obj) == KindOf(Params(e, lhs)[k].obj))
    && (|Params(e, lhs)| < |Params(e1, l1)| ==> Params(e1, l1)[|Params(e, lhs)|].obj.Array?)
  }

  /** The first arguments are the new objects. */
  ghost predicate Placed(e1: Expr<Object>, l1: Object, e: Expr<Object>, lhs: Object, args: seq<Arg>) {
    && |Params(e1, l1)| <= |Params(e, lhs)| && |Params(e1, l1)| < |args|
    && forall k :: 0 <= k < |Params(e1, l1)| ==> args[k] == ArgOf(Params(e, lhs)[k].obj)
  }

  lemma {:induction false} BindAt(e: Expr<Object>, lhs: Object, k: nat)
    requires lhs.Array? && lhs.shape != [] && k < |Bind(e, lhs)|
    ensures Bind(e, lhs)[k] ==
      if k < |Params(e, lhs)| then ArgOf(Params(e, lhs)[k].obj)
      else if k == |Params(e, lhs)| then Size(Product(lhs.shape)) else Size(lhs.shape[k - |Params(e, lhs)|])
  {
    hide Params;
  }

  lemma {:induction false} KindAt(e: Expr<Object>, lhs: Object, k: nat)
    requires lhs.Array? && k < |Kinds(e, lhs)|
    ensures Kinds(e, lhs)[k] == if k < |Params(e, lhs)| then KindOf(Params(e, lhs)[k].obj) else Integer
  {
    hide Params;
  }

  /** With matching kinds the call crashes exactly when there are fewer objects than the kernel has parameters. */
  lemma {:induction false} SlotsIff(e1: Expr<Object>, l1: Object, earlier: seq<Arg>, e: Expr<Object>, lhs: Object,
            abi: Abi)
    requires l1.Array? && lhs.Array? && lhs.shape != [] && |earlier| == |Kinds(e1, l1)| && KindsMatch(e1, l1, e, lhs)
    ensures Slots(e1, l1, earlier, e, lhs, abi).Some? <==> |Params(e1, l1)| <= |Params(e, lhs)|
  {
    hide Params, Bind, Kinds, SetArgs;
    var kinds, args, n := Kinds(e1, l1), Bind(e, lhs), |Params(e, lhs)|;
    CrashIff(kinds, earlier, args, abi);
    if n < |Params(e1, l1)| {
      KindAt(e1, l1, n);
      BindAt(e, lhs, n);
      assert kinds[n].Pointer? && !args[n].Buffer?;
    }
    forall k | 0 <= k < |kinds| && k < |args| && n >= |Params(e1, l1)| ensures kinds[k].Pointer? ==> args[k].Buffer? {
      KindAt(e1, l1, k);
      BindAt(e, lhs, k);
    }
  }

  /** From position n on there are no scalars. */
  ghost predicate OnlyArrays(e: Expr<Object>, lhs: Object, n: nat) {
    forall k :: n <= k < |Params(e, lhs)| ==> Params(e, lhs)[k].obj.Array?
  }

  /** Otherwise its objects are in place. */
  lemma {:induction false} SlotsPlaced(e1: Expr<Object>, l1: Object, earlier: seq<Arg>, e: Expr<Object>, lhs: Object,
            abi: Abi)
    requires l1.Array? && lhs.Array? && l1.shape != [] && lhs.shape != []
    requires |earlier| == |Kinds(e1, l1)| && KindsMatch(e1, l1, e, lhs)
    requires Slots(e1, l1, earlier, e, lhs, abi).Some?
    ensures Placed(e1, l1, e, lhs, Slots(e1, l1, earlier, e, lhs, abi).value)
  {
    hide Params, Bind, Kinds;
    var s, n1 := Slots(e1, l1, earlier, e, lhs, abi).value, |Params(e1, l1)|;
    SlotsIff(e1, l1, earlier, e, lhs, abi);
    SetFirstMeans(Kinds(e1, l1), earlier, Bind(e, lhs), abi, |Bind(e, lhs)|);
    forall k | 0 <= k < n1 ensures s[k] == ArgOf(Params(e, lhs)[k].obj) {
      KindAt(e1, l1, k);
      BindAt(e, lhs, k);
    }
  }

  /** And a size slot that was offered an array has kept its earlier value. */
  lemma {:induction false} SizesKept(e1: Expr<Object>, l1: Object, earlier: seq<Arg>, e: Expr<Object>, lhs: Object,
            abi: Abi)
    requires l1.Array? && lhs.Array? && l1.shape != [] && |lhs.shape| == |l1.shape|
    requires |earlier| == |Kinds(e1, l1)| && |Params(e1, l1)| <= |Params(e, lhs)|
    requires Slots(e1, l1, earlier, e, lhs, abi).Some? && OnlyArrays(e, lhs, |Params(e1, l1)|)
    ensures var s := Slots(e1, l1, earlier, e, lhs, abi).value;
      forall k :: |Params(e1, l1)| <= k < |s| ==>
        s[k] == if k < |Params(e, lhs)| then earlier[k] else Bind(e, lhs)[k]
  {
    hide Params, Bind, Kinds;
    var s, n1 := Slots(e1, l1, earlier, e, lhs, abi).value, |Params(e1, l1)|;
    SetFirstMeans(Kinds(e1, l1), earlier, Bind(e, lhs), abi, |Bind(e, lhs)|);
    forall k | n1 <= k < |s| ensures s[k] == if k < |Params(e, lhs)| then earlier[k] else Bind(e, lhs)[k] {
      KindAt(e1, l1, k);
      BindAt(e, lhs, k);
    }
  }

  /** With as many objects, of matching kinds, every set is taken. */
  lemma {:induction false} EqualCountBinds(e1: Expr<Object>, l1: Object, earlier: seq<Arg>, e: Expr<Object>,
            lhs: Object, abi: Abi)
    requires l1.Array? && lhs.Array? && lhs.shape != [] && |lhs.shape| == |l1.shape|
    requires |earlier| == |Kinds(e1, l1)| && KindsMatch(e1, l1, e, lhs) && |Params(e1, l1)| == |Params(e, lhs)|
    ensures Slots(e1, l1, earlier, e, lhs, abi) == Some(Bind(e, lhs))
  {
    hide Params, Bind, Kinds, SetArgs;
    BindHasKinds(e, lhs);
    forall k | 0 <= k < |Kinds(e1, l1)| ensures Kinds(e1, l1)[k] == Kinds(e, lhs)[k] {
      KindAt(e1, l1, k);
      KindAt(e, lhs, k);
    }
    MatchingTaken(Kinds(e1, l1), earlier, Bind(e, lhs), abi);
  }
}
