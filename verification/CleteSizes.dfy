/** A kept kernel that meets more objects than it has parameters runs on with sizes of an earlier call. */
module CleteSizes {

  import opened Basics
  import opened CleteTree
  import opened CleteIndex
  import opened CleteHost
  import opened CleteNames
  import opened CleteLists
  import opened CleteKernel
  import opened CleteCompile
  import opened CletePattern
  import opened CleteLaunch
  import opened CleteTheorems
  import opened CleteCache
  import opened CleteArgs
  import opened CleteReuse
  import opened CleteRebind

  // ---- programs on arrays of the full rank

  /** Every parameter is among the arguments, and every load is of an array of rank d, the number of the sizes. */
  ghost predicate FullRank(p: Program, args: seq<Arg>, d: nat) {
    && |args| == p.arity + d && d > 0
    && p.target < p.arity && forall k :: 0 <= k < |p.loads| ==> p.loads[k].pos < p.arity && p.loads[k].rank == d
  }

  predicate Through(guarded: bool, size: nat, g: nat) { !guarded || g < size }

  /** The item goes on to load and store. */
  predicate Passes(p: Program, args: seq<Arg>, g: nat)
    requires p.arity < |args|
  {
    Through(p.guarded, Sizes(args, p.arity)[0], g)
  }

  /** Of the sizes such a program uses only the first, in its guard. */
  lemma {:induction false} SameTick(p: Program, args: seq<Arg>, other: seq<Arg>, d: nat, alg: Algebra, s: Launch,
            g: nat)
    requires FullRank(p, args, d) && FullRank(p, other, d) && args[..p.arity] == other[..p.arity]
    requires g < |s.items| && (Passes(p, args, g) <==> Passes(p, other, g))
    ensures Tick(p, args, alg, s, g) == Tick(p, other, alg, s, g)
  {
    hide BodyValue, Sizes;
    var it := s.items[g];
    assert args[p.target] == args[..p.arity][p.target] == other[p.target];
    if |it.loaded| < |p.loads| {
      EqualLoad(p.loads[|it.loaded|], args, other, p.arity, d, g, s.store);
    }
  }

  lemma {:induction false} EqualLoad(l: Load, args: seq<Arg>, other: seq<Arg>, arity: nat, d: nat, g: nat, store: Store)
    requires |args| == |other| == arity + d && d > 0 && l.pos < arity && l.rank == d
    requires args[..arity] == other[..arity]
    ensures LoadValue(l, args, arity, g, store) == LoadValue(l, other, arity, g, store)
  {
    assert args[l.pos] == args[..arity][l.pos] == other[l.pos];
    FullIndex(Sizes(args, arity), g);
    FullIndex(Sizes(other, arity), g);
  }

  lemma {:induction false} FullIndex(sizes: seq<nat>, g: nat)
    requires sizes != []
    ensures IndexFor(|sizes|, sizes, g) == Some(g)
  {
    assert sizes[|sizes|..] == [];
  }

  lemma {:induction false} SameRun(p: Program, args: seq<Arg>, other: seq<Arg>, d: nat, alg: Algebra, store: Store,
            r: nat, schedule: seq<nat>)
    requires FullRank(p, args, d) && FullRank(p, other, d) && args[..p.arity] == other[..p.arity]
    requires forall g :: 0 <= g < r ==> (Passes(p, args, g) <==> Passes(p, other, g))
    requires forall k :: 0 <= k < |schedule| ==> schedule[k] < r
    ensures Run(p, args, alg, Begin(store, r), schedule) == Run(p, other, alg, Begin(store, r), schedule)
    decreases |schedule|
  {
    hide Tick, FullRank, Passes;
    if schedule != [] {
      var n := |schedule| - 1;
      SameRun(p, args, other, d, alg, store, r, schedule[..n]);
      var t := Run(p, args, alg, Begin(store, r), schedule[..n]);
      if t.Some? { SameTick(p, args, other, d, alg, t.value, schedule[n]); }
    }
  }

  // ---- a size too small, or too large

  /** What the guard stops is not stored. */
  lemma {:induction false} GuardStops(p: Program, args: seq<Arg>, alg: Algebra, store: Store, r: nat,
            schedule: seq<nat>, g: nat)
    requires p.arity < |args| && !Passes(p, args, g)
    requires forall k :: 0 <= k < |schedule| ==> schedule[k] < r
    ensures var t := Run(p, args, alg, Begin(store, r), schedule); t.Some? ==> g !in t.value.written
    decreases |schedule|
  {
    hide LoadValue, StoreValue, BodyValue, Sizes;
    if schedule != [] {
      GuardStops(p, args, alg, store, r, schedule[..|schedule| - 1], g);
    }
  }

  ghost predicate SameLengths(s: Store, t: Store) {
    s.Keys == t.Keys && forall a :: a in s ==> |s[a]| == |t[a]|
  }

  predicate CanStore(p: Program, args: seq<Arg>, g: nat, store: Store) {
    p.target < |args| && args[p.target].Buffer? && args[p.target].addr in store && g < |store[args[p.target].addr]|
  }

  lemma {:induction false} StoreKeepsLengths(p: Program, args: seq<Arg>, g: nat, v: Elem, store: Store)
    requires StoreValue(p, args, g, v, store).Some?
    ensures CanStore(p, args, g, store) && SameLengths(store, StoreValue(p, args, g, v, store).value)
  {
  }

  lemma {:induction false} NeverDoneStep(p: Program, args: seq<Arg>, alg: Algebra, store: Store, s: Launch, h: nat,
            g: nat)
    requires p.arity < |args| && Passes(p, args, g) && !CanStore(p, args, g, store)
    requires g < |s.items| && h < |s.items| && SameLengths(store, s.store) && !s.items[g].done
    ensures var t := Tick(p, args, alg, s, h); t.Some? ==> SameLengths(store, t.value.store) && !t.value.items[g].done
  {
    hide LoadValue, StoreValue, BodyValue, Sizes;
    var v := BodyValue(p.body, s.items[h].loaded, alg);
    if StoreValue(p, args, h, v, s.store).Some? { StoreKeepsLengths(p, args, h, v, s.store); }
  }

  /** An item that passes, past the end of the target, does not return. */
  lemma {:induction false} NeverDone(p: Program, args: seq<Arg>, alg: Algebra, store: Store, r: nat, schedule: seq<nat>,
            g: nat)
    requires p.arity < |args| && Passes(p, args, g) && g < r && !CanStore(p, args, g, store)
    requires forall k :: 0 <= k < |schedule| ==> schedule[k] < r
    ensures var t := Run(p, args, alg, Begin(store, r), schedule);
      t.Some? ==> SameLengths(store, t.value.store) && !t.value.items[g].done
    decreases |schedule|
  {
    hide Tick, CanStore;
    if schedule != [] {
      var n := |schedule| - 1;
      NeverDone(p, args, alg, store, r, schedule[..n], g);
      var t := Run(p, args, alg, Begin(store, r), schedule[..n]);
      if t.Some? { NeverDoneStep(p, args, alg, store, t.value, schedule[n], g); }
    }
  }

  // ---- arrays of one shape

  ghost predicate OneShape(e: Expr<Object>, lhs: Object) {
    lhs.Array? && forall o :: o in Leaves(e) ==> o.Array? && o.shape == lhs.shape
  }

  /** They fit each other's places. */
  lemma {:induction false} OneShapeRebinds(e1: Expr<Object>, l1: Object, e: Expr<Object>, lhs: Object, store: Store)
    requires Coherent(e1, l1) && Assignment(e, lhs, store) && TypeOf(e1) == TypeOf(e) && OneShape(e, lhs)
    requires |Params(e1, l1)| <= |Params(e, lhs)|
    ensures Rebindable(e1, l1, e, lhs, store)
  {
    hide Params, PositionOr, Rebound, Bound, TypeOf;
    var d, bound := Rebound(e1, l1, e, lhs), Bound(e1, l1, e, lhs);
    BoundInvolved(e1, l1, e, lhs, l1);
    forall o | o in Leaves(d) ensures o == lhs || o in Leaves(e) {
      var i := ReboundLeaf(e1, l1, e, lhs, o);
      BoundInvolved(e1, l1, e, lhs, Leaves(e1)[i]);
    }
    ConformsMeans(e, lhs.shape);
    ConformsMeans(d, lhs.shape);
    assert TypeOf(d) == TypeOf(e1) by { OneShapeType(e1, l1, e, lhs); }
  }

  lemma {:induction false} OneShapeType(e1: Expr<Object>, l1: Object, e: Expr<Object>, lhs: Object)
    requires TypeOf(e1) == TypeOf(e) && OneShape(e, lhs) && |Params(e1, l1)| <= |Params(e, lhs)|
    ensures TypeOf(Rebound(e1, l1, e, lhs)) == TypeOf(e1)
  {
    hide Params, PositionOr, Bound;
    var bound := Bound(e1, l1, e, lhs);
    forall o | o in Leaves(e1) ensures RankOf()(bound(o)) == RankOf()(o) {
      OneShapeRank(e1, e, lhs, o);
      BoundInvolved(e1, l1, e, lhs, o);
    }
    MapOfMap(e1, bound, RankOf(), RankOf());
  }

  lemma {:induction false} OneShapeRank(e1: Expr<Object>, e: Expr<Object>, lhs: Object, o: Object)
    requires TypeOf(e1) == TypeOf(e) && OneShape(e, lhs) && o in Leaves(e1)
    ensures Rank(o) == |lhs.shape|
  {
    var i :| 0 <= i < |Leaves(e1)| && Leaves(e1)[i] == o;
    SameLeafRanks(e1, e, i);
    assert Leaves(e)[i] in Leaves(e);
  }

  /** So their kinds match, whatever the pattern. */
  lemma {:induction false} OneShapeKinds(e1: Expr<Object>, l1: Object, e: Expr<Object>, lhs: Object)
    requires TypeOf(e1) == TypeOf(e) && OneShape(e, lhs) && lhs.shape != [] && l1.Array?
    ensures KindsMatch(e1, l1, e, lhs) && OnlyArrays(e, lhs, 0)
  {
    hide Params, TypeOf;
    forall k | 0 <= k < |Params(e1, l1)| ensures Params(e1, l1)[k].obj.Array? {
      ParamIsInvolved(e1, l1, k);
      if Params(e1, l1)[k].obj != l1 { OneShapeRank(e1, e, lhs, Params(e1, l1)[k].obj); }
    }
    forall k | 0 <= k < |Params(e, lhs)| ensures Params(e, lhs)[k].obj.Array? {
      ParamIsInvolved(e, lhs, k);
    }
  }

  lemma {:induction false} OneShapeFullRank(e1: Expr<Object>, l1: Object, guarded: bool, e: Expr<Object>, lhs: Object,
            args: seq<Arg>)
    requires TypeOf(e1) == TypeOf(e) && OneShape(e, lhs) && lhs.shape != []
    requires |args| == |Params(e1, l1)| + |lhs.shape|
    ensures FullRank(Canonical(e1, l1, guarded), args, |lhs.shape|)
  {
    hide Params, Reads, PositionOr, TypeOf;
    var p := Canonical(e1, l1, guarded);
    ReadsAre(e1, l1);
    PositionOfInvolved(e1, l1, l1);
    forall k | 0 <= k < |p.loads| ensures p.loads[k].pos < p.arity && p.loads[k].rank == |lhs.shape| {
      var o := Reads(e1, l1)[k].obj;
      assert Reads(e1, l1)[k] in Reads(e1, l1);
      PositionOfInvolved(e1, l1, o);
      OneShapeRank(e1, e, lhs, o);
    }
  }

  // ---- exactly when such a launch is right

  /** The kernel's size lets exactly the cells of the left-hand side through, or padding makes no difference. */
  predicate SizeFits(guarded: bool, kept: nat, size: nat) {
    if guarded then kept == size || (kept > size && size % 256 == 0) else size % 256 == 0
  }

  lemma {:induction false} SizeFitsMeans(guarded: bool, kept: nat, size: nat)
    requires SizeFits(guarded, kept, size)
    ensures forall g :: 0 <= g < RoundUp(size) ==> (Through(guarded, kept, g) <==> g < size)
  {
  }

  lemma {:induction false} SizeUnfit(guarded: bool, kept: nat, size: nat) returns (g: nat)
    requires !SizeFits(guarded, kept, size)
    ensures g < RoundUp(size) && !(Through(guarded, kept, g) <==> g < size)
  {
    g := if guarded && kept < size then kept else size;
  }

  /** Enough objects in place, on a kernel of arrays of one shape. */
  ghost predicate Overfull(e1: Expr<Object>, l1: Object, e: Expr<Object>, lhs: Object, args: seq<Arg>, store: Store) {
    && Coherent(e1, l1) && Assignment(e, lhs, store) && TypeOf(e1) == TypeOf(e)
    && OneShape(e, lhs) && Product(lhs.shape) > 0
    && Placed(e1, l1, e, lhs, args) && |args| == |Params(e1, l1)| + |lhs.shape|
  }

  function KeptSize(e1: Expr<Object>, l1: Object, args: seq<Arg>): nat
    requires |Params(e1, l1)| < |args|
  {
    Sizes(args, |Params(e1, l1)|)[0]
  }

  /** With a fitting size the launch is one of the rebound assignment. */
  lemma {:induction false} FittingRun(e1: Expr<Object>, l1: Object, guarded: bool, e: Expr<Object>, lhs: Object,
            args: seq<Arg>, store: Store, alg: Algebra, schedule: seq<nat>)
    requires Overfull(e1, l1, e, lhs, args, store)
    requires SizeFits(guarded, KeptSize(e1, l1, args), Product(lhs.shape))
    requires forall k :: 0 <= k < |schedule| ==> schedule[k] < RoundUp(Product(lhs.shape))
    ensures Run(Canonical(e1, l1, guarded), args, alg, Begin(store, RoundUp(Product(lhs.shape))), schedule)
         == Run(Canonical(e1, l1, guarded), ReboundArgs(e1, l1, e, lhs), alg,
                Begin(store, RoundUp(Product(lhs.shape))), schedule)
  {
    hide Params, Run, TypeOf, OneShape, WellStored, Coherent, RoundUp, SizeFits, Bind;
    var p, other, n := Canonical(e1, l1, guarded), ReboundArgs(e1, l1, e, lhs), |Params(e1, l1)|;
    OneShapeFullRank(e1, l1, guarded, e, lhs, args);
    OneShapeFullRank(e1, l1, guarded, e, lhs, other);
    forall k | 0 <= k < n ensures args[k] == other[k] { BindAt(e, lhs, k); }
    assert args[..n] == other[..n];
    SizeFitsMeans(guarded, KeptSize(e1, l1, args), Product(lhs.shape));
    BindAt(e, lhs, |Params(e, lhs)|);
    assert Sizes(other, n)[0] == Product(lhs.shape);
    GuardIsForPadding(Product(lhs.shape));
    forall g | 0 <= g < RoundUp(Product(lhs.shape)) ensures Passes(p, args, g) <==> Passes(p, other, g) {
      assert Through(guarded, KeptSize(e1, l1, args), g) <==> g < Product(lhs.shape);
    }
    SameRun(p, args, other, |lhs.shape|, alg, store, RoundUp(Product(lhs.shape)), schedule);
  }

  /** The target holds as many cells as the left-hand side. */
  lemma {:induction false} TargetLength(e1: Expr<Object>, l1: Object, guarded: bool, e: Expr<Object>, lhs: Object,
            args: seq<Arg>, store: Store, g: nat)
    requires Overfull(e1, l1, e, lhs, args, store) && Product(lhs.shape) <= g
    ensures !CanStore(Canonical(e1, l1, guarded), args, g, store)
  {
    hide Params, TypeOf, PositionOr;
    PositionOfInvolved(e1, l1, l1);
    ParamIsInvolved(e, lhs, PositionOr(Ptrs(Params(e1, l1)), l1.addr));
  }

  /** With any other size no completed launch is right. */
  lemma {:induction false} UnfitNeverAgrees(e1: Expr<Object>, l1: Object, guarded: bool, e: Expr<Object>, lhs: Object,
            args: seq<Arg>, store: Store, alg: Algebra, schedule: seq<nat>)
    requires Overfull(e1, l1, e, lhs, args, store)
    requires !SizeFits(guarded, KeptSize(e1, l1, args), Product(lhs.shape))
    requires forall k :: 0 <= k < |schedule| ==> schedule[k] < RoundUp(Product(lhs.shape))
    requires var t := Run(Canonical(e1, l1, guarded), args, alg, Begin(store, RoundUp(Product(lhs.shape))), schedule);
      t.Some? && Complete(t.value)
    ensures !Agrees(e, lhs, store, alg,
                    Run(Canonical(e1, l1, guarded), args, alg, Begin(store, RoundUp(Product(lhs.shape))), schedule))
  {
    hide Params, Run, TypeOf, OneShape, WellStored, Coherent, RoundUp, SizeFits, Bind, HostStore;
    var p, r, size := Canonical(e1, l1, guarded), RoundUp(Product(lhs.shape)), Product(lhs.shape);
    var g := SizeUnfit(guarded, KeptSize(e1, l1, args), size);
    if g < size {
      GuardStops(p, args, alg, store, r, schedule, g);
    } else {
      TargetLength(e1, l1, guarded, e, lhs, args, store, g);
      NeverDone(p, args, alg, store, r, schedule, g);
    }
  }

  /** One completed launch, whatever the operators and the values. */
  lemma {:induction false} CompletedIff(e1: Expr<Object>, l1: Object, guarded: bool, e: Expr<Object>, lhs: Object,
            args: seq<Arg>, store: Store, alg: Algebra, schedule: seq<nat>)
    requires Overfull(e1, l1, e, lhs, args, store)
    requires forall k :: 0 <= k < |schedule| ==> schedule[k] < RoundUp(Product(lhs.shape))
    requires var t := Run(Canonical(e1, l1, guarded), args, alg, Begin(store, RoundUp(Product(lhs.shape))), schedule);
      t.Some? && Complete(t.value)
    ensures Agrees(e, lhs, store, alg,
                   Run(Canonical(e1, l1, guarded), args, alg, Begin(store, RoundUp(Product(lhs.shape))), schedule))
       <==> MakesSame(e1, l1, e, lhs, store, alg) && SizeFits(guarded, KeptSize(e1, l1, args), Product(lhs.shape))
  {
    hide Params, Run, TypeOf, OneShape, WellStored, Coherent, RoundUp, Agrees, MakesSame, Complete, Rebindable,
         Canonical, KeptSize, ReboundArgs;
    if SizeFits(guarded, KeptSize(e1, l1, args), Product(lhs.shape)) {
      GuardIsForPadding(Product(lhs.shape));
      OneShapeRebinds(e1, l1, e, lhs, store);
      FittingRun(e1, l1, guarded, e, lhs, args, store, alg, schedule);
      ReboundIff(e1, l1, guarded, e, lhs, store, alg, RoundUp(Product(lhs.shape)), schedule);
    } else {
      UnfitNeverAgrees(e1, l1, guarded, e, lhs, args, store, alg, schedule);
    }
  }

  lemma {:induction false} AlwaysIff(e1: Expr<Object>, l1: Object, size1: nat, e: Expr<Object>, lhs: Object,
            args: seq<Arg>, store: Store, alg: Algebra)
    requires NamesFit(e1, l1) && Overfull(e1, l1, e, lhs, args, store)
    ensures AlwaysAgrees(Resolve(Generate(e1, l1, size1)), args, e, lhs, store, alg)
       <==> (MakesSame(e1, l1, e, lhs, store, alg)
             && SizeFits(size1 % 256 != 0, KeptSize(e1, l1, args), Product(lhs.shape)))
  {
    hide Params, Run, TypeOf, OneShape, WellStored, Coherent, RoundUp, Agrees, MakesSame, Complete, Canonical, KeptSize,
         Resolve, Generate, NamesFit, NeverFaults;
    var p, guarded, r := Resolve(Generate(e1, l1, size1)), size1 % 256 != 0, RoundUp(Product(lhs.shape));
    ResolvesToCanonical(e1, l1, size1);
    GuardIsForPadding(size1);
    assert p == Canonical(e1, l1, guarded);
    if AlwaysAgrees(p, args, e, lhs, store, alg) {
      AgreeingNeverFaults(p, args, e, lhs, store, alg);
      var schedule := SomeCompletes(p, args, alg, store, r);
      CompletedIff(e1, l1, guarded, e, lhs, args, store, alg, schedule);
    }
    if MakesSame(e1, l1, e, lhs, store, alg) && SizeFits(guarded, KeptSize(e1, l1, args), Product(lhs.shape)) {
      forall schedule: seq<nat> | forall k :: 0 <= k < |schedule| ==> schedule[k] < r
        ensures Agrees(e, lhs, store, alg, Run(p, args, alg, Begin(store, r), schedule))
      {
        FittingAgrees(e1, l1, guarded, e, lhs, args, store, alg, schedule);
      }
    }
  }

  lemma {:induction false} FittingAgrees(e1: Expr<Object>, l1: Object, guarded: bool, e: Expr<Object>, lhs: Object,
            args: seq<Arg>, store: Store, alg: Algebra, schedule: seq<nat>)
    requires Overfull(e1, l1, e, lhs, args, store) && MakesSame(e1, l1, e, lhs, store, alg)
    requires SizeFits(guarded, KeptSize(e1, l1, args), Product(lhs.shape))
    requires forall k :: 0 <= k < |schedule| ==> schedule[k] < RoundUp(Product(lhs.shape))
    ensures Agrees(e, lhs, store, alg,
                   Run(Canonical(e1, l1, guarded), args, alg, Begin(store, RoundUp(Product(lhs.shape))), schedule))
  {
    hide Params, Run, TypeOf, OneShape, WellStored, Coherent, RoundUp, Agrees, MakesSame, Rebindable, Canonical,
         KeptSize, ReboundArgs;
    GuardIsForPadding(Product(lhs.shape));
    OneShapeRebinds(e1, l1, e, lhs, store);
    FittingRun(e1, l1, guarded, e, lhs, args, store, alg, schedule);
    ReboundIff(e1, l1, guarded, e, lhs, store, alg, RoundUp(Product(lhs.shape)), schedule);
  }

  /** What the guard compares with: the new size, or with objects too many the one an earlier call left behind. */
  function SizeAfter(e1: Expr<Object>, l1: Object, earlier: seq<Arg>, e: Expr<Object>, lhs: Object): nat
    requires lhs.Array?
  {
    var n := |Params(e1, l1)|;
    if n < |Params(e, lhs)| && n < |earlier| && earlier[n].Size? then earlier[n].n else Product(lhs.shape)
  }

  lemma {:induction false} SlotsOverfull(e1: Expr<Object>, l1: Object, earlier: seq<Arg>, e: Expr<Object>, lhs: Object,
            abi: Abi, store: Store)
    requires Kept(e1, l1, earlier, e, lhs) && Assignment(e, lhs, store) && OneShape(e, lhs) && Product(lhs.shape) > 0
    ensures Slots(e1, l1, earlier, e, lhs, abi).Some? <==> |Params(e1, l1)| <= |Params(e, lhs)|
    ensures Slots(e1, l1, earlier, e, lhs, abi).Some? ==>
      && Overfull(e1, l1, e, lhs, Slots(e1, l1, earlier, e, lhs, abi).value, store)
      && KeptSize(e1, l1, Slots(e1, l1, earlier, e, lhs, abi).value) == SizeAfter(e1, l1, earlier, e, lhs)
  {
    hide Params, TypeOf, WellStored, Slots, Kinds, KindsMatch, Bind, NamesFit;
    OneShapeKinds(e1, l1, e, lhs);
    SlotsIff(e1, l1, earlier, e, lhs, abi);
    if Slots(e1, l1, earlier, e, lhs, abi).Some? {
      SlotsPlaced(e1, l1, earlier, e, lhs, abi);
      SizesKept(e1, l1, earlier, e, lhs, abi);
      BindAt(e, lhs, |Params(e, lhs)|);
      KindAt(e1, l1, |Params(e1, l1)|);
      assert HasKind(earlier[|Params(e1, l1)|], Kinds(e1, l1)[|Params(e1, l1)|]);
    }
  }

  /**
   * A kept kernel on arrays of one shape, whatever the pattern, the count of the objects, the operators and the
   * values: the call ends without a crash and agrees with the host loop under every schedule exactly when there
   * are at least as many objects as parameters, the rebound assignment leaves what the new one leaves, and the size
   * that the kernel then sees lets the right cells through.
   */
  lemma {:induction false} OneShapeKernelIff(e1: Expr<Object>, l1: Object, size1: nat, earlier: seq<Arg>,
            e: Expr<Object>, lhs: Object, abi: Abi, store: Store, alg: Algebra)
    requires Kept(e1, l1, earlier, e, lhs) && Assignment(e, lhs, store) && OneShape(e, lhs) && Product(lhs.shape) > 0
    ensures KeptAgrees(e1, l1, size1, earlier, e, lhs, abi, store, alg)
       <==> (MakesSame(e1, l1, e, lhs, store, alg)
             && SizeFits(size1 % 256 != 0, SizeAfter(e1, l1, earlier, e, lhs), Product(lhs.shape)))
  {
    hide Params, TypeOf, WellStored, Slots, Kinds, HasKind, Bind, Resolve, Generate, AlwaysAgrees, Overfull, OneShape,
         KeptSize, SizeAfter, SizeFits, NamesFit;
    SlotsOverfull(e1, l1, earlier, e, lhs, abi, store);
    var s := Slots(e1, l1, earlier, e, lhs, abi);
    if s.Some? { AlwaysIff(e1, l1, size1, e, lhs, s.value, store, alg); }
  }
}
