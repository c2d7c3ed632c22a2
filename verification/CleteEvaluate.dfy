/** evaluate in its automatic-kernel form, with the kernel that it keeps in a function-local static. */
module CleteEvaluate {

  import opened Basics
  import opened CleteTree
  import opened CleteIndex
  import opened CleteHost
  import opened CleteNames
  import opened CleteKernel
  import opened CleteCompile
  import opened CletePattern
  import opened CleteLaunch
  import opened CleteTheorems
  import opened CleteCache
  import opened CleteArgs
  import opened CleteReuse
  import opened CleteRebind
  import opened CleteSizes

  /** The process exits, nothing happens for want of a kernel, setting the arguments follows a pointer that is none,
      or the kernel runs. */
  datatype Outcome = Exit | NoKernel | Crash | Ran(result: Option<Launch>)

  /** One instantiation of the template: one expression type, one rank on the left, one static kernel. */
  class Evaluate {
    const kind: Expr<nat>
    const rank: nat
    const abi: Abi
    var krn: Option<Program>
    /** The kernel's declared parameters, and the arguments set so far. */
    var kinds: seq<ParamKind>
    var slots: seq<Arg>
    /** The assignment that the kernel was generated for. */
    ghost var first: (Expr<Object>, Object, nat)

    ghost predicate Valid()
      reads this
    {
      krn.Some? ==>
        && Coherent(first.0, first.1) && NamesFit(first.0, first.1) && Shaped(first.0)
        && TypeOf(first.0) == kind && first.1.shape != [] && |first.1.shape| == rank
        && krn.value == Resolve(Generate(first.0, first.1, first.2))
        && kinds == Kinds(first.0, first.1) && HaveKinds(slots, kinds)
    }

    constructor (exprType: Expr<nat>, lhsRank: nat, machine: Abi)
      ensures Valid() && krn.None? && kind == exprType && rank == lhsRank && abi == machine
    {
      kind, rank, abi := exprType, lhsRank, machine;
      krn, kinds, slots := None, [], [];
    }

    /** The loop of clSetKernelArg and clarg_set_global, and the clarg_set of the sizes: refusals are ignored. */
    method SetArguments(args: seq<Arg>) returns (crashed: bool)
      requires |slots| == |kinds|
      modifies this`slots
      ensures |slots| == |kinds|
      ensures crashed <==> SetArgs(kinds, old(slots), args, abi).None?
      ensures !crashed ==> Some(slots) == SetArgs(kinds, old(slots), args, abi)
    {
      for n := 0 to |args|
        invariant |slots| == |kinds| && SetFirst(kinds, old(slots), args, abi, n) == Some(slots)
      {
        if n < |kinds| {
          var a := SetOne(kinds[n], slots[n], args[n], abi);
          if a.None? {
            CrashStays(kinds, old(slots), args, abi, n + 1, |args|);
            return true;
          }
          slots := slots[n := a.value];
        }
      }
      return false;
    }

    /** The generated kernel, its slots not yet set. */
    method Compile(e: Expr<Object>, lhs: Object)
      requires krn.None? && lhs.Array? && lhs.shape != [] && |lhs.shape| == rank
      requires Coherent(e, lhs) && TypeOf(e) == kind && Shaped(e)
      modifies this
      ensures krn.Some? <==> NamesFit(e, lhs)
      ensures krn.Some? ==> krn.value == Resolve(Generate(e, lhs, Product(lhs.shape)))
      ensures krn.Some? ==> first == (e, lhs, Product(lhs.shape)) && kinds == Kinds(e, lhs) && |slots| == |kinds|
    {
      var source := Generate(e, lhs, Product(lhs.shape));
      CompilesIff(e, lhs, Product(lhs.shape));
      if WellFormed(source) {
        krn := Some(Resolve(source));
        kinds := Kinds(e, lhs);
        slots := seq(|kinds|, _ => Size(0));
        first := (e, lhs, Product(lhs.shape));
      }
    }

    /** The schedule is the device's: any sequence of the work items' steps. */
    method Call(e: Expr<Object>, lhs: Object, store: Store, alg: Algebra, schedule: seq<nat>) returns (o: Outcome)
      requires Valid() && lhs.Array? && lhs.shape != [] && |lhs.shape| == rank
      requires Coherent(e, lhs) && TypeOf(e) == kind && Shaped(e)
      requires Conforms(e, lhs.shape) ==> Assignment(e, lhs, store)
      requires forall k :: 0 <= k < |schedule| ==> schedule[k] < RoundUp(Product(lhs.shape))
      modifies this
      ensures o.Crash? || Valid()
      ensures o.Exit? <==> exists l :: l in Leaves(e) && l.Array? && !(l.shape <= lhs.shape)
      ensures o.Exit? || old(krn).Some? ==> krn == old(krn) && first == old(first)
      ensures o.Exit? ==> slots == old(slots)
      ensures old(krn).None? && !o.Exit? ==> (o.NoKernel? <==> !NamesFit(e, lhs)) && (krn.None? <==> o.NoKernel?)
      ensures old(krn).None? && !o.Exit? && !o.NoKernel? ==>
        o.Ran? && first == (e, lhs, Product(lhs.shape)) && Agrees(e, lhs, store, alg, o.result)
      ensures old(krn).Some? && !o.Exit? ==> o.Crash? || o.Ran?
      ensures old(krn).Some? && !o.Exit? ==>
        (o.Crash? <==> Slots(old(first).0, old(first).1, old(slots), e, lhs, abi).None?)
      ensures old(krn).Some? && !o.Exit? && KindsMatch(old(first).0, old(first).1, e, lhs) ==>
        (o.Crash? <==> |Params(e, lhs)| < |Params(old(first).0, old(first).1)|)
      ensures old(krn).Some? && o.Ran? ==>
        Some(slots) == Slots(old(first).0, old(first).1, old(slots), e, lhs, abi)
        && Kept(old(first).0, old(first).1, old(slots), e, lhs)
        && LaunchRight(old(first), old(slots), abi, e, lhs, store, alg, o.result)
    {
      hide Run, Bind, Agrees, Resolve, Generate, TypeOf, NamesFit, LaunchRight, HasKind, KindsMatch, Kinds, WellStored,
           SetArgs;
      ConformsMeans(e, lhs.shape);
      if !Conforms(e, lhs.shape) {
        return Exit;
      }
      ghost var isNew := krn.None?;
      if krn.None? {
        Compile(e, lhs);
        if krn.None? {
          return NoKernel;
        }
      }
      ghost var earlier := slots;
      var crashed := SetArguments(Bind(e, lhs));
      BindHasKinds(e, lhs);
      if !isNew && KindsMatch(first.0, first.1, e, lhs) { SlotsIff(first.0, first.1, earlier, e, lhs, abi); }
      if isNew { MatchingTaken(kinds, earlier, Bind(e, lhs), abi); }
      if crashed {
        return Crash;
      }
      var result := Run(krn.value, slots, alg, Begin(store, RoundUp(Product(lhs.shape))), schedule);
      if isNew {
        FreshKernelIsHostLoop(e, lhs, store, alg, schedule);
      } else {
        KindsKept(kinds, earlier, Bind(e, lhs), abi);
        KeptLaunch(first, earlier, abi, e, lhs, store, alg, schedule);
      }
      return Ran(result);
    }
  }

  ghost predicate Finished(t: Option<Launch>) { t.Some? && Complete(t.value) }

  /** What is known of a launch of a kept kernel: under the same pattern, under another one on values that tell the
      objects apart, and on arrays of one shape under any pattern and with any values. */
  ghost predicate LaunchRight(first: (Expr<Object>, Object, nat), earlier: seq<Arg>, abi: Abi, e: Expr<Object>,
            lhs: Object, store: Store, alg: Algebra, t: Option<Launch>)
    requires lhs.Array?
  {
    var (e1, l1, size1) := first;
    var right := Agrees(e, lhs, store, alg, t);
    && (SamePattern(e1, l1, e, lhs) && (size1 % 256 != 0 || Product(lhs.shape) % 256 == 0) ==> right)
    && (right && Finished(t) && Telling(e, lhs, store, alg) && KindsMatch(e1, l1, e, lhs) ==>
          SamePattern(e1, l1, e, lhs))
    && (Finished(t) && OneShape(e, lhs) && Product(lhs.shape) > 0 ==>
          (right <==> (MakesSame(e1, l1, e, lhs, store, alg)
             && SizeFits(size1 % 256 != 0, SizeAfter(e1, l1, earlier, e, lhs), Product(lhs.shape)))))
  }

  lemma {:induction false} KeptLaunch(first: (Expr<Object>, Object, nat), earlier: seq<Arg>, abi: Abi, e: Expr<Object>,
            lhs: Object, store: Store, alg: Algebra, schedule: seq<nat>)
    requires Kept(first.0, first.1, earlier, e, lhs) && Assignment(e, lhs, store)
    requires Slots(first.0, first.1, earlier, e, lhs, abi).Some?
    requires forall k :: 0 <= k < |schedule| ==> schedule[k] < RoundUp(Product(lhs.shape))
    ensures LaunchRight(first, earlier, abi, e, lhs, store, alg,
                        Run(Resolve(Generate(first.0, first.1, first.2)),
                            Slots(first.0, first.1, earlier, e, lhs, abi).value,
                            alg, Begin(store, RoundUp(Product(lhs.shape))), schedule))
  {
    hide Run, Bind, Agrees, Resolve, Generate, SamePattern, Telling, Complete, Canonical, Slots, Kinds, HasKind,
         KindsMatch, TypeOf, NamesFit, WellStored, OneShape, Overfull, KeptSize, SizeAfter, SizeFits, MakesSame, Params;
    var (e1, l1, size1) := first;
    var args, r := Slots(e1, l1, earlier, e, lhs, abi).value, RoundUp(Product(lhs.shape));
    var t := Run(Resolve(Generate(e1, l1, size1)), args, alg, Begin(store, r), schedule);
    ResolvesToCanonical(e1, l1, size1);
    GuardIsForPadding(size1);
    if SamePattern(e1, l1, e, lhs) && (size1 % 256 != 0 || Product(lhs.shape) % 256 == 0) {
      SamePatternBinds(e1, l1, earlier, e, lhs, abi, store);
      CachedKernelIff(e1, l1, size1, e, lhs, store, alg);
      assert AlwaysAgrees(Resolve(Generate(e1, l1, size1)), Bind(e, lhs), e, lhs, store, alg);
    }
    if t.Some? && Complete(t.value) && Agrees(e, lhs, store, alg, t) && Telling(e, lhs, store, alg)
       && KindsMatch(e1, l1, e, lhs) {
      SlotsPlaced(e1, l1, earlier, e, lhs, abi);
      TellingMeans(e, lhs, store, alg);
      CompletedTellsPattern(e1, l1, size1 != RoundUp(size1), e, lhs, args, store, alg, r, schedule);
    }
    if OneShape(e, lhs) && Product(lhs.shape) > 0 && t.Some? && Complete(t.value) {
      SlotsOverfull(e1, l1, earlier, e, lhs, abi, store);
      CompletedIff(e1, l1, size1 != RoundUp(size1), e, lhs, args, store, alg, schedule);
    }
  }
}
