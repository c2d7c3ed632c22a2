/** What a kept kernel does for an assignment of any address pattern: it makes the rebound assignment. */
module CleteRebind {

  import opened Basics
  import opened CleteTree
  import opened CleteIndex
  import opened CleteHost
  import opened CleteNames
  import opened CleteLists
  import opened CleteKernel
  import opened CleteCompile
  import opened CletePattern
  import opened CleteLaunch
  import opened CleteTheorems
  import opened CleteArgs
  import opened CleteCache
  import opened CleteReuse

  /** At least as many objects as the kernel has parameters, and they fit the places that they are bound to. */
  ghost predicate Rebindable(e1: Expr<Object>, l1: Object, e: Expr<Object>, lhs: Object, store: Store) {
    && Coherent(e1, l1) && Assignment(e, lhs, store) && |Params(e1, l1)| <= |Params(e, lhs)|
    && TypeOf(Rebound(e1, l1, e, lhs)) == TypeOf(e1)
    && var target := Bound(e1, l1, e, lhs)(l1);
      target.Array? && target.shape == lhs.shape && Assignment(Rebound(e1, l1, e, lhs), target, store)
  }

  /** Every leaf of the rebound expression comes from a leaf. */
  lemma {:induction false} ReboundLeaf(e1: Expr<Object>, l1: Object, e: Expr<Object>, lhs: Object, o: Object)
    returns (i: nat)
    requires o in Leaves(Rebound(e1, l1, e, lhs))
    ensures i < |Leaves(e1)| && o == Bound(e1, l1, e, lhs)(Leaves(e1)[i])
  {
    var d := Rebound(e1, l1, e, lhs);
    LeavesOfMap(e1, Bound(e1, l1, e, lhs));
    i :| 0 <= i < |Leaves(d)| && Leaves(d)[i] == o;
  }

  lemma {:induction false} BoundInvolved(e1: Expr<Object>, l1: Object, e: Expr<Object>, lhs: Object, o: Object)
    requires (o == l1 || o in Leaves(e1)) && |Params(e1, l1)| <= |Params(e, lhs)|
    ensures var k := PositionOr(Ptrs(Params(e1, l1)), o.addr);
      k < |Params(e1, l1)| && Bound(e1, l1, e, lhs)(o) == Params(e, lhs)[k].obj
    ensures Bound(e1, l1, e, lhs)(o) == lhs || Bound(e1, l1, e, lhs)(o) in Leaves(e)
  {
    hide Params, PositionOr;
    PositionOfInvolved(e1, l1, o);
    ParamIsInvolved(e, lhs, PositionOr(Ptrs(Params(e1, l1)), o.addr));
  }

  /** The rebound assignment involves exactly the first objects of the new one, one for each parameter. */
  lemma {:induction false} ReboundObjects(e1: Expr<Object>, l1: Object, e: Expr<Object>, lhs: Object, x: Address)
    requires |Params(e1, l1)| <= |Params(e, lhs)|
    ensures Occurs(Rebound(e1, l1, e, lhs), Bound(e1, l1, e, lhs)(l1).addr, x)
       <==> x in Ptrs(Params(e, lhs))[..|Params(e1, l1)|]
  {
    hide Params, PositionOr, Rebound;
    var d, target := Rebound(e1, l1, e, lhs), Bound(e1, l1, e, lhs)(l1);
    if Occurs(d, target.addr, x) {
      var o := l1;
      if x != target.addr {
        var p :| p in Leaves(d) && p.addr == x;
        var i := ReboundLeaf(e1, l1, e, lhs, p);
        o := Leaves(e1)[i];
      }
      BoundInvolved(e1, l1, e, lhs, o);
      assert Ptrs(Params(e, lhs))[..|Params(e1, l1)|][PositionOr(Ptrs(Params(e1, l1)), o.addr)] == x;
    }
    if x in Ptrs(Params(e, lhs))[..|Params(e1, l1)|] {
      var k :| 0 <= k < |Params(e1, l1)| && Ptrs(Params(e, lhs))[..|Params(e1, l1)|][k] == x;
      ParamIsInvolved(e1, l1, k);
      var o := Params(e1, l1)[k].obj;
      BoundInvolved(e1, l1, e, lhs, o);
      if o != l1 {
        var i :| 0 <= i < |Leaves(e1)| && Leaves(e1)[i] == o;
        BoundIsLeaf(e1, l1, e, lhs, i);
      }
    }
  }

  lemma {:induction false} BoundIsLeaf(e1: Expr<Object>, l1: Object, e: Expr<Object>, lhs: Object, i: nat)
    requires i < |Leaves(e1)|
    ensures Bound(e1, l1, e, lhs)(Leaves(e1)[i]) in Leaves(Rebound(e1, l1, e, lhs))
  {
    LeavesOfMap(e1, Bound(e1, l1, e, lhs));
    assert Leaves(Rebound(e1, l1, e, lhs))[i] == Bound(e1, l1, e, lhs)(Leaves(e1)[i]);
  }

  /** So it has these as parameters. */
  lemma {:induction false} ReboundParams(e1: Expr<Object>, l1: Object, e: Expr<Object>, lhs: Object, store: Store)
    requires Rebindable(e1, l1, e, lhs, store)
    ensures var d, target := Rebound(e1, l1, e, lhs), Bound(e1, l1, e, lhs)(l1);
      && Ptrs(Params(d, target)) == Ptrs(Params(e, lhs))[..|Params(e1, l1)|]
      && |Params(d, target)| == |Params(e1, l1)|
      && forall k :: 0 <= k < |Params(e1, l1)| ==> Params(d, target)[k].obj == Params(e, lhs)[k].obj
  {
    hide Params, PositionOr, WellStored, Coherent, Rebound, Bound, Bind, Occurs;
    var d, target := Rebound(e1, l1, e, lhs), Bound(e1, l1, e, lhs)(l1);
    var ptrs := Ptrs(Params(e, lhs))[..|Params(e1, l1)|];
    ParamsAre(d, target);
    ParamsAre(e, lhs);
    forall x ensures x in Ptrs(Params(d, target)) <==> x in ptrs {
      ReboundObjects(e1, l1, e, lhs, x);
    }
    IncreasingIsUnique(Ptrs(Params(d, target)), ptrs);
    forall k | 0 <= k < |Params(e1, l1)| ensures Params(d, target)[k].obj == Params(e, lhs)[k].obj {
      assert Ptrs(Params(d, target))[k] == ptrs[k] == Ptrs(Params(e, lhs))[k];
      ReboundObject(e1, l1, e, lhs, store, k);
    }
  }

  lemma {:induction false} ReboundObject(e1: Expr<Object>, l1: Object, e: Expr<Object>, lhs: Object, store: Store,
            k: nat)
    requires Rebindable(e1, l1, e, lhs, store)
    requires var d, target := Rebound(e1, l1, e, lhs), Bound(e1, l1, e, lhs)(l1);
      && k < |Params(e, lhs)| && k < |Params(d, target)|
      && Params(d, target)[k].obj.addr == Params(e, lhs)[k].obj.addr
    ensures Params(Rebound(e1, l1, e, lhs), Bound(e1, l1, e, lhs)(l1))[k].obj == Params(e, lhs)[k].obj
  {
    hide Params, PositionOr, WellStored, Rebound, Bound;
    var d, target := Rebound(e1, l1, e, lhs), Bound(e1, l1, e, lhs)(l1);
    ParamIsInvolved(d, target, k);
    ParamIsInvolved(e, lhs, k);
    var o := Params(d, target)[k].obj;
    if o == target {
      BoundInvolved(e1, l1, e, lhs, l1);
    } else {
      var i := ReboundLeaf(e1, l1, e, lhs, o);
      BoundInvolved(e1, l1, e, lhs, Leaves(e1)[i]);
    }
  }

  /** The kernel is the one that the rebound assignment would get. */
  lemma {:induction false} ReboundPattern(e1: Expr<Object>, l1: Object, e: Expr<Object>, lhs: Object, store: Store)
    requires Rebindable(e1, l1, e, lhs, store)
    ensures SamePattern(e1, l1, Rebound(e1, l1, e, lhs), Bound(e1, l1, e, lhs)(l1))
  {
    hide Params, PositionOr, WellStored, SameOrder, Rebound, Bound, Conforms, Occurs;
    var bound, d := Bound(e1, l1, e, lhs), Rebound(e1, l1, e, lhs);
    ReboundParams(e1, l1, e, lhs, store);
    var p, q := Addresses(e1) + [l1.addr], Addresses(d) + [bound(l1).addr];
    assert |Leaves(d)| == |Leaves(e1)|
      && forall i :: 0 <= i < |Leaves(e1)| ==> Leaves(d)[i] == bound(Leaves(e1)[i]) by {
      ReboundLeaves(e1, l1, e, lhs);
    }
    forall i | 0 <= i < |p|
      ensures PositionOr(Ptrs(Params(e1, l1)), p[i]) == PositionOr(Ptrs(Params(d, bound(l1))), q[i])
    {
      var o := if i < |Leaves(e1)| then Leaves(e1)[i] else l1;
      assert p[i] == o.addr && q[i] == bound(o).addr;
      BoundInvolved(e1, l1, e, lhs, o);
      ParamIsInvolved(d, bound(l1), PositionOr(Ptrs(Params(e1, l1)), o.addr));
    }
    SameByPositions(e1, l1, d, bound(l1), p, q);
  }

  lemma {:induction false} ReboundLeaves(e1: Expr<Object>, l1: Object, e: Expr<Object>, lhs: Object)
    ensures |Leaves(Rebound(e1, l1, e, lhs))| == |Leaves(e1)|
    ensures forall i :: 0 <= i < |Leaves(e1)| ==>
      Leaves(Rebound(e1, l1, e, lhs))[i] == Bound(e1, l1, e, lhs)(Leaves(e1)[i])
  {
    LeavesOfMap(e1, Bound(e1, l1, e, lhs));
  }

  /** The new assignment is rebound to itself exactly when the patterns are the same. */
  lemma {:induction false} PatternIffRebound(e1: Expr<Object>, l1: Object, e: Expr<Object>, lhs: Object)
    requires Coherent(e1, l1) && Coherent(e, lhs) && TypeOf(e1) == TypeOf(e)
    ensures SamePattern(e1, l1, e, lhs) <==>
      |Params(e1, l1)| <= |Params(e, lhs)| && Rebound(e1, l1, e, lhs) == e && Bound(e1, l1, e, lhs)(l1) == lhs
  {
    hide Params, PositionOr, SamePattern;
    if SamePattern(e1, l1, e, lhs) {
      var bound, d := Bound(e1, l1, e, lhs), Rebound(e1, l1, e, lhs);
      SamePositions(e1, l1, e, lhs);
      ReboundRearranges(e1, l1, e, lhs);
      ReboundLeaves(e1, l1, e, lhs);
      ObjectAt(e, lhs, lhs);
      forall i | 0 <= i < |Leaves(d)| ensures Leaves(d)[i] == Leaves(e)[i] {
        ObjectAt(e, lhs, Leaves(e)[i]);
      }
      SameLeavesSameTree(d, e);
    } else if |Params(e1, l1)| <= |Params(e, lhs)| && Rebound(e1, l1, e, lhs) == e {
      if Bound(e1, l1, e, lhs)(l1) == lhs {
        ReboundTellsPattern(e1, l1, e, lhs);
      }
    }
  }

  // ---- launches of the rebound assignment

  /** Its own arguments: the first objects, and the sizes. */
  function ReboundArgs(e1: Expr<Object>, l1: Object, e: Expr<Object>, lhs: Object): (args: seq<Arg>)
    requires |Params(e1, l1)| <= |Params(e, lhs)| && lhs.Array? && lhs.shape != []
  {
    Bind(e, lhs)[..|Params(e1, l1)|] + Bind(e, lhs)[|Params(e, lhs)|..]
  }

  lemma {:induction false} ReboundBind(e1: Expr<Object>, l1: Object, e: Expr<Object>, lhs: Object, store: Store)
    requires Rebindable(e1, l1, e, lhs, store)
    ensures Bind(Rebound(e1, l1, e, lhs), Bound(e1, l1, e, lhs)(l1)) == ReboundArgs(e1, l1, e, lhs)
  {
    hide Params, PositionOr, WellStored, Coherent, Rebound, Bound, Bind;
    var d, target := Rebound(e1, l1, e, lhs), Bound(e1, l1, e, lhs)(l1);
    ReboundParams(e1, l1, e, lhs, store);
    forall k | 0 <= k < |Bind(d, target)| ensures Bind(d, target)[k] == ReboundArgs(e1, l1, e, lhs)[k] {
      BindAt(d, target, k);
      BindAt(e, lhs, if k < |Params(e1, l1)| then k else k + |Params(e, lhs)| - |Params(e1, l1)|);
    }
  }

  lemma {:induction false} ReboundLaunch(e1: Expr<Object>, l1: Object, guarded: bool, e: Expr<Object>, lhs: Object,
            store: Store, alg: Algebra, r: nat, schedule: seq<nat>)
    requires Rebindable(e1, l1, e, lhs, store)
    requires Product(lhs.shape) <= r && (guarded || r == Product(lhs.shape))
    requires forall k :: 0 <= k < |schedule| ==> schedule[k] < r
    ensures Agrees(Rebound(e1, l1, e, lhs), Bound(e1, l1, e, lhs)(l1), store, alg,
                   Run(Canonical(e1, l1, guarded), ReboundArgs(e1, l1, e, lhs), alg, Begin(store, r), schedule))
  {
    hide Params, Canonical, Bind, Run, Agrees, SamePattern, WellStored, Rebound, Bound, ReboundArgs;
    var d, target := Rebound(e1, l1, e, lhs), Bound(e1, l1, e, lhs)(l1);
    ReboundPattern(e1, l1, e, lhs, store);
    SamePatternSameProgram(e1, l1, d, target, guarded);
    ReboundBind(e1, l1, e, lhs, store);
    LaunchAgrees(d, target, store, alg, guarded, r, schedule);
  }

  /** The rebound assignment exists and leaves what the new one leaves. */
  ghost predicate MakesSame(e1: Expr<Object>, l1: Object, e: Expr<Object>, lhs: Object, store: Store, alg: Algebra) {
    && |Params(e1, l1)| <= |Params(e, lhs)|
    && var target := Bound(e1, l1, e, lhs)(l1);
      lhs.Array? && target.Array?
      && HostStore(Rebound(e1, l1, e, lhs), target, store, alg) == HostStore(e, lhs, store, alg)
  }

  /** A launch with the rebound assignment's arguments. */
  lemma {:induction false} ReboundIff(e1: Expr<Object>, l1: Object, guarded: bool, e: Expr<Object>, lhs: Object,
            store: Store, alg: Algebra, r: nat, schedule: seq<nat>)
    requires Rebindable(e1, l1, e, lhs, store)
    requires Product(lhs.shape) <= r && (guarded || r == Product(lhs.shape))
    requires forall k :: 0 <= k < |schedule| ==> schedule[k] < r
    ensures var t := Run(Canonical(e1, l1, guarded), ReboundArgs(e1, l1, e, lhs), alg, Begin(store, r), schedule);
      && t.Some?
      && (MakesSame(e1, l1, e, lhs, store, alg) ==> Agrees(e, lhs, store, alg, t))
      && (Complete(t.value) && Agrees(e, lhs, store, alg, t) ==> MakesSame(e1, l1, e, lhs, store, alg))
  {
    hide Params, Canonical, Run, WellStored, Coherent, Rebound, Bound, Complete, HostStore, ReboundArgs;
    ReboundLaunch(e1, l1, guarded, e, lhs, store, alg, r, schedule);
  }

  // ---- as many objects as parameters

  /** Objects that fit are of the right kinds. */
  lemma {:induction false} RebindableKinds(e1: Expr<Object>, l1: Object, e: Expr<Object>, lhs: Object, store: Store)
    requires Rebindable(e1, l1, e, lhs, store) && Shaped(e1)
    ensures KindsMatch(e1, l1, e, lhs)
  {
    hide Params, WellStored, PositionOr, Rebound, Bound, TypeOf;
    var d, bound := Rebound(e1, l1, e, lhs), Bound(e1, l1, e, lhs);
    forall k | 0 <= k < |Params(e1, l1)| ensures KindOf(Params(e1, l1)[k].obj) == KindOf(Params(e, lhs)[k].obj) {
      ParamIsInvolved(e1, l1, k);
      var o := Params(e1, l1)[k].obj;
      BoundInvolved(e1, l1, e, lhs, o);
      if o != l1 {
        var i :| 0 <= i < |Leaves(e1)| && Leaves(e1)[i] == o;
        ReboundLeaves(e1, l1, e, lhs);
        SameLeafRanks(d, e1, i);
        assert Leaves(d)[i] in Leaves(d);
      }
    }
  }

  /** An unguarded kernel that never faults on the rebound assignment had a size without padding. */
  lemma {:induction false} UnguardedFits(e1: Expr<Object>, l1: Object, size1: nat, e: Expr<Object>, lhs: Object,
            store: Store, alg: Algebra)
    requires NamesFit(e1, l1) && Rebindable(e1, l1, e, lhs, store) && size1 % 256 == 0
    requires NeverFaults(Resolve(Generate(e1, l1, size1)), ReboundArgs(e1, l1, e, lhs), alg, store,
                         RoundUp(Product(lhs.shape)))
    ensures Product(lhs.shape) % 256 == 0
  {
    hide Params, Canonical, Bind, Run, WellStored, Coherent, Rebound, Bound, Resolve, Generate, NeverFaults,
         SamePattern, ReboundArgs;
    ReboundPattern(e1, l1, e, lhs, store);
    ReboundBind(e1, l1, e, lhs, store);
    CachedKernelIff(e1, l1, size1, Rebound(e1, l1, e, lhs), Bound(e1, l1, e, lhs)(l1), store, alg);
  }

  /** With the rebound assignment's arguments a kernel is right exactly when that leaves the same arrays, and it has
      the guard or the new size needs no padding. */
  lemma {:induction false} RightIff(e1: Expr<Object>, l1: Object, size1: nat, e: Expr<Object>, lhs: Object,
            store: Store, alg: Algebra)
    requires NamesFit(e1, l1) && Rebindable(e1, l1, e, lhs, store)
    ensures AlwaysAgrees(Resolve(Generate(e1, l1, size1)), ReboundArgs(e1, l1, e, lhs), e, lhs, store, alg)
       <==> MakesSame(e1, l1, e, lhs, store, alg) && (size1 % 256 != 0 || Product(lhs.shape) % 256 == 0)
  {
    hide AlwaysAgrees, MakesSame, WellStored, Coherent, Params, Rebound, Bound, Resolve, Generate, ReboundArgs,
         NamesFit;
    if AlwaysAgrees(Resolve(Generate(e1, l1, size1)), ReboundArgs(e1, l1, e, lhs), e, lhs, store, alg) {
      RightOnlyIf(e1, l1, size1, e, lhs, store, alg);
    }
    if MakesSame(e1, l1, e, lhs, store, alg) && (size1 % 256 != 0 || Product(lhs.shape) % 256 == 0) {
      RightIf(e1, l1, size1, e, lhs, store, alg);
    }
  }

  lemma {:induction false} RightOnlyIf(e1: Expr<Object>, l1: Object, size1: nat, e: Expr<Object>, lhs: Object,
            store: Store, alg: Algebra)
    requires NamesFit(e1, l1) && Rebindable(e1, l1, e, lhs, store)
    requires AlwaysAgrees(Resolve(Generate(e1, l1, size1)), ReboundArgs(e1, l1, e, lhs), e, lhs, store, alg)
    ensures MakesSame(e1, l1, e, lhs, store, alg) && (size1 % 256 != 0 || Product(lhs.shape) % 256 == 0)
  {
    hide Params, Canonical, Bind, Run, WellStored, Coherent, Rebound, Bound, Resolve, Generate, NeverFaults, Complete,
         Agrees, MakesSame, RoundUp, ReboundArgs, TypeOf, NamesFit;
    var p, args, r := Resolve(Generate(e1, l1, size1)), ReboundArgs(e1, l1, e, lhs), RoundUp(Product(lhs.shape));
    ResolvesToCanonical(e1, l1, size1);
    GuardIsForPadding(size1);
    GuardIsForPadding(Product(lhs.shape));
    AgreeingNeverFaults(p, args, e, lhs, store, alg);
    if size1 % 256 == 0 { UnguardedFits(e1, l1, size1, e, lhs, store, alg); }
    var schedule := SomeCompletes(p, args, alg, store, r);
    ReboundIff(e1, l1, size1 != RoundUp(size1), e, lhs, store, alg, r, schedule);
  }

  lemma {:induction false} RightIf(e1: Expr<Object>, l1: Object, size1: nat, e: Expr<Object>, lhs: Object,
            store: Store, alg: Algebra)
    requires NamesFit(e1, l1) && Rebindable(e1, l1, e, lhs, store)
    requires MakesSame(e1, l1, e, lhs, store, alg) && (size1 % 256 != 0 || Product(lhs.shape) % 256 == 0)
    ensures AlwaysAgrees(Resolve(Generate(e1, l1, size1)), ReboundArgs(e1, l1, e, lhs), e, lhs, store, alg)
  {
    hide Params, Canonical, Bind, Run, WellStored, Coherent, Rebound, Bound, Resolve, Generate, Agrees, MakesSame,
         RoundUp, ReboundArgs, TypeOf, NamesFit;
    var p, args, r := Resolve(Generate(e1, l1, size1)), ReboundArgs(e1, l1, e, lhs), RoundUp(Product(lhs.shape));
    ResolvesToCanonical(e1, l1, size1);
    GuardIsForPadding(size1);
    GuardIsForPadding(Product(lhs.shape));
    forall schedule: seq<nat> | forall k :: 0 <= k < |schedule| ==> schedule[k] < r
      ensures Agrees(e, lhs, store, alg, Run(p, args, alg, Begin(store, r), schedule))
    {
      ReboundIff(e1, l1, size1 != RoundUp(size1), e, lhs, store, alg, r, schedule);
    }
  }

  lemma {:induction false} AllArgs(e1: Expr<Object>, l1: Object, e: Expr<Object>, lhs: Object)
    requires |Params(e1, l1)| == |Params(e, lhs)| && lhs.Array? && lhs.shape != []
    ensures ReboundArgs(e1, l1, e, lhs) == Bind(e, lhs)
  {
  }

  /**
   * As many objects as parameters, of any shapes that fit: a kept kernel agrees with the host loop under every
   * schedule exactly when the rebound assignment leaves what the new one leaves, and it has the guard or the new
   * size needs no padding.
   */
  lemma {:induction false} KeptKernelIff(e1: Expr<Object>, l1: Object, size1: nat, earlier: seq<Arg>, e: Expr<Object>,
            lhs: Object, abi: Abi, store: Store, alg: Algebra)
    requires Kept(e1, l1, earlier, e, lhs) && Rebindable(e1, l1, e, lhs, store)
    requires |Params(e1, l1)| == |Params(e, lhs)|
    ensures KeptAgrees(e1, l1, size1, earlier, e, lhs, abi, store, alg)
       <==> MakesSame(e1, l1, e, lhs, store, alg) && (size1 % 256 != 0 || Product(lhs.shape) % 256 == 0)
  {
    hide Params, Bind, WellStored, Resolve, Generate, MakesSame, Slots, Kinds, HasKind, TypeOf, KindsMatch, NamesFit,
         AlwaysAgrees, ReboundArgs, Rebound, Bound;
    RebindableKinds(e1, l1, e, lhs, store);
    EqualCountBinds(e1, l1, earlier, e, lhs, abi);
    AllArgs(e1, l1, e, lhs);
    RightIff(e1, l1, size1, e, lhs, store, alg);
  }
}
