/** The static kernel of evaluate: reuse over later assignments of the same expression type. */
module CleteCache {

  import opened Basics
  import opened CleteTree
  import opened CleteIndex
  import opened CleteHost
  import opened CleteNames
  import opened CleteLists
  import opened CleteKernel
  import opened CleteCompile
  import opened CletePattern
  import opened CleteLaunch
  import opened CleteTheorems

  // ---- which assignments share a program

  lemma {:induction false} PositionsOrder(s: seq<Address>, p: seq<Address>, i: nat, j: nat)
    requires SortedSetOf(s, p) && i < |p| && j < |p|
    ensures PositionOr(s, p[i]) < |s| && PositionOr(s, p[j]) < |s|
    ensures p[i] < p[j] <==> PositionOr(s, p[i]) < PositionOr(s, p[j])
  {
    assert p[i] in p && p[j] in p;
    var a, b := PositionOr(s, p[i]), PositionOr(s, p[j]);
    assert s[a] == p[i] && s[b] == p[j];
    assert a < b ==> s[a] < s[b];
    assert b < a ==> s[b] < s[a];
  }

  /** Equal programs read each leaf, and store, through the same parameters. */
  lemma {:induction false} SameProgramPositions(e1: Expr<Object>, l1: Object, e2: Expr<Object>, l2: Object,
            guarded: bool, i: nat)
    requires Coherent(e1, l1) && Coherent(e2, l2) && i < |Leaves(e1)| == |Leaves(e2)|
    requires Canonical(e1, l1, guarded) == Canonical(e2, l2, guarded)
    ensures PositionOr(Ptrs(Params(e1, l1)), Leaves(e1)[i].addr) == PositionOr(Ptrs(Params(e2, l2)), Leaves(e2)[i].addr)
  {
    var b1, b2 := Canonical(e1, l1, guarded), Canonical(e2, l2, guarded);
    LeavesOfMap(e1, AddressIn(Ptrs(Reads(e1, l1))));
    LeavesOfMap(e2, AddressIn(Ptrs(Reads(e2, l2))));
    var k := Leaves(b1.body)[i];
    assert k == PositionOr(Ptrs(Reads(e1, l1)), Leaves(e1)[i].addr);
    assert k == PositionOr(Ptrs(Reads(e2, l2)), Leaves(e2)[i].addr);
    ReadOfLeaf(e1, l1, i);
    ReadOfLeaf(e2, l2, i);
    assert b1.loads[k].pos == b2.loads[k].pos;
  }

  /** Two assignments of one type share a program exactly when their addresses have the same pattern. */
  lemma {:induction false} ProgramIffPattern(e1: Expr<Object>, l1: Object, e2: Expr<Object>, l2: Object, guarded: bool)
    requires Coherent(e1, l1) && Coherent(e2, l2) && TypeOf(e1) == TypeOf(e2)
    ensures Canonical(e1, l1, guarded) == Canonical(e2, l2, guarded) <==> SamePattern(e1, l1, e2, l2)
  {
    if SamePattern(e1, l1, e2, l2) {
      SamePatternSameProgram(e1, l1, e2, l2, guarded);
    }
    if Canonical(e1, l1, guarded) == Canonical(e2, l2, guarded) {
      SameProgramSamePattern(e1, l1, e2, l2, guarded);
    }
  }

  lemma {:induction false} SameProgramSamePattern(e1: Expr<Object>, l1: Object, e2: Expr<Object>, l2: Object,
            guarded: bool)
    requires Coherent(e1, l1) && Coherent(e2, l2) && TypeOf(e1) == TypeOf(e2)
    requires Canonical(e1, l1, guarded) == Canonical(e2, l2, guarded)
    ensures SamePattern(e1, l1, e2, l2)
  {
    hide Params, Reads, PositionOr, SameOrder, Coherent;
    var p, q := Addresses(e1) + [l1.addr], Addresses(e2) + [l2.addr];
    var s, t := Ptrs(Params(e1, l1)), Ptrs(Params(e2, l2));
    LeavesOfMap(e1, RankOf());
    LeavesOfMap(e2, RankOf());
    assert Canonical(e1, l1, guarded).target == Canonical(e2, l2, guarded).target;
    forall i | 0 <= i < |p| ensures PositionOr(s, p[i]) == PositionOr(t, q[i]) {
      if i < |Leaves(e1)| {
        SameProgramPositions(e1, l1, e2, l2, guarded, i);
        assert p[i] == Leaves(e1)[i].addr && q[i] == Leaves(e2)[i].addr;
      } else {
        assert p[i] == l1.addr && q[i] == l2.addr;
      }
    }
    SameByPositions(e1, l1, e2, l2, p, q);
  }

  lemma {:induction false} SameByPositions(e1: Expr<Object>, l1: Object, e2: Expr<Object>, l2: Object,
            p: seq<Address>, q: seq<Address>)
    requires p == Addresses(e1) + [l1.addr] && q == Addresses(e2) + [l2.addr] && |p| == |q|
    requires forall i :: 0 <= i < |p| ==>
      PositionOr(Ptrs(Params(e1, l1)), p[i]) == PositionOr(Ptrs(Params(e2, l2)), q[i])
    ensures SameOrder(p, q)
  {
    hide Params;
    AddressLists(e1, l1);
    AddressLists(e2, l2);
    forall i, j | 0 <= i < |p| && 0 <= j < |p| ensures p[i] < p[j] <==> q[i] < q[j] {
      PositionsOrder(Ptrs(Params(e1, l1)), p, i, j);
      PositionsOrder(Ptrs(Params(e2, l2)), q, i, j);
    }
  }

  // ---- the guard

  lemma {:induction false} GuardIsForPadding(size: nat)
    ensures size != RoundUp(size) <==> size % 256 != 0
  {
  }

  /** No interleaving faults. */
  ghost predicate NeverFaults(p: Program, args: seq<Arg>, alg: Algebra, store: Store, r: nat) {
    forall schedule: seq<nat> | (forall k :: 0 <= k < |schedule| ==> schedule[k] < r) ::
      Run(p, args, alg, Begin(store, r), schedule).Some?
  }

  /** An unguarded item past the end of the left-hand side: after n steps it has faulted or is still on its way. */
  lemma {:induction false} Overrun(p: Program, args: seq<Arg>, alg: Algebra, store: Store, r: nat, g: nat, n: nat)
    requires !p.guarded && g < r && n <= |p.loads|
    ensures var t := Run(p, args, alg, Begin(store, r), seq(n, _ => g));
      t.None? || (t.value.store == store && !t.value.items[g].done && |t.value.items[g].loaded| == n)
  {
    if n > 0 {
      Overrun(p, args, alg, store, r, g, n - 1);
      assert seq(n, _ => g)[..n - 1] == seq(n - 1, _ => g);
    }
  }

  lemma {:induction false} OverrunFaults(p: Program, args: seq<Arg>, alg: Algebra, store: Store, r: nat, g: nat)
    requires !p.guarded && g < r
    requires p.target < |args| && args[p.target].Buffer? && args[p.target].addr in store
    requires |store[args[p.target].addr]| <= g
    ensures !NeverFaults(p, args, alg, store, r)
  {
    var n := |p.loads|;
    Overrun(p, args, alg, store, r, g, n);
    var schedule: seq<nat> := seq(n + 1, _ => g);
    assert schedule[..n] == seq(n, _ => g);
    assert Run(p, args, alg, Begin(store, r), schedule).None?;
  }

  /** Every interleaving agrees with the host loop. */
  ghost predicate AlwaysAgrees(p: Program, args: seq<Arg>, e: Expr<Object>, lhs: Object, store: Store, alg: Algebra)
    requires lhs.Array? && lhs.shape != []
  {
    var r := RoundUp(Product(lhs.shape));
    forall schedule: seq<nat> | (forall k :: 0 <= k < |schedule| ==> schedule[k] < r) ::
      Agrees(e, lhs, store, alg, Run(p, args, alg, Begin(store, r), schedule))
  }

  lemma {:induction false} ReuseAgrees(e: Expr<Object>, lhs: Object, store: Store, alg: Algebra, guarded: bool)
    requires Assignment(e, lhs, store) && (guarded || Product(lhs.shape) % 256 == 0)
    ensures AlwaysAgrees(Canonical(e, lhs, guarded), Bind(e, lhs), e, lhs, store, alg)
    ensures NeverFaults(Canonical(e, lhs, guarded), Bind(e, lhs), alg, store, RoundUp(Product(lhs.shape)))
  {
    hide Canonical, Bind, Run, Agrees;
    var p, r := Canonical(e, lhs, guarded), RoundUp(Product(lhs.shape));
    forall schedule: seq<nat> | forall k :: 0 <= k < |schedule| ==> schedule[k] < r
      ensures Agrees(e, lhs, store, alg, Run(p, Bind(e, lhs), alg, Begin(store, r), schedule))
      ensures Run(p, Bind(e, lhs), alg, Begin(store, r), schedule).Some?
    {
      LaunchAgrees(e, lhs, store, alg, guarded, r, schedule);
      AgreeingRuns(e, lhs, store, alg, Run(p, Bind(e, lhs), alg, Begin(store, r), schedule));
    }
  }

  lemma {:induction false} AgreeingRuns(e: Expr<Object>, lhs: Object, store: Store, alg: Algebra, t: Option<Launch>)
    requires lhs.Array? && Agrees(e, lhs, store, alg, t)
    ensures t.Some?
  {
  }

  lemma {:induction false} ReuseFaults(e: Expr<Object>, lhs: Object, store: Store, alg: Algebra)
    requires Assignment(e, lhs, store) && Product(lhs.shape) % 256 != 0
    ensures !NeverFaults(Canonical(e, lhs, false), Bind(e, lhs), alg, store, RoundUp(Product(lhs.shape)))
  {
    ArgOfObject(e, lhs, lhs);
    OverrunFaults(Canonical(e, lhs, false), Bind(e, lhs), alg, store, RoundUp(Product(lhs.shape)), Product(lhs.shape));
  }

  /** The kernel of an earlier assignment is the one the new assignment would get, up to the guard. */
  lemma {:induction false} CachedProgram(e1: Expr<Object>, l1: Object, size1: nat, e: Expr<Object>, lhs: Object)
    requires Coherent(e1, l1) && Coherent(e, lhs) && NamesFit(e1, l1) && SamePattern(e1, l1, e, lhs)
    ensures Resolve(Generate(e1, l1, size1)) == Canonical(e, lhs, size1 % 256 != 0)
  {
    hide Canonical, Generate, Resolve, SamePattern;
    GuardIsForPadding(size1);
    ResolvesToCanonical(e1, l1, size1);
    SamePatternSameProgram(e1, l1, e, lhs, size1 % 256 != 0);
  }

  /**
   * A kernel generated for one assignment and reused for another of the same pattern: it runs without a fault
   * exactly when its text has the guard or the new size needs no padding, and then agrees with the host loop.
   */
  lemma {:induction false} CachedKernelIff(e1: Expr<Object>, l1: Object, size1: nat, e: Expr<Object>, lhs: Object,
            store: Store, alg: Algebra)
    requires Coherent(e1, l1) && NamesFit(e1, l1)
    requires Assignment(e, lhs, store) && SamePattern(e1, l1, e, lhs)
    ensures size1 % 256 != 0 || Product(lhs.shape) % 256 == 0 <==>
      NeverFaults(Resolve(Generate(e1, l1, size1)), Bind(e, lhs), alg, store, RoundUp(Product(lhs.shape)))
    ensures size1 % 256 != 0 || Product(lhs.shape) % 256 == 0 <==>
      AlwaysAgrees(Resolve(Generate(e1, l1, size1)), Bind(e, lhs), e, lhs, store, alg)
  {
    hide Canonical, Generate, Resolve, SamePattern, NeverFaults, AlwaysAgrees, Bind;
    CachedProgram(e1, l1, size1, e, lhs);
    if size1 % 256 != 0 || Product(lhs.shape) % 256 == 0 {
      ReuseAgrees(e, lhs, store, alg, size1 % 256 != 0);
    } else {
      ReuseFaults(e, lhs, store, alg);
      if AlwaysAgrees(Canonical(e, lhs, false), Bind(e, lhs), e, lhs, store, alg) {
        AgreeingNeverFaults(Canonical(e, lhs, false), Bind(e, lhs), e, lhs, store, alg);
      }
    }
  }

  lemma {:induction false} AgreeingNeverFaults(p: Program, args: seq<Arg>, e: Expr<Object>, lhs: Object, store: Store,
            alg: Algebra)
    requires lhs.Array? && lhs.shape != [] && AlwaysAgrees(p, args, e, lhs, store, alg)
    ensures NeverFaults(p, args, alg, store, RoundUp(Product(lhs.shape)))
  {
    hide Run;
  }
}
