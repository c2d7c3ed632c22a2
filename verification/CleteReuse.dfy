/** The static kernel reused for an assignment of another address pattern: what its first work item gives away. */
module CleteReuse {

  import opened Basics
  import opened CleteTree
  import opened CleteIndex
  import opened CleteHost
  import opened CleteNames
  import opened CleteLists
  import opened CleteKernel
  import opened CleteCompile
  import opened CletePattern
  import opened CleteLaunch
  import opened CleteTheorems
  import opened CleteArgs
  import opened CleteCache

  // ---- the first work item of any program on any arguments

  /** The same arrays, with the same first cells. */
  ghost predicate SameFirsts(s: Store, t: Store) {
    && s.Keys == t.Keys
    && forall a :: a in s ==> (|s[a]| > 0 <==> |t[a]| > 0) && (|s[a]| > 0 ==> s[a][0] == t[a][0])
  }

  lemma {:induction false} DivChainOfZero(sizes: seq<nat>)
    requires Positive(sizes)
    ensures DivChain(0, sizes) == 0
    decreases |sizes|
  {
    if sizes != [] {
      DivChainOfZero(sizes[1..]);
    }
  }

  /** Work item 0 loads first cells only. */
  lemma {:induction false} LoadsFirsts(l: Load, args: seq<Arg>, arity: nat, s: Store, t: Store)
    requires arity <= |args| && SameFirsts(s, t)
    ensures LoadValue(l, args, arity, 0, s) == LoadValue(l, args, arity, 0, t)
  {
    FirstIndex(l.rank, Sizes(args, arity));
  }

  lemma {:induction false} FirstIndex(d: nat, sizes: seq<nat>)
    ensures IndexFor(d, sizes, 0).Some? ==> IndexFor(d, sizes, 0).value == 0
  {
    if 1 <= d <= |sizes| && Positive(sizes[d..]) {
      DivChainOfZero(sizes[d..]);
    }
  }

  predicate IsTarget(p: Program, args: seq<Arg>, a: Address) { p.target < |args| && args[p.target] == Buffer(a) }

  /** Only the target array changes. */
  ghost predicate OnlyTarget(p: Program, args: seq<Arg>, store: Store, now: Store) {
    && now.Keys == store.Keys
    && forall a :: a in store && !IsTarget(p, args, a) ==> now[a] == store[a]
  }

  ghost predicate FirstStored(p: Program, args: seq<Arg>, alg: Algebra, now: Store, loaded: seq<Elem>) {
    && |loaded| == |p.loads|
    && p.target < |args| && args[p.target].Buffer?
    && var a := args[p.target].addr;
      a in now && |now[a]| > 0 && now[a][0] == BodyValue(p.body, loaded, alg)
  }

  /** Whatever the interleaving, item 0 loads what the arrays held before the launch, and the first
      cell of the target is its own. */
  ghost predicate FirstItem(p: Program, args: seq<Arg>, alg: Algebra, store: Store, s: Launch)
    requires p.arity <= |args| && s.items != []
  {
    var it := s.items[0];
    && OnlyTarget(p, args, store, s.store)
    && |it.loaded| <= |p.loads|
    && (forall k :: 0 <= k < |it.loaded| ==> LoadValue(p.loads[k], args, p.arity, 0, store) == Some(it.loaded[k]))
    && if 0 in s.written then it.done && FirstStored(p, args, alg, s.store, it.loaded) else SameFirsts(store, s.store)
  }

  lemma {:induction false} FirstLoads(p: Program, args: seq<Arg>, alg: Algebra, store: Store, s: Launch)
    requires p.arity < |args| && s.items != [] && FirstItem(p, args, alg, store, s)
    requires !s.items[0].done && |s.items[0].loaded| < |p.loads|
    ensures var t := Tick(p, args, alg, s, 0); t.Some? ==> FirstItem(p, args, alg, store, t.value)
  {
    hide LoadValue, Sizes, StoreValue, BodyValue;
    LoadsFirsts(p.loads[|s.items[0].loaded|], args, p.arity, store, s.store);
  }

  lemma {:induction false} FirstStores(p: Program, args: seq<Arg>, alg: Algebra, store: Store, s: Launch)
    requires p.arity < |args| && s.items != [] && FirstItem(p, args, alg, store, s)
    requires !s.items[0].done && |s.items[0].loaded| == |p.loads|
    ensures var t := Tick(p, args, alg, s, 0); t.Some? ==> FirstItem(p, args, alg, store, t.value)
  {
    hide LoadValue, Sizes, BodyValue;
  }

  /** Another item's store misses the first cell. */
  lemma {:induction false} OtherStore(p: Program, args: seq<Arg>, g: nat, v: Elem, store: Store, now: Store)
    requires g > 0 && OnlyTarget(p, args, store, now) && StoreValue(p, args, g, v, now).Some?
    ensures var next := StoreValue(p, args, g, v, now).value;
      OnlyTarget(p, args, store, next) && SameFirsts(now, next)
  {
  }

  lemma {:induction false} OthersKeep(p: Program, args: seq<Arg>, alg: Algebra, store: Store, s: Launch, g: nat)
    requires p.arity < |args| && 0 < g < |s.items| && FirstItem(p, args, alg, store, s)
    ensures var t := Tick(p, args, alg, s, g); t.Some? ==> FirstItem(p, args, alg, store, t.value)
  {
    hide LoadValue, Sizes, BodyValue, StoreValue, OnlyTarget;
    var it := s.items[g];
    var v := BodyValue(p.body, it.loaded, alg);
    if StoreValue(p, args, g, v, s.store).Some? {
      OtherStore(p, args, g, v, store, s.store);
    }
  }

  lemma {:induction false} FirstKept(p: Program, args: seq<Arg>, alg: Algebra, store: Store, s: Launch, g: nat)
    requires p.arity < |args| && g < |s.items| && FirstItem(p, args, alg, store, s)
    ensures var t := Tick(p, args, alg, s, g); t.Some? ==> FirstItem(p, args, alg, store, t.value)
  {
    hide LoadValue, Sizes, BodyValue, StoreValue, OnlyTarget, FirstStored, SameFirsts;
    if g > 0 {
      OthersKeep(p, args, alg, store, s, g);
    } else if !s.items[0].done {
      if |s.items[0].loaded| < |p.loads| {
        FirstLoads(p, args, alg, store, s);
      } else {
        FirstStores(p, args, alg, store, s);
      }
    }
  }

  lemma {:induction false} FirstRun(p: Program, args: seq<Arg>, alg: Algebra, store: Store, r: nat, schedule: seq<nat>)
    requires p.arity < |args| && r > 0 && forall k :: 0 <= k < |schedule| ==> schedule[k] < r
    ensures var t := Run(p, args, alg, Begin(store, r), schedule);
      t.Some? ==> FirstItem(p, args, alg, store, t.value)
    decreases |schedule|
  {
    hide Tick, LoadValue;
    if schedule != [] {
      var n := |schedule| - 1;
      FirstRun(p, args, alg, store, r, schedule[..n]);
      var s := Run(p, args, alg, Begin(store, r), schedule[..n]);
      if s.Some? {
        FirstKept(p, args, alg, store, s.value, schedule[n]);
      }
    }
  }

  // ---- storage that tells objects apart

  /** The first cell of an array, or a scalar's value. */
  function First(o: Object, store: Store): Option<Elem> {
    match o
    case Scalar(_, v) => Some(v)
    case Array(a, _) => if a in store && |store[a]| > 0 then Some(store[a][0]) else None
  }

  /** The host's cell 0 is computed from the first cells. */
  lemma {:induction false} ReadIsFirst(e: Expr<Object>, lhs: Object, store: Store, junk: Elem, o: Object)
    requires Assignment(e, lhs, store) && Product(lhs.shape) > 0 && o in Leaves(e)
    ensures First(o, store) == Some(Read(o, Coord(lhs.shape, 0), store, junk))
  {
    if o.Array? {
      hide Coord, Flat;
      ReadsAreInside(e, lhs.addr, lhs.shape, store, 0, o);
      IndexIsHostIndex(e, lhs, store, 0, o);
      FirstIndex(Rank(o), Sizes(Bind(e, lhs), |Params(e, lhs)|));
    }
  }

  /** A load that succeeds in item 0 gives the first cell of the object bound there. */
  lemma {:induction false} LoadIsFirst(l: Load, args: seq<Arg>, arity: nat, o: Object, store: Store)
    requires arity <= |args| && l.pos < |args| && args[l.pos] == ArgOf(o)
    requires LoadValue(l, args, arity, 0, store).Some?
    ensures LoadValue(l, args, arity, 0, store) == First(o, store)
  {
    FirstIndex(l.rank, Sizes(args, arity));
  }

  lemma {:induction false} ParamIsInvolved(e: Expr<Object>, lhs: Object, k: nat)
    requires k < |Params(e, lhs)|
    ensures Params(e, lhs)[k].obj == lhs || Params(e, lhs)[k].obj in Leaves(e)
    ensures PositionOr(Ptrs(Params(e, lhs)), Params(e, lhs)[k].obj.addr) == k
  {
    ReadsAre(e, lhs);
    ParamsAre(e, lhs);
    var ptrs := Ptrs(Params(e, lhs));
    var x := Params(e, lhs)[k].obj.addr;
    assert Params(e, lhs)[k] in Params(e, lhs);
    assert ptrs[k] == x && x in ptrs;
    var m := IndexOf(ptrs, x);
    assert !(ptrs[m] < ptrs[k]) && !(ptrs[k] < ptrs[m]);
  }

  /** The object of the new assignment at the position that o has for the kernel. */
  function Bound(e1: Expr<Object>, l1: Object, e: Expr<Object>, lhs: Object): Object -> Object {
    (o: Object) =>
      var k := PositionOr(Ptrs(Params(e1, l1)), o.addr);
      if k < |Params(e, lhs)| then Params(e, lhs)[k].obj else lhs
  }

  /** The expression that a kernel of (e1, l1) makes of the arguments of (e, lhs). */
  function Rebound(e1: Expr<Object>, l1: Object, e: Expr<Object>, lhs: Object): Expr<Object> {
    MapLeaves(e1, Bound(e1, l1, e, lhs))
  }

  function FirstOr(store: Store, junk: Elem): Object -> Elem {
    (o: Object) => var v := First(o, store); if v.Some? then v.value else junk
  }

  /** The expression on first cells. */
  function FirstValue(e: Expr<Object>, store: Store, alg: Algebra): Elem {
    ForEach(e, FirstOr(store, alg.junk), alg.ops)
  }

  lemma {:induction false} FirstValueIsHost(e: Expr<Object>, lhs: Object, store: Store, alg: Algebra)
    requires Assignment(e, lhs, store) && Product(lhs.shape) > 0
    ensures FirstValue(e, store, alg) == HostCell(e, lhs.shape, store, alg, 0)
  {
    hide WellStored, Coherent, Coord, Read;
    forall o | o in Leaves(e)
      ensures FirstOr(store, alg.junk)(o) == EvalLeaf(Coord(lhs.shape, 0), store, alg.junk)(o)
    {
      ReadIsFirst(e, lhs, store, alg.junk, o);
    }
    FoldAgrees(e, FirstOr(store, alg.junk), EvalLeaf(Coord(lhs.shape, 0), store, alg.junk), alg.ops);
  }

  // ---- what a completed launch that agrees gives away

  /** A kernel of one assignment, run with the objects of another, left the host loop's arrays. */
  ghost predicate Agreed(e1: Expr<Object>, l1: Object, guarded: bool, e: Expr<Object>, lhs: Object, args: seq<Arg>,
            store: Store, alg: Algebra, s: Launch)
  {
    && Coherent(e1, l1) && Assignment(e, lhs, store) && Product(lhs.shape) > 0
    && Placed(e1, l1, e, lhs, args) && s.items != []
    && FirstItem(Canonical(e1, l1, guarded), args, alg, store, s)
    && 0 in s.written && s.store == HostStore(e, lhs, store, alg)
  }

  lemma {:induction false} StoredAll(p: Program, args: seq<Arg>, alg: Algebra, store: Store, s: Launch)
    requires p.arity <= |args| && s.items != [] && FirstItem(p, args, alg, store, s) && 0 in s.written
    ensures |s.items[0].loaded| == |p.loads|
  {
  }

  /** Leaf i was loaded from the object bound in its place. */
  lemma {:induction false} LeafTold(e1: Expr<Object>, l1: Object, guarded: bool, e: Expr<Object>, lhs: Object,
            args: seq<Arg>, store: Store, alg: Algebra, s: Launch, i: nat)
    requires Agreed(e1, l1, guarded, e, lhs, args, store, alg, s) && i < |Leaves(e1)|
    ensures Loaded(s.items[0].loaded, alg.junk)(PositionOr(Ptrs(Reads(e1, l1)), Leaves(e1)[i].addr))
         == FirstOr(store, alg.junk)(Bound(e1, l1, e, lhs)(Leaves(e1)[i]))
  {
    hide Params, Reads, Run, BodyValue, HostCell, Conforms, LoadValue, OnlyTarget, FirstStored, HostStore, WellStored,
         First, Read, Coord;
    var p := Canonical(e1, l1, guarded);
    ReadOfLeaf(e1, l1, i);
    PositionOfInvolved(e1, l1, Leaves(e1)[i]);
    var k := PositionOr(Ptrs(Reads(e1, l1)), Leaves(e1)[i].addr);
    assert p.loads[k].pos == PositionOr(Ptrs(Params(e1, l1)), Leaves(e1)[i].addr);
    StoredAll(p, args, alg, store, s);
    LoadIsFirst(p.loads[k], args, p.arity, Params(e, lhs)[p.loads[k].pos].obj, store);
  }

  /** What was stored is the rebound expression's value. */
  lemma {:induction false} BodyTold(e1: Expr<Object>, l1: Object, guarded: bool, e: Expr<Object>, lhs: Object,
            args: seq<Arg>, store: Store, alg: Algebra, s: Launch)
    requires Agreed(e1, l1, guarded, e, lhs, args, store, alg, s)
    ensures BodyValue(Canonical(e1, l1, guarded).body, s.items[0].loaded, alg)
         == FirstValue(Rebound(e1, l1, e, lhs), store, alg)
  {
    hide Params, Reads, FirstItem, Assignment, Coherent, PositionOr, FirstOr, Placed;
    var at, bound := AddressIn(Ptrs(Reads(e1, l1))), Bound(e1, l1, e, lhs);
    var f, loaded := FirstOr(store, alg.junk), Loaded(s.items[0].loaded, alg.junk);
    var g := (o: Object) => f(bound(o));
    forall o | o in Leaves(e1) ensures loaded(at(o)) == g(o) {
      var i :| 0 <= i < |Leaves(e1)| && Leaves(e1)[i] == o;
      LeafTold(e1, l1, guarded, e, lhs, args, store, alg, s, i);
    }
    FoldOfMap(e1, at, loaded, g, alg.ops);
    FoldOfMap(e1, bound, f, g, alg.ops);
  }

  /** The target was an array of the new assignment; if not its left-hand side, that needed no change. */
  lemma {:induction false} TargetTold(e1: Expr<Object>, l1: Object, guarded: bool, e: Expr<Object>, lhs: Object,
            args: seq<Arg>, store: Store, alg: Algebra, s: Launch)
    requires Agreed(e1, l1, guarded, e, lhs, args, store, alg, s)
    ensures if Bound(e1, l1, e, lhs)(l1).addr == lhs.addr
            then BodyValue(Canonical(e1, l1, guarded).body, s.items[0].loaded, alg)
              == HostCell(e, lhs.shape, store, alg, 0)
            else store[lhs.addr][0] == HostCell(e, lhs.shape, store, alg, 0)
  {
    hide Params, Run, BodyValue, HostCell, Conforms;
    PositionOfInvolved(e1, l1, l1);
    var t := Canonical(e1, l1, guarded).target;
    assert args[t] == ArgOf(Params(e, lhs)[t].obj);
  }

  lemma {:induction false} AgreedWhen(e1: Expr<Object>, l1: Object, guarded: bool, e: Expr<Object>, lhs: Object,
            args: seq<Arg>, store: Store, alg: Algebra, r: nat, schedule: seq<nat>)
    requires Coherent(e1, l1) && Assignment(e, lhs, store) && Product(lhs.shape) > 0 && Placed(e1, l1, e, lhs, args)
    requires r > 0 && forall k :: 0 <= k < |schedule| ==> schedule[k] < r
    requires var t := Run(Canonical(e1, l1, guarded), args, alg, Begin(store, r), schedule);
      t.Some? && Complete(t.value) && Agrees(e, lhs, store, alg, t)
    ensures Agreed(e1, l1, guarded, e, lhs, args, store, alg,
                   Run(Canonical(e1, l1, guarded), args, alg, Begin(store, r), schedule).value)
  {
    hide Params, Reads, HostCell, HostCells, Conforms, WellStored;
    FirstRun(Canonical(e1, l1, guarded), args, alg, store, r, schedule);
  }

  /**
   * A completed launch of a kept kernel that leaves what the host loop leaves: the rebound expression has the
   * host's value in the first cell, or the kernel's target is another array and the first cell needed no change.
   */
  lemma {:induction false} CompletedTellsFirstCell(e1: Expr<Object>, l1: Object, guarded: bool, e: Expr<Object>,
            lhs: Object, args: seq<Arg>, store: Store, alg: Algebra, r: nat, schedule: seq<nat>)
    requires Coherent(e1, l1) && Assignment(e, lhs, store) && Product(lhs.shape) > 0 && Placed(e1, l1, e, lhs, args)
    requires r > 0 && forall k :: 0 <= k < |schedule| ==> schedule[k] < r
    requires var t := Run(Canonical(e1, l1, guarded), args, alg, Begin(store, r), schedule);
      t.Some? && Complete(t.value) && Agrees(e, lhs, store, alg, t)
    ensures HostCell(e, lhs.shape, store, alg, 0)
         == if Bound(e1, l1, e, lhs)(l1).addr == lhs.addr
            then FirstValue(Rebound(e1, l1, e, lhs), store, alg) else store[lhs.addr][0]
  {
    hide Run, Canonical, Params, Agreed, HostCell, Complete, Agrees, Bound, Rebound, FirstValue, BodyValue, Placed;
    var s := Run(Canonical(e1, l1, guarded), args, alg, Begin(store, r), schedule).value;
    AgreedWhen(e1, l1, guarded, e, lhs, args, store, alg, r, schedule);
    TargetTold(e1, l1, guarded, e, lhs, args, store, alg, s);
    BodyTold(e1, l1, guarded, e, lhs, args, store, alg, s);
  }

  // ---- values that tell objects apart

  /** The operators of an expression and the places of its leaves. */
  function TreeOf(e: Expr<Object>): Expr<nat> { MapLeaves(e, Nothing()) }

  function Nothing(): Object -> nat { (o: Object) => 0 }

  /** The same expression over some of the assignment's own objects. */
  ghost predicate Rearranges(d: Expr<Object>, e: Expr<Object>, lhs: Object) {
    TreeOf(d) == TreeOf(e) && forall o :: o in Leaves(d) ==> o == lhs || o in Leaves(e)
  }

  /** Values that show which objects an assignment read: no other arrangement of its objects gives its
      first cell, and it changes that cell, unless it assigns an array to itself. */
  ghost predicate Telling(e: Expr<Object>, lhs: Object, store: Store, alg: Algebra) {
    && Assignment(e, lhs, store)
    && Product(lhs.shape) > 0
    && (forall d :: Rearranges(d, e, lhs) && FirstValue(d, store, alg) == FirstValue(e, store, alg) ==> d == e)
    && (e == Leaf(lhs) || FirstValue(e, store, alg) != store[lhs.addr][0])
  }

  /** A plain copy tells exactly when there is a first cell and it changes. */
  lemma {:induction false} CopyTells(x: Object, lhs: Object, store: Store, alg: Algebra)
    requires Assignment(Leaf(x), lhs, store) && x != lhs
    ensures Telling(Leaf(x), lhs, store, alg)
       <==> Product(lhs.shape) > 0 && HostCell(Leaf(x), lhs.shape, store, alg, 0) != store[lhs.addr][0]
  {
    hide WellStored, Coherent, HostCell;
    if Product(lhs.shape) > 0 {
      FirstValueIsHost(Leaf(x), lhs, store, alg);
      assert First(lhs, store) == Some(store[lhs.addr][0]) by { LhsFirst(Leaf(x), lhs, store); }
      forall d | Rearranges(d, Leaf(x), lhs) && FirstValue(d, store, alg) != store[lhs.addr][0] ensures d == Leaf(x) {
        assert d.Leaf? && Leaves(d) == [d.leaf] && d.leaf in Leaves(d);
      }
    }
  }

  lemma {:induction false} LhsFirst(e: Expr<Object>, lhs: Object, store: Store)
    requires Assignment(e, lhs, store) && Product(lhs.shape) > 0
    ensures lhs.addr in store && |store[lhs.addr]| > 0 && First(lhs, store) == Some(store[lhs.addr][0])
  {
  }

  ghost predicate Injective<R(!new)>(c: Combiner<R>) {
    && (forall op, a, x :: c.one(op, a) == c.one(op, x) ==> a == x)
    && (forall op, a, b, x, y :: c.two(op, a, b) == c.two(op, x, y) ==> a == x && b == y)
    && forall op, a, b, d, x, y, z :: c.three(op, a, b, d) == c.three(op, x, y, z) ==> a == x && b == y && d == z
  }

  /** With injective operators equal folds of trees of one type have equal leaves. */
  lemma {:induction false} FoldTells<L, M, K, R(!new)>(e1: Expr<L>, e2: Expr<M>, k1: L -> K, k2: M -> K,
            f: L -> R, g: M -> R, c: Combiner<R>)
    requires MapLeaves(e1, k1) == MapLeaves(e2, k2) && Injective(c)
    requires ForEach(e1, f, c) == ForEach(e2, g, c)
    ensures |Leaves(e1)| == |Leaves(e2)|
    ensures forall i :: 0 <= i < |Leaves(e1)| ==> f(Leaves(e1)[i]) == g(Leaves(e2)[i])
  {
    match e1
    case Leaf(l) =>
    case Unary(op, a) => FoldTells(a, e2.child, k1, k2, f, g, c);
    case Binary(op, a, b) =>
      FoldTells(a, e2.left, k1, k2, f, g, c);
      FoldTells(b, e2.right, k1, k2, f, g, c);
    case Trinary(op, a, b, d) =>
      FoldTells(a, e2.left, k1, k2, f, g, c);
      FoldTells(b, e2.middle, k1, k2, f, g, c);
      FoldTells(d, e2.right, k1, k2, f, g, c);
  }

  lemma {:induction false} SameLeavesSameTree(d: Expr<Object>, e: Expr<Object>)
    requires TreeOf(d) == TreeOf(e) && |Leaves(d)| == |Leaves(e)|
    requires forall i :: 0 <= i < |Leaves(d)| ==> Leaves(d)[i] == Leaves(e)[i]
    ensures d == e
  {
    var same := (o: Object) => o;
    MapsAgree(d, e, Nothing(), Nothing(), same, same);
    MapIdentity(d, same);
    MapIdentity(e, same);
  }

  lemma {:induction false} MapIdentity(e: Expr<Object>, same: Object -> Object)
    requires forall o :: same(o) == o
    ensures MapLeaves(e, same) == e
  {
    match e
    case Leaf(l) =>
    case Unary(op, a) => MapIdentity(a, same);
    case Binary(op, a, b) =>
      MapIdentity(a, same);
      MapIdentity(b, same);
    case Trinary(op, a, b, d) =>
      MapIdentity(a, same);
      MapIdentity(b, same);
      MapIdentity(d, same);
  }

  /** With injective operators it is enough that the objects differ in their first cells. */
  lemma {:induction false} InjectiveTells(e: Expr<Object>, lhs: Object, store: Store, alg: Algebra)
    requires Assignment(e, lhs, store) && Product(lhs.shape) > 0 && Injective(alg.ops)
    requires forall o, p :: (o == lhs || o in Leaves(e)) && (p == lhs || p in Leaves(e)) && o.addr != p.addr
               ==> First(o, store) != First(p, store)
    requires HostCell(e, lhs.shape, store, alg, 0) != store[lhs.addr][0]
    ensures Telling(e, lhs, store, alg)
  {
    hide HostCell, WellStored;
    FirstValueIsHost(e, lhs, store, alg);
    forall d | Rearranges(d, e, lhs) && FirstValue(d, store, alg) == FirstValue(e, store, alg) ensures d == e {
      var f := FirstOr(store, alg.junk);
      FoldTells(d, e, Nothing(), Nothing(), f, f, alg.ops);
      forall i | 0 <= i < |Leaves(d)| ensures Leaves(d)[i] == Leaves(e)[i] {
        FirstKnown(e, lhs, store, alg.junk, Leaves(d)[i]);
        FirstKnown(e, lhs, store, alg.junk, Leaves(e)[i]);
      }
      SameLeavesSameTree(d, e);
    }
  }

  lemma {:induction false} FirstKnown(e: Expr<Object>, lhs: Object, store: Store, junk: Elem, o: Object)
    requires Assignment(e, lhs, store) && Product(lhs.shape) > 0 && (o == lhs || o in Leaves(e))
    ensures First(o, store) == Some(FirstOr(store, junk)(o))
  {
    if o == lhs { LhsFirst(e, lhs, store); } else { ReadIsFirst(e, lhs, store, junk, o); }
  }

  /** When the rebound assignment is the new one, each object stands where it stood. */
  lemma {:induction false} ReboundTellsPattern(e1: Expr<Object>, l1: Object, e: Expr<Object>, lhs: Object)
    requires Coherent(e1, l1) && Coherent(e, lhs) && TypeOf(e1) == TypeOf(e)
    requires |Params(e1, l1)| <= |Params(e, lhs)|
    requires Rebound(e1, l1, e, lhs) == e && Bound(e1, l1, e, lhs)(l1).addr == lhs.addr
    ensures SamePattern(e1, l1, e, lhs)
  {
    hide Params, SameOrder, PositionOr;
    var bound := Bound(e1, l1, e, lhs);
    LeavesOfMap(e1, bound);
    var p, q := Addresses(e1) + [l1.addr], Addresses(e) + [lhs.addr];
    forall i | 0 <= i < |p|
      ensures PositionOr(Ptrs(Params(e1, l1)), p[i]) == PositionOr(Ptrs(Params(e, lhs)), q[i])
    {
      var o := if i < |Leaves(e1)| then Leaves(e1)[i] else l1;
      assert p[i] == o.addr && q[i] == bound(o).addr;
      PositionOfInvolved(e1, l1, o);
      ParamIsInvolved(e, lhs, PositionOr(Ptrs(Params(e1, l1)), o.addr));
    }
    SameByPositions(e1, l1, e, lhs, p, q);
  }

  lemma {:induction false} PositionOfInvolved(e: Expr<Object>, lhs: Object, o: Object)
    requires o == lhs || o in Leaves(e)
    ensures PositionOr(Ptrs(Params(e, lhs)), o.addr) < |Params(e, lhs)|
  {
    ParamsAre(e, lhs);
    assert Occurs(e, lhs.addr, o.addr);
  }

  lemma {:induction false} ReboundRearranges(e1: Expr<Object>, l1: Object, e: Expr<Object>, lhs: Object)
    requires TypeOf(e1) == TypeOf(e)
    ensures Rearranges(Rebound(e1, l1, e, lhs), e, lhs)
  {
    hide Params, PositionOr;
    var bound, zero := Bound(e1, l1, e, lhs), Nothing();
    LeavesOfMap(e1, RankOf());
    LeavesOfMap(e, RankOf());
    LeavesOfMap(e1, bound);
    MapOfMap(e1, bound, zero, zero);
    MapsAgree(e1, e, RankOf(), RankOf(), zero, zero);
    forall o | o in Leaves(Rebound(e1, l1, e, lhs)) ensures o == lhs || o in Leaves(e) {
      var i :| 0 <= i < |Leaves(e1)| && o == bound(Leaves(e1)[i]);
      var k := PositionOr(Ptrs(Params(e1, l1)), Leaves(e1)[i].addr);
      if k < |Params(e, lhs)| { ParamIsInvolved(e, lhs, k); }
    }
  }

  /** The only object there is. */
  lemma {:induction false} OnlyObject(lhs: Object, k: nat)
    requires k < |Params(Leaf(lhs), lhs)|
    ensures Params(Leaf(lhs), lhs)[k].obj == lhs
  {
    ParamIsInvolved(Leaf(lhs), lhs, k);
  }

  /** On telling values, a completed launch of a kernel generated for an assignment of the same type leaves
      what the host loop leaves only if the two have one pattern. */
  lemma {:induction false} CompletedTellsPattern(e1: Expr<Object>, l1: Object, guarded: bool, e: Expr<Object>,
            lhs: Object, args: seq<Arg>, store: Store, alg: Algebra, r: nat, schedule: seq<nat>)
    requires Coherent(e1, l1) && TypeOf(e1) == TypeOf(e) && Telling(e, lhs, store, alg)
    requires Placed(e1, l1, e, lhs, args)
    requires r > 0 && forall k :: 0 <= k < |schedule| ==> schedule[k] < r
    requires var t := Run(Canonical(e1, l1, guarded), args, alg, Begin(store, r), schedule);
      t.Some? && Complete(t.value) && Agrees(e, lhs, store, alg, t)
    ensures SamePattern(e1, l1, e, lhs)
  {
    hide Run, Canonical, Params, HostCell, Complete, Agrees, Rebound, FirstValue, Rearranges, SamePattern;
    CompletedTellsFirstCell(e1, l1, guarded, e, lhs, args, store, alg, r, schedule);
    FirstValueIsHost(e, lhs, store, alg);
    ReboundRearranges(e1, l1, e, lhs);
    if e == Leaf(lhs) {
      BoundToOnly(e1, l1, lhs);
    }
    ReboundTellsPattern(e1, l1, e, lhs);
  }

  lemma {:induction false} BoundToOnly(e1: Expr<Object>, l1: Object, lhs: Object)
    ensures Bound(e1, l1, Leaf(lhs), lhs)(l1) == lhs
    ensures TypeOf(e1) == TypeOf(Leaf(lhs)) ==> Rebound(e1, l1, Leaf(lhs), lhs) == Leaf(lhs)
  {
    hide Params, PositionOr;
    forall o ensures Bound(e1, l1, Leaf(lhs), lhs)(o) == lhs {
      var k := PositionOr(Ptrs(Params(e1, l1)), o.addr);
      if k < |Params(Leaf(lhs), lhs)| { OnlyObject(lhs, k); }
    }
  }

  lemma {:induction false} TellingMeans(e: Expr<Object>, lhs: Object, store: Store, alg: Algebra)
    requires Telling(e, lhs, store, alg)
    ensures Assignment(e, lhs, store) && Product(lhs.shape) > 0
  {
  }

  // ---- reuse is right exactly for the same pattern

  /** m turns for each of the first r items. */
  function AllTurns(r: nat, m: nat): (schedule: seq<nat>)
    ensures forall k :: 0 <= k < |schedule| ==> schedule[k] < r
  {
    if r == 0 then [] else AllTurns(r - 1, m) + seq(m, _ => r - 1)
  }

  lemma {:induction false} TurnsAppend(s: seq<nat>, g: nat, m: nat, x: nat)
    ensures Turns(s + seq(m, _ => x), g) == Turns(s, g) + if x == g then m else 0
  {
    if m == 0 {
      assert s + seq(m, _ => x) == s;
    } else {
      var t := s + seq(m, _ => x);
      assert t[..|t| - 1] == s + seq(m - 1, _ => x);
      TurnsAppend(s, g, m - 1, x);
    }
  }

  lemma {:induction false} EveryItemTurns(r: nat, m: nat, g: nat)
    requires g < r
    ensures Turns(AllTurns(r, m), g) >= m
  {
    TurnsAppend(AllTurns(r - 1, m), g, m, r - 1);
    if g < r - 1 {
      EveryItemTurns(r - 1, m, g);
    }
  }

  /** Some schedule completes, if none faults. */
  lemma {:induction false} SomeCompletes(p: Program, args: seq<Arg>, alg: Algebra, store: Store, r: nat)
    returns (schedule: seq<nat>)
    requires NeverFaults(p, args, alg, store, r)
    ensures forall k :: 0 <= k < |schedule| ==> schedule[k] < r
    ensures var t := Run(p, args, alg, Begin(store, r), schedule); t.Some? && Complete(t.value)
  {
    hide Run, Complete;
    schedule := AllTurns(r, |p.loads| + 1);
    forall g | 0 <= g < r ensures Turns(schedule, g) > |p.loads| {
      EveryItemTurns(r, |p.loads| + 1, g);
    }
    EnoughTurnsComplete(p, args, alg, store, r, schedule);
  }

  /** If every interleaving agrees, so does one that completes. */
  lemma {:induction false} AlwaysTellsPattern(e1: Expr<Object>, l1: Object, guarded: bool, e: Expr<Object>,
            lhs: Object, args: seq<Arg>, store: Store, alg: Algebra)
    requires Coherent(e1, l1) && TypeOf(e1) == TypeOf(e) && Telling(e, lhs, store, alg)
    requires Placed(e1, l1, e, lhs, args)
    requires AlwaysAgrees(Canonical(e1, l1, guarded), args, e, lhs, store, alg)
    ensures SamePattern(e1, l1, e, lhs)
  {
    hide Canonical, Run, Telling, SamePattern, Complete, NeverFaults, Placed;
    TellingMeans(e, lhs, store, alg);
    var p, r := Canonical(e1, l1, guarded), RoundUp(Product(lhs.shape));
    AgreeingNeverFaults(p, args, e, lhs, store, alg);
    var schedule := SomeCompletes(p, args, alg, store, r);
    CompletedTellsPattern(e1, l1, guarded, e, lhs, args, store, alg, r, schedule);
  }

  /** An earlier assignment of the same instantiation, and slots of its kernel. */
  ghost predicate Kept(e1: Expr<Object>, l1: Object, earlier: seq<Arg>, e: Expr<Object>, lhs: Object) {
    && Coherent(e1, l1) && NamesFit(e1, l1) && Shaped(e1) && l1.shape != []
    && HaveKinds(earlier, Kinds(e1, l1))
    && TypeOf(e1) == TypeOf(e) && lhs.Array? && |lhs.shape| == |l1.shape|
  }

  /** The call sets the arguments without a crash, and every interleaving agrees with the host loop. */
  ghost predicate KeptAgrees(e1: Expr<Object>, l1: Object, size1: nat, earlier: seq<Arg>, e: Expr<Object>, lhs: Object,
            abi: Abi, store: Store, alg: Algebra)
    requires Kept(e1, l1, earlier, e, lhs)
  {
    var s := Slots(e1, l1, earlier, e, lhs, abi);
    s.Some? && AlwaysAgrees(Resolve(Generate(e1, l1, size1)), s.value, e, lhs, store, alg)
  }

  /** The same pattern puts objects of the same kinds in the same places, so that every set is taken. */
  lemma {:induction false} SamePatternBinds(e1: Expr<Object>, l1: Object, earlier: seq<Arg>, e: Expr<Object>,
            lhs: Object, abi: Abi, store: Store)
    requires Kept(e1, l1, earlier, e, lhs) && Assignment(e, lhs, store) && SamePattern(e1, l1, e, lhs)
    ensures Slots(e1, l1, earlier, e, lhs, abi) == Some(Bind(e, lhs))
  {
    hide Params, Slots, Kinds, PositionOr, SamePattern, Bind, HasKind, WellStored;
    SamePositions(e1, l1, e, lhs);
    forall k | 0 <= k < |Params(e1, l1)| ensures KindOf(Params(e1, l1)[k].obj) == KindOf(Params(e, lhs)[k].obj) {
      SamePatternKind(e1, l1, e, lhs, store, k);
    }
    EqualCountBinds(e1, l1, earlier, e, lhs, abi);
  }

  lemma {:induction false} SamePatternKind(e1: Expr<Object>, l1: Object, e: Expr<Object>, lhs: Object, store: Store,
            k: nat)
    requires Coherent(e1, l1) && Shaped(e1) && Assignment(e, lhs, store) && SamePattern(e1, l1, e, lhs)
    requires k < |Params(e1, l1)| == |Params(e, lhs)|
    ensures KindOf(Params(e1, l1)[k].obj) == KindOf(Params(e, lhs)[k].obj)
  {
    hide Params, PositionOr, WellStored, SameOrder;
    SamePositions(e1, l1, e, lhs);
    ParamIsInvolved(e1, l1, k);
    var o := Params(e1, l1)[k].obj;
    if o == l1 {
      ObjectAt(e, lhs, lhs);
    } else {
      var i :| 0 <= i < |Leaves(e1)| && Leaves(e1)[i] == o;
      SameLeafRanks(e1, e, i);
      ObjectAt(e, lhs, Leaves(e)[i]);
    }
  }

  lemma {:induction false} ObjectAt(e: Expr<Object>, lhs: Object, o: Object)
    requires Coherent(e, lhs) && (o == lhs || o in Leaves(e))
    ensures var k := PositionOr(Ptrs(Params(e, lhs)), o.addr); k < |Params(e, lhs)| && Params(e, lhs)[k].obj == o
  {
    hide Params;
    PositionOfInvolved(e, lhs, o);
    ParamIsInvolved(e, lhs, PositionOr(Ptrs(Params(e, lhs)), o.addr));
  }

  /**
   * The kernel kept from an earlier assignment of the same expression type, on values that tell objects apart:
   * it agrees with the host loop under every interleaving exactly when the two assignments have one address
   * pattern and its text has the guard or the new size needs no padding.
   */
  lemma {:induction false} ReusedKernelIff(e1: Expr<Object>, l1: Object, size1: nat, earlier: seq<Arg>, e: Expr<Object>,
            lhs: Object, abi: Abi, store: Store, alg: Algebra)
    requires Kept(e1, l1, earlier, e, lhs) && KindsMatch(e1, l1, e, lhs) && Telling(e, lhs, store, alg)
    ensures KeptAgrees(e1, l1, size1, earlier, e, lhs, abi, store, alg)
       <==> SamePattern(e1, l1, e, lhs) && (size1 % 256 != 0 || Product(lhs.shape) % 256 == 0)
  {
    hide Canonical, Generate, Resolve, SamePattern, AlwaysAgrees, Telling, Slots, Kinds, KindsMatch, HasKind, Bind;
    TellingMeans(e, lhs, store, alg);
    if KeptAgrees(e1, l1, size1, earlier, e, lhs, abi, store, alg) {
      SlotsPlaced(e1, l1, earlier, e, lhs, abi);
      ResolvesToCanonical(e1, l1, size1);
      AlwaysTellsPattern(e1, l1, size1 != RoundUp(size1), e, lhs,
                         Slots(e1, l1, earlier, e, lhs, abi).value, store, alg);
    }
    if SamePattern(e1, l1, e, lhs) {
      SamePatternBinds(e1, l1, earlier, e, lhs, abi, store);
      CachedKernelIff(e1, l1, size1, e, lhs, store, alg);
    }
  }

  // ---- a failing input

  lemma {:induction false} TwoParams(x: Object, y: Object)
    requires x.Array? && y.Array? && x.addr < y.addr
    ensures Ptrs(Params(Leaf(x), y)) == [x.addr, y.addr] && Ptrs(Reads(Leaf(x), y)) == [x.addr]
    ensures Ptrs(Params(Leaf(y), x)) == [x.addr, y.addr] && Ptrs(Reads(Leaf(y), x)) == [y.addr]
  {
    AddressLists(Leaf(x), y);
    AddressLists(Leaf(y), x);
    assert Addresses(Leaf(x)) == [x.addr] && Addresses(Leaf(y)) == [y.addr];
    IncreasingIsUnique(Ptrs(Params(Leaf(x), y)), [x.addr, y.addr]);
    IncreasingIsUnique(Ptrs(Params(Leaf(y), x)), [x.addr, y.addr]);
    IncreasingIsUnique(Ptrs(Reads(Leaf(x), y)), [x.addr]);
    IncreasingIsUnique(Ptrs(Reads(Leaf(y), x)), [y.addr]);
  }

  lemma {:induction false} ParamObjects(e: Expr<Object>, lhs: Object, o: Object, k: nat)
    requires Coherent(e, lhs) && k < |Params(e, lhs)| && Ptrs(Params(e, lhs))[k] == o.addr
    requires o == lhs || o in Leaves(e)
    ensures Params(e, lhs)[k].obj == o
  {
    ParamIsInvolved(e, lhs, k);
  }

  /** With x below y, the kernel of "y = x" serving "x = y" still copies x over y: after the two steps of
      item 0 the first cell of y is lost and x is as it was. */
  lemma {:induction false} SwappedReuseOverwrites(x: Object, y: Object, n: nat, store: Store, alg: Algebra,
            guarded: bool, r: nat) returns (t: Launch)
    requires x.Array? && y.Array? && x.addr < y.addr && x.shape == [n] && y.shape == [n] && n > 0 && r > 0
    requires x.addr in store && y.addr in store && |store[x.addr]| == n && |store[y.addr]| == n
    ensures t.store == store[y.addr := store[y.addr][0 := store[x.addr][0]]]
    ensures Assignment(Leaf(y), x, store) && TypeOf(Leaf(x)) == TypeOf(Leaf(y)) && !SamePattern(Leaf(x), y, Leaf(y), x)
    ensures Run(Canonical(Leaf(x), y, guarded), Bind(Leaf(y), x), alg, Begin(store, r), [0, 0]) == Some(t)
  {
    hide Run, Canonical, Bind, Tick;
    SwappedPattern(x, y);
    SwappedProgram(x, y, n, guarded);
    Rank1(n, 0);
    ConformsMeans(Leaf(y), [n]);
    var p, args, s := Canonical(Leaf(x), y, guarded), Bind(Leaf(y), x), Begin(store, r);
    var s1;
    s1, t := CopiesFirst(p, args, alg, s, x.addr, y.addr, n, store);
    RunTwo(p, args, alg, s, s1, t);
  }

  lemma {:induction false} SwappedPattern(x: Object, y: Object)
    requires x.Array? && y.Array? && x.addr < y.addr
    ensures !SamePattern(Leaf(x), y, Leaf(y), x)
  {
    var p, q := Addresses(Leaf(x)) + [y.addr], Addresses(Leaf(y)) + [x.addr];
    assert p[0] == x.addr && p[1] == y.addr && q[0] == y.addr && q[1] == x.addr;
  }

  lemma {:induction false} SwappedProgram(x: Object, y: Object, n: nat, guarded: bool)
    requires x.Array? && y.Array? && x.addr < y.addr && x.shape == y.shape == [n]
    ensures Canonical(Leaf(x), y, guarded) == Program(2, guarded, [Load(0, 1)], 1, Leaf(0))
    ensures Bind(Leaf(y), x) == [Buffer(x.addr), Buffer(y.addr), Size(n)]
  {
    hide Params, Reads;
    TwoParams(x, y);
    ParamObjects(Leaf(y), x, x, 0);
    ParamObjects(Leaf(y), x, y, 1);
    assert Reads(Leaf(x), y)[0].obj == x by { ReadOfLeaf(Leaf(x), y, 0); }
    Rank1(n, 0);
  }

  lemma {:induction false} CopiesFirst(p: Program, args: seq<Arg>, alg: Algebra, s: Launch, x: Address, y: Address,
            n: nat, store: Store) returns (s1: Launch, s2: Launch)
    requires p == Program(2, p.guarded, [Load(0, 1)], 1, Leaf(0)) && args == [Buffer(x), Buffer(y), Size(n)] && n > 0
    requires x in store && y in store && |store[x]| > 0 && |store[y]| > 0
    requires s.items != [] && s.items[0] == Item([], false) && s.store == store
    ensures Tick(p, args, alg, s, 0) == Some(s1) && |s1.items| == |s.items| && Tick(p, args, alg, s1, 0) == Some(s2)
    ensures s2.store == store[y := store[y][0 := store[x][0]]]
  {
    var sizes := Sizes(args, 2);
    assert sizes == [n] && sizes[1..] == [];
    var v := store[x][0];
    assert LoadValue(p.loads[0], args, 2, 0, store) == Some(v);
    assert BodyValue(Leaf(0), [v], alg) == v;
    assert s.items[0].loaded + [v] == [v];
    s1 := s.(items := s.items[0 := Item([v], false)]);
    s2 := Launch(store[y := store[y][0 := v]], s1.items[0 := Item([v], true)], s1.written + [0]);
  }

  lemma {:induction false} RunTwo(p: Program, args: seq<Arg>, alg: Algebra, s: Launch, s1: Launch, s2: Launch)
    requires s.items != [] && Tick(p, args, alg, s, 0) == Some(s1)
    requires s1.items != [] && Tick(p, args, alg, s1, 0) == Some(s2)
    ensures Run(p, args, alg, s, [0, 0]) == Some(s2)
  {
    hide Tick;
    assert [0, 0][..1] == [0] && [0][..0] == [];
  }
}
