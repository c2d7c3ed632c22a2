/** A launched kernel leaves what the host loop leaves, whatever the interleaving of its work items. */
module CleteTheorems {

  import opened Basics
  import opened CleteIndex
  import opened CleteTree
  import opened CleteHost
  import opened CleteNames
  import opened CleteLists
  import opened CleteKernel
  import opened CleteCompile
  import opened CletePattern
  import opened CleteLaunch

  /** An assignment the overloads accept: an array on the left, array leaves of rank 1 up to its rank, all
      conforming. */
  ghost predicate Assignment(e: Expr<Object>, lhs: Object, store: Store) {
    && lhs.Array? && lhs.shape != []
    && Coherent(e, lhs)
    && WellStored(e, lhs.addr, lhs.shape, store)
    && forall o :: o in Leaves(e) && o.Array? ==> o.shape != []
  }

  // ---- one work item

  /** The temporary k of the work item for cell g, on the arrays as they were before the launch. */
  function Expected(e: Expr<Object>, lhs: Object, store: Store, junk: Elem, g: nat, k: nat): Elem
    requires lhs.Array? && g < Product(lhs.shape) && k < |Reads(e, lhs)|
  {
    Read(Reads(e, lhs)[k].obj, Coord(lhs.shape, g), store, junk)
  }

  /** The argument at the position of an object's address is that object. */
  lemma {:induction false} ArgOfObject(e: Expr<Object>, lhs: Object, o: Object)
    requires Coherent(e, lhs) && lhs.shape != [] && (o == lhs || o in Leaves(e))
    ensures PositionOr(Ptrs(Params(e, lhs)), o.addr) < |Params(e, lhs)|
    ensures Bind(e, lhs)[PositionOr(Ptrs(Params(e, lhs)), o.addr)] == ArgOf(o)
  {
    ReadsAre(e, lhs);
    ParamsAre(e, lhs);
    assert Occurs(e, lhs.addr, o.addr);
    var k := PositionOr(Ptrs(Params(e, lhs)), o.addr);
    var r := Params(e, lhs)[k];
    assert r in Params(e, lhs) && r.obj.addr == o.addr;
    assert r.obj == lhs || r.obj in Leaves(e);
  }

  /** The generated index selects the cell of a lower-rank array that the host loop reads. */
  lemma {:induction false} IndexIsHostIndex(e: Expr<Object>, lhs: Object, store: Store, g: nat, o: Object)
    requires Assignment(e, lhs, store) && g < Product(lhs.shape) && o in Leaves(e) && o.Array?
    ensures 1 <= Rank(o) <= |lhs.shape|
    ensures IndexFor(Rank(o), Sizes(Bind(e, lhs), |Params(e, lhs)|), g)
         == Some(Flat(o.shape, Coord(lhs.shape, g)[..Rank(o)]))
  {
    var d := Rank(o);
    ConformsMeans(e, lhs.shape);
    assert SizeLeaf(o, lhs.shape);
    BoundSizes(e, lhs);
    var sizes := Sizes(Bind(e, lhs), |Params(e, lhs)|);
    assert sizes[d..] == lhs.shape[d..];
    LeadingCoordinates(lhs.shape, g, d);
    assert o.shape == lhs.shape[..d];
  }

  /** While cell g still has its old value, loading temporary k gives the expected value. */
  lemma {:induction false} LoadIsExpected(e: Expr<Object>, lhs: Object, store: Store, junk: Elem, g: nat, k: nat,
            now: seq<Elem>)
    requires Assignment(e, lhs, store) && g < Product(lhs.shape) && k < |Reads(e, lhs)|
    requires |now| == Product(lhs.shape) && now[g] == store[lhs.addr][g]
    ensures LoadValue(Canonical(e, lhs, true).loads[k], Bind(e, lhs), |Params(e, lhs)|, g, store[lhs.addr := now])
         == Some(Expected(e, lhs, store, junk, g, k))
  {
    hide Params, Sizes, IndexFor, Coord, Flat;
    var o := Reads(e, lhs)[k].obj;
    ReadsAre(e, lhs);
    assert Reads(e, lhs)[k] in Reads(e, lhs);
    ArgOfObject(e, lhs, o);
    if o.Array? {
      IndexIsHostIndex(e, lhs, store, g, o);
      ReadsAreInside(e, lhs.addr, lhs.shape, store, g, o);
    }
  }

  /** With all temporaries as expected the expression text gives the host's value. */
  lemma {:induction false} BodyIsHost(e: Expr<Object>, lhs: Object, store: Store, alg: Algebra, g: nat,
            loaded: seq<Elem>)
    requires Assignment(e, lhs, store) && g < Product(lhs.shape) && |loaded| == |Reads(e, lhs)|
    requires forall k :: 0 <= k < |loaded| ==> loaded[k] == Expected(e, lhs, store, alg.junk, g, k)
    ensures BodyValue(Canonical(e, lhs, true).body, loaded, alg) == HostCell(e, lhs.shape, store, alg, g)
  {
    var at := AddressIn(Ptrs(Reads(e, lhs)));
    forall o | o in Leaves(e) ensures Loaded(loaded, alg.junk)(at(o)) == Read(o, Coord(lhs.shape, g), store, alg.junk) {
      var i :| 0 <= i < |Leaves(e)| && Leaves(e)[i] == o;
      ReadOfLeaf(e, lhs, i);
    }
    FoldOfMap(e, at, Loaded(loaded, alg.junk), EvalLeaf(Coord(lhs.shape, g), store, alg.junk), alg.ops);
  }

  // ---- all of them, interleaved

  /** The cell of item g holds the host's value once the item has returned, and its old value before. */
  function CellAt(e: Expr<Object>, lhs: Object, store: Store, alg: Algebra, g: nat, done: bool): Elem
    requires lhs.Array? && lhs.addr in store && g < Product(lhs.shape) <= |store[lhs.addr]|
  {
    if done then HostCell(e, lhs.shape, store, alg, g) else store[lhs.addr][g]
  }

  ghost predicate ItemInv(e: Expr<Object>, lhs: Object, store: Store, alg: Algebra, it: Item, g: nat)
    requires lhs.Array?
  {
    if g < Product(lhs.shape) then
      && |it.loaded| <= |Reads(e, lhs)|
      && forall k :: 0 <= k < |it.loaded| ==> it.loaded[k] == Expected(e, lhs, store, alg.junk, g, k)
    else it.loaded == []
  }

  ghost predicate CellsInv(e: Expr<Object>, lhs: Object, store: Store, alg: Algebra, s: Launch)
    requires Assignment(e, lhs, store)
  {
    var size := Product(lhs.shape);
    && size <= |s.items|
    && lhs.addr in s.store && |s.store[lhs.addr]| == size && s.store == store[lhs.addr := s.store[lhs.addr]]
    && forall g :: 0 <= g < size ==> s.store[lhs.addr][g] == CellAt(e, lhs, store, alg, g, s.items[g].done)
  }

  /** No cell has been stored to twice, and those stored to are those of the items that have returned. */
  ghost predicate WrittenInv(size: nat, s: Launch) {
    && Distinct(s.written)
    && (forall g :: g in s.written ==> g < size && g < |s.items| && s.items[g].done)
    && (forall g :: 0 <= g < size && g < |s.items| && s.items[g].done ==> g in s.written)
  }

  ghost predicate LaunchInv(e: Expr<Object>, lhs: Object, store: Store, alg: Algebra, s: Launch)
    requires Assignment(e, lhs, store)
  {
    && CellsInv(e, lhs, store, alg, s)
    && WrittenInv(Product(lhs.shape), s)
    && forall g :: 0 <= g < |s.items| ==> ItemInv(e, lhs, store, alg, s.items[g], g)
  }

  lemma {:induction false} BeginInv(e: Expr<Object>, lhs: Object, store: Store, alg: Algebra, r: nat)
    requires Assignment(e, lhs, store) && Product(lhs.shape) <= r
    ensures LaunchInv(e, lhs, store, alg, Begin(store, r))
  {
    var s := Begin(store, r);
    assert store == store[lhs.addr := store[lhs.addr]];
  }

  lemma {:induction false} SizeIsBound(e: Expr<Object>, lhs: Object)
    requires lhs.Array? && lhs.shape != []
    ensures |Bind(e, lhs)| > |Params(e, lhs)| && Sizes(Bind(e, lhs), |Params(e, lhs)|)[0] == Product(lhs.shape)
  {
    BoundSizes(e, lhs);
  }

  /** A step of an item still loading. */
  lemma {:induction false} LoadKeeps(e: Expr<Object>, lhs: Object, store: Store, alg: Algebra, guarded: bool,
            s: Launch, g: nat)
    requires Assignment(e, lhs, store) && LaunchInv(e, lhs, store, alg, s)
    requires g < Product(lhs.shape) && !s.items[g].done && |s.items[g].loaded| < |Reads(e, lhs)|
    ensures var t := Tick(Canonical(e, lhs, guarded), Bind(e, lhs), alg, s, g);
      t.Some? && LaunchInv(e, lhs, store, alg, t.value)
  {
    hide LoadValue, BodyValue, StoreValue, Expected, Reads, Params, Sizes, HostCell;
    var it := s.items[g];
    var k := |it.loaded|;
    SizeIsBound(e, lhs);
    assert ItemInv(e, lhs, store, alg, it, g);
    LoadIsExpected(e, lhs, store, alg.junk, g, k, s.store[lhs.addr]);
    var t := Tick(Canonical(e, lhs, guarded), Bind(e, lhs), alg, s, g);
    var next := it.(loaded := it.loaded + [Expected(e, lhs, store, alg.junk, g, k)]);
    assert t == Some(s.(items := s.items[g := next]));
    assert ItemInv(e, lhs, store, alg, next, g);
  }

  /** The step that stores. */
  lemma {:induction false} StoreKeeps(e: Expr<Object>, lhs: Object, store: Store, alg: Algebra, guarded: bool,
            s: Launch, g: nat)
    requires Assignment(e, lhs, store) && LaunchInv(e, lhs, store, alg, s)
    requires g < Product(lhs.shape) && !s.items[g].done && |s.items[g].loaded| == |Reads(e, lhs)|
    ensures var t := Tick(Canonical(e, lhs, guarded), Bind(e, lhs), alg, s, g);
      t.Some? && LaunchInv(e, lhs, store, alg, t.value)
  {
    hide LoadValue, BodyValue, Expected, Reads, Params, Sizes, CellAt;
    var it := s.items[g];
    var p, args := Canonical(e, lhs, guarded), Bind(e, lhs);
    SizeIsBound(e, lhs);
    assert ItemInv(e, lhs, store, alg, it, g);
    BodyIsHost(e, lhs, store, alg, g, it.loaded);
    ArgOfObject(e, lhs, lhs);
    var v := HostCell(e, lhs.shape, store, alg, g);
    var now := s.store[lhs.addr][g := v];
    var next := Launch(s.store[lhs.addr := now], s.items[g := it.(done := true)], s.written + [g]);
    assert Tick(p, args, alg, s, g) == Some(next);
    StoredCells(e, lhs, store, alg, s, g, next);
    DistinctAppend(s.written, g);
    assert WrittenInv(Product(lhs.shape), next);
  }

  lemma {:induction false} StoredCells(e: Expr<Object>, lhs: Object, store: Store, alg: Algebra, s: Launch, g: nat,
            next: Launch)
    requires Assignment(e, lhs, store) && LaunchInv(e, lhs, store, alg, s)
    requires g < Product(lhs.shape)
    requires next.store == s.store[lhs.addr := s.store[lhs.addr][g := HostCell(e, lhs.shape, store, alg, g)]]
    requires next.items == s.items[g := s.items[g].(done := true)]
    ensures CellsInv(e, lhs, store, alg, next)
  {
  }

  /** Every step succeeds and keeps the invariant; an item past the size only returns. */
  lemma {:induction false} TickKeeps(e: Expr<Object>, lhs: Object, store: Store, alg: Algebra, guarded: bool,
            s: Launch, g: nat)
    requires Assignment(e, lhs, store) && LaunchInv(e, lhs, store, alg, s) && g < |s.items|
    requires guarded || |s.items| == Product(lhs.shape)
    ensures var t := Tick(Canonical(e, lhs, guarded), Bind(e, lhs), alg, s, g);
      t.Some? && LaunchInv(e, lhs, store, alg, t.value)
  {
    SizeIsBound(e, lhs);
    if !s.items[g].done {
      if g >= Product(lhs.shape) {
        PastTheSize(e, lhs, store, alg, s, g);
      } else if |s.items[g].loaded| < |Reads(e, lhs)| {
        LoadKeeps(e, lhs, store, alg, guarded, s, g);
      } else {
        assert ItemInv(e, lhs, store, alg, s.items[g], g);
        StoreKeeps(e, lhs, store, alg, guarded, s, g);
      }
    }
  }

  lemma {:induction false} PastTheSize(e: Expr<Object>, lhs: Object, store: Store, alg: Algebra, s: Launch, g: nat)
    requires Assignment(e, lhs, store) && LaunchInv(e, lhs, store, alg, s) && Product(lhs.shape) <= g < |s.items|
    ensures LaunchInv(e, lhs, store, alg, s.(items := s.items[g := s.items[g].(done := true)]))
  {
    var next := s.(items := s.items[g := s.items[g].(done := true)]);
    assert ItemInv(e, lhs, store, alg, s.items[g], g);
    assert WrittenInv(Product(lhs.shape), next);
    assert CellsInv(e, lhs, store, alg, next);
  }

  lemma {:induction false} RunKeeps(e: Expr<Object>, lhs: Object, store: Store, alg: Algebra, guarded: bool,
                                    r: nat, schedule: seq<nat>)
    requires Assignment(e, lhs, store) && Product(lhs.shape) <= r && (guarded || r == Product(lhs.shape))
    requires forall k :: 0 <= k < |schedule| ==> schedule[k] < r
    ensures var t := Run(Canonical(e, lhs, guarded), Bind(e, lhs), alg, Begin(store, r), schedule);
      t.Some? && LaunchInv(e, lhs, store, alg, t.value)
    decreases |schedule|
  {
    if schedule == [] {
      BeginInv(e, lhs, store, alg, r);
    } else {
      var n := |schedule| - 1;
      RunKeeps(e, lhs, store, alg, guarded, r, schedule[..n]);
      var s := Run(Canonical(e, lhs, guarded), Bind(e, lhs), alg, Begin(store, r), schedule[..n]).value;
      TickKeeps(e, lhs, store, alg, guarded, s, schedule[n]);
    }
  }

  /** What the host loop makes of the storage. */
  function HostStore(e: Expr<Object>, lhs: Object, store: Store, alg: Algebra): Store
    requires lhs.Array?
  {
    store[lhs.addr := HostCells(e, lhs.shape, store, alg)]
  }

  /** When all items have returned: the host loop's arrays, each cell of the left-hand side stored to exactly once. */
  ghost predicate Agrees(e: Expr<Object>, lhs: Object, store: Store, alg: Algebra, t: Option<Launch>)
    requires lhs.Array?
  {
    && t.Some?
    && (Complete(t.value) ==>
          && t.value.store == HostStore(e, lhs, store, alg)
          && Distinct(t.value.written)
          && forall g :: g in t.value.written <==> 0 <= g < Product(lhs.shape))
  }

  lemma {:induction false} LaunchAgrees(e: Expr<Object>, lhs: Object, store: Store, alg: Algebra, guarded: bool,
            r: nat, schedule: seq<nat>)
    requires Assignment(e, lhs, store) && Product(lhs.shape) <= r && (guarded || r == Product(lhs.shape))
    requires forall k :: 0 <= k < |schedule| ==> schedule[k] < r
    ensures Agrees(e, lhs, store, alg, Run(Canonical(e, lhs, guarded), Bind(e, lhs), alg, Begin(store, r), schedule))
  {
    RunKeeps(e, lhs, store, alg, guarded, r, schedule);
    var t := Run(Canonical(e, lhs, guarded), Bind(e, lhs), alg, Begin(store, r), schedule).value;
    if Complete(t) {
      assert t.store[lhs.addr] == HostCells(e, lhs.shape, store, alg);
    }
  }

  /** A freshly generated kernel, run with its own arguments over the padded range, agrees with the host loop. */
  lemma {:induction false} FreshKernelIsHostLoop(e: Expr<Object>, lhs: Object, store: Store, alg: Algebra,
            schedule: seq<nat>)
    requires Assignment(e, lhs, store) && NamesFit(e, lhs)
    requires forall k :: 0 <= k < |schedule| ==> schedule[k] < RoundUp(Product(lhs.shape))
    ensures WellFormed(Generate(e, lhs, Product(lhs.shape)))
    ensures Agrees(e, lhs, store, alg,
                   Run(Resolve(Generate(e, lhs, Product(lhs.shape))), Bind(e, lhs), alg,
                       Begin(store, RoundUp(Product(lhs.shape))), schedule))
  {
    var size := Product(lhs.shape);
    CompilesIff(e, lhs, size);
    ResolvesToCanonical(e, lhs, size);
    LaunchAgrees(e, lhs, store, alg, size != RoundUp(size), RoundUp(size), schedule);
  }

  // ---- every launch comes to an end

  /** How many steps a schedule gives to an item. */
  function Turns(schedule: seq<nat>, g: nat): nat {
    var n := |schedule| - 1;
    if n < 0 then 0 else Turns(schedule[..n], g) + if schedule[n] == g then 1 else 0
  }

  /** An item that has not returned has loaded one temporary in each of its turns. */
  lemma {:induction false} TurnsTaken(p: Program, args: seq<Arg>, alg: Algebra, store: Store, r: nat,
                                      schedule: seq<nat>, g: nat)
    requires g < r && forall k :: 0 <= k < |schedule| ==> schedule[k] < r
    ensures var t := Run(p, args, alg, Begin(store, r), schedule);
      t.Some? ==> t.value.items[g].done || |t.value.items[g].loaded| == Turns(schedule, g) <= |p.loads|
    decreases |schedule|
  {
    hide LoadValue, StoreValue, BodyValue, Sizes;
    var n := |schedule| - 1;
    if n >= 0 {
      TurnsTaken(p, args, alg, store, r, schedule[..n], g);
    }
  }

  /** So a launch is over as soon as every item has had one turn for each temporary and one more. */
  lemma {:induction false} EnoughTurnsComplete(p: Program, args: seq<Arg>, alg: Algebra, store: Store, r: nat,
                                               schedule: seq<nat>)
    requires forall k :: 0 <= k < |schedule| ==> schedule[k] < r
    requires forall g :: 0 <= g < r ==> Turns(schedule, g) > |p.loads|
    ensures var t := Run(p, args, alg, Begin(store, r), schedule); t.Some? ==> Complete(t.value)
  {
    hide Run;
    forall g | 0 <= g < r ensures var t := Run(p, args, alg, Begin(store, r), schedule);
      t.Some? ==> t.value.items[g].done
    {
      TurnsTaken(p, args, alg, store, r, schedule, g);
    }
  }
}
