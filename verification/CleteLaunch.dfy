/** Running a compiled kernel: work items that load their temporaries one by one and then store, in any interleaving. */
module CleteLaunch {

  import opened Basics
  import opened CleteIndex
  import opened CleteTree
  import opened CleteKernel

  datatype Arg = Buffer(addr: Address) | Value(value: Elem) | Size(n: nat)

  /** A work item: the temporaries it has loaded, and whether it has returned. */
  datatype Item = Item(loaded: seq<Elem>, done: bool)

  /** The arrays, the items, and the cells of the left-hand side stored to so far. */
  datatype Launch = Launch(store: Store, items: seq<Item>, written: seq<nat>)

  /** The sizes passed after the parameters: size, size2, size3, ... */
  function Sizes(args: seq<Arg>, arity: nat): seq<nat>
    requires arity <= |args|
  {
    seq(|args| - arity, i requires 0 <= i < |args| - arity => if args[arity + i].Size? then args[arity + i].n else 0)
  }

  /** gti, gti1, gti2, ...: the index for an array of rank d. */
  function IndexFor(d: nat, sizes: seq<nat>, g: nat): Option<nat> {
    if 1 <= d <= |sizes| && Positive(sizes[d..]) then Some(DivChain(g, sizes[d..])) else None
  }

  /** One declaration of a temporary; None is a fault. */
  function LoadValue(l: Load, args: seq<Arg>, arity: nat, g: nat, store: Store): Option<Elem>
    requires arity <= |args|
  {
    if l.pos >= |args| then None
    else match args[l.pos]
      case Value(v) => if l.rank == 0 then Some(v) else None
      case Size(_) => None
      case Buffer(a) =>
        var i := IndexFor(l.rank, Sizes(args, arity), g);
        if i.Some? && a in store && i.value < |store[a]| then Some(store[a][i.value]) else None
  }

  function Loaded(loaded: seq<Elem>, junk: Elem): nat -> Elem {
    (n: nat) => if n < |loaded| then loaded[n] else junk
  }

  /** The expression text over the temporaries. */
  function BodyValue(body: Expr<nat>, loaded: seq<Elem>, alg: Algebra): Elem {
    ForEach(body, Loaded(loaded, alg.junk), alg.ops)
  }

  /** The store at the end of the kernel: None is a fault. */
  function StoreValue(p: Program, args: seq<Arg>, g: nat, v: Elem, store: Store): Option<Store> {
    if p.target < |args| && args[p.target].Buffer? && args[p.target].addr in store && g < |store[args[p.target].addr]|
    then var a := args[p.target].addr; Some(store[a := store[a][g := v]])
    else None
  }

  /** The next step of work item g; with arguments missing it is a fault. */
  function Tick(p: Program, args: seq<Arg>, alg: Algebra, s: Launch, g: nat): Option<Launch>
    requires g < |s.items|
  {
    var it := s.items[g];
    if |args| <= p.arity then None
    else if it.done then Some(s)
    else if p.guarded && g >= Sizes(args, p.arity)[0] then
      Some(s.(items := s.items[g := it.(done := true)]))
    else if |it.loaded| < |p.loads| then
      var v := LoadValue(p.loads[|it.loaded|], args, p.arity, g, s.store);
      if v.None? then None else Some(s.(items := s.items[g := it.(loaded := it.loaded + [v.value])]))
    else
      var store := StoreValue(p, args, g, BodyValue(p.body, it.loaded, alg), s.store);
      if store.None? then None
      else Some(Launch(store.value, s.items[g := it.(done := true)], s.written + [g]))
  }

  function Begin(store: Store, r: nat): Launch {
    Launch(store, seq(r, _ => Item([], false)), [])
  }

  /** The items take their steps in the order the schedule gives. */
  function Run(p: Program, args: seq<Arg>, alg: Algebra, s: Launch, schedule: seq<nat>): (t: Option<Launch>)
    requires forall k :: 0 <= k < |schedule| ==> schedule[k] < |s.items|
    ensures t.Some? ==> |t.value.items| == |s.items|
    decreases |schedule|
  {
    if schedule == [] then Some(s)
    else
      var n := |schedule| - 1;
      var t := Run(p, args, alg, s, schedule[..n]);
      if t.None? then None else Tick(p, args, alg, t.value, schedule[n])
  }

  ghost predicate Complete(s: Launch) {
    forall g :: 0 <= g < |s.items| ==> s.items[g].done
  }

  // ---- binding

  /** clSetKernelArg with a scalar's bytes, or clarg_set_global with an array's memory. */
  function ArgOf(o: Object): Arg {
    if o.Array? then Buffer(o.addr) else Value(o.value)
  }

  /** Positions 0 to n-1 in the order of rlista, then size, size2, ... */
  function Bind(e: Expr<Object>, lhs: Object): (args: seq<Arg>)
    requires lhs.Array? && lhs.shape != []
    ensures |args| == |Params(e, lhs)| + |lhs.shape|
  {
    var params := Params(e, lhs);
    seq(|params|, i requires 0 <= i < |params| => ArgOf(params[i].obj))
    + [Size(Product(lhs.shape))]
    + seq(|lhs.shape| - 1, i requires 0 <= i < |lhs.shape| - 1 => Size(lhs.shape[i + 1]))
  }

  lemma {:induction false} BoundSizes(e: Expr<Object>, lhs: Object)
    requires lhs.Array? && lhs.shape != []
    ensures Sizes(Bind(e, lhs), |Params(e, lhs)|) == [Product(lhs.shape)] + lhs.shape[1..]
  {
  }
}
