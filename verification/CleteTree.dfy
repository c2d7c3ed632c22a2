/** Expression trees and the one fold over them: ForEach.h, Combiners.h and the leaf functors of CLETE. */
module CleteTree {

  import opened CleteIndex

  /** An operator tag. */
  type Op = nat

  /** The element type; nothing is known about its operations. */
  type Elem(==, !new)

  const SPACE := 0x1_0000_0000_0000_0000

  /** A 64-bit address, as a number. */
  type Address = x: int | 0 <= x < SPACE

  datatype Expr<L> =
    | Leaf(leaf: L)
    | Unary(op: Op, child: Expr<L>)
    | Binary(op: Op, left: Expr<L>, right: Expr<L>)
    | Trinary(op: Op, left: Expr<L>, middle: Expr<L>, right: Expr<L>)

  /** What a combiner tag does at each kind of node. */
  datatype Combiner<!R> = Combiner(one: (Op, R) -> R, two: (Op, R, R) -> R, three: (Op, R, R, R) -> R)

  function ForEach<L, R>(e: Expr<L>, f: L -> R, c: Combiner<R>): R {
    match e
    case Leaf(l) => f(l)
    case Unary(op, a) => c.one(op, ForEach(a, f, c))
    case Binary(op, a, b) => c.two(op, ForEach(a, f, c), ForEach(b, f, c))
    case Trinary(op, a, b, d) => c.three(op, ForEach(a, f, c), ForEach(b, f, c), ForEach(d, f, c))
  }

  /** Combine3's default: the first two, then the third. */
  function Twice<R>(two: (Op, R, R) -> R): Combiner<R> {
    Combiner((op, a) => a, two, (op, a, b, c) => two(op, two(op, a, b), c))
  }

  function AndCombine(): Combiner<bool> { Twice((op, a, b) => a && b) }

  /** Bitwise and of two numbers. */
  function BitAnd(a: nat, b: nat): (c: nat)
    ensures c <= a && c <= b
  {
    if a == 0 then 0 else 2 * BitAnd(a / 2, b / 2) + (if a % 2 == 1 && b % 2 == 1 then 1 else 0)
  }

  function AndBitsCombine(): Combiner<Address> { Twice((op: Op, a: Address, b: Address) => BitAnd(a, b) as Address) }

  /** ListCombine splices the lists of the children together. */
  function ListCombine<R>(): Combiner<seq<R>> {
    Combiner((op, a) => a, (op, a, b) => a + b, (op, a, b, c) => a + b + c)
  }

  /** TreeCombine, and PrintCombine with each operator's text taken as that operator. */
  function TreeCombine<R>(): Combiner<Expr<R>> {
    Combiner((op, a) => Unary(op, a), (op, a, b) => Binary(op, a, b), (op, a, b, c) => Trinary(op, a, b, c))
  }

  function MapLeaves<L, R>(e: Expr<L>, f: L -> R): Expr<R> {
    ForEach(e, l => Leaf(f(l)), TreeCombine<R>())
  }

  function Leaves<L>(e: Expr<L>): seq<L> {
    ForEach(e, l => [l], ListCombine<L>())
  }

  lemma {:induction false} LeavesNonEmpty<L>(e: Expr<L>)
    ensures |Leaves(e)| > 0
  {
    match e
    case Leaf(l) =>
    case Unary(op, a) => LeavesNonEmpty(a);
    case Binary(op, a, b) => LeavesNonEmpty(a);
    case Trinary(op, a, b, d) => LeavesNonEmpty(a);
  }

  /** A fold sees its leaf functor only at the leaves. */
  lemma {:induction false} FoldAgrees<L, R>(e: Expr<L>, f: L -> R, g: L -> R, c: Combiner<R>)
    requires forall l :: l in Leaves(e) ==> f(l) == g(l)
    ensures ForEach(e, f, c) == ForEach(e, g, c)
  {
    match e
    case Leaf(l) => assert l in Leaves(e);
    case Unary(op, a) => FoldAgrees(a, f, g, c);
    case Binary(op, a, b) =>
      assert Leaves(e) == Leaves(a) + Leaves(b);
      FoldAgrees(a, f, g, c);
      FoldAgrees(b, f, g, c);
    case Trinary(op, a, b, d) =>
      assert Leaves(e) == Leaves(a) + Leaves(b) + Leaves(d);
      FoldAgrees(a, f, g, c);
      FoldAgrees(b, f, g, c);
      FoldAgrees(d, f, g, c);
  }

  /** Folding a tree whose leaves were rewritten is folding the original with the composed functor. */
  lemma {:induction false} FoldOfMap<L, M, R>(e: Expr<L>, g: L -> M, f: M -> R, h: L -> R, c: Combiner<R>)
    requires forall l :: l in Leaves(e) ==> f(g(l)) == h(l)
    ensures ForEach(MapLeaves(e, g), f, c) == ForEach(e, h, c)
  {
    match e
    case Leaf(l) => assert l in Leaves(e);
    case Unary(op, a) => FoldOfMap(a, g, f, h, c);
    case Binary(op, a, b) =>
      assert Leaves(e) == Leaves(a) + Leaves(b);
      FoldOfMap(a, g, f, h, c);
      FoldOfMap(b, g, f, h, c);
    case Trinary(op, a, b, d) =>
      assert Leaves(e) == Leaves(a) + Leaves(b) + Leaves(d);
      FoldOfMap(a, g, f, h, c);
      FoldOfMap(b, g, f, h, c);
      FoldOfMap(d, g, f, h, c);
  }

  /** Rewriting the leaves twice is rewriting them once. */
  lemma {:induction false} MapOfMap<L, M, R>(e: Expr<L>, g: L -> M, h: M -> R, k: L -> R)
    requires forall l :: l in Leaves(e) ==> h(g(l)) == k(l)
    ensures MapLeaves(MapLeaves(e, g), h) == MapLeaves(e, k)
  {
    match e
    case Leaf(l) => assert l in Leaves(e);
    case Unary(op, a) => MapOfMap(a, g, h, k);
    case Binary(op, a, b) =>
      assert Leaves(e) == Leaves(a) + Leaves(b);
      MapOfMap(a, g, h, k);
      MapOfMap(b, g, h, k);
    case Trinary(op, a, b, d) =>
      assert Leaves(e) == Leaves(a) + Leaves(b) + Leaves(d);
      MapOfMap(a, g, h, k);
      MapOfMap(b, g, h, k);
      MapOfMap(d, g, h, k);
  }

  /** Trees of one shape whose leaves are rewritten to the same things become the same tree. */
  lemma {:induction false} MapsAgree<L, M, K, R>(e1: Expr<L>, e2: Expr<M>, k1: L -> K, k2: M -> K, f1: L -> R,
            f2: M -> R)
    requires MapLeaves(e1, k1) == MapLeaves(e2, k2)
    requires |Leaves(e1)| == |Leaves(e2)|
    requires forall i :: 0 <= i < |Leaves(e1)| ==> f1(Leaves(e1)[i]) == f2(Leaves(e2)[i])
    ensures MapLeaves(e1, f1) == MapLeaves(e2, f2)
  {
    match e1
    case Leaf(l) =>
      assert f1(Leaves(e1)[0]) == f2(Leaves(e2)[0]);
    case Unary(op, a) => MapsAgree(a, e2.child, k1, k2, f1, f2);
    case Binary(op, a, b) =>
      LeavesOfMap(a, k1);
      LeavesOfMap(e2.left, k2);
      LeafSlices(a, b, e1, e2.left, e2.right, e2, f1, f2);
      MapsAgree(a, e2.left, k1, k2, f1, f2);
      MapsAgree(b, e2.right, k1, k2, f1, f2);
    case Trinary(op, a, b, d) =>
      LeavesOfMap(a, k1);
      LeavesOfMap(b, k1);
      LeavesOfMap(e2.left, k2);
      LeavesOfMap(e2.middle, k2);
      var ab, cd := Binary(op, a, b), Binary(op, e2.left, e2.middle);
      LeafSlices(ab, d, e1, cd, e2.right, e2, f1, f2);
      LeafSlices(a, b, ab, e2.left, e2.middle, cd, f1, f2);
      MapsAgree(a, e2.left, k1, k2, f1, f2);
      MapsAgree(b, e2.middle, k1, k2, f1, f2);
      MapsAgree(d, e2.right, k1, k2, f1, f2);
  }

  lemma {:induction false} LeafSlices<L, M, R>(a: Expr<L>, b: Expr<L>, e1: Expr<L>, c: Expr<M>, d: Expr<M>,
            e2: Expr<M>, f1: L -> R, f2: M -> R)
    requires Leaves(e1) == Leaves(a) + Leaves(b) && Leaves(e2) == Leaves(c) + Leaves(d)
    requires |Leaves(e1)| == |Leaves(e2)| && |Leaves(a)| == |Leaves(c)|
    requires forall i :: 0 <= i < |Leaves(e1)| ==> f1(Leaves(e1)[i]) == f2(Leaves(e2)[i])
    ensures |Leaves(b)| == |Leaves(d)|
    ensures forall i :: 0 <= i < |Leaves(a)| ==> f1(Leaves(a)[i]) == f2(Leaves(c)[i])
    ensures forall i :: 0 <= i < |Leaves(b)| ==> f1(Leaves(b)[i]) == f2(Leaves(d)[i])
  {
    forall i | 0 <= i < |Leaves(a)| ensures f1(Leaves(a)[i]) == f2(Leaves(c)[i]) {
      assert f1(Leaves(e1)[i]) == f2(Leaves(e2)[i]);
    }
    forall i | 0 <= i < |Leaves(b)| ensures f1(Leaves(b)[i]) == f2(Leaves(d)[i]) {
      assert f1(Leaves(e1)[|Leaves(a)| + i]) == f2(Leaves(e2)[|Leaves(a)| + i]);
    }
  }

  lemma {:induction false} LeavesOfMap<L, M>(e: Expr<L>, g: L -> M)
    ensures |Leaves(MapLeaves(e, g))| == |Leaves(e)|
    ensures forall i :: 0 <= i < |Leaves(e)| ==> Leaves(MapLeaves(e, g))[i] == g(Leaves(e)[i])
  {
    match e
    case Leaf(l) =>
    case Unary(op, a) => LeavesOfMap(a, g);
    case Binary(op, a, b) =>
      LeavesOfMap(a, g);
      LeavesOfMap(b, g);
    case Trinary(op, a, b, d) =>
      LeavesOfMap(a, g);
      LeavesOfMap(b, g);
      LeavesOfMap(d, g);
  }

  /** What one leaf has and a two-place combiner keeps from either side, the whole fold has. */
  lemma {:induction false} AnyLeafSpreads<L, R(!new)>(e: Expr<L>, f: L -> R, two: (Op, R, R) -> R, p: R -> bool, l: L)
    requires l in Leaves(e) && p(f(l))
    requires forall op, a, b :: p(a) || p(b) ==> p(two(op, a, b))
    ensures p(ForEach(e, f, Twice(two)))
  {
    match e
    case Leaf(_) =>
    case Unary(op, a) => AnyLeafSpreads(a, f, two, p, l);
    case Binary(op, a, b) =>
      assert Leaves(e) == Leaves(a) + Leaves(b);
      if l in Leaves(a) { AnyLeafSpreads(a, f, two, p, l); } else { AnyLeafSpreads(b, f, two, p, l); }
    case Trinary(op, a, b, d) =>
      assert Leaves(e) == Leaves(a) + Leaves(b) + Leaves(d);
      if l in Leaves(d) {
        AnyLeafSpreads(d, f, two, p, l);
      } else if l in Leaves(a) {
        AnyLeafSpreads(a, f, two, p, l);
      } else {
        AnyLeafSpreads(b, f, two, p, l);
      }
  }

  /** AndCombine asks the question of every leaf. */
  lemma {:induction false} AndOverLeaves<L>(e: Expr<L>, p: L -> bool)
    ensures ForEach(e, p, AndCombine()) <==> forall l :: l in Leaves(e) ==> p(l)
  {
    match e
    case Leaf(l) => assert l in Leaves(e);
    case Unary(op, a) => AndOverLeaves(a, p);
    case Binary(op, a, b) =>
      assert Leaves(e) == Leaves(a) + Leaves(b);
      AndOverLeaves(a, p);
      AndOverLeaves(b, p);
    case Trinary(op, a, b, d) =>
      assert Leaves(e) == Leaves(a) + Leaves(b) + Leaves(d);
      AndOverLeaves(a, p);
      AndOverLeaves(b, p);
      AndOverLeaves(d, p);
  }

  // ---- leaves: arrays by reference, scalars by value

  datatype Object =
    | Array(addr: Address, shape: seq<nat>)
    | Scalar(addr: Address, value: Elem)

  /** The storage of each array object, by the object's address. */
  type Store = map<Address, seq<Elem>>

  /** The operators, and what a read outside an array would give: no read in what follows is one. */
  datatype Algebra = Algebra(ops: Combiner<Elem>, junk: Elem)

  /** EvalLeaf applied to an object: leading indices select the cell of an array of lower rank. */
  function Read(o: Object, idx: seq<nat>, store: Store, junk: Elem): Elem {
    match o
    case Scalar(_, v) => v
    case Array(a, shape) =>
      if |shape| <= |idx| && a in store && Flat(shape, idx[..|shape|]) < |store[a]|
      then store[a][Flat(shape, idx[..|shape|])] else junk
  }

  function EvalLeaf(idx: seq<nat>, store: Store, junk: Elem): Object -> Elem {
    (o: Object) => Read(o, idx, store, junk)
  }

  /** forEach(rhs, EvalLeaf(i, j, ...), OpCombine()) */
  function Eval(e: Expr<Object>, idx: seq<nat>, store: Store, alg: Algebra): Elem {
    ForEach(e, EvalLeaf(idx, store, alg.junk), alg.ops)
  }

  /** SizeLeaf: the leading extents must be those of the left-hand side; a scalar always conforms. */
  predicate SizeLeaf(o: Object, shape: seq<nat>) {
    o.Array? ==> o.shape <= shape
  }

  predicate Conforms(e: Expr<Object>, shape: seq<nat>) {
    ForEach(e, (o: Object) => SizeLeaf(o, shape), AndCombine())
  }

  lemma {:induction false} ConformsMeans(e: Expr<Object>, shape: seq<nat>)
    ensures Conforms(e, shape) <==> forall o :: o in Leaves(e) ==> SizeLeaf(o, shape)
  {
    AndOverLeaves(e, (o: Object) => SizeLeaf(o, shape));
  }
}
