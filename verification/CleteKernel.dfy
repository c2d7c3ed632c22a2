/** The generated kernel: the text evaluate writes, as an abstract syntax tree, and what compiling it resolves. */
module CleteKernel {

  import opened CleteIndex
  import opened CleteTree
  import opened CleteNames
  import opened CleteLists

  // ---- the text

  /** "T tmpN = aN" with the index that the rank selects: none, [gti1], ..., [gti]. */
  datatype Decl = Decl(tmp: Name, from: Name, rank: nat)

  /** Parameters in order, then size, size2, ...; the store "aN[gti] = ..." comes last. */
  datatype Source = Source(params: seq<Name>, guarded: bool, decls: seq<Decl>, target: Name, body: Expr<Name>)

  function Rank(o: Object): nat {
    if o.Array? then |o.shape| else 0
  }

  /** r: the size rounded up to a multiple of 256. */
  function RoundUp(size: nat): (r: nat)
    ensures size <= r < size + 256 && r % 256 == 0
  {
    if size % 256 > 0 then size + (256 - size % 256) else size
  }

  function RefList(e: Expr<Object>, mask: Address): seq<Ref> {
    ForEach(e, (o: Object) => [Ref(o, RefName(o.addr, mask))], ListCombine<Ref>())
  }

  /** rlist */
  function Reads(e: Expr<Object>, lhs: Object): seq<Ref> {
    SortUnique(RefList(e, Mask(e, lhs.addr)))
  }

  /** rlista */
  function Params(e: Expr<Object>, lhs: Object): seq<Ref> {
    SortUnique(Reads(e, lhs) + [Ref(lhs, TmpName(lhs.addr, Mask(e, lhs.addr)))])
  }

  function Names(s: seq<Ref>): (p: seq<Name>)
    ensures |p| == |s|
  {
    seq(|s|, i requires 0 <= i < |s| => s[i].name)
  }

  function Decls(s: seq<Ref>): (d: seq<Decl>)
    ensures |d| == |s|
  {
    seq(|s|, i requires 0 <= i < |s| => Decl(s[i].name, s[i].name, Rank(s[i].obj)))
  }

  function TmpOf(mask: Address): Object -> Name { (o: Object) => TmpName(o.addr, mask) }

  function Generate(e: Expr<Object>, lhs: Object, size: nat): Source {
    var mask := Mask(e, lhs.addr);
    Source(Names(Params(e, lhs)), size != RoundUp(size), Decls(Reads(e, lhs)), TmpName(lhs.addr, mask),
           MapLeaves(e, TmpOf(mask)))
  }

  // ---- compiling

  datatype Load = Load(pos: nat, rank: nat)

  /** A kernel with its names resolved: parameters and temporaries by position. */
  datatype Program = Program(arity: nat, guarded: bool, loads: seq<Load>, target: nat, body: Expr<nat>)

  predicate Different(s: seq<Name>) {
    forall i, j :: 0 <= i < j < |s| ==> s[i] != s[j]
  }

  function Tmps(src: Source): (t: seq<Name>)
    ensures |t| == |src.decls|
  {
    seq(|src.decls|, i requires 0 <= i < |src.decls| => src.decls[i].tmp)
  }

  /** What the compiler demands: identifiers, no redeclaration, everything declared before use. */
  predicate WellFormed(src: Source) {
    && (forall n :: n in src.params ==> IsIdentifier(n))
    && Different(src.params)
    && (forall d :: d in src.decls ==> IsIdentifier(d.tmp) && d.from in src.params)
    && Different(Tmps(src))
    && src.target in src.params
    && (forall n :: n in Leaves(src.body) ==> n in Tmps(src))
  }

  function PositionOr<X(==)>(s: seq<X>, x: X): nat {
    if x in s then IndexOf(s, x) else |s|
  }

  function PositionIn(s: seq<Name>): Name -> nat { n => PositionOr(s, n) }

  function Resolve(src: Source): Program {
    Program(|src.params|, src.guarded,
           seq(|src.decls|, i requires 0 <= i < |src.decls| =>
             Load(PositionOr(src.params, src.decls[i].from), src.decls[i].rank)),
           PositionOr(src.params, src.target),
           MapLeaves(src.body, PositionIn(Tmps(src))))
  }

  // ---- the lists, by object

  /** One address, one object. */
  ghost predicate Coherent(e: Expr<Object>, lhs: Object) {
    && lhs.Array?
    && (forall o, p :: o in Leaves(e) && p in Leaves(e) && o.addr == p.addr ==> o == p)
    && (forall o :: o in Leaves(e) && o.addr == lhs.addr ==> o == lhs)
  }

  lemma {:induction false} RefListIs(e: Expr<Object>, mask: Address)
    ensures |RefList(e, mask)| == |Leaves(e)|
    ensures forall i :: 0 <= i < |Leaves(e)| ==>
      RefList(e, mask)[i] == Ref(Leaves(e)[i], RefName(Leaves(e)[i].addr, mask))
  {
    match e
    case Leaf(l) =>
    case Unary(op, a) => RefListIs(a, mask);
    case Binary(op, a, b) =>
      RefListIs(a, mask);
      RefListIs(b, mask);
    case Trinary(op, a, b, d) =>
      RefListIs(a, mask);
      RefListIs(b, mask);
      RefListIs(d, mask);
  }

  ghost predicate LeafAt(e: Expr<Object>, x: Address) {
    exists o :: o in Leaves(e) && o.addr == x
  }

  /** rlist: the leaves in address order, each once, under their narrowed names. */
  lemma {:induction false} ReadsAre(e: Expr<Object>, lhs: Object)
    ensures Increasing(Ptrs(Reads(e, lhs)))
    ensures forall r :: r in Reads(e, lhs) ==> r.obj in Leaves(e) && r.name == RefName(r.obj.addr, Mask(e, lhs.addr))
    ensures forall x :: x in Ptrs(Reads(e, lhs)) <==> LeafAt(e, x)
  {
    var mask := Mask(e, lhs.addr);
    var s := RefList(e, mask);
    RefListIs(e, mask);
    SortUniqueMeans(s);
    forall r | r in s ensures r.obj in Leaves(e) && r.name == RefName(r.obj.addr, mask) {
      var k :| 0 <= k < |s| && s[k] == r;
      assert Leaves(e)[k] == r.obj;
    }
    forall x ensures x in Ptrs(s) <==> LeafAt(e, x) {
      InPtrs(s, x);
      if o :| o in Leaves(e) && o.addr == x {
        var k :| 0 <= k < |Leaves(e)| && Leaves(e)[k] == o;
        assert s[k] in s && s[k].obj.addr == x;
      }
    }
  }

  /** rlista: the same with the left-hand side, which stands once even when it is also a leaf. */
  lemma {:induction false} ParamsAre(e: Expr<Object>, lhs: Object)
    ensures Increasing(Ptrs(Params(e, lhs)))
    ensures forall r :: r in Params(e, lhs) ==>
      r in Reads(e, lhs) || r == Ref(lhs, TmpName(lhs.addr, Mask(e, lhs.addr)))
    ensures forall x :: x in Ptrs(Params(e, lhs)) <==> Occurs(e, lhs.addr, x)
  {
    var own := Ref(lhs, TmpName(lhs.addr, Mask(e, lhs.addr)));
    var s := Reads(e, lhs) + [own];
    ReadsAre(e, lhs);
    SortUniqueMeans(s);
    forall x ensures x in Ptrs(s) <==> Occurs(e, lhs.addr, x) {
      InPtrs(s, x);
      InPtrs(Reads(e, lhs), x);
      assert x in Ptrs(Reads(e, lhs)) <==> LeafAt(e, x);
      assert own in s;
    }
  }
}
