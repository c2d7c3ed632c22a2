/** When the generated kernel compiles, and what it then is: a program that depends only on the order of addresses. */
module CleteCompile {

  import opened CleteTree
  import opened CleteNames
  import opened CleteLists
  import opened CleteKernel

  // ---- names

  /** The caller can check this before the call: the masked addresses are small enough. */
  ghost predicate NamesFit(e: Expr<Object>, lhs: Object) {
    var mask := Mask(e, lhs.addr);
    && (forall o :: o in Leaves(e) ==> Fits(o.addr, mask))
    && IsIdentifier(TmpName(lhs.addr, mask))
  }

  lemma {:induction false} ReadsFit(e: Expr<Object>, lhs: Object, r: Ref)
    requires NamesFit(e, lhs) && r in Reads(e, lhs)
    ensures r.obj in Leaves(e) && Occurs(e, lhs.addr, r.obj.addr)
    ensures r.name == TmpName(r.obj.addr, Mask(e, lhs.addr)) && IsIdentifier(r.name)
  {
    ReadsAre(e, lhs);
    NarrowingIsExact(r.obj.addr, r.obj.addr, Mask(e, lhs.addr));
  }

  lemma {:induction false} ParamsFit(e: Expr<Object>, lhs: Object, r: Ref)
    requires NamesFit(e, lhs) && r in Params(e, lhs)
    ensures Occurs(e, lhs.addr, r.obj.addr)
    ensures r.name == TmpName(r.obj.addr, Mask(e, lhs.addr)) && IsIdentifier(r.name)
  {
    ParamsAre(e, lhs);
    if r in Reads(e, lhs) {
      ReadsFit(e, lhs, r);
    }
  }

  /** In a list whose names are masked addresses, in address order, no name occurs twice. */
  lemma {:induction false} NamesDiffer(e: Expr<Object>, lhs: Object, s: seq<Ref>)
    requires Increasing(Ptrs(s))
    requires forall r :: r in s ==> Occurs(e, lhs.addr, r.obj.addr) && r.name == TmpName(r.obj.addr, Mask(e, lhs.addr))
    ensures Different(Names(s))
  {
    forall i, j | 0 <= i < j < |s| ensures Names(s)[i] != Names(s)[j] {
      assert s[i] in s && s[j] in s;
      assert Ptrs(s)[i] < Ptrs(s)[j];
      if Names(s)[i] == Names(s)[j] {
        MaskIsInjective(e, lhs.addr, s[i].obj.addr, s[j].obj.addr);
      }
    }
  }

  /** Such a list finds an object's entry by name where it finds it by address. */
  lemma {:induction false} FoundByName(e: Expr<Object>, lhs: Object, s: seq<Ref>, x: Address)
    requires Increasing(Ptrs(s)) && x in Ptrs(s)
    requires forall r :: r in s ==> Occurs(e, lhs.addr, r.obj.addr) && r.name == TmpName(r.obj.addr, Mask(e, lhs.addr))
    ensures TmpName(x, Mask(e, lhs.addr)) in Names(s)
    ensures PositionOr(Names(s), TmpName(x, Mask(e, lhs.addr))) == IndexOf(Ptrs(s), x)
  {
    var k := IndexOf(Ptrs(s), x);
    var n := TmpName(x, Mask(e, lhs.addr));
    assert s[k] in s;
    assert Names(s)[k] == n;
    NamesDiffer(e, lhs, s);
    var m := IndexOf(Names(s), n);
    assert Names(s)[m] == n;
  }

  lemma {:induction false} BodyNames(e: Expr<Object>, mask: Address, n: Name)
    ensures n in Leaves(MapLeaves(e, TmpOf(mask)))
       <==> exists o :: o in Leaves(e) && TmpName(o.addr, mask) == n
  {
    var f := TmpOf(mask);
    LeavesOfMap(e, f);
    var t := Leaves(MapLeaves(e, f));
    if n in t {
      var k :| 0 <= k < |t| && t[k] == n;
      assert Leaves(e)[k] in Leaves(e);
    }
    if o :| o in Leaves(e) && TmpName(o.addr, mask) == n {
      var k :| 0 <= k < |Leaves(e)| && Leaves(e)[k] == o;
      assert t[k] == n;
    }
  }

  lemma {:induction false} TmpsAreNames(e: Expr<Object>, lhs: Object, size: nat)
    ensures Tmps(Generate(e, lhs, size)) == Names(Reads(e, lhs))
  {
  }

  /** The two lists under masked names, each name once. */
  lemma {:induction false} ListsFit(e: Expr<Object>, lhs: Object)
    requires NamesFit(e, lhs)
    ensures Increasing(Ptrs(Reads(e, lhs))) && Increasing(Ptrs(Params(e, lhs)))
    ensures forall r :: r in Reads(e, lhs) || r in Params(e, lhs) ==>
      Occurs(e, lhs.addr, r.obj.addr) && r.name == TmpName(r.obj.addr, Mask(e, lhs.addr)) && IsIdentifier(r.name)
    ensures Different(Names(Reads(e, lhs))) && Different(Names(Params(e, lhs)))
  {
    hide Reads, Params, NamesFit, Occurs, TmpName, Mask;
    ReadsAre(e, lhs);
    ParamsAre(e, lhs);
    forall r | r in Reads(e, lhs) || r in Params(e, lhs)
      ensures Occurs(e, lhs.addr, r.obj.addr)
      ensures r.name == TmpName(r.obj.addr, Mask(e, lhs.addr)) && IsIdentifier(r.name)
    {
      if r in Reads(e, lhs) { ReadsFit(e, lhs, r); } else { ParamsFit(e, lhs, r); }
    }
    NamesDiffer(e, lhs, Reads(e, lhs));
    NamesDiffer(e, lhs, Params(e, lhs));
  }

  lemma {:induction false} ReadIsParam(e: Expr<Object>, lhs: Object, k: nat)
    requires NamesFit(e, lhs) && k < |Reads(e, lhs)|
    ensures Reads(e, lhs)[k].obj.addr in Ptrs(Params(e, lhs))
    ensures Reads(e, lhs)[k].name in Names(Params(e, lhs)) && IsIdentifier(Reads(e, lhs)[k].name)
    ensures PositionOr(Names(Params(e, lhs)), Reads(e, lhs)[k].name)
         == PositionOr(Ptrs(Params(e, lhs)), Reads(e, lhs)[k].obj.addr)
  {
    hide Reads, Params, NamesFit, Occurs, TmpName, Mask;
    var r := Reads(e, lhs)[k];
    ListsFit(e, lhs);
    ParamsAre(e, lhs);
    assert r in Reads(e, lhs);
    FoundByName(e, lhs, Params(e, lhs), r.obj.addr);
  }

  lemma {:induction false} LeafIsTmp(e: Expr<Object>, lhs: Object, o: Object)
    requires NamesFit(e, lhs) && o in Leaves(e)
    ensures o.addr in Ptrs(Reads(e, lhs)) && TmpName(o.addr, Mask(e, lhs.addr)) in Names(Reads(e, lhs))
    ensures PositionOr(Names(Reads(e, lhs)), TmpName(o.addr, Mask(e, lhs.addr)))
         == PositionOr(Ptrs(Reads(e, lhs)), o.addr)
  {
    hide Reads, NamesFit, Occurs, TmpName, Mask;
    ListsFit(e, lhs);
    ReadsAre(e, lhs);
    assert LeafAt(e, o.addr);
    FoundByName(e, lhs, Reads(e, lhs), o.addr);
  }

  lemma {:induction false} TargetIsParam(e: Expr<Object>, lhs: Object)
    requires NamesFit(e, lhs)
    ensures lhs.addr in Ptrs(Params(e, lhs)) && TmpName(lhs.addr, Mask(e, lhs.addr)) in Names(Params(e, lhs))
    ensures PositionOr(Names(Params(e, lhs)), TmpName(lhs.addr, Mask(e, lhs.addr)))
         == PositionOr(Ptrs(Params(e, lhs)), lhs.addr)
  {
    hide Reads, Params, NamesFit, TmpName, Mask;
    ListsFit(e, lhs);
    ParamsAre(e, lhs);
    FoundByName(e, lhs, Params(e, lhs), lhs.addr);
  }

  lemma {:induction false} FittingCompiles(e: Expr<Object>, lhs: Object, size: nat)
    requires NamesFit(e, lhs)
    ensures WellFormed(Generate(e, lhs, size))
  {
    hide Reads, Params, NamesFit, TmpName, Mask, Occurs, IsIdentifier;
    var src, mask := Generate(e, lhs, size), Mask(e, lhs.addr);
    TmpsAreNames(e, lhs, size);
    ListsFit(e, lhs);
    TargetIsParam(e, lhs);
    forall n | n in src.params ensures IsIdentifier(n) {
      var k :| 0 <= k < |src.params| && src.params[k] == n;
      assert Params(e, lhs)[k] in Params(e, lhs);
    }
    forall d | d in src.decls ensures IsIdentifier(d.tmp) && d.from in src.params {
      var k :| 0 <= k < |src.decls| && src.decls[k] == d;
      ReadIsParam(e, lhs, k);
    }
    forall n | n in Leaves(src.body) ensures n in Tmps(src) {
      BodyNames(e, mask, n);
      var o :| o in Leaves(e) && TmpName(o.addr, mask) == n;
      LeafIsTmp(e, lhs, o);
    }
  }

  lemma {:induction false} CompilingFits(e: Expr<Object>, lhs: Object, size: nat)
    requires WellFormed(Generate(e, lhs, size))
    ensures NamesFit(e, lhs)
  {
    var src, mask := Generate(e, lhs, size), Mask(e, lhs.addr);
    TmpsAreNames(e, lhs, size);
    ReadsAre(e, lhs);
    forall o | o in Leaves(e) ensures Fits(o.addr, mask) {
      var n := TmpName(o.addr, mask);
      BodyNames(e, mask, n);
      var k :| 0 <= k < |Tmps(src)| && Tmps(src)[k] == n;
      assert src.decls[k] in src.decls;
      assert Reads(e, lhs)[k] in Reads(e, lhs);
      NarrowingIsExact(o.addr, Reads(e, lhs)[k].obj.addr, mask);
    }
  }

  /** The kernel compiles exactly when the masked leaves fit in an int and the left-hand name is not negative. */
  lemma {:induction false} CompilesIff(e: Expr<Object>, lhs: Object, size: nat)
    ensures WellFormed(Generate(e, lhs, size)) <==> NamesFit(e, lhs)
    ensures var mask := Mask(e, lhs.addr);
      NamesFit(e, lhs) <==>
      (forall o :: o in Leaves(e) ==> BitAnd(o.addr, mask) < 0x8000_0000)
      && BitAnd(lhs.addr, mask) < 0x8000_0000_0000_0000
  {
    if NamesFit(e, lhs) {
      FittingCompiles(e, lhs, size);
    }
    if WellFormed(Generate(e, lhs, size)) {
      CompilingFits(e, lhs, size);
    }
  }

  /** Two objects 2^40 bytes apart are enough: the masked address does not fit and evaluate would do nothing. */
  lemma {:induction false} FarApartDoesNotCompile(size: nat)
    ensures !WellFormed(Generate(Leaf(Array(0x100_0000_0000, [1])), Array(0, [1]), size))
  {
    var leaf := Array(0x100_0000_0000, [1]);
    var e, lhs := Leaf(leaf), Array(0, [1]);
    assert Leaves(e) == [leaf] && leaf in Leaves(e);
    MaskSubtracts(e, lhs.addr, leaf.addr);
    assert BitAnd(CommonBits(e), lhs.addr) == 0;
    assert !Fits(leaf.addr, Mask(e, lhs.addr));
    CompilesIff(e, lhs, size);
  }

  // ---- the program

  function AddressIn(s: seq<Address>): Object -> nat { (o: Object) => PositionOr(s, o.addr) }

  /** The program by objects: each leaf loaded once, in address order, from its own parameter. */
  function Canonical(e: Expr<Object>, lhs: Object, guarded: bool): Program {
    var list, ptrs := Reads(e, lhs), Ptrs(Params(e, lhs));
    Program(|ptrs|, guarded,
            seq(|list|, i requires 0 <= i < |list| => Load(PositionOr(ptrs, list[i].obj.addr), Rank(list[i].obj))),
            PositionOr(ptrs, lhs.addr),
            MapLeaves(e, AddressIn(Ptrs(list))))
  }

  /** Parameter, temporary and store names all lead to the objects they were made from. */
  lemma {:induction false} ResolvesToCanonical(e: Expr<Object>, lhs: Object, size: nat)
    requires NamesFit(e, lhs)
    ensures Resolve(Generate(e, lhs, size)) == Canonical(e, lhs, size != RoundUp(size))
  {
    hide Reads, Params, NamesFit, TmpName, Mask, PositionOr;
    var src := Generate(e, lhs, size);
    TmpsAreNames(e, lhs, size);
    forall i | 0 <= i < |Reads(e, lhs)| ensures Resolve(src).loads[i] == Canonical(e, lhs, src.guarded).loads[i] {
      ReadIsParam(e, lhs, i);
    }
    TargetIsParam(e, lhs);
    BodyResolves(e, lhs);
  }

  lemma {:induction false} BodyResolves(e: Expr<Object>, lhs: Object)
    requires NamesFit(e, lhs)
    ensures MapLeaves(MapLeaves(e, TmpOf(Mask(e, lhs.addr))), PositionIn(Names(Reads(e, lhs))))
         == MapLeaves(e, AddressIn(Ptrs(Reads(e, lhs))))
  {
    hide Reads, NamesFit, TmpName, Mask, PositionOr;
    var tmp, pos, at := TmpOf(Mask(e, lhs.addr)), PositionIn(Names(Reads(e, lhs))), AddressIn(Ptrs(Reads(e, lhs)));
    forall o | o in Leaves(e) ensures pos(tmp(o)) == at(o) {
      LeafIsTmp(e, lhs, o);
    }
    MapOfMap(e, tmp, pos, at);
  }
}
