/** When a compiled kernel may serve another assignment of the same expression type. */
module CletePattern {

  import opened CleteTree
  import opened CleteNames
  import opened CleteLists
  import opened CleteKernel
  import opened CleteCompile

  function RankOf(): Object -> nat { (o: Object) => Rank(o) }

  /** What the C++ type of an expression fixes: operators, and the kind and rank of each leaf. */
  function TypeOf(e: Expr<Object>): Expr<nat> { MapLeaves(e, RankOf()) }

  /** The leaves' addresses, in the order of the expression. */
  function Addresses(e: Expr<Object>): (p: seq<Address>)
    ensures |p| == |Leaves(e)|
  {
    seq(|Leaves(e)|, i requires 0 <= i < |Leaves(e)| => Leaves(e)[i].addr)
  }

  /** Equally long lists in which the same positions compare the same way. */
  ghost predicate SameOrder(p: seq<Address>, q: seq<Address>) {
    |p| == |q| && forall i, j :: 0 <= i < |p| && 0 <= j < |p| ==> (p[i] < p[j] <==> q[i] < q[j])
  }

  ghost predicate SamePattern(e1: Expr<Object>, l1: Object, e2: Expr<Object>, l2: Object) {
    && TypeOf(e1) == TypeOf(e2)
    && SameOrder(Addresses(e1) + [l1.addr], Addresses(e2) + [l2.addr])
  }

  ghost predicate SortedSetOf(s: seq<Address>, p: seq<Address>) {
    Increasing(s) && forall x :: x in s <==> x in p
  }

  /** The same order gives the same ranks. */
  lemma {:induction false} SameRanks(p: seq<Address>, q: seq<Address>, s: seq<Address>, t: seq<Address>)
    requires SameOrder(p, q) && SortedSetOf(s, p) && SortedSetOf(t, q)
    ensures |s| == |t|
    ensures forall i :: 0 <= i < |p| ==> PositionOr(s, p[i]) == PositionOr(t, q[i]) < |s|
  {
    TranslateIs(p, q, s, t);
    forall i | 0 <= i < |p| ensures PositionOr(s, p[i]) == PositionOr(t, q[i]) < |s| {
      TranslateAt(p, q, s, i);
      assert q[i] in q;
      var k, m := IndexOf(s, p[i]), IndexOf(t, q[i]);
      assert t[k] == q[i] == t[m];
      assert !(t[k] < t[m]) && !(t[m] < t[k]);
    }
  }

  lemma {:induction false} TranslateAt(p: seq<Address>, q: seq<Address>, s: seq<Address>, i: nat)
    requires SameOrder(p, q) && SortedSetOf(s, p) && i < |p|
    ensures p[i] in s && Translate(p, q, s)[IndexOf(s, p[i])] == q[i]
  {
    assert p[i] in p;
    var m := IndexOf(p, p[i]);
    assert !(q[m] < q[i]) && !(q[i] < q[m]);
  }

  lemma {:induction false} TranslateIs(p: seq<Address>, q: seq<Address>, s: seq<Address>, t: seq<Address>)
    requires SameOrder(p, q) && SortedSetOf(s, p) && SortedSetOf(t, q)
    ensures Translate(p, q, s) == t
  {
    var u := Translate(p, q, s);
    forall x ensures x in u <==> x in t {
      if x in t {
        var i :| 0 <= i < |q| && q[i] == x;
        TranslateAt(p, q, s, i);
      }
      if x in u {
        var k :| 0 <= k < |u| && u[k] == x;
        assert q[IndexOf(p, s[k])] == x;
      }
    }
    IncreasingIsUnique(u, t);
  }

  function Translate(p: seq<Address>, q: seq<Address>, s: seq<Address>): (u: seq<Address>)
    requires |p| == |q| && forall x :: x in s ==> x in p
    ensures |u| == |s|
    ensures forall k :: 0 <= k < |s| ==> u[k] == q[IndexOf(p, s[k])]
    ensures SameOrder(p, q) && Increasing(s) ==> Increasing(u)
  {
    seq(|s|, k requires 0 <= k < |s| => q[IndexOf(p, s[k])])
  }

  lemma {:induction false} AddressLists(e: Expr<Object>, l: Object)
    ensures SortedSetOf(Ptrs(Reads(e, l)), Addresses(e))
    ensures SortedSetOf(Ptrs(Params(e, l)), Addresses(e) + [l.addr])
  {
    ReadsAre(e, l);
    ParamsAre(e, l);
    var p := Addresses(e);
    forall x ensures (x in p <==> LeafAt(e, x)) && (x in p + [l.addr] <==> Occurs(e, l.addr, x)) {
      if x in p {
        var i :| 0 <= i < |p| && p[i] == x;
        assert Leaves(e)[i] in Leaves(e);
      }
      if o :| o in Leaves(e) && o.addr == x {
        var i :| 0 <= i < |Leaves(e)| && Leaves(e)[i] == o;
        assert p[i] == x;
      }
    }
  }

  lemma {:induction false} PrefixOrder(p: seq<Address>, a: Address, q: seq<Address>, b: Address)
    requires SameOrder(p + [a], q + [b])
    ensures SameOrder(p, q)
  {
    forall i, j | 0 <= i < |p| && 0 <= j < |p| ensures p[i] < p[j] <==> q[i] < q[j] {
      assert (p + [a])[i] < (p + [a])[j] <==> (q + [b])[i] < (q + [b])[j];
    }
  }

  lemma {:induction false} SameLeafRanks(e1: Expr<Object>, e2: Expr<Object>, i: nat)
    requires TypeOf(e1) == TypeOf(e2) && i < |Leaves(e1)|
    ensures |Leaves(e1)| == |Leaves(e2)| && Rank(Leaves(e1)[i]) == Rank(Leaves(e2)[i])
  {
    LeavesOfMap(e1, RankOf());
    LeavesOfMap(e2, RankOf());
  }

  /** The entry of rlist for leaf i is that leaf. */
  lemma {:induction false} ReadOfLeaf(e: Expr<Object>, l: Object, i: nat)
    requires Coherent(e, l) && i < |Leaves(e)|
    ensures PositionOr(Ptrs(Reads(e, l)), Leaves(e)[i].addr) < |Reads(e, l)|
    ensures Reads(e, l)[PositionOr(Ptrs(Reads(e, l)), Leaves(e)[i].addr)].obj == Leaves(e)[i]
  {
    ReadsAre(e, l);
    assert LeafAt(e, Leaves(e)[i].addr);
    var k := PositionOr(Ptrs(Reads(e, l)), Leaves(e)[i].addr);
    assert Reads(e, l)[k] in Reads(e, l);
  }

  lemma {:induction false} SameLoad(e1: Expr<Object>, l1: Object, e2: Expr<Object>, l2: Object, k: nat, i: nat)
    requires Coherent(e1, l1) && Coherent(e2, l2) && TypeOf(e1) == TypeOf(e2)
    requires k < |Reads(e1, l1)| == |Reads(e2, l2)| && i < |Leaves(e1)| == |Leaves(e2)|
    requires Ptrs(Reads(e1, l1))[k] == Leaves(e1)[i].addr
    requires PositionOr(Ptrs(Reads(e1, l1)), Leaves(e1)[i].addr) == PositionOr(Ptrs(Reads(e2, l2)), Leaves(e2)[i].addr)
    ensures Reads(e2, l2)[k].obj.addr == Leaves(e2)[i].addr
    ensures Rank(Reads(e1, l1)[k].obj) == Rank(Reads(e2, l2)[k].obj)
  {
    hide Reads, TypeOf, Rank;
    ReadOfLeaf(e1, l1, i);
    ReadOfLeaf(e2, l2, i);
    SameLeafRanks(e1, e2, i);
    var s1 := Ptrs(Reads(e1, l1));
    var m := PositionOr(s1, Leaves(e1)[i].addr);
    ReadsAre(e1, l1);
    assert !(s1[k] < s1[m]) && !(s1[m] < s1[k]);
  }

  /** Where an object stands in the two lists depends on the pattern alone. */
  lemma {:induction false} SamePositions(e1: Expr<Object>, l1: Object, e2: Expr<Object>, l2: Object)
    requires SamePattern(e1, l1, e2, l2)
    ensures |Reads(e1, l1)| == |Reads(e2, l2)| && |Params(e1, l1)| == |Params(e2, l2)|
    ensures |Leaves(e1)| == |Leaves(e2)|
    ensures PositionOr(Ptrs(Params(e1, l1)), l1.addr) == PositionOr(Ptrs(Params(e2, l2)), l2.addr)
    ensures forall i :: 0 <= i < |Leaves(e1)| ==>
      && PositionOr(Ptrs(Reads(e1, l1)), Leaves(e1)[i].addr) == PositionOr(Ptrs(Reads(e2, l2)), Leaves(e2)[i].addr)
      && PositionOr(Ptrs(Params(e1, l1)), Leaves(e1)[i].addr) == PositionOr(Ptrs(Params(e2, l2)), Leaves(e2)[i].addr)
  {
    hide Reads, Params, PositionOr;
    var p, q := Addresses(e1), Addresses(e2);
    AddressLists(e1, l1);
    AddressLists(e2, l2);
    PrefixOrder(p, l1.addr, q, l2.addr);
    SameRanks(p, q, Ptrs(Reads(e1, l1)), Ptrs(Reads(e2, l2)));
    SameRanks(p + [l1.addr], q + [l2.addr], Ptrs(Params(e1, l1)), Ptrs(Params(e2, l2)));
    forall i | 0 <= i < |Leaves(e1)| ensures
      && PositionOr(Ptrs(Reads(e1, l1)), Leaves(e1)[i].addr) == PositionOr(Ptrs(Reads(e2, l2)), Leaves(e2)[i].addr)
      && PositionOr(Ptrs(Params(e1, l1)), Leaves(e1)[i].addr) == PositionOr(Ptrs(Params(e2, l2)), Leaves(e2)[i].addr)
    {
      assert p[i] == Leaves(e1)[i].addr && q[i] == Leaves(e2)[i].addr;
      assert (p + [l1.addr])[i] == p[i] && (q + [l2.addr])[i] == q[i];
    }
    assert (p + [l1.addr])[|p|] == l1.addr && (q + [l2.addr])[|p|] == l2.addr;
  }

  /** Two assignments of one expression type with the same address pattern get the same program. */
  lemma {:induction false} SamePatternSameProgram(e1: Expr<Object>, l1: Object, e2: Expr<Object>, l2: Object,
            guarded: bool)
    requires Coherent(e1, l1) && Coherent(e2, l2) && SamePattern(e1, l1, e2, l2)
    ensures Canonical(e1, l1, guarded) == Canonical(e2, l2, guarded)
  {
    hide Reads, Params, PositionOr;
    SamePositions(e1, l1, e2, l2);
    ReadsAre(e1, l1);
    forall k | 0 <= k < |Reads(e1, l1)|
      ensures Canonical(e1, l1, guarded).loads[k] == Canonical(e2, l2, guarded).loads[k]
    {
      assert Reads(e1, l1)[k] in Reads(e1, l1);
      var i :| 0 <= i < |Leaves(e1)| && Leaves(e1)[i] == Reads(e1, l1)[k].obj;
      SameLoad(e1, l1, e2, l2, k, i);
    }
    MapsAgree(e1, e2, RankOf(), RankOf(), AddressIn(Ptrs(Reads(e1, l1))), AddressIn(Ptrs(Reads(e2, l2))));
  }
}
