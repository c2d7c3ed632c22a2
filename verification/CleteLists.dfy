/** The lists of references of evaluate: ListCombine, then sort and unique by address (PETE.h). */
module CleteLists {

  import opened CleteTree
  import opened CleteNames

  /** A reference: the object it is made from and the number in its names. */
  datatype Ref = Ref(obj: Object, name: Name)

  // ---- the standard list's sort and unique

  /** ref_is_ordered is "at most". */
  function Insert(r: Ref, s: seq<Ref>): seq<Ref> {
    if s == [] || r.obj.addr <= s[0].obj.addr then [r] + s else [s[0]] + Insert(r, s[1..])
  }

  function Sort(s: seq<Ref>): seq<Ref> {
    if s == [] then [] else Insert(s[0], Sort(s[1..]))
  }

  /** Of consecutive references to one address only the first stays. */
  function Unique(s: seq<Ref>): seq<Ref>
    decreases |s|
  {
    if |s| <= 1 then s
    else if s[0].obj.addr == s[1].obj.addr then Unique([s[0]] + s[2..])
    else [s[0]] + Unique(s[1..])
  }

  function SortUnique(s: seq<Ref>): seq<Ref> { Unique(Sort(s)) }

  function Ptrs(s: seq<Ref>): (p: seq<Address>)
    ensures |p| == |s|
    ensures forall i :: 0 <= i < |s| ==> p[i] == s[i].obj.addr
  {
    seq(|s|, i requires 0 <= i < |s| => s[i].obj.addr)
  }

  ghost predicate Ascending(s: seq<Ref>) {
    forall i, j :: 0 <= i < j < |s| ==> s[i].obj.addr <= s[j].obj.addr
  }

  ghost predicate Increasing(p: seq<Address>) {
    forall i, j :: 0 <= i < j < |p| ==> p[i] < p[j]
  }

  lemma {:induction false} InsertKeeps(r: Ref, s: seq<Ref>)
    requires Ascending(s)
    ensures Ascending(Insert(r, s))
    ensures forall x :: x in Insert(r, s) <==> x == r || x in s
  {
    if s != [] && s[0].obj.addr < r.obj.addr {
      assert s == [s[0]] + s[1..];
      InsertKeeps(r, s[1..]);
      forall x | x in Insert(r, s[1..]) ensures s[0].obj.addr <= x.obj.addr {
      }
    }
  }

  lemma {:induction false} SortKeeps(s: seq<Ref>)
    ensures Ascending(Sort(s))
    ensures forall x :: x in Sort(s) <==> x in s
  {
    if s != [] {
      SortKeeps(s[1..]);
      InsertKeeps(s[0], Sort(s[1..]));
      assert s == [s[0]] + s[1..];
    }
  }

  lemma {:induction false} UniqueIncreases(s: seq<Ref>)
    requires Ascending(s)
    ensures Increasing(Ptrs(Unique(s)))
    ensures forall r :: r in Unique(s) ==> r in s
    decreases |s|
  {
    if |s| <= 1 {
    } else if s[0].obj.addr == s[1].obj.addr {
      UniqueIncreases([s[0]] + s[2..]);
    } else {
      var t := s[1..];
      UniqueIncreases(t);
      forall r | r in Unique(t) ensures s[0].obj.addr < r.obj.addr {
        assert r in t;
      }
      PrependIncreasing(s[0], Unique(t));
    }
  }

  lemma {:induction false} PrependIncreasing(r: Ref, s: seq<Ref>)
    requires Increasing(Ptrs(s)) && forall x :: x in s ==> r.obj.addr < x.obj.addr
    ensures Increasing(Ptrs([r] + s))
  {
    var u := Ptrs([r] + s);
    forall i, j | 0 <= i < j < |u| ensures u[i] < u[j] {
      assert u[j] == Ptrs(s)[j - 1];
      if i > 0 {
        assert u[i] == Ptrs(s)[i - 1];
      } else {
        assert s[j - 1] in s;
      }
    }
  }

  /** Unique drops nothing but repeated addresses. */
  lemma {:induction false} UniqueCovers(s: seq<Ref>, r: Ref)
    requires r in s
    ensures exists u :: u in Unique(s) && u.obj.addr == r.obj.addr
    decreases |s|
  {
    if |s| <= 1 {
    } else if s[0].obj.addr == s[1].obj.addr {
      var t := [s[0]] + s[2..];
      if r == s[1] {
        assert t[0] in t;
        UniqueCovers(t, s[0]);
      } else {
        assert r in t by { assert s == [s[0], s[1]] + s[2..]; }
        UniqueCovers(t, r);
      }
    } else if r == s[0] {
      assert Unique(s)[0] == r;
    } else {
      assert s == [s[0]] + s[1..];
      UniqueCovers(s[1..], r);
    }
  }

  /** After sort and unique the list is strictly increasing and has exactly the addresses that went in. */
  lemma {:induction false} SortUniqueMeans(s: seq<Ref>)
    ensures Increasing(Ptrs(SortUnique(s)))
    ensures forall r :: r in SortUnique(s) ==> r in s
    ensures forall x :: x in Ptrs(SortUnique(s)) <==> x in Ptrs(s)
  {
    SortKeeps(s);
    UniqueIncreases(Sort(s));
    forall x ensures x in Ptrs(SortUnique(s)) <==> x in Ptrs(s) {
      InPtrs(SortUnique(s), x);
      InPtrs(s, x);
      if r :| r in s && r.obj.addr == x {
        UniqueCovers(Sort(s), r);
      }
    }
  }

  lemma {:induction false} InPtrs(s: seq<Ref>, x: Address)
    ensures x in Ptrs(s) <==> exists r :: r in s && r.obj.addr == x
  {
    if x in Ptrs(s) {
      var k :| 0 <= k < |s| && Ptrs(s)[k] == x;
      assert s[k] in s;
    }
    if r :| r in s && r.obj.addr == x {
      var k :| 0 <= k < |s| && s[k] == r;
      assert Ptrs(s)[k] == x;
    }
  }

  // ---- strictly increasing lists of addresses

  lemma {:induction false} HasElement<X>(s: seq<X>)
    ensures s == [] || exists x :: x in s
  {
    if s != [] {
      assert s[0] in s;
    }
  }

  /** There is only one strictly increasing list of a given set of addresses: any sorting algorithm will do. */
  lemma {:induction false} IncreasingIsUnique(p: seq<Address>, q: seq<Address>)
    requires Increasing(p) && Increasing(q)
    requires forall x :: x in p <==> x in q
    ensures p == q
    decreases |p|
  {
    HasElement(p);
    HasElement(q);
    if p != [] {
      assert p[0] in p && p[0] in q && q[0] in q && q[0] in p;
      assert p == [p[0]] + p[1..] && q == [q[0]] + q[1..];
      forall x ensures x in p[1..] <==> x in q[1..] {
        assert x in p[1..] <==> x in p && x != p[0];
        assert x in q[1..] <==> x in q && x != q[0];
      }
      IncreasingIsUnique(p[1..], q[1..]);
    }
  }

  function IndexOf<X(==)>(s: seq<X>, x: X): (k: nat)
    requires x in s
    ensures k < |s| && s[k] == x
  {
    if s[0] == x then 0 else 1 + IndexOf(s[1..], x)
  }
}
