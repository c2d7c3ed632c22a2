/** The nested host loops of evaluate, updating the left-hand array in place. */
module CleteHost {

  import opened CleteIndex
  import opened CleteTree

  /** Every array object has storage of its own, of its shape's size; the left-hand side is one such object. */
  ghost predicate WellStored(e: Expr<Object>, lhs: Address, shape: seq<nat>, store: Store) {
    && Conforms(e, shape)
    && lhs in store && |store[lhs]| == Product(shape)
    && forall o :: o in Leaves(e) && o.Array? ==>
         && o.addr in store && |store[o.addr]| == Product(o.shape)
         && (o.addr == lhs ==> o.shape == shape)
  }

  /** What cell g should become: the expression there, on the values before the assignment. */
  function HostCell(e: Expr<Object>, shape: seq<nat>, store: Store, alg: Algebra, g: nat): Elem
    requires g < Product(shape)
  {
    Eval(e, Coord(shape, g), store, alg)
  }

  function HostCells(e: Expr<Object>, shape: seq<nat>, store: Store, alg: Algebra): (s: seq<Elem>)
    ensures |s| == Product(shape)
  {
    seq(Product(shape), g requires 0 <= g < Product(shape) => HostCell(e, shape, store, alg, g))
  }

  /** Each leaf is read inside its array; the left-hand array, when it occurs, only at the cell being written. */
  lemma {:induction false} ReadsAreInside(e: Expr<Object>, lhs: Address, shape: seq<nat>, store: Store, g: nat,
            o: Object)
    requires WellStored(e, lhs, shape, store) && g < Product(shape) && o in Leaves(e) && o.Array?
    ensures |o.shape| <= |shape|
    ensures Flat(o.shape, Coord(shape, g)[..|o.shape|]) < Product(o.shape)
    ensures o.addr == lhs ==> Flat(o.shape, Coord(shape, g)[..|o.shape|]) == g
  {
    ConformsMeans(e, shape);
    assert SizeLeaf(o, shape);
    var d, idx := |o.shape|, Coord(shape, g);
    FlatOfCoord(shape, g);
    assert InRange(o.shape, idx[..d]);
    FlatBelow(o.shape, idx[..d]);
    if o.addr == lhs {
      assert idx[..d] == idx;
    }
  }

  /** So the other cells of the left-hand side do not matter to cell g. */
  lemma {:induction false} OwnCellOnly(e: Expr<Object>, lhs: Address, shape: seq<nat>, store: Store, alg: Algebra,
            g: nat, now: seq<Elem>)
    requires WellStored(e, lhs, shape, store) && g < Product(shape)
    requires |now| == Product(shape) && now[g] == store[lhs][g]
    ensures Eval(e, Coord(shape, g), store[lhs := now], alg) == HostCell(e, shape, store, alg, g)
  {
    var idx := Coord(shape, g);
    var later := store[lhs := now];
    forall o | o in Leaves(e) ensures Read(o, idx, later, alg.junk) == Read(o, idx, store, alg.junk) {
      if o.Array? {
        ReadsAreInside(e, lhs, shape, store, g, o);
        ReadStays(o, idx, store, lhs, now, g, alg.junk);
      }
    }
    FoldAgrees(e, EvalLeaf(idx, later, alg.junk), EvalLeaf(idx, store, alg.junk), alg.ops);
  }

  lemma {:induction false} ReadStays(o: Object, idx: seq<nat>, store: Store, lhs: Address, now: seq<Elem>, g: nat,
            junk: Elem)
    requires o.Array? && |o.shape| <= |idx| && lhs in store
    requires g < |now| == |store[lhs]| && now[g] == store[lhs][g]
    requires o.addr == lhs ==> Flat(o.shape, idx[..|o.shape|]) == g
    ensures Read(o, idx, store[lhs := now], junk) == Read(o, idx, store, junk)
  {
    hide Flat;
  }

  /** One more dimension: the position and the number of cells. */
  lemma {:induction false} Snoc(shape: seq<nat>, n: nat, idx: seq<nat>, k: nat)
    requires |idx| == |shape|
    ensures Flat(shape + [n], idx + [k]) == Flat(shape, idx) * n + k
    ensures Product(shape + [n]) == Product(shape) * n
  {
    assert (shape + [n])[..|shape|] == shape && (idx + [k])[..|idx|] == idx;
  }

  lemma {:induction false} Rank1(n1: nat, i: nat)
    ensures Flat([n1], [i]) == i && Product([n1]) == n1
  {
    Snoc([], n1, [], i);
    assert [] + [n1] == [n1] && [] + [i] == [i];
  }

  lemma {:induction false} Rank2(n1: nat, n2: nat, i: nat, j: nat)
    ensures Flat([n1, n2], [i, j]) == i * n2 + j && Product([n1, n2]) == n1 * n2
  {
    Rank1(n1, i);
    Snoc([n1], n2, [i], j);
    assert [n1] + [n2] == [n1, n2] && [i] + [j] == [i, j];
  }

  lemma {:induction false} Rank3(n1: nat, n2: nat, n3: nat, i: nat, j: nat, k: nat, m2: nat)
    requires m2 == n2 * n3
    ensures Flat([n1, n2, n3], [i, j, k]) == i * m2 + j * n3 + k && Product([n1, n2, n3]) == n1 * m2
  {
    Rank2(n1, n2, i, j);
    Snoc([n1, n2], n3, [i, j], k);
    assert [n1, n2] + [n3] == [n1, n2, n3] && [i, j] + [k] == [i, j, k];
    assert (i * n2 + j) * n3 == i * (n2 * n3) + j * n3;
    assert n1 * n2 * n3 == n1 * (n2 * n3);
  }

  lemma {:induction false} Rank4(n1: nat, n2: nat, n3: nat, n4: nat, i: nat, j: nat, k: nat, l: nat, m2: nat, m3: nat)
    requires m3 == n3 * n4 && m2 == n2 * m3
    ensures Flat([n1, n2, n3, n4], [i, j, k, l]) == i * m2 + j * m3 + k * n4 + l
    ensures Product([n1, n2, n3, n4]) == n1 * m2
  {
    Rank3(n1, n2, n3, i, j, k, n2 * n3);
    Snoc([n1, n2, n3], n4, [i, j, k], l);
    assert [n1, n2, n3] + [n4] == [n1, n2, n3, n4] && [i, j, k] + [l] == [i, j, k, l];
    Distribute(i, j, n2 * n3, n3, k, n4);
    Associate(n2, n3, n4);
    Associate(n1, n2 * n3, n4);
  }

  lemma {:induction false} Associate(a: nat, b: nat, c: nat)
    ensures a * b * c == a * (b * c)
  {
  }

  lemma {:induction false} Distribute(i: nat, j: nat, a: nat, b: nat, k: nat, n: nat)
    ensures (i * a + j * b + k) * n == i * (a * n) + j * (b * n) + k * n
  {
  }

  /** An assignment in progress: the expression, and the storage of the arrays as it was at the start. */
  datatype Job = Job(e: Expr<Object>, lhs: Address, shape: seq<nat>, store: Store, alg: Algebra) {
    ghost predicate Ready() { WellStored(e, lhs, shape, store) }

    function Cells(): (s: seq<Elem>) ensures |s| == Product(shape) { HostCells(e, shape, store, alg) }

    /** The first c cells have been assigned and the others not. */
    ghost predicate Progress(now: seq<Elem>, c: nat)
      requires Ready()
    {
      c <= Product(shape) && now == Cells()[..c] + store[lhs][c..]
    }

    lemma {:induction false} Begin()
      requires Ready()
      ensures Progress(store[lhs], 0)
    {
    }

    lemma {:induction false} Finish(now: seq<Elem>)
      requires Ready() && Progress(now, Product(shape))
      ensures now == Cells()
    {
    }
  }

  /** op(lhs[i][j]..., forEach(rhs, EvalLeaf(i, j, ...), OpCombine())) with op an assignment. */
  method AssignCell(job: Job, lhs: array<Elem>, idx: seq<nat>, ghost c: nat)
    requires job.Ready() && InRange(job.shape, idx) && Flat(job.shape, idx) == c
    requires job.Progress(lhs[..], c)
    modifies lhs
    ensures job.Progress(lhs[..], c + 1)
  {
    CoordOfFlat(job.shape, idx);
    OwnCellOnly(job.e, job.lhs, job.shape, job.store, job.alg, c, lhs[..]);
    ghost var before := lhs[..];
    lhs[Flat(job.shape, idx)] := Eval(job.e, idx, job.store[job.lhs := lhs[..]], job.alg);
    assert lhs[..] == before[c := job.Cells()[c]];
  }

  method HostLoop1(job: Job, lhs: array<Elem>)
    requires job.Ready() && |job.shape| == 1 && lhs[..] == job.store[job.lhs]
    modifies lhs
    ensures lhs[..] == job.Cells()
  {
    var n1 := job.shape[0];
    assert job.shape == [n1];
    Rank1(n1, 0);
    for i := 0 to n1
      invariant job.Progress(lhs[..], i)
    {
      Rank1(n1, i);
      AssignCell(job, lhs, [i], i);
    }
  }

  method HostLoop2(job: Job, lhs: array<Elem>)
    requires job.Ready() && |job.shape| == 2 && lhs[..] == job.store[job.lhs]
    modifies lhs
    ensures lhs[..] == job.Cells()
  {
    hide Job.Progress, Job.Ready, Flat, Product, HostCells;
    var n1, n2 := job.shape[0], job.shape[1];
    assert job.shape == [n1, n2];
    Rank2(n1, n2, 0, 0);
    job.Begin();
    ghost var c := 0;
    for i := 0 to n1
      invariant c == i * n2 && job.Progress(lhs[..], c)
    {
      for j := 0 to n2
        invariant c == i * n2 + j && job.Progress(lhs[..], c)
      {
        Rank2(n1, n2, i, j);
        AssignCell(job, lhs, [i, j], c);
        c := c + 1;
      }
      assert i * n2 + n2 == (i + 1) * n2;
    }
    job.Finish(lhs[..]);
  }

  method HostLoop3(job: Job, lhs: array<Elem>)
    requires job.Ready() && |job.shape| == 3 && lhs[..] == job.store[job.lhs]
    modifies lhs
    ensures lhs[..] == job.Cells()
  {
    hide Job.Progress, Job.Ready, Flat, Product, HostCells;
    var n1, n2, n3 := job.shape[0], job.shape[1], job.shape[2];
    assert job.shape == [n1, n2, n3];
    ghost var m2 := n2 * n3;
    Rank3(n1, n2, n3, 0, 0, 0, m2);
    job.Begin();
    ghost var c := 0;
    for i := 0 to n1
      invariant c == i * m2 && job.Progress(lhs[..], c)
    {
      for j := 0 to n2
        invariant c == i * m2 + j * n3 && job.Progress(lhs[..], c)
      {
        for k := 0 to n3
          invariant c == i * m2 + j * n3 + k && job.Progress(lhs[..], c)
        {
          Rank3(n1, n2, n3, i, j, k, m2);
          AssignCell(job, lhs, [i, j, k], c);
          c := c + 1;
        }
        assert j * n3 + n3 == (j + 1) * n3;
      }
      assert i * m2 + m2 == (i + 1) * m2;
    }
    job.Finish(lhs[..]);
  }

  method HostLoop4(job: Job, lhs: array<Elem>)
    requires job.Ready() && |job.shape| == 4 && lhs[..] == job.store[job.lhs]
    modifies lhs
    ensures lhs[..] == job.Cells()
  {
    hide Job.Progress, Job.Ready, Flat, Product, HostCells;
    var n1, n2, n3, n4 := job.shape[0], job.shape[1], job.shape[2], job.shape[3];
    assert job.shape == [n1, n2, n3, n4];
    ghost var m3 := n3 * n4;
    ghost var m2 := n2 * m3;
    Rank4(n1, n2, n3, n4, 0, 0, 0, 0, m2, m3);
    job.Begin();
    ghost var c := 0;
    for i := 0 to n1
      invariant c == i * m2 && job.Progress(lhs[..], c)
    {
      for j := 0 to n2
        invariant c == i * m2 + j * m3 && job.Progress(lhs[..], c)
      {
        for k := 0 to n3
          invariant c == i * m2 + j * m3 + k * n4 && job.Progress(lhs[..], c)
        {
          for l := 0 to n4
            invariant c == i * m2 + j * m3 + k * n4 + l && job.Progress(lhs[..], c)
          {
            Rank4(n1, n2, n3, n4, i, j, k, l, m2, m3);
            AssignCell(job, lhs, [i, j, k, l], c);
            c := c + 1;
          }
          assert k * n4 + n4 == (k + 1) * n4;
        }
        assert j * m3 + m3 == (j + 1) * m3;
      }
      assert i * m2 + m2 == (i + 1) * m2;
    }
    job.Finish(lhs[..]);
  }
}
