/** Row-major indices of src/CLETE/clmulti_array_CLETE.h, for any rank. */
module CleteIndex {

  function Product(s: seq<nat>): nat {
    if s == [] then 1 else Product(s[..|s| - 1]) * s[|s| - 1]
  }

  predicate InRange(shape: seq<nat>, idx: seq<nat>) {
    |idx| == |shape| && forall d :: 0 <= d < |shape| ==> idx[d] < shape[d]
  }

  /** The row-major position of a cell. */
  function Flat(shape: seq<nat>, idx: seq<nat>): nat
    requires |idx| == |shape|
  {
    var n := |shape| - 1;
    if n < 0 then 0 else Flat(shape[..n], idx[..n]) * shape[n] + idx[n]
  }

  /** The cell at a row-major position. */
  function Coord(shape: seq<nat>, g: nat): (idx: seq<nat>)
    requires g < Product(shape)
    ensures |idx| == |shape|
    decreases |shape|
  {
    var n := |shape| - 1;
    if n < 0 then [] else
      QuotientBelow(g, Product(shape[..n]), shape[n]);
      Coord(shape[..n], g / shape[n]) + [g % shape[n]]
  }

  lemma {:induction false} QuotientBelow(g: nat, p: nat, n: nat)
    requires g < p * n
    ensures n > 0 && g / n < p
  {
  }

  lemma {:induction false} MulMono(n: nat, a: nat, b: nat)
    requires a <= b
    ensures n * a <= n * b
  {
  }

  lemma {:induction false} FlatBelow(shape: seq<nat>, idx: seq<nat>)
    requires InRange(shape, idx)
    ensures Flat(shape, idx) < Product(shape)
  {
    var n := |shape| - 1;
    if n >= 0 {
      FlatBelow(shape[..n], idx[..n]);
      var f, p := Flat(shape[..n], idx[..n]), Product(shape[..n]);
      Below(f, p, shape[n], idx[n]);
    }
  }

  lemma {:induction false} Below(f: nat, p: nat, n: nat, k: nat)
    requires f < p && k < n
    ensures f * n + k < p * n
  {
    MulMono(n, f + 1, p);
  }

  /** Coord inverts Flat from both sides. */
  lemma {:induction false} FlatOfCoord(shape: seq<nat>, g: nat)
    requires g < Product(shape)
    ensures InRange(shape, Coord(shape, g)) && Flat(shape, Coord(shape, g)) == g
    decreases |shape|
  {
    var n := |shape| - 1;
    if n >= 0 {
      QuotientBelow(g, Product(shape[..n]), shape[n]);
      var rest := Coord(shape[..n], g / shape[n]);
      FlatOfCoord(shape[..n], g / shape[n]);
      var idx := Coord(shape, g);
      assert idx[..n] == rest && idx[n] == g % shape[n];
    }
  }

  lemma {:induction false} CoordOfFlat(shape: seq<nat>, idx: seq<nat>)
    requires InRange(shape, idx)
    ensures Flat(shape, idx) < Product(shape) && Coord(shape, Flat(shape, idx)) == idx
  {
    FlatBelow(shape, idx);
    var n := |shape| - 1;
    if n >= 0 {
      CoordOfFlat(shape[..n], idx[..n]);
      var f := Flat(shape[..n], idx[..n]);
      DivideBack(f, shape[n], idx[n]);
      assert idx == idx[..n] + [idx[n]];
    }
  }

  lemma {:induction false} DivideBack(f: nat, n: nat, k: nat)
    requires k < n
    ensures (f * n + k) / n == f && (f * n + k) % n == k
  {
    var q, r := (f * n + k) / n, (f * n + k) % n;
    assert (q - f) * n == k - r;
    if q > f { MulMono(n, 1, q - f); }
    if q < f { MulMono(n, 1, f - q); }
  }

  predicate Positive(sizes: seq<nat>) {
    forall d :: 0 <= d < |sizes| ==> sizes[d] > 0
  }

  /** gti/sizeA/sizeB/..., dividing by the first size first as the generated text does. */
  function DivChain(g: nat, sizes: seq<nat>): nat
    requires Positive(sizes)
    decreases |sizes|
  {
    if sizes == [] then g else DivChain(g / sizes[0], sizes[1..])
  }

  lemma {:induction false} DivisionsCommute(g: nat, a: nat, b: nat)
    requires a > 0 && b > 0
    ensures g / a / b == g / b / a
  {
    DivideByProduct(g, a, b);
    DivideByProduct(g, b, a);
    assert a * b == b * a;
  }

  lemma {:induction false} DivideByProduct(g: nat, a: nat, b: nat)
    requires a > 0 && b > 0
    ensures a * b > 0 && g / a / b == g / (a * b)
  {
    Divided(g, a);
    Divided(g / a, b);
    ProductQuotient(g, a, b, g / a, g % a, g / a / b, g / a % b);
  }

  lemma {:induction false} Divided(g: nat, a: nat)
    requires a > 0
    ensures g == a * (g / a) + g % a && g % a < a
  {
  }

  lemma {:induction false} ProductQuotient(g: nat, a: nat, b: nat, q: nat, r: nat, s: nat, t: nat)
    requires g == a * q + r && r < a && q == b * s + t && t < b
    ensures a * b > 0 && g / (a * b) == s
  {
    MulPositive(a, b);
    Nested(a, b, s, t, r);
    Below(t, b, a, r);
    Quotient(g, a * b, s, t * a + r);
  }

  lemma {:induction false} Quotient(g: nat, p: nat, s: nat, m: nat)
    requires g == s * p + m && m < p
    ensures g / p == s
  {
    DivideBack(s, p, m);
  }

  lemma {:induction false} Nested(a: nat, b: nat, s: nat, t: nat, r: nat)
    ensures a * (b * s + t) + r == s * (a * b) + (t * a + r)
    ensures b * a == a * b
  {
    assert a * (b * s + t) == a * (b * s) + a * t;
    assert a * (b * s) == (a * b) * s;
  }

  lemma {:induction false} MulPositive(a: nat, b: nat)
    requires a > 0 && b > 0
    ensures a * b > 0
  {
    MulMono(a, 1, b);
  }

  /** The last division may be made first. */
  lemma {:induction false} DivLastFirst(g: nat, sizes: seq<nat>)
    requires sizes != [] && Positive(sizes)
    ensures DivChain(g, sizes) == DivChain(g / sizes[|sizes| - 1], sizes[..|sizes| - 1])
    decreases |sizes|
  {
    var n := |sizes| - 1;
    if n > 0 {
      DivLastFirst(g / sizes[0], sizes[1..]);
      assert sizes[1..][..n - 1] == sizes[..n][1..];
      DivisionsCommute(g, sizes[0], sizes[n]);
    }
  }

  /** Dividing by the trailing sizes leaves the row-major position of the leading coordinates. */
  lemma {:induction false} LeadingCoordinates(shape: seq<nat>, g: nat, d: nat)
    requires g < Product(shape) && d <= |shape|
    ensures Positive(shape)
    ensures DivChain(g, shape[d..]) == Flat(shape[..d], Coord(shape, g)[..d])
    decreases |shape|
  {
    var n := |shape| - 1;
    var idx := Coord(shape, g);
    if d == |shape| {
      FlatOfCoord(shape, g);
      assert shape[..d] == shape && idx[..d] == idx && shape[d..] == [];
      forall k | 0 <= k < |shape| ensures shape[k] > 0 {
        assert idx[k] < shape[k];
      }
    } else {
      QuotientBelow(g, Product(shape[..n]), shape[n]);
      LeadingCoordinates(shape[..n], g / shape[n], d);
      assert shape == shape[..n] + [shape[n]];
      DivLastFirst(g, shape[d..]);
      assert shape[d..][..n - d] == shape[..n][d..];
      assert shape[..n][..d] == shape[..d];
      assert idx[..d] == Coord(shape[..n], g / shape[n])[..d];
    }
  }
}
