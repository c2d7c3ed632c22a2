/** Names made of masked addresses: Functors.h, Combiners.h and the mask of evaluate. */
module CleteNames {

  import opened CleteTree

  /** The number after "a" or "tmp" in an identifier; a negative one would put a minus sign there. */
  type Name = int

  predicate IsIdentifier(n: Name) { n >= 0 }

  function CommonBits(e: Expr<Object>): Address {
    ForEach(e, (o: Object) => o.addr, AndBitsCombine())
  }

  /** ~x on 64 bits. */
  function Complement(x: Address): Address { SPACE - 1 - x }

  /** The mask clears the bits that all the leaves and the left-hand side have in common. */
  function Mask(e: Expr<Object>, lhs: Address): Address {
    Complement(BitAnd(CommonBits(e), lhs))
  }

  /** PrintTmpLeaf, and the left-hand side's own name: the masked address as a signed 64-bit number. */
  function TmpName(x: Address, mask: Address): Name {
    var v := BitAnd(x, mask);
    if v < SPACE / 2 then v else v - SPACE
  }

  /** RefListLeaf returns an int: the masked address narrowed to a signed 32-bit number. */
  function RefName(x: Address, mask: Address): Name {
    var v := BitAnd(x, mask) % 0x1_0000_0000;
    if v < 0x8000_0000 then v else v - 0x1_0000_0000
  }

  /** The masked address survives the narrowing. */
  predicate Fits(x: Address, mask: Address) { BitAnd(x, mask) < 0x8000_0000 }

  /** Where it does not, the full number is none of the narrowed ones. */
  lemma {:induction false} NarrowingIsExact(x: Address, y: Address, mask: Address)
    ensures Fits(x, mask) ==> RefName(x, mask) == TmpName(x, mask) && IsIdentifier(TmpName(x, mask))
    ensures !Fits(x, mask) && IsIdentifier(TmpName(x, mask)) ==> RefName(y, mask) != TmpName(x, mask)
  {
  }

  // ---- bits in common

  /** Every bit of c is one of x. */
  predicate Within(c: nat, x: nat) { BitAnd(c, x) == c }

  lemma {:induction false} AndWithin(c: nat, d: nat, x: nat)
    requires Within(c, x) || Within(d, x)
    ensures Within(BitAnd(c, d), x)
  {
    if c > 0 {
      Halves(c, x);
      Halves(d, x);
      AndWithin(c / 2, d / 2, x / 2);
      Halves(BitAnd(c, d), x);
    }
  }

  /** Bit by bit. */
  lemma {:induction false} Halves(c: nat, x: nat)
    ensures Within(c, x) <==> Within(c / 2, x / 2) && c % 2 <= x % 2
  {
  }

  lemma {:induction false} WithinItself(x: nat)
    ensures Within(x, x)
  {
    if x > 0 {
      WithinItself(x / 2);
    }
  }

  function Power2(w: nat): (p: nat)
    ensures p > 0
  {
    if w == 0 then 1 else 2 * Power2(w - 1)
  }

  /** Masking with the complement of some of a number's own bits subtracts them. */
  lemma {:induction false} ClearIsSubtract(x: nat, c: nat, w: nat)
    requires Within(c, x) && x < Power2(w)
    ensures c <= x && BitAnd(x, Power2(w) - 1 - c) == x - c
  {
    if x > 0 {
      Halves(c, x);
      ClearIsSubtract(x / 2, c / 2, w - 1);
      assert (Power2(w) - 1 - c) / 2 == Power2(w - 1) - 1 - c / 2;
    }
  }

  lemma {:induction false} CommonToLeaves(e: Expr<Object>, o: Object)
    requires o in Leaves(e)
    ensures Within(CommonBits(e), o.addr)
  {
    WithinItself(o.addr);
    forall a: Address, b: Address | Within(a, o.addr) || Within(b, o.addr) ensures Within(BitAnd(a, b), o.addr) {
      AndWithin(a, b, o.addr);
    }
    AnyLeafSpreads(e, (l: Object) => l.addr, (op: Op, a: Address, b: Address) => BitAnd(a, b) as Address,
                   (c: Address) => Within(c, o.addr), o);
  }

  lemma {:induction false} AndBoth(d: nat, a: nat, b: nat)
    ensures Within(d, BitAnd(a, b)) <==> Within(d, a) && Within(d, b)
  {
    if a > 0 {
      Halves(d, a);
      Halves(d, b);
      AndBoth(d / 2, a / 2, b / 2);
      Halves(d, BitAnd(a, b));
    }
  }

  /** The bit fold has exactly the bits that every leaf's address has. */
  lemma {:induction false} CommonIff(e: Expr<Object>, d: nat)
    ensures Within(d, CommonBits(e)) <==> forall o :: o in Leaves(e) ==> Within(d, o.addr)
  {
    hide Within;
    match e
    case Leaf(l) =>
    case Unary(op, a) => CommonIff(a, d);
    case Binary(op, a, b) =>
      CommonIff(a, d);
      CommonIff(b, d);
      AndBoth(d, CommonBits(a), CommonBits(b));
    case Trinary(op, a, b, c) =>
      CommonIff(a, d);
      CommonIff(b, d);
      CommonIff(c, d);
      AndBoth(d, CommonBits(a), CommonBits(b));
      AndBoth(d, BitAnd(CommonBits(a), CommonBits(b)), CommonBits(c));
  }

  /** x is the address of a leaf or of the left-hand side. */
  ghost predicate Occurs(e: Expr<Object>, lhs: Address, x: Address) {
    x == lhs || exists o :: o in Leaves(e) && o.addr == x
  }

  lemma {:induction false} MaskSubtracts(e: Expr<Object>, lhs: Address, x: Address)
    requires Occurs(e, lhs, x)
    ensures BitAnd(x, Mask(e, lhs)) == x - BitAnd(CommonBits(e), lhs)
  {
    hide BitAnd, CommonBits, Within;
    if x == lhs {
      WithinItself(x);
    } else {
      var o :| o in Leaves(e) && o.addr == x;
      CommonToLeaves(e, o);
    }
    var c := BitAnd(CommonBits(e), lhs);
    AndWithin(CommonBits(e), lhs, x);
    PowerOf64(16);
    ClearIsSubtract(x, c, 64);
  }

  lemma {:induction false} PowerOf64(w: nat)
    requires w == 16
    ensures Power2(4 * w) == SPACE
  {
    var four := w / 4;
    assert Power2(four) == 16;
    PowerAdds(four, four);
    PowerAdds(2 * four, 2 * four);
    PowerAdds(w, w);
    PowerAdds(2 * w, 2 * w);
  }

  lemma {:induction false} PowerAdds(a: nat, b: nat)
    ensures Power2(a + b) == Power2(a) * Power2(b)
  {
    if b > 0 {
      PowerAdds(a, b - 1);
    }
  }

  /** Clearing the common bits keeps distinct objects distinct. */
  lemma {:induction false} MaskIsInjective(e: Expr<Object>, lhs: Address, x: Address, y: Address)
    requires Occurs(e, lhs, x) && Occurs(e, lhs, y)
    requires TmpName(x, Mask(e, lhs)) == TmpName(y, Mask(e, lhs))
    ensures x == y
  {
    MaskSubtracts(e, lhs, x);
    MaskSubtracts(e, lhs, y);
  }
}
