/** Exclusive or on 32-bit words, and the rearrangements that follow from its three laws alone. */
module Words {

  function XorOp(a: bv32, b: bv32): bv32 { a ^ b }

  /** Associative, commutative, and undone by itself. */
  ghost predicate LawsAt<T>(xor: (T, T) -> T, a: T, b: T, c: T) {
    && xor(xor(a, b), c) == xor(a, xor(b, c))
    && xor(a, b) == xor(b, a)
    && xor(xor(a, b), b) == a
  }

  ghost predicate XorLike<T(!new)>(xor: (T, T) -> T) { forall a, b, c :: LawsAt(xor, a, b, c) }

  lemma Associative(a: bv32, b: bv32, c: bv32)
    ensures XorOp(XorOp(a, b), c) == XorOp(a, XorOp(b, c))
  {
  }

  lemma Commutative(a: bv32, b: bv32)
    ensures XorOp(a, b) == XorOp(b, a)
  {
  }

  lemma SelfInverse(a: bv32, b: bv32)
    ensures XorOp(XorOp(a, b), b) == a
  {
  }

  lemma XorLaws(a: bv32, b: bv32, c: bv32)
    ensures LawsAt(XorOp, a, b, c)
  {
    Associative(a, b, c);
    Commutative(a, b);
    SelfInverse(a, b);
    LawsFrom(XorOp, a, b, c);
  }

  lemma LawsFrom<T>(xor: (T, T) -> T, a: T, b: T, c: T)
    requires xor(xor(a, b), c) == xor(a, xor(b, c))
    requires xor(a, b) == xor(b, a)
    requires xor(xor(a, b), b) == a
    ensures LawsAt(xor, a, b, c)
  {
  }

  lemma XorIsXorLike()
    ensures XorLike(XorOp)
  {
    forall a: bv32, b: bv32, c: bv32 { XorLaws(a, b, c); }
  }

  lemma CancelLeft<T(!new)>(xor: (T, T) -> T, a: T, b: T)
    requires XorLike(xor)
    ensures xor(a, xor(a, b)) == b
  {
    assert LawsAt(xor, a, b, b) && LawsAt(xor, a, xor(a, b), b) && LawsAt(xor, b, a, a);
  }

  lemma CancelAcross<T(!new)>(xor: (T, T) -> T, a: T, b: T, c: T)
    requires XorLike(xor)
    ensures xor(a, xor(xor(a, b), c)) == xor(b, c)
  {
    assert LawsAt(xor, a, xor(a, b), c);
    CancelLeft(xor, a, b);
  }

  lemma Regroup<T(!new)>(xor: (T, T) -> T, a: T, p: T, b: T, q: T)
    requires XorLike(xor)
    ensures xor(xor(a, p), xor(b, q)) == xor(xor(a, b), xor(p, q))
  {
    assert LawsAt(xor, a, p, xor(b, q)) && LawsAt(xor, p, b, q) && LawsAt(xor, b, p, q) && LawsAt(xor, a, b, xor(p, q));
  }

  /** Taking two masks off again. */
  lemma Unmask<T(!new)>(xor: (T, T) -> T, r: T, s: T, a: T, b: T)
    requires XorLike(xor)
    ensures xor(r, s) == xor(xor(xor(r, a), xor(s, b)), xor(a, b))
  {
    Regroup(xor, r, a, s, b);
    assert LawsAt(xor, xor(r, s), xor(a, b), r);
  }

  lemma SwapLast<T(!new)>(xor: (T, T) -> T, h: T, m: T, k: T)
    requires XorLike(xor)
    ensures xor(xor(h, m), k) == xor(xor(h, k), m)
  {
    assert LawsAt(xor, h, m, k) && LawsAt(xor, m, k, k) && LawsAt(xor, h, k, m);
  }
}
