/**
  Shift registers over any type of word: repeated steps, absorbing a string of symbols, and
  what it takes for different strings to lead to different registers.
 */
module Registers {
  import opened Words

  // ----- repeated steps

  function Times<T>(f: T -> T, x: T, n: nat): T {
    if n == 0 then x else f(Times(f, x, n - 1))
  }

  ghost predicate LinearAt<T>(f: T -> T, xor: (T, T) -> T, x: T, y: T) { xor(f(x), f(y)) == f(xor(x, y)) }

  ghost predicate Linear<T(!new)>(f: T -> T, xor: (T, T) -> T) { forall x, y :: LinearAt(f, xor, x, y) }

  ghost predicate OneToOneAt<T>(f: T -> T, x: T, y: T) { f(x) == f(y) ==> x == y }

  ghost predicate OneToOne<T(!new)>(f: T -> T) { forall x, y :: OneToOneAt(f, x, y) }

  lemma {:induction false} TimesLinear<T(!new)>(f: T -> T, xor: (T, T) -> T, x: T, y: T, n: nat)
    requires Linear(f, xor)
    ensures xor(Times(f, x, n), Times(f, y, n)) == Times(f, xor(x, y), n)
  {
    if n > 0 {
      TimesLinear(f, xor, x, y, n - 1);
      assert LinearAt(f, xor, Times(f, x, n - 1), Times(f, y, n - 1));
    }
  }

  lemma {:induction false} TimesOneToOne<T(!new)>(f: T -> T, x: T, y: T, n: nat)
    requires OneToOne(f) && Times(f, x, n) == Times(f, y, n)
    ensures x == y
  {
    if n > 0 {
      assert OneToOneAt(f, Times(f, x, n - 1), Times(f, y, n - 1));
      TimesOneToOne(f, x, y, n - 1);
    }
  }

  /** Stepping down a chain of values. */
  lemma {:induction false} TimesDown<T>(f: T -> T, chain: seq<T>, n: nat)
    requires n < |chain| && forall k :: 0 <= k < |chain| - 1 ==> f(chain[k]) == chain[k + 1]
    ensures Times(f, chain[0], n) == chain[n]
  {
    if n > 0 { TimesDown(f, chain, n - 1); }
  }

  /** Two words stepped together, the second one running empty. */
  function Pairs<T>(bit: (T, T) -> T, half: T -> T, r: T, b: T, n: nat): (T, T) {
    if n == 0 then (r, b)
    else
      var (x, y) := Pairs(bit, half, r, b, n - 1);
      (bit(x, y), half(y))
  }

  ghost predicate JointAt<T>(bit: (T, T) -> T, half: T -> T, f: T -> T, xor: (T, T) -> T, x: T, y: T) {
    xor(bit(x, y), half(y)) == f(xor(x, y))
  }

  ghost predicate Joint<T(!new)>(bit: (T, T) -> T, half: T -> T, f: T -> T, xor: (T, T) -> T) {
    forall x, y :: JointAt(bit, half, f, xor, x, y)
  }

  /** Feeding the bits of b one by one is stepping the exclusive or of register and b. */
  lemma {:induction false} PairsAreTimes<T(!new)>(bit: (T, T) -> T, half: T -> T, f: T -> T, xor: (T, T) -> T, r: T,
                                                  b: T, n: nat)
    requires Joint(bit, half, f, xor)
    ensures var (x, y) := Pairs(bit, half, r, b, n); xor(x, y) == Times(f, xor(r, b), n)
  {
    if n > 0 {
      PairsAreTimes(bit, half, f, xor, r, b, n - 1);
      var (x, y) := Pairs(bit, half, r, b, n - 1);
      assert JointAt(bit, half, f, xor, x, y);
    }
  }

  lemma {:induction false} PairsHalve<T>(bit: (T, T) -> T, half: T -> T, r: T, b: T, n: nat)
    ensures Pairs(bit, half, r, b, n).1 == Times(half, b, n)
  {
    if n > 0 { PairsHalve(bit, half, r, b, n - 1); }
  }

  // ----- absorbing strings

  function Register<T, B>(absorb: (T, B) -> T, r: T, data: seq<B>): T
    decreases |data|
  {
    if data == [] then r else Register(absorb, absorb(r, data[0]), data[1..])
  }

  lemma {:induction false} RegisterConcat<T, B>(absorb: (T, B) -> T, r: T, a: seq<B>, b: seq<B>)
    ensures Register(absorb, r, a + b) == Register(absorb, Register(absorb, r, a), b)
    decreases |a|
  {
    if a == [] {
      assert a + b == b;
    } else {
      assert (a + b)[1..] == a[1..] + b;
      RegisterConcat(absorb, absorb(r, a[0]), a[1..], b);
    }
  }

  /**
    Words with the difference of two of them, and `join(d, a, b)`: what two words differed by
    before absorbing a and b, if they differ by d afterwards.  `fits(d, n)` bounds d to n symbols.
   */
  datatype Algebra<!T, !B> = Algebra(absorb: (T, B) -> T, diff: (T, T) -> T, join: (T, B, B) -> T, zero: T,
                                     fits: (T, nat) -> bool)

  ghost predicate KeepsApart<T, B>(g: Algebra<T, B>, r: T, s: T, b: B) {
    g.absorb(r, b) == g.absorb(s, b) ==> r == s
  }

  ghost predicate Backwards<T, B>(g: Algebra<T, B>, r: T, s: T, a: B, b: B) {
    var d := g.diff(g.absorb(r, a), g.absorb(s, b));
    g.fits(d, 3) ==> g.diff(r, s) == g.join(d, a, b)
  }

  ghost predicate JoinFits<T, B>(g: Algebra<T, B>, d: T, a: B, b: B, n: nat) {
    n < 3 && g.fits(d, n) ==> g.fits(g.join(d, a, b), n + 1)
  }

  ghost predicate JoinZero<T, B>(g: Algebra<T, B>, d: T, a: B, b: B) {
    g.fits(d, 3) && g.join(d, a, b) == g.zero ==> d == g.zero && a == b
  }

  ghost predicate Sizes<T, B>(g: Algebra<T, B>, d: T, r: T) {
    && g.fits(g.zero, 0) && g.diff(r, r) == g.zero
    && (g.fits(d, 0) ==> g.fits(d, 1)) && (g.fits(d, 1) ==> g.fits(d, 2)) && (g.fits(d, 2) ==> g.fits(d, 3))
  }

  /** The laws that concern only the size of differences. */
  ghost predicate SizeLaws<T(!new), B(!new)>(g: Algebra<T, B>) {
    && (forall d, a, b, n :: JoinFits(g, d, a, b, n))
    && (forall d, a, b :: JoinZero(g, d, a, b))
    && (forall d, r :: Sizes(g, d, r))
  }

  ghost predicate Laws<T(!new), B(!new)>(g: Algebra<T, B>) {
    && (forall r, s, b :: KeepsApart(g, r, s, b))
    && (forall r, s, a, b :: Backwards(g, r, s, a, b))
    && SizeLaws(g)
  }

  lemma {:induction false} SameStringKeepsApart<T(!new), B(!new)>(g: Algebra<T, B>, r: T, s: T, data: seq<B>)
    requires Laws(g) && Register(g.absorb, r, data) == Register(g.absorb, s, data)
    ensures r == s
    decreases |data|
  {
    if data != [] {
      SameStringKeepsApart(g, g.absorb(r, data[0]), g.absorb(s, data[0]), data[1..]);
      assert KeepsApart(g, r, s, data[0]);
    }
  }

  /** The difference of two strings, as the words before them must have differed. */
  function Difference<T, B>(g: Algebra<T, B>, a: seq<B>, b: seq<B>): T
    requires |a| == |b|
  {
    if a == [] then g.zero else g.join(Difference(g, a[1..], b[1..]), a[0], b[0])
  }

  lemma {:induction false} DifferenceFits<T(!new), B(!new)>(g: Algebra<T, B>, a: seq<B>, b: seq<B>)
    requires Laws(g) && |a| == |b| <= 3
    ensures g.fits(Difference(g, a, b), |a|) && g.fits(Difference(g, a, b), 3)
    decreases |a|
  {
    var d := Difference(g, a, b);
    assert Sizes(g, d, g.zero);
    if a != [] {
      DifferenceFits(g, a[1..], b[1..]);
      assert JoinFits(g, Difference(g, a[1..], b[1..]), a[0], b[0], |a| - 1);
    }
  }

  /** Up to four symbols after which two registers agree tell what the registers differed by. */
  lemma {:induction false} AgreeingRegisters<T(!new), B(!new)>(g: Algebra<T, B>, r: T, s: T, a: seq<B>, b: seq<B>)
    requires Laws(g) && |a| == |b| <= 4 && Register(g.absorb, r, a) == Register(g.absorb, s, b)
    ensures g.diff(r, s) == Difference(g, a, b)
    decreases |a|
  {
    if a == [] {
      assert Sizes(g, r, r);
    } else {
      AgreeingRegisters(g, g.absorb(r, a[0]), g.absorb(s, b[0]), a[1..], b[1..]);
      DifferenceFits(g, a[1..], b[1..]);
      assert Backwards(g, r, s, a[0], b[0]);
    }
  }

  lemma {:induction false} NoDifference<T(!new), B(!new)>(g: Algebra<T, B>, a: seq<B>, b: seq<B>)
    requires Laws(g) && |a| == |b| <= 4 && Difference(g, a, b) == g.zero
    ensures a == b
    decreases |a|
  {
    if a != [] {
      DifferenceFits(g, a[1..], b[1..]);
      assert JoinZero(g, Difference(g, a[1..], b[1..]), a[0], b[0]);
      NoDifference(g, a[1..], b[1..]);
      assert a == [a[0]] + a[1..] && b == [b[0]] + b[1..];
    }
  }

  /** Strings that differ only inside a window of four symbols lead to different registers. */
  lemma WindowDetected<T(!new), B(!new)>(g: Algebra<T, B>, r: T, before: seq<B>, a: seq<B>, b: seq<B>, after: seq<B>)
    requires Laws(g) && |a| == |b| <= 4 && a != b
    ensures Register(g.absorb, r, before + a + after) != Register(g.absorb, r, before + b + after)
  {
    var s := Register(g.absorb, r, before);
    RegisterConcat(g.absorb, r, before, a);
    RegisterConcat(g.absorb, r, before + a, after);
    RegisterConcat(g.absorb, r, before, b);
    RegisterConcat(g.absorb, r, before + b, after);
    var x, y := Register(g.absorb, s, a), Register(g.absorb, s, b);
    if Register(g.absorb, x, after) == Register(g.absorb, y, after) {
      SameStringKeepsApart(g, x, y, after);
      AgreeingRegisters(g, s, s, a, b);
      assert Sizes(g, s, s);
      NoDifference(g, a, b);
    }
  }

  // ----- registers built from single steps

  /** n steps per symbol, the symbol first combined with the low end of the word. */
  datatype Machine<!T, !B> = Machine(step: T -> T, xor: (T, T) -> T, up: T -> T, embed: B -> T, n: nat, zero: T,
                                     fits: (T, nat) -> bool)
  {
    function ToAlgebra(): Algebra<T, B> {
      Algebra((r, b) => Times(step, xor(r, embed(b)), n), xor,
              (d, a, b) => xor(up(d), xor(embed(a), embed(b))), zero, fits)
    }
  }

  /** `up` makes room for one symbol, which n steps take away again. */
  ghost predicate UpDown<T, B>(m: Machine<T, B>, d: T) {
    m.fits(d, 3) ==> Times(m.step, m.up(d), m.n) == d
  }

  ghost predicate StepLaws<T(!new), B(!new)>(m: Machine<T, B>) {
    XorLike(m.xor) && Linear(m.step, m.xor) && OneToOne(m.step) && forall d :: UpDown(m, d)
  }

  lemma MachineKeepsApart<T(!new), B(!new)>(m: Machine<T, B>, r: T, s: T, b: B)
    requires StepLaws(m)
    ensures KeepsApart(m.ToAlgebra(), r, s, b)
  {
    var x, y := m.xor(r, m.embed(b)), m.xor(s, m.embed(b));
    if Times(m.step, x, m.n) == Times(m.step, y, m.n) {
      TimesOneToOne(m.step, x, y, m.n);
      assert LawsAt(m.xor, r, m.embed(b), r) && LawsAt(m.xor, s, m.embed(b), s);
    }
  }

  lemma MachineBackwards<T(!new), B(!new)>(m: Machine<T, B>, r: T, s: T, a: B, b: B)
    requires StepLaws(m)
    ensures Backwards(m.ToAlgebra(), r, s, a, b)
  {
    var x, y := m.xor(r, m.embed(a)), m.xor(s, m.embed(b));
    var d := m.xor(Times(m.step, x, m.n), Times(m.step, y, m.n));
    if m.fits(d, 3) {
      TimesLinear(m.step, m.xor, x, y, m.n);
      assert UpDown(m, d);
      TimesOneToOne(m.step, m.xor(x, y), m.up(d), m.n);
      Unmask(m.xor, r, s, m.embed(a), m.embed(b));
    }
  }

  /** The laws of the algebra, from those of a single step and of the sizes. */
  lemma MachineLaws<T(!new), B(!new)>(m: Machine<T, B>)
    requires StepLaws(m) && SizeLaws(m.ToAlgebra())
    ensures Laws(m.ToAlgebra())
  {
    forall r, s, b ensures KeepsApart(m.ToAlgebra(), r, s, b) { MachineKeepsApart(m, r, s, b); }
    forall r, s, a, b ensures Backwards(m.ToAlgebra(), r, s, a, b) { MachineBackwards(m, r, s, a, b); }
  }
}
