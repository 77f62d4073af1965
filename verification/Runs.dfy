/** Finite runs of a step that may be refused. */
module Runs {

  datatype Option<+T> = None | Some(value: T)

  /** The state after a list of steps, if none of them is refused. */
  function Exec<S, E>(step: (S, E) -> Option<S>, s: S, es: seq<E>): Option<S>
    decreases |es|
  {
    if es == [] then Some(s)
    else
      match step(s, es[0])
      case None => None
      case Some(t) => Exec(step, t, es[1..])
  }

  lemma ExecOne<S, E>(step: (S, E) -> Option<S>, s: S, e: E, rest: seq<E>)
    ensures Exec(step, s, [e] + rest) == match step(s, e) case None => None case Some(t) => Exec(step, t, rest)
  {
    assert ([e] + rest)[1..] == rest;
  }

  lemma {:induction false} ExecConcat<S, E>(step: (S, E) -> Option<S>, s: S, a: seq<E>, b: seq<E>)
    ensures Exec(step, s, a + b) == match Exec(step, s, a) case None => None case Some(t) => Exec(step, t, b)
    decreases |a|
  {
    if a == [] {
      assert a + b == b;
    } else {
      assert a == [a[0]] + a[1..] && a + b == [a[0]] + (a[1..] + b);
      ExecOne(step, s, a[0], a[1..]);
      ExecOne(step, s, a[0], a[1..] + b);
      match step(s, a[0])
      case None =>
      case Some(t) => ExecConcat(step, t, a[1..], b);
    }
  }

  lemma ExecSnoc<S, E>(step: (S, E) -> Option<S>, s: S, es: seq<E>, t: S, e: E)
    requires Exec(step, s, es) == Some(t)
    ensures Exec(step, s, es + [e]) == step(t, e)
  {
    ExecConcat(step, s, es, [e]);
    ExecOne(step, t, e, []);
    assert [e] + [] == [e];
  }

  lemma ExecThree<S, E>(step: (S, E) -> Option<S>, s: S, e1: E, t: S, e2: E, u: S, e3: E, v: S)
    requires step(s, e1) == Some(t) && step(t, e2) == Some(u) && step(u, e3) == Some(v)
    ensures Exec(step, s, [e1, e2, e3]) == Some(v)
  {
    ExecOne(step, u, e3, []);
    ExecOne(step, t, e2, [e3] + []);
    ExecOne(step, s, e1, [e2] + ([e3] + []));
    assert [e1, e2, e3] == [e1] + ([e2] + ([e3] + []));
  }

  predicate AgreesAt<S(==), E>(f: (S, E) -> Option<S>, g: (S, E) -> Option<S>, s: S, e: E) {
    f(s, e).Some? ==> g(s, e) == f(s, e)
  }

  /** A run of one kind of steps is a run of every kind that allows them. */
  lemma {:induction false} ExecMore<S(!new), E(!new)>(f: (S, E) -> Option<S>, g: (S, E) -> Option<S>, s: S, es: seq<E>)
    requires Exec(f, s, es).Some? && forall x, e :: AgreesAt(f, g, x, e)
    ensures Exec(g, s, es) == Exec(f, s, es)
    decreases |es|
  {
    if es != [] {
      assert AgreesAt(f, g, s, es[0]);
      ExecMore(f, g, f(s, es[0]).value, es[1..]);
    }
  }

  predicate KeptAt<S, E>(step: (S, E) -> Option<S>, inv: S -> bool, s: S, e: E) {
    inv(s) && step(s, e).Some? ==> inv(step(s, e).value)
  }

  /** What every step keeps holds after every run. */
  lemma {:induction false} ExecKeeps<S(!new), E(!new)>(step: (S, E) -> Option<S>, inv: S -> bool, s: S, es: seq<E>)
    requires inv(s) && Exec(step, s, es).Some? && forall x, e :: KeptAt(step, inv, x, e)
    ensures inv(Exec(step, s, es).value)
    decreases |es|
  {
    if es != [] {
      assert KeptAt(step, inv, s, es[0]);
      ExecKeeps(step, inv, step(s, es[0]).value, es[1..]);
    }
  }
}
