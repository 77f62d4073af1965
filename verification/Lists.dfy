/** Lists without repeats, and rotations of lists. */
module Lists {

  /** No member occurs twice. */
  predicate Distinct<T(==)>(s: seq<T>) { forall x :: x in s ==> multiset(s)[x] == 1 }

  function IndexOf<T(==)>(s: seq<T>, x: T): (i: nat)
    requires x in s
    ensures i < |s| && s[i] == x && x !in s[..i]
  {
    if s[0] == x then 0
    else
      assert x in s[1..];
      var i := IndexOf(s[1..], x);
      assert s[..i + 1] == [s[0]] + s[1..][..i];
      1 + i
  }

  lemma Split<T>(s: seq<T>, x: T)
    requires x in s
    ensures var i := IndexOf(s, x); s == s[..i] + [x] + s[i + 1..]
    ensures var i := IndexOf(s, x); forall y :: y in s <==> y == x || y in s[..i] + s[i + 1..]
  {
    var i := IndexOf(s, x);
    var rest := s[..i] + s[i + 1..];
    assert s == s[..i] + [x] + s[i + 1..];
  }

  lemma DistinctAt<T>(s: seq<T>, i: nat, j: nat)
    requires i < j < |s| && Distinct(s)
    ensures s[i] != s[j]
  {
    assert s == s[..i] + [s[i]] + s[i + 1..];
    assert s[j] == s[i + 1..][j - i - 1];
    assert multiset(s)[s[i]] == multiset(s[..i])[s[i]] + 1 + multiset(s[i + 1..])[s[i]];
  }

  lemma SplitApart<T>(s: seq<T>, x: T)
    requires x in s && Distinct(s)
    ensures var i := IndexOf(s, x); x !in s[..i] && x !in s[i + 1..]
  {
    var i := IndexOf(s, x);
    var a, b := s[..i], s[i + 1..];
    assert s == a + [x] + b;
    assert multiset(s)[x] == multiset(a)[x] + 1 + multiset(b)[x];
  }

  /** Moving a member to the front keeps members apart. */
  lemma DistinctMove<T>(s: seq<T>, i: nat)
    requires i < |s| && Distinct(s)
    ensures Distinct([s[i]] + (s[..i] + s[i + 1..]))
  {
    var r := [s[i]] + (s[..i] + s[i + 1..]);
    assert s == s[..i] + [s[i]] + s[i + 1..];
    assert multiset(r) == multiset(s);
  }

  /** The list with its last member put in front. */
  function Turned<T>(s: seq<T>): (r: seq<T>)
    ensures |r| == |s|
  {
    if s == [] then [] else [s[|s| - 1]] + s[..|s| - 1]
  }

  lemma LastToFront<T>(a: seq<T>, x: T, b: seq<T>)
    requires x !in b && (a + [x] + b)[|a| + |b|] == x
    ensures [x] + (a + b) == Turned(a + [x] + b)
  {
    assert b == [];
  }

  lemma FirstToFront<T>(a: seq<T>, x: T, b: seq<T>)
    requires x !in a && (a + [x] + b)[0] == x
    ensures [x] + (a + b) == a + [x] + b
  {
    assert a == [];
  }

  function TurnedTimes<T>(s: seq<T>, k: nat): (r: seq<T>)
    ensures |r| == |s|
  {
    if k == 0 then s else Turned(TurnedTimes(s, k - 1))
  }

  /** Where the first member stood before a list of n members was turned k times. */
  function HeadIndex(n: nat, k: nat): (i: nat)
    requires n > 0
    ensures i < n
  {
    if k == 0 then 0
    else if HeadIndex(n, k - 1) == 0 then n - 1
    else HeadIndex(n, k - 1) - 1
  }

  lemma {:induction false} TurnedAt<T>(s: seq<T>, k: nat, i: nat)
    requires i < |s|
    ensures var j := i + HeadIndex(|s|, k); TurnedTimes(s, k)[i] == s[if j < |s| then j else j - |s|]
  {
    if k > 0 { TurnedAt(s, k - 1, if i == 0 then |s| - 1 else i - 1); }
  }

  lemma {:induction false} HeadIndexSum(n: nat, k: nat) returns (q: nat)
    requires n > 0
    ensures k + HeadIndex(n, k) == q * n
  {
    if k == 0 {
      q := 0;
    } else {
      q := HeadIndexSum(n, k - 1);
      if HeadIndex(n, k - 1) == 0 {
        assert (q + 1) * n == q * n + n;
        q := q + 1;
      }
    }
  }

  lemma Distribute(a: nat, b: nat, n: nat)
    ensures (a + b) * n == a * n + b * n
  {
  }

  lemma Multiples(m: nat, n: nat, q: nat, r: nat)
    requires m < n && r * n + m == q * n
    ensures m == 0
  {
    if q > r {
      Distribute(r, q - r, n);
      Distribute(1, q - r - 1, n);
    } else {
      Distribute(q, r - q, n);
    }
  }

  /** The first member is first again exactly after whole turns. */
  lemma FirstAgain(n: nat, k: nat)
    requires n > 0
    ensures HeadIndex(n, k) == 0 <==> exists q: nat :: k == q * n
  {
    var q := HeadIndexSum(n, k);
    if r: nat :| k == r * n { Multiples(HeadIndex(n, k), n, q, r); }
  }
}
