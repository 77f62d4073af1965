/**
  The round structure of Blowfish over any type of half block: two loops that run through the
  subkeys in opposite directions, and why the second undoes the first.
 */
module Feistel {
  import opened Words

  /** The first n rounds over the given subkeys with round function f. */
  function Rounds<T>(xor: (T, T) -> T, f: T -> T, keys: seq<T>, n: nat, l: T, r: T): (T, T)
    requires n <= |keys|
  {
    if n == 0 then (l, r)
    else
      var (xl, xr) := Rounds(xor, f, keys, n - 1, l, r);
      var half := xor(xl, keys[n - 1]);
      (xor(f(half), xr), half)
  }

  /** The cipher for a list of subkeys; deciphering is the same with the list reversed. */
  function Cipher<T>(xor: (T, T) -> T, f: T -> T, keys: seq<T>, l: T, r: T): (T, T)
    requires |keys| >= 2
  {
    var n := |keys| - 2;
    var (xl, xr) := Rounds(xor, f, keys, n, l, r);
    (xor(xr, keys[n + 1]), xor(xl, keys[n]))
  }

  function Reversed<T>(keys: seq<T>): (r: seq<T>)
    ensures |r| == |keys| && forall i :: 0 <= i < |keys| ==> r[i] == keys[|keys| - 1 - i]
  {
    seq(|keys|, i requires 0 <= i < |keys| => keys[|keys| - 1 - i])
  }

  /**
    The same cipher written without rounds or swaps, as in the design: one row of half blocks
    that starts with the right half and the keyed left half, in which each half block is the one
    before the last, changed by the round function of the last and by the next subkey.
   */
  ghost predicate Halves<T(!new)>(xor: (T, T) -> T, f: T -> T, keys: seq<T>, l: T, r: T, z: seq<T>) {
    && |keys| >= 2 && |z| == |keys| && z[0] == r && z[1] == xor(l, keys[0])
    && forall i :: 1 <= i < |z| - 1 ==> z[i + 1] == xor(xor(f(z[i]), z[i - 1]), keys[i])
  }

  lemma {:induction false} RoundsAreHalves<T(!new)>(xor: (T, T) -> T, f: T -> T, keys: seq<T>, l: T, r: T, z: seq<T>,
                                                    n: nat)
    requires Halves(xor, f, keys, l, r, z) && n <= |keys| - 2
    ensures var (xl, xr) := Rounds(xor, f, keys, n, l, r); xr == z[n] && xor(xl, keys[n]) == z[n + 1]
  {
    if n > 0 { RoundsAreHalves(xor, f, keys, l, r, z, n - 1); }
  }

  /** The enciphered block is the last half block, and the one before it with the last subkey. */
  lemma CipherIsHalves<T(!new)>(xor: (T, T) -> T, f: T -> T, keys: seq<T>, l: T, r: T, z: seq<T>)
    requires Halves(xor, f, keys, l, r, z)
    ensures var n := |keys| - 2; Cipher(xor, f, keys, l, r) == (xor(z[n], keys[n + 1]), z[n + 1])
  {
    RoundsAreHalves(xor, f, keys, l, r, z, |keys| - 2);
  }

  method Encipher<T>(xor: (T, T) -> T, f: T -> T, keys: seq<T>, l: T, r: T) returns (xl: T, xr: T)
    requires |keys| >= 2
    ensures (xl, xr) == Cipher(xor, f, keys, l, r)
  {
    var n := |keys| - 2;
    xl, xr := l, r;
    for i := 0 to n
      invariant (xl, xr) == Rounds(xor, f, keys, i, l, r)
    {
      xl := xor(xl, keys[i]);
      xr := xor(f(xl), xr);
      xl, xr := xr, xl;
    }
    xl, xr := xr, xl;
    xr := xor(xr, keys[n]);
    xl := xor(xl, keys[n + 1]);
  }

  method Decipher<T>(xor: (T, T) -> T, f: T -> T, keys: seq<T>, l: T, r: T) returns (xl: T, xr: T)
    requires |keys| >= 2
    ensures (xl, xr) == Cipher(xor, f, Reversed(keys), l, r)
  {
    var n := |keys| - 2;
    xl, xr := l, r;
    var i := n + 1;
    while i > 1
      invariant 1 <= i <= n + 1
      invariant (xl, xr) == Rounds(xor, f, Reversed(keys), n + 1 - i, l, r)
    {
      xl := xor(xl, keys[i]);
      xr := xor(f(xl), xr);
      xl, xr := xr, xl;
      i := i - 1;
    }
    xl, xr := xr, xl;
    xr := xor(xr, keys[1]);
    xl := xor(xl, keys[0]);
  }

  /** After j rounds backwards the halves are those before the last j rounds, keyed. */
  lemma {:induction false} RoundsUnwind<T(!new)>(xor: (T, T) -> T, f: T -> T, keys: seq<T>, l: T, r: T, j: nat)
    requires XorLike(xor) && |keys| >= 2 && j <= |keys| - 2
    ensures var n := |keys| - 2;
            var (cl, cr) := Cipher(xor, f, keys, l, r);
            var (bl, br) := Rounds(xor, f, keys, n - j, l, r);
            Rounds(xor, f, Reversed(keys), j, cl, cr) == (xor(br, keys[n + 1 - j]), xor(bl, keys[n - j]))
  {
    if j > 0 {
      var n := |keys| - 2;
      RoundsUnwind(xor, f, keys, l, r, j - 1);
      var (al, ar) := Rounds(xor, f, keys, n - j + 1, l, r);
      var (bl, br) := Rounds(xor, f, keys, n - j, l, r);
      assert Reversed(keys)[j - 1] == keys[n + 2 - j];
      assert LawsAt(xor, ar, keys[n + 2 - j], ar);
      CancelAcross(xor, f(ar), br, keys[n + 1 - j]);
    }
  }

  /** Deciphering undoes enciphering, for every round function and all subkeys. */
  lemma CipherUndone<T(!new)>(xor: (T, T) -> T, f: T -> T, keys: seq<T>, l: T, r: T)
    requires XorLike(xor) && |keys| >= 2
    ensures var (cl, cr) := Cipher(xor, f, keys, l, r); Cipher(xor, f, Reversed(keys), cl, cr) == (l, r)
  {
    RoundsUnwind(xor, f, keys, l, r, |keys| - 2);
    assert LawsAt(xor, l, keys[0], l) && LawsAt(xor, r, keys[1], r);
  }

  /** And the other way round, so each is a bijection. */
  lemma DecipherUndone<T(!new)>(xor: (T, T) -> T, f: T -> T, keys: seq<T>, l: T, r: T)
    requires XorLike(xor) && |keys| >= 2
    ensures var (dl, dr) := Cipher(xor, f, Reversed(keys), l, r); Cipher(xor, f, keys, dl, dr) == (l, r)
  {
    assert Reversed(Reversed(keys)) == keys;
    CipherUndone(xor, f, Reversed(keys), l, r);
  }
}
