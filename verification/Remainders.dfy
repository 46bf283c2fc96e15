/** Quotient and remainder by repeated subtraction, which spares proofs about wrapping and cyclic
    indices the non-linear `/` and `%`. */
module Remainders {

  const TWO_64: nat := 0x1_0000_0000_0000_0000

  function Rem(x: nat, n: nat): (r: nat)
    requires n > 0
    ensures r < n
  {
    if x < n then x else Rem(x - n, n)
  }

  function Quot(x: nat, n: nat): nat
    requires n > 0
  {
    if x < n then 0 else 1 + Quot(x - n, n)
  }

  lemma NextMultiple(n: nat, a: int, b: int)
    ensures a < b ==> b * n >= a * n + n
  {
    assert b * n - a * n - n == (b - a - 1) * n;
  }

  lemma DivisionIsUnique(n: nat, a: int, r: nat, b: int, s: nat)
    requires r < n && s < n && a * n + r == b * n + s
    ensures a == b && r == s
  {
    NextMultiple(n, a, b);
    NextMultiple(n, b, a);
  }

  /** Rem and Quot are Go's `%` and `/` on unsigned integers. */
  lemma {:induction false} DivMod(x: nat, n: nat)
    requires n > 0
    ensures Rem(x, n) == x % n && Quot(x, n) == x / n
  {
    if x >= n {
      DivMod(x - n, n);
      var q, r := (x - n) / n, (x - n) % n;
      assert (q + 1) * n == q * n + n;
      DivisionIsUnique(n, q + 1, r, x / n, x % n);
    } else {
      DivisionIsUnique(n, 0, x, x / n, x % n);
    }
  }

  /** Two numbers less than n apart have different remainders. */
  lemma {:induction false} RemApart(x: nat, y: nat, n: nat)
    requires n > 0 && x < y < x + n
    ensures Rem(x, n) != Rem(y, n)
    decreases x
  {
    if x >= n {
      RemApart(x - n, y - n, n);
    } else if y >= n {
      assert Rem(y, n) == y - n;
    }
  }

  lemma {:induction false} RemAdd(x: nat, i: nat, n: nat)
    requires n > 0
    ensures Rem(x + i, n) == Rem(Rem(x, n) + i, n)
    decreases x
  {
    if x >= n {
      RemAdd(x - n, i, n);
      assert x + i - n == x - n + i;
    }
  }

  lemma {:induction false} RemWhole(x: nat, n: nat)
    requires n > 0
    ensures Rem(x, n) <= x && Rem(x - Rem(x, n), n) == 0
  {
    if x >= n {
      RemWhole(x - n, n);
      var y := x - Rem(x, n);
      assert y - n == x - n - Rem(x - n, n);
    }
  }

  /** Every residue occurs among any n consecutive numbers. */
  lemma RemReach(x: nat, n: nat, t: nat) returns (i: nat)
    requires t < n
    ensures i < n && Rem(x + i, n) == t
  {
    var r := Rem(x, n);
    i := if r <= t then t - r else n + t - r;
    RemAdd(x, i, n);
  }

  /** d before a multiple-of-n offset of t. */
  lemma {:induction false} RemBack(x: nat, d: nat, n: nat)
    requires n > 0 && d <= n <= x
    ensures Rem(x - d, n) == Rem(Rem(x, n) + n - d, n)
    decreases x
  {
    if x >= n + n {
      RemBack(x - n, d, n);
      assert x - n - d == x - d - n;
    } else {
      assert Rem(x, n) == x - n;
    }
  }
}
