/**
 * `gcd` of display-sim-core's math module, over unsigned integers, and Rust's
 * integer division.
 */
module Math {

  function Abs(x: int): nat
  {
    if x < 0 then -x else x
  }

  /**
   * Rust's integer `/`: the quotient truncated toward zero, so the remainder
   * is smaller than the divisor in magnitude and has the dividend's sign.
   */
  function TruncDiv(a: int, b: int): (q: int)
    requires b != 0
    ensures Abs(a - q * b) < Abs(b)
    ensures a - q * b == 0 || (a - q * b > 0) == (a > 0)
  {
    var n := Abs(a) / Abs(b);
    var t := if (a < 0) == (b < 0) then n else -n;
    TruncDivRemainder(a, b, n, t);
    t
  }

  /** The remainder of the truncated quotient is the remainder of the magnitudes, with the dividend's sign. */
  lemma TruncDivRemainder(a: int, b: int, n: int, q: int)
    requires b != 0 && n == Abs(a) / Abs(b)
    requires q == if (a < 0) == (b < 0) then n else -n
    ensures a < 0 ==> 0 <= q * b - a < Abs(b)
    ensures a > 0 ==> 0 <= a - q * b < Abs(b)
    ensures a == 0 ==> a - q * b == 0
  {
    var na: int, nb: int := Abs(a), Abs(b);
    var r := na % nb;
    var m := n * nb;
    assert na == m + r && 0 <= r < nb;
    if b > 0 {
      if a < 0 { assert q * b == (-n) * nb == -m; } else { assert q * b == m; }
    } else {
      assert b == -nb;
      if a < 0 { assert q * b == n * (-nb) == -m; } else { assert q * b == (-n) * (-nb) == m; }
    }
    assert a - q * b == if a < 0 then -r else r;
    if a == 0 { assert na == 0 && n == 0 && r == 0; }
  }


  /** `d` divides `n`; only 0 is divisible by 0. */
  predicate Divides(d: nat, n: nat)
  {
    if d == 0 then n == 0 else n % d == 0
  }

  /** `r` divides both numbers and every common divisor divides it. */
  ghost predicate IsGcd(a: nat, b: nat, r: nat)
  {
    Divides(r, a) && Divides(r, b)
    && forall d: nat :: Divides(d, a) && Divides(d, b) ==> Divides(d, r)
  }

  /** Euclid's remainder sequence. */
  function Euclid(a: nat, b: nat): nat
    decreases b
  {
    if b == 0 then a else Euclid(b, a % b)
  }

  /** The source orders the arguments so that the larger comes first. */
  function Gcd(a: nat, b: nat): nat
  {
    if a > b then Euclid(a, b) else Euclid(b, a)
  }

  method ComputeGcd(a0: nat, b0: nat) returns (r: nat)
    ensures r == Gcd(a0, b0)
  {
    var a: nat, b: nat := if a0 > b0 then a0 else b0, if a0 > b0 then b0 else a0;
    while b != 0
      invariant Euclid(a, b) == Gcd(a0, b0)
      decreases b
    {
      var rem := a % b;
      a := b;
      b := rem;
    }
    r := a;
  }

  lemma MulAtLeast(a: int, d: int)
    requires a >= 1 && d > 0
    ensures a * d >= d
  {
    assert a * d - d == (a - 1) * d;
  }

  /** Euclidean division is unique. */
  lemma ModUnique(n: int, d: int, q: int, r: int)
    requires d > 0 && n == q * d + r && 0 <= r < d
    ensures n % d == r
  {
    var q', r' := n / d, n % d;
    assert (q - q') * d == r' - r;
    if q - q' >= 1 {
      MulAtLeast(q - q', d);
    } else if q' - q >= 1 {
      MulAtLeast(q' - q, d);
    }
  }

  lemma MulMod(d: nat, k: int)
    requires d > 0
    ensures (d * k) % d == 0
  {
    ModUnique(d * k, d, k, 0);
  }

  /** A remainder step keeps the common divisors: `d | a` and `d | b` iff `d | b` and `d | a % b`. */
  lemma RemainderKeepsDivisors(a: nat, b: nat, d: nat)
    requires b > 0
    ensures Divides(d, a) && Divides(d, b) <==> Divides(d, b) && Divides(d, a % b)
  {
    if d > 0 && b % d == 0 {
      var q := a / b;
      var y := b / d;
      assert b == d * y;
      assert a == q * b + a % b;
      if a % d == 0 {
        var x := a / d;
        assert a == d * x;
        assert a % b == d * (x - q * y);
        MulMod(d, x - q * y);
      }
      if (a % b) % d == 0 {
        var z := (a % b) / d;
        assert a % b == d * z;
        assert a == d * (q * y + z);
        MulMod(d, q * y + z);
      }
    } else if d == 0 && b == 0 {
    }
  }

  /** Euclid's result is the greatest common divisor. */
  lemma {:induction false} EuclidIsGcd(a: nat, b: nat)
    decreases b
    ensures IsGcd(a, b, Euclid(a, b))
  {
    if b == 0 {
      assert Divides(a, 0) by { if a > 0 { assert 0 % a == 0; } }
    } else {
      EuclidIsGcd(b, a % b);
      var r := Euclid(a, b);
      forall d: nat | Divides(d, a) && Divides(d, b)
        ensures Divides(d, r)
      {
        RemainderKeepsDivisors(a, b, d);
      }
      RemainderKeepsDivisors(a, b, r);
    }
  }

  lemma GcdIsGcd(a: nat, b: nat)
    ensures IsGcd(a, b, Gcd(a, b))
  {
    if a > b { EuclidIsGcd(a, b); } else {
      EuclidIsGcd(b, a);
    }
  }

  /** Two greatest common divisors of the same pair are equal. */
  lemma GcdUnique(a: nat, b: nat, r1: nat, r2: nat)
    requires IsGcd(a, b, r1) && IsGcd(a, b, r2)
    ensures r1 == r2
  {
    assert Divides(r1, r2) && Divides(r2, r1);
    if r1 != 0 && r2 != 0 {
      assert r1 <= r2 by { DivisorIsSmaller(r1, r2); }
      assert r2 <= r1 by { DivisorIsSmaller(r2, r1); }
    }
  }

  lemma DivisorIsSmaller(d: nat, n: nat)
    requires d > 0 && n > 0 && n % d == 0
    ensures d <= n
  {
  }

  /** `gcd` is symmetric. */
  lemma GcdSymmetric(a: nat, b: nat)
    ensures Gcd(a, b) == Gcd(b, a)
  {
    GcdIsGcd(a, b);
    GcdIsGcd(b, a);
    GcdUnique(a, b, Gcd(a, b), Gcd(b, a));
  }

  /** The values of the unit test. */
  lemma GcdExamples()
    ensures Gcd(0, 0) == 0 && Gcd(10, 0) == 10 && Gcd(0, 10) == 10
    ensures Gcd(10, 20) == 10 && Gcd(2024, 748) == 44
  {
  }
}
