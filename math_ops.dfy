/** Part 1 of the toolkit: factorial, primality and integer power.
    Each operation rejects an invalid argument with an error and otherwise
    runs a counting loop over an accumulator; each loop is proved against a
    recursive (or quantified) mathematical definition. */
module MathOps {

  /** The Go `(value, error)` pair: either a value or an error message. */
  datatype Result<T> = Ok(value: T) | Err(msg: string)

  const FactorialNegative := "factorial is not defined for negative numbers"
  const PrimeTooSmall := "prime check requires number >= 2"
  const PowerNegative := "negative exponents not supported"

  // ---------------------------------------------------------------------
  // Factorial

  /** n! = n * (n-1) * ... * 1, with 0! = 1. */
  function Fact(n: nat): nat
  {
    if n == 0 then 1 else n * Fact(n - 1)
  }

  lemma {:induction false} FactPositive(n: nat)
    ensures Fact(n) >= 1
  {
    if n > 0 {
      FactPositive(n - 1);
    }
  }

  /** Factorial grows: each step multiplies by a factor of at least 1. */
  lemma {:induction false} FactMonotone(m: nat, n: nat)
    requires m <= n
    ensures Fact(m) <= Fact(n)
  {
    if m < n {
      FactMonotone(m, n - 1);
      FactPositive(n - 1);
      assert Fact(n) == n * Fact(n - 1) >= Fact(n - 1);
    }
  }

  /** Fails exactly on a negative argument; otherwise multiplies 2, 3, ..., n
      into an accumulator starting at 1. */
  method Factorial(n: int) returns (r: Result<int>)
    ensures r.Err? <==> n < 0
    ensures r.Err? ==> r.msg == FactorialNegative
    ensures r.Ok? ==> r.value == Fact(n)
  {
    if n < 0 {
      return Err(FactorialNegative);
    }
    var result := 1;
    var i := 2;
    while i <= n
      invariant 2 <= i <= if n < 2 then 2 else n + 1
      invariant result == Fact(i - 1)
    {
      result := result * i;
      i := i + 1;
    }
    return Ok(result);
  }

  // ---------------------------------------------------------------------
  // Primality

  /** d is a non-zero divisor of n. */
  predicate Divides(d: int, n: int)
  {
    d != 0 && n % d == 0
  }

  /** The mathematical notion: at least 2 and no divisor strictly between 1 and n. */
  predicate Prime(n: int)
  {
    n >= 2 && forall d :: 2 <= d < n ==> !Divides(d, n)
  }

  /** The trial-division test the loop performs: no divisor d >= 2 with d*d <= n. */
  ghost predicate NoDivisorUpToRoot(n: int)
  {
    forall d :: 2 <= d && d * d <= n ==> !Divides(d, n)
  }

  /** Multiplying by a non-negative factor keeps an inequality. */
  lemma MulMonotone(a: int, b: int, c: int)
    requires a <= b && 0 <= c
    ensures a * c <= b * c
  {
  }

  /** A multiple of a positive number leaves no remainder. */
  lemma MultipleIsDivisible(a: int, b: int)
    requires a > 0
    ensures (a * b) % a == 0
  {
    var q, r := (a * b) / a, (a * b) % a;
    assert a * (b - q) == r;
    if b - q >= 1 {
      MulMonotone(1, b - q, a);
      assert false;
    }
    if b - q <= -1 {
      MulMonotone(b - q, -1, a);
      assert false;
    }
  }

  /** A divisor above the square root has a partner divisor below it. */
  lemma CoDivisor(n: int, d: int) returns (e: int)
    requires 2 <= d < n && Divides(d, n) && d * d > n
    ensures e == n / d && d * e == n
    ensures 2 <= e < d && e * e <= n && Divides(e, n)
  {
    e := n / d;
    assert n == d * e;
    if e <= 1 {
      MulMonotone(e, 1, d);
      assert false;
    }
    if e >= d {
      MulMonotone(d, e, d);
      assert false;
    }
    MulMonotone(e, d, e);
    MultipleIsDivisible(e, d);
  }

  /** When no d in [2, i) divides n and i*i exceeds n, n is prime. */
  lemma SmallDivisorsSuffice(n: int, i: int)
    requires n >= 2 && 2 <= i && i * i > n
    requires forall d :: 2 <= d < i ==> !Divides(d, n)
    ensures Prime(n)
  {
    forall d | 2 <= d < n
      ensures !Divides(d, n)
    {
      if Divides(d, n) && d >= i {
        MulMonotone(i, d, i);
        MulMonotone(i, d, d);
        var e := CoDivisor(n, d);
        if e >= i {
          MulMonotone(i, e, i);
          MulMonotone(i, e, e);
          assert false;
        }
      }
    }
  }

  /** The square-root bounded test decides primality exactly. */
  lemma TrialDivisionCorrect(n: int)
    requires n >= 2
    ensures NoDivisorUpToRoot(n) <==> Prime(n)
  {
    if NoDivisorUpToRoot(n) {
      forall d | 2 <= d < n
        ensures !Divides(d, n)
      {
        if Divides(d, n) && d * d > n {
          var e := CoDivisor(n, d);
        }
      }
    }
    if Prime(n) {
      forall d | 2 <= d && d * d <= n
        ensures !Divides(d, n)
      {
        assert d < n by {
          assert d * d >= 2 * d;
        }
      }
    }
  }

  /** Fails exactly when n < 2; otherwise tries i = 2, 3, ... while i*i <= n and
      reports "not prime" at the first divisor found. */
  method IsPrime(n: int) returns (r: Result<bool>)
    ensures r.Err? <==> n < 2
    ensures r.Err? ==> r.msg == PrimeTooSmall
    ensures r.Ok? ==> (r.value <==> Prime(n))
  {
    if n < 2 {
      return Err(PrimeTooSmall);
    }
    var i := 2;
    while i * i <= n
      invariant 2 <= i
      invariant forall d :: 2 <= d < i ==> !Divides(d, n)
      decreases n - i
    {
      assert i < n by {
        assert i * i >= 2 * i;
      }
      if n % i == 0 {
        assert Divides(i, n);
        return Ok(false);
      }
      i := i + 1;
    }
    SmallDivisorsSuffice(n, i);
    return Ok(true);
  }

  // ---------------------------------------------------------------------
  // Power

  /** b^e by repeated multiplication, with b^0 = 1 for every b (0 included). */
  function Pow(b: int, e: nat): int
  {
    if e == 0 then 1 else b * Pow(b, e - 1)
  }

  /** Exponents add: b^(m+n) = b^m * b^n. */
  lemma {:induction false} PowAdd(b: int, m: nat, n: nat)
    ensures Pow(b, m + n) == Pow(b, m) * Pow(b, n)
  {
    if m > 0 {
      PowAdd(b, m - 1, n);
      assert Pow(b, m + n) == b * Pow(b, m - 1 + n);
    }
  }

  /** 0^e = 0 for every positive e, and 1^e = 1 for every e. */
  lemma {:induction false} PowOfZeroAndOne(e: nat)
    ensures e > 0 ==> Pow(0, e) == 0
    ensures Pow(1, e) == 1
  {
    if e > 0 {
      PowOfZeroAndOne(e - 1);
    }
  }

  /** Fails exactly on a negative exponent; otherwise multiplies an
      accumulator starting at 1 by the base, exponent times. */
  method Power(base: int, exponent: int) returns (r: Result<int>)
    ensures r.Err? <==> exponent < 0
    ensures r.Err? ==> r.msg == PowerNegative
    ensures r.Ok? ==> r.value == Pow(base, exponent)
  {
    if exponent < 0 {
      return Err(PowerNegative);
    }
    var result := 1;
    var i := 0;
    while i < exponent
      invariant 0 <= i <= exponent
      invariant result == Pow(base, i)
    {
      result := result * base;
      i := i + 1;
    }
    return Ok(result);
  }
}
