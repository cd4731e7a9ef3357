/**
 * `tripleFactorial` of ques2.java: the product n * (n-3) * (n-6) * ...,
 * positive factors only, reduced modulo 1000000007 after every step.
 *
 * `tripleFactorial` computes in Java `int`: the product `ans * n` keeps only its
 * low 32 bits, and `%` truncates toward zero, so that a negative wrapped
 * product leaves a negative remainder. Both are written out here.
 * `TripleFactorial` is the loop as written; `Run` is the same computation
 * as a function, which the lemmas talk about. `TripleFactorialLong` is the
 * loop with the product taken in Java `long`, which never overflows.
 */
module TripleFactorial {

  const MOD: int := 1000000007
  const TWO_31: int := 0x8000_0000
  const TWO_32: int := 0x1_0000_0000

  newtype int32 = x: int | -0x8000_0000 <= x < 0x8000_0000
  newtype int64 = x: int | -0x8000_0000_0000_0000 <= x < 0x8000_0000_0000_0000

  predicate InInt32(x: int) {
    -TWO_31 <= x < TWO_31
  }

  /** The Java `int` that holds the low 32 bits of `x` (two's complement). */
  function Wrap32(x: int): (r: int)
    ensures InInt32(r)
    ensures (x - r) % TWO_32 == 0
    ensures InInt32(x) ==> r == x
  {
    (x + TWO_31) % TWO_32 - TWO_31
  }

  /** `Wrap32` subtracts the multiple of 2^32 that brings `x` into the `int` range. */
  lemma Wrap32Of(x: int, k: int)
    requires InInt32(x - k * TWO_32)
    ensures Wrap32(x) == x - k * TWO_32
  {
    var y := x + TWO_31;
    assert y == k * TWO_32 + (x - k * TWO_32 + TWO_31);
  }

  /** Java's `a % 1000000007`: truncating division, so the remainder takes the sign of `a`. */
  function JavaRem(a: int): (r: int)
    ensures -MOD < r < MOD
    ensures a >= 0 ==> 0 <= r <= a
    ensures a <= 0 ==> a <= r <= 0
    ensures (a - r) % MOD == 0
  {
    if a >= 0 then a % MOD else -((-a) % MOD)
  }

  /**
   * The loop of `tripleFactorial` from accumulator `ans` and counter `n`:
   * the value it returns. With `n <= 0` the body never runs; otherwise the
   * result is some Java remainder, strictly between -MOD and MOD.
   */
  function Run(ans: int, n: int): (r: int)
    ensures n <= 0 ==> r == ans
    ensures n > 0 ==> -MOD < r < MOD
    decreases n
  {
    if n <= 0 then ans else Run(JavaRem(Wrap32(ans * n)), n - 3)
  }

  /** The mathematical product n * (n-3) * (n-6) * ..., positive factors only. */
  function Product(n: int): (p: int)
    ensures p >= 1
    decreases n
  {
    if n <= 0 then 1 else n * Product(n - 3)
  }

  /** No product `ans * n` that the loop forms from here on leaves the Java `int` range. */
  predicate NoOverflow(ans: int, n: int)
    decreases n
  {
    n <= 0 || (InInt32(ans * n) && NoOverflow(JavaRem(ans * n), n - 3))
  }

  /** `tripleFactorial(n)` as written, in Java `int` arithmetic. */
  method TripleFactorial(n: int32) returns (ans: int32)
    ensures ans as int == Run(1, n as int)
    ensures n <= 0 ==> ans == 1
    ensures 1 <= n <= 3 ==> ans == n
    ensures -MOD < ans as int < MOD
  {
    ans := 1;
    var k := n;
    while k > 0
      invariant Run(ans as int, k as int) == Run(1, n as int)
      decreases k
    {
      ans := JavaRem(Wrap32(ans as int * k as int)) as int32;
      k := k - 3;
    }
  }

  /** `tripleFactorial` with the product taken in Java `long`: `(int) (((long) ans * n) % mod)`. */
  method TripleFactorialLong(n: int32) returns (ans: int32)
    ensures ans as int == Product(n as int) % MOD
  {
    var mod: int64 := 1000000007;
    ans := 1;
    var k := n;
    while k > 0
      invariant 0 <= ans as int < MOD
      invariant (ans as int * Product(k as int)) % MOD == Product(n as int) % MOD
      decreases k
    {
      MulBelow(ans as int, MOD, k as int, TWO_31);
      var p: int64 := (ans as int64) * (k as int64);
      LongStep(ans as int, k as int, n as int);
      ans := (p % mod) as int32;
      k := k - 3;
    }
  }

  // ---------------------------------------------------------------------------
  // Modular arithmetic

  lemma MulBelow(a: int, a0: int, b: int, b0: int)
    requires 0 <= a < a0 && 0 <= b < b0
    ensures 0 <= a * b < a0 * b0
  {
    assert a * b <= a * b0;
  }

  /** A value `d * MOD + r` with `0 <= r < MOD` leaves remainder `r`. */
  lemma ModUnique(y: int, d: int, r: int)
    requires 0 <= r < MOD && y == d * MOD + r
    ensures y % MOD == r
  {
  }

  /** Reducing a factor before multiplying does not change the product's remainder. */
  lemma ModMulLeft(a: int, b: int)
    ensures ((a % MOD) * b) % MOD == (a * b) % MOD
  {
    var q := a / MOD;
    var c := (a % MOD) * b;
    assert a * b == c + (q * b) * MOD by {
      assert a == (a % MOD) + q * MOD;
    }
    ModUnique(c, c / MOD, c % MOD);
    ModUnique(a * b, c / MOD + q * b, c % MOD);
  }

  /** One turn of the `long` loop keeps its invariant. */
  lemma LongStep(ans: int, k: int, n: int)
    requires 0 <= ans < MOD && k > 0
    requires (ans * Product(k)) % MOD == Product(n) % MOD
    ensures ((ans * k) % MOD * Product(k - 3)) % MOD == Product(n) % MOD
  {
    ModMulLeft(ans * k, Product(k - 3));
    ProductStep(ans, k);
  }

  lemma ProductStep(a: int, k: int)
    requires k > 0
    ensures a * Product(k) == (a * k) * Product(k - 3)
  {
    var rest := Product(k - 3);
    assert Product(k) == k * rest;
    assert a * (k * rest) == (a * k) * rest;
  }

  // ---------------------------------------------------------------------------
  // What the loop computes

  /**
   * As long as no product overflows, every accumulator stays in [0, MOD)
   * and the loop computes `ans` times the product, modulo MOD.
   */
  lemma {:induction false} ExactWithoutOverflow(ans: int, n: int)
    requires 0 <= ans < MOD
    requires NoOverflow(ans, n)
    ensures 0 <= Run(ans, n) < MOD
    ensures Run(ans, n) == (ans * Product(n)) % MOD
    decreases n
  {
    if n > 0 {
      var p := ans * n;
      assert p >= 0;
      var next := JavaRem(Wrap32(p));
      assert next == p % MOD;
      ExactWithoutOverflow(next, n - 3);
      ModMulLeft(p, Product(n - 3));
      ProductStep(ans, n);
    }
  }

  /** Without overflow, `tripleFactorial(n)` is the product of n, n-3, n-6, ... modulo MOD. */
  lemma TripleFactorialExact(n: int)
    requires NoOverflow(1, n)
    ensures Run(1, n) == Product(n) % MOD
    ensures 0 <= Run(1, n) < MOD
  {
    ExactWithoutOverflow(1, n);
  }

  /**
   * At n = 27 the step at 6 forms 396809280 * 6 = 2380855680, which does
   * not fit in an `int` and wraps to a negative value; the next remainder is
   * negative, and the result differs from the product modulo MOD.
   */
  lemma OverflowAtTwentySeven()
    ensures !NoOverflow(1, 27)
    ensures Run(1, 27) == Run(396809280, 6) && !InInt32(396809280 * 6)
    ensures Run(396809280, 6) == Run(-914111609, 3)
    ensures Run(1, 27) == 552632462
    ensures Product(27) % MOD == 142566991
  {
    assert NoOverflow(1, 27) ==> NoOverflow(27, 24);
    assert NoOverflow(27, 24) ==> NoOverflow(648, 21);
    assert NoOverflow(648, 21) ==> NoOverflow(13608, 18);
    assert NoOverflow(13608, 18) ==> NoOverflow(244944, 15);
    assert NoOverflow(244944, 15) ==> NoOverflow(3674160, 12);
    assert NoOverflow(3674160, 12) ==> NoOverflow(44089920, 9);
    assert NoOverflow(44089920, 9) ==> NoOverflow(396809280, 6);
    assert !NoOverflow(396809280, 6);

    assert Run(1, 27) == Run(27, 24);
    assert Run(27, 24) == Run(648, 21);
    assert Run(648, 21) == Run(13608, 18);
    assert Run(13608, 18) == Run(244944, 15);
    assert Run(244944, 15) == Run(3674160, 12);
    assert Run(3674160, 12) == Run(44089920, 9);
    assert Run(44089920, 9) == Run(396809280, 6);
    Wrap32Of(396809280 * 6, 1);
    assert Run(396809280, 6) == Run(-914111609, 3);
    Wrap32Of(-914111609 * 3, -1);
    assert Run(-914111609, 3) == Run(552632462, 0);

    assert Product(3) == 3;
    assert Product(6) == 18;
    assert Product(9) == 162;
    assert Product(12) == 1944;
    assert Product(15) == 29160;
    assert Product(18) == 524880;
    assert Product(21) == 11022480;
    assert Product(24) == 264539520;
    assert Product(27) == 7142567040;
  }

  /**
   * At n = 28 the step at 7 forms 608608000 * 7, which wraps to a negative
   * value; every later remainder stays negative, so `tripleFactorial(28)`
   * returns a negative number.
   */
  lemma NegativeAtTwentyEight()
    ensures Run(1, 28) == Run(608608000, 7) && !InInt32(608608000 * 7)
    ensures Run(1, 28) == -138845184
  {
    assert Run(1, 28) == Run(28, 25);
    assert Run(28, 25) == Run(700, 22);
    assert Run(700, 22) == Run(15400, 19);
    assert Run(15400, 19) == Run(292600, 16);
    assert Run(292600, 16) == Run(4681600, 13);
    assert Run(4681600, 13) == Run(60860800, 10);
    assert Run(60860800, 10) == Run(608608000, 7);
    Wrap32Of(608608000 * 7, 1);
    assert Run(608608000, 7) == Run(-34711296, 4);
    assert Run(-34711296, 4) == Run(-138845184, 1);
    assert Run(-138845184, 1) == Run(-138845184, -2);
  }

  /**
   * The input of the program's own `main`, n = 50, overflows too: the step
   * at 35 forms 161097200 * 35, which does not fit in an `int`.
   */
  lemma FiftyOverflows()
    ensures NoOverflow(1, 50) ==> NoOverflow(161097200, 35)
    ensures !InInt32(161097200 * 35)
    ensures !NoOverflow(1, 50)
  {
    assert NoOverflow(1, 50) ==> NoOverflow(50, 47);
    assert NoOverflow(50, 47) ==> NoOverflow(2350, 44);
    assert NoOverflow(2350, 44) ==> NoOverflow(103400, 41);
    assert NoOverflow(103400, 41) ==> NoOverflow(4239400, 38);
    assert NoOverflow(4239400, 38) ==> NoOverflow(161097200, 35);
    assert !NoOverflow(161097200, 35);
  }
}
