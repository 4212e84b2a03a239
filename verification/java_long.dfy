/**
 Java `long` arithmetic. Test numbers and elapsed times are 64-bit two's-complement
 integers in the service, and `+` on them silently wraps around; this module states
 that wrap-around explicitly over Dafny's unbounded integers.
 */
module JavaLong {

  const MinLong: int := -0x8000_0000_0000_0000
  const MaxLong: int := 0x7FFF_FFFF_FFFF_FFFF
  const Modulus: int := 0x1_0000_0000_0000_0000

  /** The values a Java `long` can hold. */
  type Long = x: int | -0x8000_0000_0000_0000 <= x <= 0x7FFF_FFFF_FFFF_FFFF

  /** How far `x` lies outside the `long` range. */
  function Overshoot(x: int): nat
  {
    if x < MinLong then MinLong - x else if x > MaxLong then x - MaxLong else 0
  }

  /**
   The `long` that the exact integer `x` becomes once truncated to 64 bits: `x` moved
   into the `long` range by whole multiples of 2^64.
   */
  function Wrap(x: int): (r: Long)
    decreases Overshoot(x)
  {
    if x < MinLong then Wrap(x + Modulus)
    else if x > MaxLong then Wrap(x - Modulus)
    else x
  }

  /** Java's `a + b` on two longs. */
  function Add(a: Long, b: Long): (r: Long)
    ensures MinLong <= a + b <= MaxLong ==> r == a + b
    ensures a + b > MaxLong ==> r == a + b - Modulus
    ensures a + b < MinLong ==> r == a + b + Modulus
  {
    assert a + b > MaxLong ==> Wrap(a + b - Modulus) == a + b - Modulus;
    assert a + b < MinLong ==> Wrap(a + b + Modulus) == a + b + Modulus;
    Wrap(a + b)
  }

  /** The exact (unwrapped) sum of `f` over `xs`, taken from the front. */
  function SumBy<T>(xs: seq<T>, f: T -> int): int
  {
    if |xs| == 0 then 0 else SumBy(xs[..|xs| - 1], f) + f(xs[|xs| - 1])
  }

  /** Truncation to 64 bits is the two's-complement reading of the low 64 bits of `x`. */
  lemma {:induction false} WrapIsTruncation(x: int)
    decreases Overshoot(x)
    ensures Wrap(x) == (x - MinLong) % Modulus + MinLong
  {
    if x < MinLong {
      WrapIsTruncation(x + Modulus);
      assert (x + Modulus - MinLong) % Modulus == (x - MinLong) % Modulus;
    } else if x > MaxLong {
      WrapIsTruncation(x - Modulus);
      assert (x - Modulus - MinLong) % Modulus == (x - MinLong) % Modulus;
    }
  }

  /** Moving the argument by 2^64 does not change the truncated value. */
  lemma WrapPeriodic(x: int)
    ensures Wrap(x + Modulus) == Wrap(x)
    ensures Wrap(x - Modulus) == Wrap(x)
  {
  }

  /** Wrapping an intermediate result does not change the wrapped final sum. */
  lemma {:induction false} WrapAbsorbs(a: int, b: int)
    decreases Overshoot(a)
    ensures Wrap(Wrap(a) + b) == Wrap(a + b)
  {
    if a < MinLong {
      WrapAbsorbs(a + Modulus, b);
      WrapPeriodic(a + b);
    } else if a > MaxLong {
      WrapAbsorbs(a - Modulus, b);
      WrapPeriodic(a + b);
    }
  }
}
