/** Exact rationals standing for the Java `double` values of the model
    (similarity, rates, averages, seconds). A value is `num / den` with a
    positive denominator; two values are compared by cross-multiplication. */
module Rationals {

  type Pos = n: int | n > 0 witness 1

  datatype Rat = Rat(num: int, den: Pos)

  function OfInt(n: int): Rat
  {
    Rat(n, 1)
  }

  /** The rational value `a` equals the rational value `b`. */
  predicate Same(a: Rat, b: Rat) {
    a.num * b.den == b.num * a.den
  }

  /** a <= b as rational values. */
  predicate AtMost(a: Rat, b: Rat) {
    a.num * b.den <= b.num * a.den
  }

  /** a * k for an integer factor k. */
  function Times(a: Rat, k: int): Rat
  {
    Rat(a.num * k, a.den)
  }

  /** a / k for a positive integer divisor k. */
  function DividedBy(a: Rat, k: Pos): Rat
  {
    Rat(a.num, a.den * k)
  }

  function Plus(a: Rat, b: Rat): (r: Rat)
  {
    Rat(a.num * b.den + b.num * a.den, a.den * b.den)
  }

  /** 0 <= a <= 1. */
  predicate InUnitInterval(a: Rat) {
    0 <= a.num <= a.den
  }
}
