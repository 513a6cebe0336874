/** The Python built-ins the sampler leans on: `int()` applied to a float
    (truncation toward zero), `round(x, 0)` (round half to even, as Python 3
    rounds floats), and the exceptions the modelled code can raise. */
module PyBuiltins {

  datatype Option<+T> = None | Some(value: T)

  /** A value, or the exception raised instead of returning it. */
  datatype Result<+T, +E> = Success(value: T) | Failure(error: E)

  /** A statement that returns nothing, or the exception it raised. */
  datatype Outcome<+E> = Pass | Fail(error: E)

  /** The Python exceptions raised by the modelled code. */
  datatype PyError =
    | AssertionError(message: string)  // a failed `assert` in a property setter
    | ValueError(message: string)      // an unusable seed, or a negative sample size
    | IndexError                       // `seed[0]` on an empty list

  /** `int(x)` for a float `x`: the integer part, truncated toward zero. */
  function Trunc(x: real): (r: int)
    ensures 0.0 <= x ==> r as real <= x < r as real + 1.0
    ensures x < 0.0 ==> r as real - 1.0 < x <= r as real
  {
    if x >= 0.0 then x.Floor else -((-x).Floor)
  }

  /** The distance between an integer and a real, as a non-negative real. */
  function Dist(k: int, x: real): real
  {
    if k as real <= x then x - k as real else k as real - x
  }

  /** `round(x, 0)`: the nearest integer, and on a tie the even one. */
  function RoundHalfEven(x: real): (r: int)
    ensures Dist(r, x) <= 0.5
    ensures Dist(r, x) == 0.5 ==> r % 2 == 0
  {
    var f := x.Floor;
    var frac := x - f as real;
    if frac < 0.5 then f
    else if frac > 0.5 then f + 1
    else if f % 2 == 0 then f
    else f + 1
  }

  /** The two properties in RoundHalfEven's contract single out its result:
      every integer that is as near to x, with the same tie rule, is it. */
  lemma RoundHalfEvenUnique(x: real, k: int)
    requires Dist(k, x) <= 0.5
    requires Dist(k, x) == 0.5 ==> k % 2 == 0
    ensures k == RoundHalfEven(x)
  {
  }

  /** `int(round(x, 0))` needs no truncation: a rounded value is whole. */
  lemma TruncOfWhole(k: int)
    ensures Trunc(k as real) == k
  {
  }
}
