/** Numeric conventions of the Go runtime that the synthesiser relies on, stated
    over exact reals. Floating-point rounding is not modelled: a float64 quantity
    is a `real`, and the three library calls whose values are transcendental
    (`math.Sin`, `math.Pow`) are supplied from outside as a `Libm` value. */
module GoMath {

  /** A sample rate that can be divided by. */
  type SampleRate = r: real | r != 0.0 witness 44100.0

  /** The library functions the engine calls but whose values the model leaves open. */
  datatype Libm = Libm(sin: real -> real, pow: (real, real) -> real)

  /** The usual range of a sine. */
  ghost predicate SinBounded(lib: Libm)
  {
    forall x :: -1.0 <= lib.sin(x) <= 1.0
  }

  /** The untyped constant `math.Pi`, to the precision of its definition in Go's `math` package. */
  const Pi: real := 3.14159265358979323846264338327950288419716939937510582097494459

  /** Go's conversion `int(x)` of a float: truncation toward zero. */
  function Trunc(x: real): int
  {
    if x >= 0.0 then x.Floor else -((-x).Floor)
  }

  /** Truncation keeps the integer part: the result is the integer nearest x
      on the side of zero. */
  lemma TruncBounds(x: real)
    ensures 0.0 <= x ==> 0 <= Trunc(x) && Trunc(x) as real <= x < Trunc(x) as real + 1.0
    ensures x < 0.0 ==> Trunc(x) <= 0 && Trunc(x) as real - 1.0 < x <= Trunc(x) as real
  {
  }

  /** `math.Mod(x, 1.0)`: the remainder of x by 1, carrying the sign of x. */
  function ModOne(x: real): (r: real)
    ensures 0.0 <= x ==> 0.0 <= r < 1.0
    ensures x < 0.0 ==> -1.0 < r <= 0.0
    ensures (x - r).Floor as real == x - r
  {
    TruncBounds(x);
    x - Trunc(x) as real
  }
}
