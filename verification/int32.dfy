/**
 C# `int` is a 32-bit two's-complement integer: arithmetic on it and casts
 into it wrap modulo 2^32 in an unchecked context, which is the default for
 this code base. Dafny integers are unbounded, so the wrap is written out here
 and used wherever the source stores a computed value into an `int`.
 */
module Int32 {

  const Modulus: int := 0x1_0000_0000
  const Min: int := -0x8000_0000
  const Max: int := 0x7fff_ffff

  type int32 = x: int | Min <= x <= Max

  predicate InRange(x: int) {
    Min <= x <= Max
  }

  /** The value an unchecked conversion to `int` yields: the unique int32
      congruent to `x` modulo 2^32. */
  function Wrap(x: int): (r: int32)
    ensures (r - x) % Modulus == 0
    ensures InRange(x) ==> r == x
  {
    var m := (x - Min) % Modulus;
    Min + m
  }
}
