/** Go's fixed-width signed integers and their two's-complement arithmetic.
    Dafny's `int` is unbounded, so wrap-around is written out here. */
module GoInt {

  const TWO_32: int := 0x1_0000_0000

  /** Go `int32`. */
  type Int32 = x: int | -0x8000_0000 <= x < 0x8000_0000

  /** Go `int64` (also the representation of `time.Duration`). */
  type Int64 = x: int | -0x8000_0000_0000_0000 <= x < 0x8000_0000_0000_0000

  /** The int32 that a mathematical integer becomes when truncated to its
      low 32 bits and read as two's complement. */
  function WrapInt32(x: int): (r: Int32)
    ensures (r - x) % TWO_32 == 0
    ensures -0x8000_0000 <= x < 0x8000_0000 ==> r == x
  {
    var m := x % TWO_32;
    if m < 0x8000_0000 then m else m - TWO_32
  }

  /** Two int32 values that agree modulo 2^32 are the same value: the
      congruence in WrapInt32's contract determines its result. */
  lemma Int32Congruent(a: Int32, b: Int32)
    requires (a - b) % TWO_32 == 0
    ensures a == b
  {
    var d := a - b;
    assert d == (d / TWO_32) * TWO_32;
  }

  /** Go's `a * b` on two int32 operands: the exact product wrapped to 32 bits. */
  function MulInt32(a: Int32, b: Int32): (r: Int32)
    ensures (r - a * b) % TWO_32 == 0
    ensures -0x8000_0000 <= a * b < 0x8000_0000 ==> r == a * b
  {
    WrapInt32(a * b)
  }
}
