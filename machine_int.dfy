/** Fixed-width C integer types and the two C operations the driver depends on:
    unsigned 32-bit subtraction (which wraps) and signed division (which truncates). */
module MachineInt {

  const TWO_32: int := 0x1_0000_0000

  type uint8 = x: int | 0 <= x < 0x100
  type uint16 = x: int | 0 <= x < 0x1_0000
  type uint32 = x: int | 0 <= x < 0x1_0000_0000

  function Abs(x: int): (r: int)
    ensures 0 <= r && (r == x || r == -x)
  {
    if x < 0 then -x else x
  }

  /** `a - b` on `uint32_t`: the value in [0, 2^32) that, added to `b`, gives `a`
      or wraps around to it once. When `b <= a` nothing wraps. */
  function Sub32(a: uint32, b: uint32): (r: uint32)
    ensures b + r == a || b + r == a + TWO_32
    ensures b <= a ==> r == a - b
  {
    if b <= a then a - b else TWO_32 + a - b
  }

  /** Sub32 is subtraction modulo 2^32. */
  lemma Sub32IsModular(a: uint32, b: uint32)
    ensures Sub32(a, b) == (a - b) % TWO_32
  {
  }

  /** C's `/` on signed integers: the quotient is truncated toward zero, so the
      remainder `a - q * b` is smaller than `b` in magnitude and takes the sign of `a`. */
  function TruncDiv(a: int, b: int): (q: int)
    requires b != 0
    ensures 0 <= a ==> 0 <= a - q * b < Abs(b)
    ensures a < 0 ==> -Abs(b) < a - q * b <= 0
  {
    var m := Abs(a) / Abs(b);
    var q := if (a < 0) == (b < 0) then m else -m;
    SignedRemainder(a, b, m, q);
    q
  }

  /** With `q` carrying the sign of `a / b`, `a - q * b` is the remainder of the
      magnitudes, carrying the sign of `a`. */
  lemma SignedRemainder(a: int, b: int, m: int, q: int)
    requires b != 0 && m == Abs(a) / Abs(b)
    requires q == if (a < 0) == (b < 0) then m else -m
    ensures a - q * b == if a < 0 then -(Abs(a) - m * Abs(b)) else Abs(a) - m * Abs(b)
    ensures 0 <= Abs(a) - m * Abs(b) < Abs(b)
  {
    if b < 0 {
      assert q * b == -q * Abs(b);
    }
  }
}
