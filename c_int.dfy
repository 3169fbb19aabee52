/**
 * The C integer semantics the game relies on: `/` truncating toward zero
 * (also how a float is converted back to `int`) and the wrap-around of the
 * unsigned counters (`uint16_t` scores, `uint8_t` id counter).
 */
module CInt {

  /** C's `a / d` for a positive divisor: the exact quotient rounded toward zero. */
  function Div(a: int, d: int): (q: int)
    requires d > 0
    ensures 0 <= a ==> 0 <= q && q * d <= a < q * d + d
    ensures a < 0 ==> q <= 0 && q * d - d < a <= q * d
  {
    if a >= 0 then a / d else -((-a) / d)
  }

  /** `x++` on a `uint16_t`: one more, except that 65535 wraps to 0. */
  function Inc16(x: int): (r: int)
    ensures 0 <= r < 0x1_0000
    ensures 0 <= x < 0xFFFF ==> r == x + 1
    ensures x == 0xFFFF ==> r == 0
  {
    (x + 1) % 0x1_0000
  }

  /** `x++` on a `uint8_t`: one more, except that 255 wraps to 0. */
  function Inc8(x: int): (r: int)
    ensures 0 <= r < 0x100
    ensures 0 <= x < 0xFF ==> r == x + 1
    ensures x == 0xFF ==> r == 0
  {
    (x + 1) % 0x100
  }
}
