/** Signed 32-bit integers with the wrap-around of C#'s unchecked `int`
    arithmetic, which is what the plugin's `++` and `-` on death counts use. */
module Int32 {

  const MIN: int := -0x8000_0000
  const MAX: int := 0x7FFF_FFFF
  const MODULUS: int := 0x1_0000_0000

  newtype int32 = x: int | -0x8000_0000 <= x < 0x8000_0000

  /** Two's-complement truncation of an unbounded integer to 32 bits. */
  function Wrap(x: int): (r: int32)
    ensures (r as int - x) % MODULUS == 0
    ensures MIN <= x <= MAX ==> r as int == x
  {
    var m := (x - MIN) % MODULUS;
    assert (m - (x - MIN)) % MODULUS == 0;
    (m + MIN) as int32
  }

  /** The `++` operator on a C# `int`. */
  function Inc(x: int32): (r: int32)
    ensures x as int < MAX ==> r as int == x as int + 1
    ensures x as int == MAX ==> r as int == MIN
  {
    Wrap(x as int + 1)
  }

  /** The binary `-` operator on two C# `int`s. */
  function Sub(a: int32, b: int32): (r: int32)
    ensures (r as int - (a as int - b as int)) % MODULUS == 0
    ensures MIN <= a as int - b as int <= MAX ==> r as int == a as int - b as int
  {
    Wrap(a as int - b as int)
  }
}
