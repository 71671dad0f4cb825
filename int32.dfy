/** C#'s `int`: 32-bit two's-complement integers with the unchecked
    (wrap-around) arithmetic the compiler uses by default. */
module Int32 {

  newtype int32 = x: int | -0x8000_0000 <= x < 0x8000_0000

  /** The `int` that an unchecked C# computation yields for the exact
      result `x`: the one value in range that agrees with `x` modulo 2^32. */
  function Wrap(x: int): (r: int32)
    ensures r as int % 0x1_0000_0000 == x % 0x1_0000_0000
    ensures -0x8000_0000 <= x < 0x8000_0000 ==> r as int == x
  {
    ((x + 0x8000_0000) % 0x1_0000_0000 - 0x8000_0000) as int32
  }
}
