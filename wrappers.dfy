/** Option and Result, the failure-carrying values every module returns in place of C++ exceptions. */
module Wrappers {

  datatype Option<+T> = None | Some(value: T)

  datatype Result<+T, +E> = Ok(value: T) | Err(error: E)

  /** Two's-complement widths the source stores its numbers in. */
  type int32 = x: int | -0x8000_0000 <= x < 0x8000_0000

  /** unsigned long long: increments wrap modulo 2^64. */
  const U64: int := 0x1_0000_0000_0000_0000

  type uint64 = x: int | 0 <= x < 0x1_0000_0000_0000_0000

  /** juce::uint8: every cast to it keeps the value modulo 256. */
  type byte = x: int | 0 <= x < 256

  function ToByte(x: int): (b: byte)
    ensures 0 <= x < 256 ==> b == x
    ensures (b - x) % 256 == 0
  {
    x % 256
  }
}
