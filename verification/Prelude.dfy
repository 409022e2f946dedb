/** Small building blocks shared by every model. */
module Prelude {

  datatype Option<+T> = None | Some(value: T)

  type Byte = bv8

  /** The value of a Go `uint32(x)` conversion: the residue modulo 2^32. */
  function Uint32(x: int): (r: int)
    ensures 0 <= r < 0x1_0000_0000
    ensures 0 <= x < 0x1_0000_0000 ==> r == x
  {
    x % 0x1_0000_0000
  }
}
