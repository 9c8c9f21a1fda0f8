/** Types shared by the modules. */
module Basics {
  type byte = b: int | 0 <= b < 256

  const TWO32: nat := 0x1_0000_0000

  datatype Option<+T> = None | Some(value: T)
}
