/** Value types shared by the modules: Java's nullable references and its `int`. */
module Wrappers {

  /** `None` stands for a Java `null`, `Some(v)` for a present value `v`. */
  datatype Option<+T> = None | Some(value: T)

  /** A Java `int`/`Integer` value: 32-bit two's complement. */
  newtype int32 = x: int | -0x8000_0000 <= x < 0x8000_0000
}
