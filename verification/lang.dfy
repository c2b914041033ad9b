/** Java-level value types the clients are written against. */
module Lang {

  /** A Java reference that may be null, or a java.util.Optional. */
  datatype Option<+T> = None | Some(value: T)

  /** Java `int`. */
  newtype Int32 = x: int | -0x8000_0000 <= x < 0x8000_0000

  /** Java `long` (and a non-null `Long`). */
  newtype Int64 = x: int | -0x8000_0000_0000_0000 <= x < 0x8000_0000_0000_0000

  /** Integer.MAX_VALUE */
  const Int32Max: Int32 := 0x7fff_ffff
}
