/** Fixed-width unsigned integers of the firmware and a small Option type. */
module Base {

  /** Rust `u8`. */
  type Byte = x: int | 0 <= x < 0x100

  /** Rust `u16`. */
  type U16 = x: int | 0 <= x < 0x1_0000

  /** Rust `u32`. */
  type U32 = x: int | 0 <= x < 0x1_0000_0000

  const U8_MAX: Byte := 0xFF
  const U16_MAX: U16 := 0xFFFF
  const U32_MAX: U32 := 0xFFFF_FFFF

  /** Rust `Option<T>`. */
  datatype Option<+T> = None | Some(value: T) {
    /** `unwrap_or` */
    function GetOr(default: T): T {
      match this
      case Some(v) => v
      case None => default
    }
  }

  /** `u8::wrapping_add` */
  function WrappingAddU8(a: Byte, b: Byte): Byte {
    (a + b) % 0x100
  }

  /** `u16::wrapping_add` */
  function WrappingAddU16(a: U16, b: U16): U16 {
    (a + b) % 0x1_0000
  }

  /** `a.max(b)` */
  function Max(a: int, b: int): int {
    if a >= b then a else b
  }

  /** `a.min(b)` */
  function Min(a: int, b: int): int {
    if a <= b then a else b
  }
}
