/** Machine types and result wrappers shared by the kitties and proof-of-existence pallets. */
module Primitives {

  /** An unsigned byte (`u8`). */
  type byte = x: int | 0 <= x < 256

  /** `u32::MAX`. */
  const U32_MAX: int := 0xFFFF_FFFF

  /** An unsigned 32-bit integer (`u32`); the arithmetic on it is written out explicitly. */
  type u32 = x: int | 0 <= x <= U32_MAX

  /** `[u8; 4]` */
  type Bytes4 = s: seq<byte> | |s| == 4 witness [0, 0, 0, 0]

  /** `[u8; 8]` */
  type Bytes8 = s: seq<byte> | |s| == 8 witness [0, 0, 0, 0, 0, 0, 0, 0]

  /** `[u8; 16]` */
  type Bytes16 = s: seq<byte> | |s| == 16 witness [0, 0, 0, 0, 0, 0, 0, 0, 0, 0, 0, 0, 0, 0, 0, 0]

  /** `<[u8; 16]>::default()`: sixteen zero bytes. */
  const ZERO16: Bytes16 := [0, 0, 0, 0, 0, 0, 0, 0, 0, 0, 0, 0, 0, 0, 0, 0]

  /** The runtime's account identifier (`T::AccountId`), kept abstract as a number. */
  type AccountId = nat

  /** The weight a storage migration reports to the runtime's accounting. */
  type Weight = nat

  datatype Option<T> = None | Some(value: T)

  /** A dispatch result: `Ok(())` stands for `DispatchResult`'s success. */
  datatype Result<T, E> = Ok(value: T) | Err(error: E)

  /** `u32::checked_add`: the sum, or `None` when it would exceed `u32::MAX`. */
  function CheckedAdd(a: u32, b: u32): Option<u32>
  {
    if a + b <= U32_MAX then Some(a + b) else None
  }
}
