/** Shared vocabulary: optional values, fallible results and the fixed-width
    integer types of the Ethereum client library, modelled as bounded naturals. */
module Common {

  datatype Option<+T> = None | Some(value: T) {
    /** The contained value, or `default` when there is none (Rust's `unwrap_or`). */
    function GetOr(default: T): T {
      match this
      case Some(v) => v
      case None => default
    }
  }

  /** The outcome of a fallible operation; `error` is the context message the
      operation attaches to its failure. */
  datatype Result<+T> = Ok(value: T) | Err(error: string)

  const TWO_128: nat := 0x1_0000_0000_0000_0000_0000_0000_0000_0000
  const TWO_160: nat := 0x1_0000_0000_0000_0000_0000_0000_0000_0000_0000_0000
  const TWO_255: nat := 0x8000_0000_0000_0000_0000_0000_0000_0000_0000_0000_0000_0000_0000_0000_0000_0000
  const TWO_256: nat := 0x1_0000_0000_0000_0000_0000_0000_0000_0000_0000_0000_0000_0000_0000_0000_0000_0000

  /** Unsigned 256-bit integer (the library's `U256`). */
  type U256 = n: nat | n < TWO_256

  /** Signed 256-bit integer in two's complement range (the library's `I256`). */
  type I256 = n: int | -(TWO_255 as int) <= n < TWO_255

  /** Unsigned 64-bit integer (Rust's `u64`). */
  type U64 = n: nat | n < 0x1_0000_0000_0000_0000

  /** Unsigned 8-bit integer (Rust's `u8`). */
  type U8 = n: nat | n < 0x100

  /** A 20-byte account or contract address (the library's `H160`). */
  type Address = n: nat | n < TWO_160

  /** `U256::MAX`. */
  const U256_MAX: U256 := TWO_256 - 1
}
