/** Machine integers, public keys and the failure-compatible wrappers used by every other module. */
module Types {

  /** An unsigned byte. */
  newtype u8 = x: int | 0 <= x < 0x100

  /** Rust's `u64`: every token amount and balance lives in this range. */
  newtype u64 = x: int | 0 <= x < 0x1_0000_0000_0000_0000

  const U64_MAX: int := 0xFFFF_FFFF_FFFF_FFFF

  /** A 32-byte account address (Solana's `Pubkey`); `to_bytes()` is the sequence itself. */
  type Pubkey = k: seq<u8> | |k| == 32 witness seq(32, _ => 0)

  /** The address of the SPL token program, `spl_token::id()`. */
  const TokenProgramId: Pubkey := [
    6, 221, 246, 225, 215, 101, 161, 147, 217, 203, 225, 70, 206, 235, 121, 172,
    28, 180, 133, 237, 95, 91, 55, 145, 58, 140, 245, 133, 126, 255, 0, 169]

  datatype Option<+T> = None | Some(value: T)

  /** Rust's `Result`, usable with `:-` for the early returns that `?` performs. */
  datatype Result<+T, +E> = Ok(value: T) | Err(error: E) {
    predicate IsFailure() { Err? }

    function PropagateFailure<U>(): Result<U, E>
      requires Err?
    {
      Err(error)
    }

    function Extract(): T
      requires Ok?
    {
      value
    }
  }
}
