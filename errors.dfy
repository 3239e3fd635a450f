/** The error values a handler can return. */
module Errors {
  import opened Types

  /** Why Borsh's `try_from_slice` rejects a buffer. */
  datatype BorshError =
    | UnexpectedLength            // the buffer ends before the variant index or the amount
    | UnexpectedVariant(index: u8) // a variant index other than 0 or 1
    | NotAllBytesRead             // bytes are left over after the amount

  /** The program's own error enum, as far as the processor uses it; its numeric codes are not modelled. */
  datatype CrateError =
    | IncorrectTokenProgramId
    | ExpectedAccount
    | ExpectedMint
    | InvalidProgramAddress

  /** The errors the token program returns; on chain they travel as custom error codes of that program. */
  datatype TokenError =
    | InsufficientFunds
    | MintMismatch
    | OwnerMismatch
    | FixedSupply
    | Overflow

  /** `ProgramError`, restricted to the variants this program can produce. */
  datatype ProgramError =
    | NotEnoughAccountKeys
    | MissingRequiredSignature
    | IncorrectProgramId
    | UninitializedAccount          // the token program found no initialised account or mint
    | BorshIoError(borsh: BorshError)
    | Custom(crate: CrateError)     // `CrateError::into()`
    | Token(token: TokenError)
    | Panicked                      // not a `ProgramError`: the program aborts (no viable bump seed)

  type ProgramResult = Result<(), ProgramError>
}
