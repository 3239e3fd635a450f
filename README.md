# solana-token swap program, modelled in Dafny

This project models a Solana program that swaps token X one-for-one into a pool-issued token Y and back.
It covers the program's instruction processor and its instruction codec.

- **`ChangeXtoY { amount }`**:
  1. takes eight accounts;
  2. checks that the user authority signed;
  3. checks that the program owns the pool contract account;
  4. checks that the authority account is the address derived from the pool contract's key;
  5. transfers `amount` of X from the user's wallet X to the pool wallet X;
  6. mints `amount` of the pool token into the user's wallet Y.
- **`ChangeYtoX { amount }`** runs the same three checks. It then transfers `amount` of X from the pool wallet X back to wallet X and burns `amount` of Y from wallet Y.
- **`process_instruction`** decodes the Borsh-encoded request and dispatches to the matching handler. The encoding is a one-byte variant index (0 or 1) followed by the amount as a little-endian `u64`, and the whole buffer must be consumed.

The modules:

- **`Types`** and **`Errors`**:
  - `u8` and `u64` as bounded newtypes;
  - 32-byte public keys;
  - `Option` and `Result`;
  - the error values a handler can return.
- **`Derivation`**:
  - `create_program_address` is a parameter `create`. Its hash and its off-curve test are not modelled.
  - `find_program_address` is the bump search over `create`, from 255 down to 1.
  - What `invoke_signed` grants is the predicate `SignedBySeeds`.
- **`Instruction`**:
  - `ContractInstruction`;
  - its Borsh serialisation and `try_from_slice`;
  - the two builders with their eight account metas.
- **`TokenLedger`**: the slice of the SPL token program the processor calls.
  - The pure operations `ApplyTransfer`, `ApplyMintTo` and `ApplyBurn` use the token program's checks in its order.
  - The class `Ledger` holds the accounts and mints that these calls change in place.
- **`Processor`**:
  - the account iterator as a class;
  - `unpack_self_token_account`, `unpack_mint` and `authority_id`;
  - the three delegated calls as methods over the `Ledger`;
  - each handler and `process_instruction` as a method proved equal to a pure outcome function. The properties are stated about those functions.
- **`Swap`**: lemmas about a swap followed by its reverse.

What the code does and does not check:

- The variant indices are 0 and 1, in declaration order.
- Each handler checks only three things: that the user authority signed, that the program owns the pool contract, and that the authority is derived from the pool contract's key.
  - It runs no owner checks on the user wallets.
  - It does not check the pool mint's authority.
  - It never creates a custody wallet.
- A zero amount is accepted.
- The eighth account, the token program, is taken from the list but never compared with the token program id, which is fixed.

## Model

| member | source | states |
|---|---|---|
| Instruction.Serialize | src/instruction.rs:6-27 | the encoding is 9 bytes: the variant index (declaration order), then 8 bytes that read back as the amount |
| Instruction.TryFromSlice | src/processor.rs:258 | decoding succeeds exactly on 9-byte inputs with variant 0 or 1; the decoded request re-encodes to the input; a valid prefix with extra bytes is `NotAllBytesRead`; a leading byte above 1 is `UnexpectedVariant` |
| Instruction.DecodeEncode | src/instruction.rs:6-27 | decoding the encoding of either request gives back the same variant and amount, for every `u64` |
| Instruction.FromLeToLe | src/instruction.rs:17 | the 8 little-endian bytes of an amount read back as that amount |
| Instruction.ToLeFromLe | src/instruction.rs:17 | every 8-byte string is the encoding of the number it reads as, so decoding loses nothing |
| Instruction.BuildChangeXtoY | src/instruction.rs:30-57 | targets `program_id`; 8 metas in the order user authority, wallet X, wallet Y, pool contract, pool mint, pool wallet X, authority, token program; only the first is a signer; exactly wallets X and Y, the pool mint and the pool wallet are writable; the data decodes to `ChangeXtoY(amount)` |
| Instruction.BuildChangeYtoX | src/instruction.rs:59-86 | the same account list and target; the data decodes to `ChangeYtoX(amount)` |
| Instruction.BuildersDifferOnlyInVariant | src/instruction.rs:70-85 | for the same inputs, the two builders give the same program id, the same metas and the same amount bytes; only the variant byte differs (0 vs 1) |
| Derivation.FindFrom | src/processor.rs:156-157 | the bump search returns the highest bump from 1 up that yields an address; every higher bump yields none; it returns nothing exactly when no bump from 1 works |
| Derivation.FindProgramAddress | src/processor.rs:227-228 | `find_program_address` over seeds `[pool contract key]`: any result has a bump from 1 to 255 that re-derives the returned address, and every higher bump derives nothing; it finds nothing exactly when no bump from 1 to 255 works (bump 0 is never tried) |
| Derivation.FoundAddressSigns | src/processor.rs:110-112 | the found address and bump re-derive the address, so seeds `[key, [bump]]` sign for it |
| TokenLedger.SameShapeSameAmounts | tests/change_x_to_y.rs:70-75 | helper for the round trip: two ledgers with the same accounts, mints and bindings and the same balances and supplies are equal, so balance and supply equations pin the whole ledger |
| TokenLedger.ApplyTransfer | src/processor.rs:113-121 | succeeds iff both accounts exist, the source holds enough, the mints match, the authority owns the source and signed, and the destination does not overflow; on success it keeps the shape and mints, and balances move by exactly `amount` from source to destination (also when they alias) |
| TokenLedger.ApplyMintTo | src/processor.rs:89-98 | succeeds iff the destination holds this mint, the authority is the mint authority and signed, and neither balance nor supply overflows; a fixed-supply mint fails with `FixedSupply`; on success only the destination's balance and the mint's supply rise, by `amount` |
| TokenLedger.ApplyBurn | src/processor.rs:65-74 | succeeds iff the account holds this mint and at least `amount`, the authority owns it and signed, and the supply covers it; on success only that balance and that supply fall, by `amount` |
| TokenLedger.Ledger.Transfer | src/processor.rs:121 | the returned result and the new ledger contents are those of `ApplyTransfer` on the old contents; a failed call changes nothing |
| TokenLedger.Ledger.MintTo | src/processor.rs:98 | the same for `ApplyMintTo` |
| TokenLedger.Ledger.Burn | src/processor.rs:74 | the same for `ApplyBurn` |
| Processor.AccountInfoIter.Next | src/processor.rs:138-145 | yields the accounts in list order; once the list is used up it returns `NotEnoughAccountKeys` and stays put |
| Processor.UnpackSelfTokenAccount | src/processor.rs:17-27 | `IncorrectTokenProgramId` exactly when the token program does not own the account; otherwise the ledger's token account, or `ExpectedAccount` if there is none |
| Processor.UnpackMint | src/processor.rs:30-40 | `IncorrectTokenProgramId` exactly when the token program does not own the account; otherwise the ledger's mint, or `ExpectedMint` |
| Processor.AuthorityId | src/processor.rs:43-50 | the address derived from `[key, [bump]]`; `InvalidProgramAddress` exactly when derivation fails |
| Processor.AuthorityIdAgreesWithFind | src/processor.rs:43-50 | with the bump that `find_program_address` returns, `authority_id` gives the found address |
| Processor.TokenTransfer | src/processor.rs:102-122 | the ledger changes as `Transfer` with the authority's own signer flag, because plain `invoke` adds no derived signature |
| Processor.TokenTransferSigned | src/processor.rs:110-112 | the ledger changes as `Transfer` signed either by the authority's flag or by the pool contract's seeds plus bump |
| Processor.TokenMintTo | src/processor.rs:78-99 | the ledger changes as `MintTo` signed either by the authority's flag or by the pool contract's seeds plus bump |
| Processor.TokenBurn | src/processor.rs:53-75 | the ledger changes as `Burn` signed either by the authority's flag or by the pool contract's seeds plus bump |
| Processor.CheckSwapAccounts | src/processor.rs:136-160 | error precedence: fewer than 8 accounts gives `NotEnoughAccountKeys` before any check; then a missing signature gives `MissingRequiredSignature`; then a wrong pool-contract owner gives `IncorrectProgramId`; then a search that finds no bump gives `Panicked` (the library's panic); then a wrong authority gives `InvalidProgramAddress`; success iff all hold, in which case the bump's seeds sign for the authority |
| Processor.ValidateSwapAccounts | src/processor.rs:207-231 | taking eight accounts in order and running the three checks fails exactly as `CheckSwapAccounts` does; on success it returns the eight accounts by position with the found bump |
| Processor.ChangeXtoYOutcome | src/processor.rs:131-200 | a failed check returns its error with the ledger untouched; a failed transfer returns its error with the ledger untouched and no mint; a failed mint returns the mint's own error with the ledger as the transfer left it; success iff the checks, the transfer from wallet X to the pool wallet by the user authority, and the mint into wallet Y by the derived authority all succeed; on success balances move by exactly `amount` (−wallet X, +pool wallet X, +wallet Y), the pool mint's supply rises by `amount`, and nothing else changes |
| Processor.ChangeXtoY | src/processor.rs:131-200 | the result and the new ledger are exactly those of `ChangeXtoYOutcome` on the old ledger |
| Processor.ChangeYtoXOutcome | src/processor.rs:202-250 | as written: a failed check returns its error untouched; a failed transfer (signed only by the authority account's own flag) returns its error untouched and skips the burn; a failed burn returns the burn's own error with the ledger as the transfer left it; success iff the checks pass, the transfer from the pool wallet to wallet X succeeds with only the authority account's own signer flag, and the burn from wallet Y by the user authority succeeds; so when the authority account is not a transaction signer the call fails with the ledger untouched; on success balances and the supply fall and rise by exactly `amount` |
| Processor.ChangeYtoX | src/processor.rs:202-250 | the result and the new ledger are exactly those of `ChangeYtoXOutcome` on the old ledger |
| Processor.ChangeYtoXSignedOutcome | src/processor.rs:233-248 | with the transfer signed by the derived authority: success iff the checks, the transfer from the pool wallet to wallet X, and the burn all succeed; a failed transfer returns its error with the ledger untouched and skips the burn; a failed burn returns the burn's own error with the ledger as the transfer left it; on success (+wallet X, −pool wallet X, −wallet Y, −supply), each by exactly `amount` |
| Processor.ChangeYtoXSigned | src/processor.rs:202-250 | the result and the new ledger are exactly those of `ChangeYtoXSignedOutcome` |
| Processor.ProcessInstructionOutcome | src/processor.rs:253-269 | an undecodable input returns `BorshIoError` with the ledger untouched; in particular any input that is not 9 bytes long fails without a ledger change |
| Processor.ProcessInstructionRoutes | src/processor.rs:258-268 | the encoding of `ChangeXtoY{amount}` reaches `change_x_to_y` and that of `ChangeYtoX{amount}` reaches `change_y_to_x`, with the same amount; the handler's outcome is returned unchanged |
| Processor.ProcessInstruction | src/processor.rs:253-269 | the result and the new ledger are exactly those of `ProcessInstructionOutcome` |
| Swap.SwapRoundTripRestoresLedger | tests/change_x_to_y.rs:53-75 | a successful swap of X for Y followed by a successful signed swap back of the same amount, with the same accounts, restores every balance, supply and account exactly |
| Swap.SignedSwapBackSucceeds | tests/change_x_to_y.rs:66-69 | after a successful swap of X for Y, the signed reverse of the same amount always succeeds, provided wallets X and Y are distinct, the pool wallet belongs to the derived authority and wallet Y to the user |
| Swap.TransferBackSucceeds | src/processor.rs:233-240 | in that situation, the reverse transfer out of the pool wallet is itself admissible to the token program |
| Swap.SwapBackAsWrittenFails | src/processor.rs:233-240 | in the same situation, when the authority account is not a transaction signer, the as-written reverse fails at its first leg and leaves the ledger as the first swap left it; the model's error there is the token program's `MissingRequiredSignature`, while on chain the runtime's signer-privilege check refuses the `invoke` first |

## Left out

- Runtime and invocation mechanics:
  - the Solana runtime and the mechanics of cross-program invocation;
  - the runtime's check that no callee privilege exceeds the caller's:
    - writable flags are ignored, so a call that names a read-only account as writable still goes through;
    - where a signer privilege is missing, the model returns the first error of the token program's own checks. That error is `MissingRequiredSignature` only once the account, balance, mint and owner checks have passed. On chain the runtime refuses such a call before the token program runs;
  - passing the token program's own account to `invoke`. The `token_*` helpers never pass it (src/processor.rs:74, 98, 121), and the model does not require it;
  - the unit-test syscall stub (src/processor.rs:290-339).

  A delegated call is modelled as a call into the `Ledger` with a "signed" flag.
- Address derivation:
  - SHA-256 and the off-curve test inside `create_program_address`. Derivation is the parameter `create`, which is deterministic and otherwise unconstrained.
  - A search that finds no bump becomes the `Panicked` error. The library panics instead.
- Atomic rollback by the runtime:
  - `ChangeXtoYOutcome`, `ChangeYtoXOutcome` and `ChangeYtoXSignedOutcome` return the state the program itself leaves.
  - After a failed second leg, that state still holds the first leg. The contract says so, and the runtime then discards it.
- The token program beyond transfer, mint and burn:
  - delegates, frozen accounts, native SOL, multisig owners, and the token program's numeric error codes;
  - account data layout: accounts and mints live in the `Ledger` maps, not in raw account data;
  - lamports and rent.
- The program's numeric error codes for `CrateError`. src/error.rs is not part of this model.
- `msg!` and `dbg!` logging (src/processor.rs:151-153, 162, 171, 222-224, 261, 265). They have no effect on the outcome.
- src/utils.rs `create_account`: never called by the processor.
- src/lib.rs `find_program_address`: a one-line wrapper over the library call that `Derivation.FindProgramAddress` models.
- The entrypoint and src/state.rs: neither is part of this model.
- The test harness under tests/, and the commented-out drafts in src/processor.rs (124-129, 180-197, 610-662).
- The builder calls in tests/utils/contract.rs pass seven arguments (`change_x_to_y`, lines 42-50) and six (`change_y_to_x`, lines 68-75), where src/instruction.rs takes nine. The model follows src/instruction.rs.
- `UnpackSelfTokenAccount` and `UnpackMint` are modelled and specified, but no handler calls them, because the code does not.

## Findings

| source | as written | input that shows it | evidently intended | confidence | as-written member | corrected member |
|---|---|---|---|---|---|---|
| src/processor.rs:121 | `token_transfer` builds the signer seeds `[pool_contract, [bump]]` but calls plain `invoke`, so the transfer out of the pool wallet in `change_y_to_x` (src/processor.rs:233-240) carries no signature of the derived authority | any `ChangeYtoX` that follows a successful `ChangeXtoY` with the same accounts, with the authority account set to the derived address (never a transaction signer) and the pool wallet owned by it: the call fails and nothing moves (the model reports the token program's `MissingRequiredSignature`; on chain the runtime's signer-privilege check rejects the `invoke` first, because the transfer lists the derived authority as a signer), while tests/change_x_to_y.rs:66-75 expects the swap back to succeed | `invoke_signed` with those seeds, as `token_mint_to` and `token_burn` do | high; not executed | Swap.SwapBackAsWrittenFails | Swap.SwapRoundTripRestoresLedger |
