/** The instruction codec: `ContractInstruction` with its Borsh wire format, and the two builders that
  * off-chain callers use to assemble a request. */
module Instruction {
  import opened Types
  import opened Errors

  /** The two requests the program accepts; each carries one `u64` amount. */
  datatype ContractInstruction =
    | ChangeXtoY(amount: u64)
    | ChangeYtoX(amount: u64)

  /** The Borsh variant index: declaration order. */
  function VariantIndex(ix: ContractInstruction): u8
  {
    match ix
    case ChangeXtoY(_) => 0
    case ChangeYtoX(_) => 1
  }

  // ---------------------------------------------------------------------------------------------
  // Little-endian integers

  function Pow256(n: nat): (p: nat)
    ensures p >= 1
  {
    if n == 0 then 1 else 256 * Pow256(n - 1)
  }

  /** The `n` low-order bytes of `x`, least significant first. */
  function ToLe(x: nat, n: nat): (b: seq<u8>)
    ensures |b| == n
  {
    if n == 0 then [] else [(x % 256) as u8] + ToLe(x / 256, n - 1)
  }

  /** The number whose little-endian bytes are `b`. */
  function FromLe(b: seq<u8>): (x: nat)
    ensures x < Pow256(|b|)
  {
    if b == [] then 0 else b[0] as nat + 256 * FromLe(b[1..])
  }

  /** Reading back the `n` bytes written for a number below 256^n gives that number. */
  lemma {:induction false} FromLeToLe(x: nat, n: nat)
    requires x < Pow256(n)
    ensures FromLe(ToLe(x, n)) == x
  {
    if n > 0 {
      FromLeToLe(x / 256, n - 1);
      assert ToLe(x, n)[1..] == ToLe(x / 256, n - 1);
    }
  }

  /** Writing back the number read from `b` gives `b`: every byte string is the encoding of one number. */
  lemma {:induction false} ToLeFromLe(b: seq<u8>)
    ensures ToLe(FromLe(b), |b|) == b
  {
    if b != [] {
      var rest := FromLe(b[1..]);
      assert (b[0] as nat + 256 * rest) % 256 == b[0] as nat;
      assert (b[0] as nat + 256 * rest) / 256 == rest;
      ToLeFromLe(b[1..]);
    }
  }

  lemma U64Width()
    ensures Pow256(8) == U64_MAX + 1
  {
  }

  // ---------------------------------------------------------------------------------------------
  // Borsh

  /** `BorshSerialize`: the variant index, then the amount as eight little-endian bytes. */
  function Serialize(ix: ContractInstruction): (data: seq<u8>)
    ensures |data| == 9
    ensures data[0] == VariantIndex(ix) && FromLe(data[1..]) == ix.amount as int
  {
    U64Width();
    FromLeToLe(ix.amount as nat, 8);
    [VariantIndex(ix)] + ToLe(ix.amount as nat, 8)
  }

  /** `ContractInstruction::try_from_slice`: deserialise, then insist that the whole buffer was consumed. */
  function TryFromSlice(input: seq<u8>): (r: Result<ContractInstruction, BorshError>)
    ensures r.Ok? <==> |input| == 9 && input[0] <= 1
    ensures r.Ok? ==> Serialize(r.value) == input
    ensures r == Err(NotAllBytesRead) <==> |input| > 9 && input[0] <= 1
    ensures (exists v :: r == Err(UnexpectedVariant(v))) <==> |input| >= 1 && input[0] > 1
  {
    if |input| < 1 then Err(UnexpectedLength)
    else if input[0] > 1 then Err(UnexpectedVariant(input[0]))
    else if |input| < 9 then Err(UnexpectedLength)
    else if |input| > 9 then Err(NotAllBytesRead)
    else
      U64Width();
      ToLeFromLe(input[1..]);
      var amount := FromLe(input[1..]) as u64;
      var ix := if input[0] == 0 then ChangeXtoY(amount) else ChangeYtoX(amount);
      assert Serialize(ix) == [input[0]] + input[1..];
      Ok(ix)
  }

  /** Decoding the encoding of either request gives it back, for every `u64` amount and both variants. */
  lemma DecodeEncode(ix: ContractInstruction)
    ensures TryFromSlice(Serialize(ix)) == Ok(ix)
  {
  }

  // ---------------------------------------------------------------------------------------------
  // Builders

  datatype AccountMeta = AccountMeta(pubkey: Pubkey, isSigner: bool, isWritable: bool)

  /** `AccountMeta::new`: a writable account. */
  function NewMeta(pubkey: Pubkey, isSigner: bool): AccountMeta
  {
    AccountMeta(pubkey, isSigner, true)
  }

  /** `AccountMeta::new_readonly`. */
  function NewReadonlyMeta(pubkey: Pubkey, isSigner: bool): AccountMeta
  {
    AccountMeta(pubkey, isSigner, false)
  }

  datatype Instruction = Instruction(programId: Pubkey, accounts: seq<AccountMeta>, data: seq<u8>)

  /** `Instruction::new_with_borsh`. */
  function NewWithBorsh(programId: Pubkey, ix: ContractInstruction, accounts: seq<AccountMeta>): Instruction
  {
    Instruction(programId, accounts, Serialize(ix))
  }

  /** The accounts both builders list. Positions 1, 2, 4 and 5 are the ones the token legs change. */
  predicate IsSwapAccountList(
    metas: seq<AccountMeta>, userWalletsAuthority: Pubkey, userWalletX: Pubkey, userWalletY: Pubkey,
    poolContract: Pubkey, poolMint: Pubkey, poolWalletX: Pubkey, authority: Pubkey)
  {
    && |metas| == 8
    && metas[0].pubkey == userWalletsAuthority
    && metas[1].pubkey == userWalletX
    && metas[2].pubkey == userWalletY
    && metas[3].pubkey == poolContract
    && metas[4].pubkey == poolMint
    && metas[5].pubkey == poolWalletX
    && metas[6].pubkey == authority
    && metas[7].pubkey == TokenProgramId
    && (forall i :: 0 <= i < 8 ==> (metas[i].isSigner <==> i == 0))
    && (forall i :: 0 <= i < 8 ==> (metas[i].isWritable <==> i in {1, 2, 4, 5}))
  }

  /** `instruction::change_x_to_y`. */
  function BuildChangeXtoY(
    programId: Pubkey, userWalletsAuthority: Pubkey, userWalletX: Pubkey, userWalletY: Pubkey,
    poolContract: Pubkey, poolMint: Pubkey, poolWalletX: Pubkey, authority: Pubkey, amount: u64): (r: Instruction)
    ensures r.programId == programId
    ensures IsSwapAccountList(r.accounts, userWalletsAuthority, userWalletX, userWalletY,
                              poolContract, poolMint, poolWalletX, authority)
    ensures TryFromSlice(r.data) == Ok(ChangeXtoY(amount))
  {
    DecodeEncode(ChangeXtoY(amount));
    NewWithBorsh(
      programId,
      ChangeXtoY(amount),
      [ NewReadonlyMeta(userWalletsAuthority, true),
        NewMeta(userWalletX, false),
        NewMeta(userWalletY, false),
        NewReadonlyMeta(poolContract, false),
        NewMeta(poolMint, false),
        NewMeta(poolWalletX, false),
        NewReadonlyMeta(authority, false),
        NewReadonlyMeta(TokenProgramId, false) ])
  }

  /** `instruction::change_y_to_x`: the same account list as `change_x_to_y`, the other variant. */
  function BuildChangeYtoX(
    programId: Pubkey, userWalletsAuthority: Pubkey, userWalletX: Pubkey, userWalletY: Pubkey,
    poolContract: Pubkey, poolMint: Pubkey, poolWalletX: Pubkey, authority: Pubkey, amount: u64): (r: Instruction)
    ensures r.programId == programId
    ensures IsSwapAccountList(r.accounts, userWalletsAuthority, userWalletX, userWalletY,
                              poolContract, poolMint, poolWalletX, authority)
    ensures TryFromSlice(r.data) == Ok(ChangeYtoX(amount))
  {
    DecodeEncode(ChangeYtoX(amount));
    NewWithBorsh(
      programId,
      ChangeYtoX(amount),
      [ NewReadonlyMeta(userWalletsAuthority, true),
        NewMeta(userWalletX, false),
        NewMeta(userWalletY, false),
        NewReadonlyMeta(poolContract, false),
        NewMeta(poolMint, false),
        NewMeta(poolWalletX, false),
        NewReadonlyMeta(authority, false),
        NewReadonlyMeta(TokenProgramId, false) ])
  }

  /** For the same inputs the two builders differ only in the encoded variant. */
  lemma BuildersDifferOnlyInVariant(
    programId: Pubkey, userWalletsAuthority: Pubkey, userWalletX: Pubkey, userWalletY: Pubkey,
    poolContract: Pubkey, poolMint: Pubkey, poolWalletX: Pubkey, authority: Pubkey, amount: u64)
    ensures
      var x := BuildChangeXtoY(programId, userWalletsAuthority, userWalletX, userWalletY,
                               poolContract, poolMint, poolWalletX, authority, amount);
      var y := BuildChangeYtoX(programId, userWalletsAuthority, userWalletX, userWalletY,
                               poolContract, poolMint, poolWalletX, authority, amount);
      && x.programId == y.programId
      && x.accounts == y.accounts
      && x.data[1..] == y.data[1..]
      && x.data[0] == 0 && y.data[0] == 1
  {
  }
}
