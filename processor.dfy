/** The instruction processor: decode a request, validate the eight accounts it names, and run the two
  * token legs that make up a swap of token X for the pool token Y or back. */
module Processor {
  import opened Types
  import opened Errors
  import opened Derivation
  import Instruction
  import opened TokenLedger

  /** What the runtime hands the program for one listed account. Lamports and raw data are left out:
    * the contents of token accounts and mints live in the `Ledger`. `isWritable` is carried but never read:
    * neither the program nor the model checks writability, and the runtime's check on it is not modelled. */
  datatype AccountInfo = AccountInfo(key: Pubkey, isSigner: bool, isWritable: bool, owner: Pubkey)

  /** `accounts.iter()`, consumed by `next_account_info`. `all` and `position` are the list it was made
    * from and how much of it has been taken. */
  class AccountInfoIter {
    var remaining: seq<AccountInfo>
    ghost const all: seq<AccountInfo>
    ghost var position: nat

    ghost predicate Valid()
      reads this
    {
      position <= |all| && remaining == all[position..]
    }

    constructor (accounts: seq<AccountInfo>)
      ensures Valid() && all == accounts && position == 0
    {
      remaining := accounts;
      all := accounts;
      position := 0;
    }

    /** `next_account_info`: the next account, or `NotEnoughAccountKeys` once the list is used up. */
    method Next() returns (r: Result<AccountInfo, ProgramError>)
      requires Valid()
      modifies this
      ensures Valid()
      ensures old(position) == |all| ==> r == Err(NotEnoughAccountKeys) && position == old(position)
      ensures old(position) < |all| ==> r == Ok(all[old(position)]) && position == old(position) + 1
    {
      if remaining == [] {
        r := Err(NotEnoughAccountKeys);
      } else {
        r := Ok(remaining[0]);
        remaining := remaining[1..];
        position := position + 1;
      }
    }
  }

  // ---------------------------------------------------------------------------------------------
  // Helpers of `Processor`

  /** `unpack_self_token_account`: the token account behind `info`, if the token program owns it. */
  function UnpackSelfTokenAccount(info: AccountInfo, tokenProgramId: Pubkey, s: LedgerState)
    : (r: Result<TokenAccount, CrateError>)
    ensures r == Err(IncorrectTokenProgramId) <==> info.owner != tokenProgramId
    ensures r.Ok? <==> info.owner == tokenProgramId && info.key in s.accounts
    ensures r.Ok? ==> r.value == s.accounts[info.key]
  {
    if info.owner != tokenProgramId then Err(IncorrectTokenProgramId)
    else if info.key in s.accounts then Ok(s.accounts[info.key])
    else Err(ExpectedAccount)
  }

  /** `unpack_mint`: the mint behind `info`, if the token program owns it. */
  function UnpackMint(info: AccountInfo, tokenProgramId: Pubkey, s: LedgerState): (r: Result<Mint, CrateError>)
    ensures r == Err(IncorrectTokenProgramId) <==> info.owner != tokenProgramId
    ensures r.Ok? <==> info.owner == tokenProgramId && info.key in s.mints
    ensures r.Ok? ==> r.value == s.mints[info.key]
  {
    if info.owner != tokenProgramId then Err(IncorrectTokenProgramId)
    else if info.key in s.mints then Ok(s.mints[info.key])
    else Err(ExpectedMint)
  }

  /** `authority_id`: the address derived from `myInfo` and a given bump seed. */
  function AuthorityId(create: CreateFn, programId: Pubkey, myInfo: Pubkey, bumpSeed: u8)
    : (r: Result<Pubkey, CrateError>)
    ensures r.Ok? ==> SignedBySeeds(create, programId, [myInfo, [bumpSeed]], r.value)
    ensures r.Err? <==> r == Err(InvalidProgramAddress)
    ensures r.Err? <==> create([myInfo, [bumpSeed]], programId).None?
  {
    match create([myInfo, [bumpSeed]], programId)
    case Some(address) => Ok(address)
    case None => Err(InvalidProgramAddress)
  }

  /** The bump that `find_program_address` returns makes `authority_id` give the found address. */
  lemma AuthorityIdAgreesWithFind(create: CreateFn, programId: Pubkey, poolContract: Pubkey)
    requires FindProgramAddress(create, [poolContract], programId).Some?
    ensures var (address, bump) := FindProgramAddress(create, [poolContract], programId).value;
      AuthorityId(create, programId, poolContract, bump) == Ok(address)
  {
    var (address, bump) := FindProgramAddress(create, [poolContract], programId).value;
    FoundAddressSigns(create, [poolContract], programId, address, bump);
    assert [poolContract] + [[bump]] == [poolContract, [bump]];
  }

  // ---------------------------------------------------------------------------------------------
  // Delegated calls into the token program

  /** The signature `invoke` passes on: only the caller's own signer flag. */
  predicate InvokeSigns(authority: AccountInfo)
  {
    authority.isSigner
  }

  /** The signature `invoke_signed` with seeds `[pool contract, [bump]]` passes on: the caller's signer
    * flag, or the derived address of those seeds. */
  predicate InvokeSignedSigns(
    create: CreateFn, programId: Pubkey, poolContract: AccountInfo, bumpSeed: u8, authority: AccountInfo)
  {
    authority.isSigner || SignedBySeeds(create, programId, [poolContract.key, [bumpSeed]], authority.key)
  }

  /** `token_transfer` as written: it builds the seeds but calls plain `invoke`. */
  function TransferLeg(s: LedgerState, source: AccountInfo, destination: AccountInfo, authority: AccountInfo,
                       amount: u64): Result<LedgerState, ProgramError>
  {
    ApplyTransfer(s, source.key, destination.key, authority.key, InvokeSigns(authority), amount)
  }

  /** `token_transfer` with `invoke_signed`, the call the seeds were built for. */
  function SignedTransferLeg(
    create: CreateFn, programId: Pubkey, s: LedgerState, poolContract: AccountInfo, source: AccountInfo,
    destination: AccountInfo, authority: AccountInfo, amount: u64, bumpSeed: u8): Result<LedgerState, ProgramError>
  {
    ApplyTransfer(s, source.key, destination.key, authority.key,
                  InvokeSignedSigns(create, programId, poolContract, bumpSeed, authority), amount)
  }

  /** `token_mint_to`: `invoke_signed` with the pool contract's seeds. */
  function MintToLeg(
    create: CreateFn, programId: Pubkey, s: LedgerState, poolContract: AccountInfo, mint: AccountInfo,
    destination: AccountInfo, authority: AccountInfo, amount: u64, bumpSeed: u8): Result<LedgerState, ProgramError>
  {
    ApplyMintTo(s, mint.key, destination.key, authority.key,
                InvokeSignedSigns(create, programId, poolContract, bumpSeed, authority), amount)
  }

  /** `token_burn`: `invoke_signed` with the pool contract's seeds. */
  function BurnLeg(
    create: CreateFn, programId: Pubkey, s: LedgerState, poolContract: AccountInfo, burnAccount: AccountInfo,
    mint: AccountInfo, authority: AccountInfo, amount: u64, bumpSeed: u8): Result<LedgerState, ProgramError>
  {
    ApplyBurn(s, burnAccount.key, mint.key, authority.key,
              InvokeSignedSigns(create, programId, poolContract, bumpSeed, authority), amount)
  }

  /** `token_transfer`. `programId` is the calling program, which `invoke_signed` would derive under. */
  method TokenTransfer(
    ledger: Ledger, poolContract: AccountInfo, source: AccountInfo, destination: AccountInfo,
    authority: AccountInfo, amount: u64, bumpSeed: u8) returns (r: ProgramResult)
    modifies ledger
    ensures var op := TransferLeg(old(ledger.Snapshot()), source, destination, authority, amount);
      r == ResultOf(op) && ledger.Snapshot() == StateAfter(op, old(ledger.Snapshot()))
  {
    r := ledger.Transfer(source.key, destination.key, authority.key, InvokeSigns(authority), amount);
  }

  /** `token_transfer` as it was evidently meant: signed with the pool contract's seeds. */
  method TokenTransferSigned(
    ledger: Ledger, create: CreateFn, programId: Pubkey, poolContract: AccountInfo, source: AccountInfo,
    destination: AccountInfo, authority: AccountInfo, amount: u64, bumpSeed: u8) returns (r: ProgramResult)
    modifies ledger
    ensures var op := SignedTransferLeg(create, programId, old(ledger.Snapshot()), poolContract, source,
                                        destination, authority, amount, bumpSeed);
      r == ResultOf(op) && ledger.Snapshot() == StateAfter(op, old(ledger.Snapshot()))
  {
    var signed := InvokeSignedSigns(create, programId, poolContract, bumpSeed, authority);
    r := ledger.Transfer(source.key, destination.key, authority.key, signed, amount);
  }

  /** `token_mint_to`. */
  method TokenMintTo(
    ledger: Ledger, create: CreateFn, programId: Pubkey, poolContract: AccountInfo, mint: AccountInfo,
    destination: AccountInfo, authority: AccountInfo, amount: u64, bumpSeed: u8) returns (r: ProgramResult)
    modifies ledger
    ensures var op := MintToLeg(create, programId, old(ledger.Snapshot()), poolContract, mint, destination,
                                authority, amount, bumpSeed);
      r == ResultOf(op) && ledger.Snapshot() == StateAfter(op, old(ledger.Snapshot()))
  {
    var signed := InvokeSignedSigns(create, programId, poolContract, bumpSeed, authority);
    r := ledger.MintTo(mint.key, destination.key, authority.key, signed, amount);
  }

  /** `token_burn`. */
  method TokenBurn(
    ledger: Ledger, create: CreateFn, programId: Pubkey, poolContract: AccountInfo, burnAccount: AccountInfo,
    mint: AccountInfo, authority: AccountInfo, amount: u64, bumpSeed: u8) returns (r: ProgramResult)
    modifies ledger
    ensures var op := BurnLeg(create, programId, old(ledger.Snapshot()), poolContract, burnAccount, mint,
                              authority, amount, bumpSeed);
      r == ResultOf(op) && ledger.Snapshot() == StateAfter(op, old(ledger.Snapshot()))
  {
    var signed := InvokeSignedSigns(create, programId, poolContract, bumpSeed, authority);
    r := ledger.Burn(burnAccount.key, mint.key, authority.key, signed, amount);
  }

  // ---------------------------------------------------------------------------------------------
  // What a handler does, as functions of the ledger before the call

  /** The ledger a handler leaves behind, with the result it returns. */
  datatype Outcome = Outcome(result: ProgramResult, state: LedgerState)

  /** `t` is `s` after a swap of `amount` X for Y: the amount left user wallet X for pool wallet X, the
    * same amount of pool tokens was minted into user wallet Y, and nothing else changed. */
  ghost predicate SwappedXForY(
    s: LedgerState, t: LedgerState, amount: u64, userWalletX: Pubkey, poolWalletX: Pubkey, userWalletY: Pubkey,
    poolMint: Pubkey)
  {
    && SameShape(s, t)
    && (forall k :: Balance(t, k) == Balance(s, k)
          - Credit(amount, k, userWalletX) + Credit(amount, k, poolWalletX) + Credit(amount, k, userWalletY))
    && (forall m :: Supply(t, m) == Supply(s, m) + Credit(amount, m, poolMint))
  }

  /** `t` is `s` after a swap of `amount` Y for X: the amount went back from pool wallet X to user wallet X,
    * the same amount of pool tokens was burnt from user wallet Y, and nothing else changed. */
  ghost predicate SwappedYForX(
    s: LedgerState, t: LedgerState, amount: u64, userWalletX: Pubkey, poolWalletX: Pubkey, userWalletY: Pubkey,
    poolMint: Pubkey)
  {
    && SameShape(s, t)
    && (forall k :: Balance(t, k) == Balance(s, k)
          - Credit(amount, k, poolWalletX) + Credit(amount, k, userWalletX) - Credit(amount, k, userWalletY))
    && (forall m :: Supply(t, m) == Supply(s, m) - Credit(amount, m, poolMint))
  }

  /** The authority account is the address derived from the pool contract's key. */
  predicate IsPoolAuthority(create: CreateFn, programId: Pubkey, poolContract: Pubkey, authority: Pubkey)
  {
    var found := FindProgramAddress(create, [poolContract], programId);
    found.Some? && found.value.0 == authority
  }

  /** The part both handlers share before any token leg: take eight accounts, then check the signer, the
    * pool contract's owner and the derived authority, in that order. `Ok` carries the bump seed. */
  function CheckSwapAccounts(programId: Pubkey, create: CreateFn, accounts: seq<AccountInfo>)
    : (r: Result<u8, ProgramError>)
    ensures |accounts| < 8 ==> r == Err(NotEnoughAccountKeys)
    ensures |accounts| >= 8 && !accounts[0].isSigner ==> r == Err(MissingRequiredSignature)
    ensures (|accounts| >= 8 && accounts[0].isSigner && accounts[3].owner != programId) ==>
      r == Err(IncorrectProgramId)
    ensures (|accounts| >= 8 && accounts[0].isSigner && accounts[3].owner == programId
             && FindProgramAddress(create, [accounts[3].key], programId).None?) ==>
      r == Err(Panicked)
    ensures (|accounts| >= 8 && accounts[0].isSigner && accounts[3].owner == programId
             && FindProgramAddress(create, [accounts[3].key], programId).Some?
             && !IsPoolAuthority(create, programId, accounts[3].key, accounts[6].key)) ==>
      r == Err(Custom(InvalidProgramAddress))
    ensures r.Ok? <==>
      && |accounts| >= 8 && accounts[0].isSigner && accounts[3].owner == programId
      && IsPoolAuthority(create, programId, accounts[3].key, accounts[6].key)
    ensures r.Ok? ==> SignedBySeeds(create, programId, [accounts[3].key, [r.value]], accounts[6].key)
  {
    if |accounts| < 8 then Err(NotEnoughAccountKeys)
    else if !accounts[0].isSigner then Err(MissingRequiredSignature)
    else if accounts[3].owner != programId then Err(IncorrectProgramId)
    else
      match FindProgramAddress(create, [accounts[3].key], programId)
      case None => Err(Panicked)
      case Some((address, bumpSeed)) =>
        if accounts[6].key != address then Err(Custom(InvalidProgramAddress))
        else
          FoundAddressSigns(create, [accounts[3].key], programId, address, bumpSeed);
          assert [accounts[3].key] + [[bumpSeed]] == [accounts[3].key, [bumpSeed]];
          Ok(bumpSeed)
  }

  /** `change_x_to_y`. Accounts: 0 user authority, 1 user wallet X, 2 user wallet Y, 3 pool contract,
    * 4 pool mint, 5 pool wallet X, 6 derived authority, 7 token program. */
  function ChangeXtoYOutcome(
    programId: Pubkey, create: CreateFn, amount: u64, accounts: seq<AccountInfo>, s: LedgerState): (o: Outcome)
    ensures var c := CheckSwapAccounts(programId, create, accounts);
      c.Err? ==> o == Outcome(Err(c.error), s)
    ensures o.result.Ok? <==>
      && CheckSwapAccounts(programId, create, accounts).Ok?
      && var t := ApplyTransfer(s, accounts[1].key, accounts[5].key, accounts[0].key, true, amount);
      && t.Ok?
      && ApplyMintTo(t.value, accounts[4].key, accounts[2].key, accounts[6].key, true, amount).Ok?
    ensures o.result.Err? && o.state != s ==>
      && CheckSwapAccounts(programId, create, accounts).Ok?
      && ApplyTransfer(s, accounts[1].key, accounts[5].key, accounts[0].key, true, amount) == Ok(o.state)
    ensures CheckSwapAccounts(programId, create, accounts).Ok? ==>
      var t := ApplyTransfer(s, accounts[1].key, accounts[5].key, accounts[0].key, true, amount);
      t.Err? ==> o == Outcome(Err(t.error), s)
    ensures CheckSwapAccounts(programId, create, accounts).Ok? ==>
      var t := ApplyTransfer(s, accounts[1].key, accounts[5].key, accounts[0].key, true, amount);
      t.Ok? ==>
        var m := ApplyMintTo(t.value, accounts[4].key, accounts[2].key, accounts[6].key, true, amount);
        m.Err? ==> o == Outcome(Err(m.error), t.value)
    ensures o.result.Ok? ==>
      SwappedXForY(s, o.state, amount, accounts[1].key, accounts[5].key, accounts[2].key, accounts[4].key)
  {
    match CheckSwapAccounts(programId, create, accounts)
    case Err(e) => Outcome(Err(e), s)
    case Ok(bumpSeed) =>
      match TransferLeg(s, accounts[1], accounts[5], accounts[0], amount)
      case Err(e) => Outcome(Err(e), s)
      case Ok(s1) =>
        match MintToLeg(create, programId, s1, accounts[3], accounts[4], accounts[2], accounts[6], amount, bumpSeed)
        case Err(e) => Outcome(Err(e), s1)
        case Ok(s2) => Outcome(Ok(()), s2)
  }

  /** `change_y_to_x` as written. Its transfer out of the pool wallet goes through plain `invoke`, so the
    * derived authority never signs it: unless the authority account itself carries a signature, which an
    * address without a private key cannot, the call fails and nothing changes. */
  function ChangeYtoXOutcome(
    programId: Pubkey, create: CreateFn, amount: u64, accounts: seq<AccountInfo>, s: LedgerState): (o: Outcome)
    ensures var c := CheckSwapAccounts(programId, create, accounts);
      c.Err? ==> o == Outcome(Err(c.error), s)
    ensures o.result.Ok? <==>
      && CheckSwapAccounts(programId, create, accounts).Ok?
      && var t := ApplyTransfer(s, accounts[5].key, accounts[1].key, accounts[6].key, accounts[6].isSigner, amount);
      && t.Ok?
      && ApplyBurn(t.value, accounts[2].key, accounts[4].key, accounts[0].key, true, amount).Ok?
    ensures CheckSwapAccounts(programId, create, accounts).Ok? ==>
      var t := ApplyTransfer(s, accounts[5].key, accounts[1].key, accounts[6].key, accounts[6].isSigner, amount);
      t.Err? ==> o == Outcome(Err(t.error), s)
    ensures CheckSwapAccounts(programId, create, accounts).Ok? ==>
      var t := ApplyTransfer(s, accounts[5].key, accounts[1].key, accounts[6].key, accounts[6].isSigner, amount);
      t.Ok? ==>
        var b := ApplyBurn(t.value, accounts[2].key, accounts[4].key, accounts[0].key, true, amount);
        b.Err? ==> o == Outcome(Err(b.error), t.value)
    ensures |accounts| >= 8 && !accounts[6].isSigner ==> o.result.Err? && o.state == s
    ensures o.result.Ok? ==>
      SwappedYForX(s, o.state, amount, accounts[1].key, accounts[5].key, accounts[2].key, accounts[4].key)
  {
    match CheckSwapAccounts(programId, create, accounts)
    case Err(e) => Outcome(Err(e), s)
    case Ok(bumpSeed) =>
      match TransferLeg(s, accounts[5], accounts[1], accounts[6], amount)
      case Err(e) => Outcome(Err(e), s)
      case Ok(s1) =>
        match BurnLeg(create, programId, s1, accounts[3], accounts[2], accounts[4], accounts[0], amount, bumpSeed)
        case Err(e) => Outcome(Err(e), s1)
        case Ok(s2) => Outcome(Ok(()), s2)
  }

  /** `change_y_to_x` with the transfer signed by the derived authority, the evident intent. */
  function ChangeYtoXSignedOutcome(
    programId: Pubkey, create: CreateFn, amount: u64, accounts: seq<AccountInfo>, s: LedgerState): (o: Outcome)
    ensures var c := CheckSwapAccounts(programId, create, accounts);
      c.Err? ==> o == Outcome(Err(c.error), s)
    ensures o.result.Ok? <==>
      && CheckSwapAccounts(programId, create, accounts).Ok?
      && var t := ApplyTransfer(s, accounts[5].key, accounts[1].key, accounts[6].key, true, amount);
      && t.Ok?
      && ApplyBurn(t.value, accounts[2].key, accounts[4].key, accounts[0].key, true, amount).Ok?
    ensures o.result.Err? && o.state != s ==>
      && CheckSwapAccounts(programId, create, accounts).Ok?
      && ApplyTransfer(s, accounts[5].key, accounts[1].key, accounts[6].key, true, amount) == Ok(o.state)
    ensures CheckSwapAccounts(programId, create, accounts).Ok? ==>
      var t := ApplyTransfer(s, accounts[5].key, accounts[1].key, accounts[6].key, true, amount);
      t.Err? ==> o == Outcome(Err(t.error), s)
    ensures CheckSwapAccounts(programId, create, accounts).Ok? ==>
      var t := ApplyTransfer(s, accounts[5].key, accounts[1].key, accounts[6].key, true, amount);
      t.Ok? ==>
        var b := ApplyBurn(t.value, accounts[2].key, accounts[4].key, accounts[0].key, true, amount);
        b.Err? ==> o == Outcome(Err(b.error), t.value)
    ensures o.result.Ok? ==>
      SwappedYForX(s, o.state, amount, accounts[1].key, accounts[5].key, accounts[2].key, accounts[4].key)
  {
    match CheckSwapAccounts(programId, create, accounts)
    case Err(e) => Outcome(Err(e), s)
    case Ok(bumpSeed) =>
      assert InvokeSignedSigns(create, programId, accounts[3], bumpSeed, accounts[6]);
      match SignedTransferLeg(create, programId, s, accounts[3], accounts[5], accounts[1], accounts[6], amount, bumpSeed)
      case Err(e) => Outcome(Err(e), s)
      case Ok(s1) =>
        match BurnLeg(create, programId, s1, accounts[3], accounts[2], accounts[4], accounts[0], amount, bumpSeed)
        case Err(e) => Outcome(Err(e), s1)
        case Ok(s2) => Outcome(Ok(()), s2)
  }

  /** `process_instruction`: decode the whole input, then hand the amount to the matching handler. */
  function ProcessInstructionOutcome(
    programId: Pubkey, create: CreateFn, accounts: seq<AccountInfo>, input: seq<u8>, s: LedgerState): (o: Outcome)
    ensures Instruction.TryFromSlice(input).Err? ==>
      o == Outcome(Err(BorshIoError(Instruction.TryFromSlice(input).error)), s)
    ensures |input| != 9 ==> o.result.Err? && o.state == s
  {
    match Instruction.TryFromSlice(input)
    case Err(e) => Outcome(Err(BorshIoError(e)), s)
    case Ok(ix) =>
      if ix.ChangeXtoY? then ChangeXtoYOutcome(programId, create, ix.amount, accounts, s)
      else ChangeYtoXOutcome(programId, create, ix.amount, accounts, s)
  }

  /** Each encoded request reaches its own handler with the amount it carries, and the handler's outcome is
    * returned unchanged. */
  lemma ProcessInstructionRoutes(
    programId: Pubkey, create: CreateFn, accounts: seq<AccountInfo>, ix: Instruction.ContractInstruction,
    s: LedgerState)
    ensures ix.ChangeXtoY? ==> ProcessInstructionOutcome(programId, create, accounts, Instruction.Serialize(ix), s)
                               == ChangeXtoYOutcome(programId, create, ix.amount, accounts, s)
    ensures ix.ChangeYtoX? ==> ProcessInstructionOutcome(programId, create, accounts, Instruction.Serialize(ix), s)
                               == ChangeYtoXOutcome(programId, create, ix.amount, accounts, s)
  {
    Instruction.DecodeEncode(ix);
  }

  // ---------------------------------------------------------------------------------------------
  // The handlers

  /** The eight accounts of a swap request, by role, with the bump seed of the derived authority. */
  datatype SwapAccounts = SwapAccounts(
    userWalletsAuthority: AccountInfo, userWalletX: AccountInfo, userWalletY: AccountInfo,
    poolContract: AccountInfo, poolMint: AccountInfo, poolWalletX: AccountInfo, authority: AccountInfo,
    tokenProgram: AccountInfo, bumpSeed: u8)

  /** The opening the two handlers share: take eight accounts from the iterator, then check the signer, the
    * pool contract's owner and the derived authority, returning early on the first failure. */
  method ValidateSwapAccounts(programId: Pubkey, create: CreateFn, accounts: seq<AccountInfo>)
    returns (r: Result<SwapAccounts, ProgramError>)
    ensures r.Err? <==> CheckSwapAccounts(programId, create, accounts).Err?
    ensures r.Err? ==> r.error == CheckSwapAccounts(programId, create, accounts).error
    ensures r.Ok? ==> |accounts| >= 8 && r.value == SwapAccounts(
      accounts[0], accounts[1], accounts[2], accounts[3], accounts[4], accounts[5], accounts[6], accounts[7],
      CheckSwapAccounts(programId, create, accounts).value)
  {
    var accountInfoIter := new AccountInfoIter(accounts);
    var userWalletsAuthorityInfo :- accountInfoIter.Next();
    var userWalletXInfo :- accountInfoIter.Next();
    var userWalletYInfo :- accountInfoIter.Next();
    var poolContractInfo :- accountInfoIter.Next();
    var poolMintInfo :- accountInfoIter.Next();
    var poolWalletXInfo :- accountInfoIter.Next();
    var authorityInfo :- accountInfoIter.Next();
    var tokenProgramInfo :- accountInfoIter.Next();

    if !userWalletsAuthorityInfo.isSigner {
      return Err(MissingRequiredSignature);
    }
    if programId != poolContractInfo.owner {
      return Err(IncorrectProgramId);
    }
    var found := FindProgramAddress(create, [poolContractInfo.key], programId);
    if found.None? {
      return Err(Panicked);
    }
    var (programAuthorityId, bumpSeed) := found.value;
    if authorityInfo.key != programAuthorityId {
      return Err(Custom(InvalidProgramAddress));
    }
    return Ok(SwapAccounts(userWalletsAuthorityInfo, userWalletXInfo, userWalletYInfo, poolContractInfo,
                           poolMintInfo, poolWalletXInfo, authorityInfo, tokenProgramInfo, bumpSeed));
  }

  /** `change_x_to_y`: validate, then transfer X into the pool and mint Y to the user. */
  method ChangeXtoY(programId: Pubkey, create: CreateFn, tokenXAmount: u64, accounts: seq<AccountInfo>, ledger: Ledger)
    returns (r: ProgramResult)
    modifies ledger
    ensures Outcome(r, ledger.Snapshot())
         == ChangeXtoYOutcome(programId, create, tokenXAmount, accounts, old(ledger.Snapshot()))
  {
    var a :- ValidateSwapAccounts(programId, create, accounts);
    var _ :- TokenTransfer(ledger, a.poolContract, a.userWalletX, a.poolWalletX, a.userWalletsAuthority,
                           tokenXAmount, a.bumpSeed);
    var _ :- TokenMintTo(ledger, create, programId, a.poolContract, a.poolMint, a.userWalletY, a.authority,
                         tokenXAmount, a.bumpSeed);
    return Ok(());
  }

  /** `change_y_to_x` as written: validate, then transfer X back with plain `invoke` and burn Y. */
  method ChangeYtoX(programId: Pubkey, create: CreateFn, tokenYAmount: u64, accounts: seq<AccountInfo>, ledger: Ledger)
    returns (r: ProgramResult)
    modifies ledger
    ensures Outcome(r, ledger.Snapshot())
         == ChangeYtoXOutcome(programId, create, tokenYAmount, accounts, old(ledger.Snapshot()))
  {
    var a :- ValidateSwapAccounts(programId, create, accounts);
    var _ :- TokenTransfer(ledger, a.poolContract, a.poolWalletX, a.userWalletX, a.authority,
                           tokenYAmount, a.bumpSeed);
    var _ :- TokenBurn(ledger, create, programId, a.poolContract, a.userWalletY, a.poolMint,
                       a.userWalletsAuthority, tokenYAmount, a.bumpSeed);
    return Ok(());
  }

  /** `change_y_to_x` with the transfer out of the pool wallet signed by the derived authority. */
  method ChangeYtoXSigned(
    programId: Pubkey, create: CreateFn, tokenYAmount: u64, accounts: seq<AccountInfo>, ledger: Ledger)
    returns (r: ProgramResult)
    modifies ledger
    ensures Outcome(r, ledger.Snapshot())
         == ChangeYtoXSignedOutcome(programId, create, tokenYAmount, accounts, old(ledger.Snapshot()))
  {
    var a :- ValidateSwapAccounts(programId, create, accounts);
    var _ :- TokenTransferSigned(ledger, create, programId, a.poolContract, a.poolWalletX, a.userWalletX,
                                 a.authority, tokenYAmount, a.bumpSeed);
    var _ :- TokenBurn(ledger, create, programId, a.poolContract, a.userWalletY, a.poolMint,
                       a.userWalletsAuthority, tokenYAmount, a.bumpSeed);
    return Ok(());
  }

  /** `process_instruction`. */
  method ProcessInstruction(
    programId: Pubkey, create: CreateFn, accounts: seq<AccountInfo>, input: seq<u8>, ledger: Ledger)
    returns (r: ProgramResult)
    modifies ledger
    ensures Outcome(r, ledger.Snapshot())
         == ProcessInstructionOutcome(programId, create, accounts, input, old(ledger.Snapshot()))
  {
    var decoded := Instruction.TryFromSlice(input);
    if decoded.Err? {
      return Err(BorshIoError(decoded.error));
    }
    var instruction := decoded.value;
    if instruction.ChangeXtoY? {
      r := ChangeXtoY(programId, create, instruction.amount, accounts, ledger);
    } else {
      r := ChangeYtoX(programId, create, instruction.amount, accounts, ledger);
    }
  }
}
