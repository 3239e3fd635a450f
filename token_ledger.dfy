/** The SPL token program as this program sees it: a ledger of token accounts and mints, and the three
  * operations the processor delegates to it. The checks and their order follow the token program's
  * `Transfer`, `MintTo` and `Burn`; delegates, frozen accounts, native SOL and multisig owners are not
  * part of this model. */
module TokenLedger {
  import opened Types
  import opened Errors

  /** An initialised token account: which mint it holds, who may spend from it, and its balance. */
  datatype TokenAccount = TokenAccount(mint: Pubkey, owner: Pubkey, amount: u64)

  /** An initialised mint: who may mint (`None` once the supply is fixed) and the total supply. */
  datatype Mint = Mint(mintAuthority: Option<Pubkey>, supply: u64)

  datatype LedgerState = LedgerState(accounts: map<Pubkey, TokenAccount>, mints: map<Pubkey, Mint>)

  /** The balance of `key`, zero where there is no token account. */
  function Balance(s: LedgerState, key: Pubkey): nat
  {
    if key in s.accounts then s.accounts[key].amount as nat else 0
  }

  /** The supply of mint `key`, zero where there is no mint. */
  function Supply(s: LedgerState, key: Pubkey): nat
  {
    if key in s.mints then s.mints[key].supply as nat else 0
  }

  /** `amount` if `key` is `target`, else zero: the share of one leg that lands on `key`. */
  function Credit(amount: u64, key: Pubkey, target: Pubkey): int
  {
    if key == target then amount as int else 0
  }

  /** The same accounts and mints bound the same way; only balances and supplies may differ. */
  ghost predicate SameShape(s: LedgerState, t: LedgerState)
  {
    && s.accounts.Keys == t.accounts.Keys
    && s.mints.Keys == t.mints.Keys
    && (forall k :: k in s.accounts && k in t.accounts ==>
          s.accounts[k].mint == t.accounts[k].mint && s.accounts[k].owner == t.accounts[k].owner)
    && (forall m :: m in s.mints && m in t.mints ==> s.mints[m].mintAuthority == t.mints[m].mintAuthority)
  }

  lemma SameShapeTransitive(s: LedgerState, t: LedgerState, u: LedgerState)
    requires SameShape(s, t) && SameShape(t, u)
    ensures SameShape(s, u)
  {
  }

  /** Two ledgers of the same shape with the same balances and supplies are the same ledger. */
  lemma SameShapeSameAmounts(s: LedgerState, t: LedgerState)
    requires SameShape(s, t)
    requires forall k :: Balance(s, k) == Balance(t, k)
    requires forall m :: Supply(s, m) == Supply(t, m)
    ensures s == t
  {
    forall k | k in s.accounts ensures s.accounts[k] == t.accounts[k] {
      assert Balance(s, k) == Balance(t, k);
    }
    forall m | m in s.mints ensures s.mints[m] == t.mints[m] {
      assert Supply(s, m) == Supply(t, m);
    }
    assert s.accounts == t.accounts;
    assert s.mints == t.mints;
  }

  /** `Transfer`: move `amount` from `source` to `destination`, authorised by the source's owner. */
  function ApplyTransfer(
    s: LedgerState, source: Pubkey, destination: Pubkey, authority: Pubkey, authoritySigned: bool, amount: u64
  ): (r: Result<LedgerState, ProgramError>)
    ensures r.Ok? <==>
      && source in s.accounts && destination in s.accounts
      && s.accounts[source].amount >= amount
      && s.accounts[source].mint == s.accounts[destination].mint
      && s.accounts[source].owner == authority
      && authoritySigned
      && (source == destination || s.accounts[destination].amount as int + amount as int <= U64_MAX)
    ensures source in s.accounts && destination in s.accounts && s.accounts[source].amount < amount ==>
      r == Err(Token(InsufficientFunds))
    ensures source in s.accounts && s.accounts[source].owner != authority ==> r.Err?
    ensures !authoritySigned ==> r.Err?
    ensures r.Ok? ==> SameShape(s, r.value) && r.value.mints == s.mints
    ensures r.Ok? ==> forall k ::
      Balance(r.value, k) == Balance(s, k) - Credit(amount, k, source) + Credit(amount, k, destination)
  {
    if source !in s.accounts || destination !in s.accounts then Err(UninitializedAccount)
    else
      var src := s.accounts[source];
      var dst := s.accounts[destination];
      if src.amount < amount then Err(Token(InsufficientFunds))
      else if src.mint != dst.mint then Err(Token(MintMismatch))
      else if src.owner != authority then Err(Token(OwnerMismatch))
      else if !authoritySigned then Err(MissingRequiredSignature)
      else if source == destination then Ok(s)
      else if dst.amount as int + amount as int > U64_MAX then Err(Token(Overflow))
      else
        Ok(s.(accounts := s.accounts[source := src.(amount := src.amount - amount)]
                                    [destination := dst.(amount := dst.amount + amount)]))
  }

  /** `MintTo`: create `amount` new tokens of `mint` in `destination`, authorised by the mint authority. */
  function ApplyMintTo(
    s: LedgerState, mint: Pubkey, destination: Pubkey, authority: Pubkey, authoritySigned: bool, amount: u64
  ): (r: Result<LedgerState, ProgramError>)
    ensures r.Ok? <==>
      && destination in s.accounts && mint in s.mints
      && s.accounts[destination].mint == mint
      && s.mints[mint].mintAuthority == Some(authority)
      && authoritySigned
      && s.accounts[destination].amount as int + amount as int <= U64_MAX
      && s.mints[mint].supply as int + amount as int <= U64_MAX
    ensures (destination in s.accounts && s.accounts[destination].mint == mint && mint in s.mints
             && s.mints[mint].mintAuthority.None?) ==> r == Err(Token(FixedSupply))
    ensures !authoritySigned ==> r.Err?
    ensures r.Ok? ==> SameShape(s, r.value)
    ensures r.Ok? ==> forall k :: Balance(r.value, k) == Balance(s, k) + Credit(amount, k, destination)
    ensures r.Ok? ==> forall m :: Supply(r.value, m) == Supply(s, m) + Credit(amount, m, mint)
  {
    if destination !in s.accounts then Err(UninitializedAccount)
    else
      var dst := s.accounts[destination];
      if dst.mint != mint then Err(Token(MintMismatch))
      else if mint !in s.mints then Err(UninitializedAccount)
      else
        var m := s.mints[mint];
        match m.mintAuthority
        case None => Err(Token(FixedSupply))
        case Some(mintAuthority) =>
          if mintAuthority != authority then Err(Token(OwnerMismatch))
          else if !authoritySigned then Err(MissingRequiredSignature)
          else if dst.amount as int + amount as int > U64_MAX then Err(Token(Overflow))
          else if m.supply as int + amount as int > U64_MAX then Err(Token(Overflow))
          else
            Ok(LedgerState(s.accounts[destination := dst.(amount := dst.amount + amount)],
                           s.mints[mint := m.(supply := m.supply + amount)]))
  }

  /** `Burn`: destroy `amount` tokens of `mint` held in `account`, authorised by the account's owner. */
  function ApplyBurn(
    s: LedgerState, account: Pubkey, mint: Pubkey, authority: Pubkey, authoritySigned: bool, amount: u64
  ): (r: Result<LedgerState, ProgramError>)
    ensures r.Ok? <==>
      && account in s.accounts && mint in s.mints
      && s.accounts[account].amount >= amount
      && s.accounts[account].mint == mint
      && s.accounts[account].owner == authority
      && authoritySigned
      && s.mints[mint].supply >= amount
    ensures account in s.accounts && mint in s.mints && s.accounts[account].amount < amount ==>
      r == Err(Token(InsufficientFunds))
    ensures !authoritySigned ==> r.Err?
    ensures r.Ok? ==> SameShape(s, r.value)
    ensures r.Ok? ==> forall k :: Balance(r.value, k) == Balance(s, k) - Credit(amount, k, account)
    ensures r.Ok? ==> forall m :: Supply(r.value, m) == Supply(s, m) - Credit(amount, m, mint)
  {
    if account !in s.accounts || mint !in s.mints then Err(UninitializedAccount)
    else
      var src := s.accounts[account];
      var m := s.mints[mint];
      if src.amount < amount then Err(Token(InsufficientFunds))
      else if src.mint != mint then Err(Token(MintMismatch))
      else if src.owner != authority then Err(Token(OwnerMismatch))
      else if !authoritySigned then Err(MissingRequiredSignature)
      else if m.supply < amount then Err(Token(Overflow))
      else
        Ok(LedgerState(s.accounts[account := src.(amount := src.amount - amount)],
                       s.mints[mint := m.(supply := m.supply - amount)]))
  }

  /** What a delegated call returns to its caller. */
  function ResultOf(op: Result<LedgerState, ProgramError>): ProgramResult
  {
    match op
    case Ok(_) => Ok(())
    case Err(e) => Err(e)
  }

  /** The ledger after a delegated call: a failed call changes nothing. */
  function StateAfter(op: Result<LedgerState, ProgramError>, before: LedgerState): LedgerState
  {
    match op
    case Ok(after) => after
    case Err(_) => before
  }

  /** The token program's accounts and mints, changed in place by the calls this program makes into it. */
  class Ledger {
    var accounts: map<Pubkey, TokenAccount>
    var mints: map<Pubkey, Mint>

    function Snapshot(): LedgerState
      reads this
    {
      LedgerState(accounts, mints)
    }

    constructor (s: LedgerState)
      ensures Snapshot() == s
    {
      accounts := s.accounts;
      mints := s.mints;
    }

    method Transfer(source: Pubkey, destination: Pubkey, authority: Pubkey, authoritySigned: bool, amount: u64)
      returns (r: ProgramResult)
      modifies this
      ensures var op := ApplyTransfer(old(Snapshot()), source, destination, authority, authoritySigned, amount);
        r == ResultOf(op) && Snapshot() == StateAfter(op, old(Snapshot()))
    {
      var op := ApplyTransfer(Snapshot(), source, destination, authority, authoritySigned, amount);
      r := Commit(op);
    }

    method MintTo(mint: Pubkey, destination: Pubkey, authority: Pubkey, authoritySigned: bool, amount: u64)
      returns (r: ProgramResult)
      modifies this
      ensures var op := ApplyMintTo(old(Snapshot()), mint, destination, authority, authoritySigned, amount);
        r == ResultOf(op) && Snapshot() == StateAfter(op, old(Snapshot()))
    {
      var op := ApplyMintTo(Snapshot(), mint, destination, authority, authoritySigned, amount);
      r := Commit(op);
    }

    method Burn(account: Pubkey, mint: Pubkey, authority: Pubkey, authoritySigned: bool, amount: u64)
      returns (r: ProgramResult)
      modifies this
      ensures var op := ApplyBurn(old(Snapshot()), account, mint, authority, authoritySigned, amount);
        r == ResultOf(op) && Snapshot() == StateAfter(op, old(Snapshot()))
    {
      var op := ApplyBurn(Snapshot(), account, mint, authority, authoritySigned, amount);
      r := Commit(op);
    }

    /** Store the outcome of a token operation: the new state if it succeeded, nothing otherwise. */
    method Commit(op: Result<LedgerState, ProgramError>) returns (r: ProgramResult)
      modifies this
      ensures r == ResultOf(op) && Snapshot() == StateAfter(op, old(Snapshot()))
    {
      match op
      case Ok(after) =>
        accounts := after.accounts;
        mints := after.mints;
        r := Ok(());
      case Err(e) =>
        r := Err(e);
    }
  }
}
