/** What a swap and its reverse do together, stated over the handlers' outcome functions. */
module Swap {
  import opened Types
  import opened Errors
  import opened TokenLedger
  import opened Processor

  /** `key` is a token account of `s` whose owner is `owner`. */
  predicate OwnedBy(s: LedgerState, key: Pubkey, owner: Pubkey)
  {
    key in s.accounts && s.accounts[key].owner == owner
  }

  /** Swapping X for Y and then, with the transfer signed as intended, Y back for X with the same amount
    * and the same accounts leaves every balance, every supply and every account exactly as it was. */
  lemma SwapRoundTripRestoresLedger(
    programId: Pubkey, create: Derivation.CreateFn, amount: u64, accounts: seq<AccountInfo>, s0: LedgerState)
    requires ChangeXtoYOutcome(programId, create, amount, accounts, s0).result.Ok?
    requires
      var s2 := ChangeXtoYOutcome(programId, create, amount, accounts, s0).state;
      ChangeYtoXSignedOutcome(programId, create, amount, accounts, s2).result.Ok?
    ensures
      var s2 := ChangeXtoYOutcome(programId, create, amount, accounts, s0).state;
      ChangeYtoXSignedOutcome(programId, create, amount, accounts, s2).state == s0
  {
    var s2 := ChangeXtoYOutcome(programId, create, amount, accounts, s0).state;
    var s4 := ChangeYtoXSignedOutcome(programId, create, amount, accounts, s2).state;
    SameShapeTransitive(s0, s2, s4);
    forall k ensures Balance(s4, k) == Balance(s0, k) {
      assert Balance(s2, k) == Balance(s0, k)
        - Credit(amount, k, accounts[1].key) + Credit(amount, k, accounts[5].key) + Credit(amount, k, accounts[2].key);
    }
    forall m ensures Supply(s4, m) == Supply(s0, m) {
      assert Supply(s2, m) == Supply(s0, m) + Credit(amount, m, accounts[4].key);
    }
    assert SameShape(s4, s0);
    SameShapeSameAmounts(s4, s0);
  }

  /** After a successful swap of X for Y, the intended reverse swap of the same amount always succeeds,
    * provided wallet X and wallet Y are different accounts, the pool wallet X belongs to the derived
    * authority and wallet Y to the user. */
  lemma SignedSwapBackSucceeds(
    programId: Pubkey, create: Derivation.CreateFn, amount: u64, accounts: seq<AccountInfo>, s0: LedgerState)
    requires |accounts| >= 8
    requires ChangeXtoYOutcome(programId, create, amount, accounts, s0).result.Ok?
    requires accounts[1].key != accounts[2].key
    requires OwnedBy(s0, accounts[5].key, accounts[6].key)
    requires OwnedBy(s0, accounts[2].key, accounts[0].key)
    ensures
      var s2 := ChangeXtoYOutcome(programId, create, amount, accounts, s0).state;
      ChangeYtoXSignedOutcome(programId, create, amount, accounts, s2).result.Ok?
  {
  }

  /** The first leg of the intended reverse swap succeeds after a swap of X for Y. */
  lemma TransferBackSucceeds(
    programId: Pubkey, create: Derivation.CreateFn, amount: u64, accounts: seq<AccountInfo>, s0: LedgerState)
    requires |accounts| >= 8
    requires ChangeXtoYOutcome(programId, create, amount, accounts, s0).result.Ok?
    requires accounts[1].key != accounts[2].key
    requires OwnedBy(s0, accounts[5].key, accounts[6].key)
    ensures
      var s2 := ChangeXtoYOutcome(programId, create, amount, accounts, s0).state;
      ApplyTransfer(s2, accounts[5].key, accounts[1].key, accounts[6].key, true, amount).Ok?
  {
  }

  /** The reverse swap as written cannot undo a swap of X for Y: with the same accounts it stops at its
    * first leg, because no signature of the derived authority accompanies the transfer, and the ledger keeps
    * the state the first swap left. The error is the token program's `MissingRequiredSignature` here; on
    * chain the runtime's signer-privilege check refuses the `invoke` first, with its own error, since the
    * transfer names the derived authority as a signer that the caller cannot vouch for. */
  lemma SwapBackAsWrittenFails(
    programId: Pubkey, create: Derivation.CreateFn, amount: u64, accounts: seq<AccountInfo>, s0: LedgerState)
    requires |accounts| >= 8
    requires ChangeXtoYOutcome(programId, create, amount, accounts, s0).result.Ok?
    requires accounts[1].key != accounts[2].key
    requires OwnedBy(s0, accounts[5].key, accounts[6].key)
    requires !accounts[6].isSigner
    ensures
      var s2 := ChangeXtoYOutcome(programId, create, amount, accounts, s0).state;
      ChangeYtoXOutcome(programId, create, amount, accounts, s2) == Outcome(Err(MissingRequiredSignature), s2)
  {
  }
}
