/** Program-derived addresses.
  * `create_program_address` hashes the seeds with the program id and rejects points on the curve; both are
  * outside this model, so it is a parameter `create` of type `CreateFn` (`None` is `InvalidSeeds`).
  * `find_program_address` is the bump search the Solana library runs over it. */
module Derivation {
  import opened Types

  type Seed = seq<u8>

  /** `Pubkey::create_program_address(seeds, program_id)`, deterministic and otherwise unknown. */
  type CreateFn = (seq<Seed>, Pubkey) -> Option<Pubkey>

  /** The address derived from `seeds` followed by the one-byte bump seed `bump`. */
  function CreateWithBump(create: CreateFn, seeds: seq<Seed>, programId: Pubkey, bump: u8): Option<Pubkey>
  {
    create(seeds + [[bump]], programId)
  }

  /** The bump search from `bump` down to 1: the first bump that yields an address wins. */
  function FindFrom(create: CreateFn, seeds: seq<Seed>, programId: Pubkey, bump: nat): (r: Option<(Pubkey, u8)>)
    requires bump <= 255
    ensures r.Some? ==>
      1 <= r.value.1 as int <= bump && CreateWithBump(create, seeds, programId, r.value.1) == Some(r.value.0)
    ensures r.Some? ==>
      forall b: u8 :: r.value.1 < b && b as int <= bump ==> CreateWithBump(create, seeds, programId, b).None?
    ensures r.None? <==>
      forall b: u8 :: 1 <= b && b as int <= bump ==> CreateWithBump(create, seeds, programId, b).None?
    decreases bump
  {
    if bump == 0 then None
    else
      match CreateWithBump(create, seeds, programId, bump as u8)
      case Some(address) => Some((address, bump as u8))
      case None => FindFrom(create, seeds, programId, bump - 1)
  }

  /** `Pubkey::find_program_address`: the loop runs `u8::MAX` times, so bumps 255 down to 1 are tried and
    * bump 0 never is. `None` is the case in which the library panics. */
  function FindProgramAddress(create: CreateFn, seeds: seq<Seed>, programId: Pubkey): (r: Option<(Pubkey, u8)>)
    ensures r.Some? ==> 1 <= r.value.1 && CreateWithBump(create, seeds, programId, r.value.1) == Some(r.value.0)
    ensures r.Some? ==> forall b: u8 :: r.value.1 < b ==> CreateWithBump(create, seeds, programId, b).None?
    ensures r.None? <==> forall b: u8 :: 1 <= b ==> CreateWithBump(create, seeds, programId, b).None?
  {
    FindFrom(create, seeds, programId, 255)
  }

  /** What `invoke_signed` grants: the address derived from `signerSeeds` by the calling program signs. */
  predicate SignedBySeeds(create: CreateFn, programId: Pubkey, signerSeeds: seq<Seed>, key: Pubkey)
  {
    create(signerSeeds, programId) == Some(key)
  }

  /** The address and bump that `find_program_address` returns re-derive that address, so presenting the
    * same seeds plus the bump to `invoke_signed` signs for it; and the bump is the largest that works. */
  lemma FoundAddressSigns(create: CreateFn, seeds: seq<Seed>, programId: Pubkey, address: Pubkey, bump: u8)
    requires FindProgramAddress(create, seeds, programId) == Some((address, bump))
    ensures 1 <= bump && SignedBySeeds(create, programId, seeds + [[bump]], address)
    ensures forall b: u8 :: bump < b ==> CreateWithBump(create, seeds, programId, b).None?
  {
  }
}
