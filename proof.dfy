/** The proof-of-existence pallet: a registry from claim bytes (typically a
    document hash) to the account that registered it and the block in which
    it did.  Each call either commits its one write or fails with an error and
    leaves the registry as it was. */
module ProofOfExistence {
  import opened Runtime

  datatype Error = ProofAlreadyExist | ClaimNotExist | NotClaimOwner | ClaimOutLength

  type Claim = seq<bv8>

  /** The stored value: the claim's owner and the block it was registered in. */
  datatype Proof = Proof(owner: AccountId, blockNumber: BlockNumber)

  class Pallet {
    /** `MaxAddend`: the longest claim `create_claim` accepts. */
    const maxAddend: nat

    /** `Proofs`. */
    var proofs: map<Claim, Proof>

    /** Only `create_claim` adds keys, so every stored claim respects the bound. */
    ghost predicate Valid()
      reads this
      ensures proofs == map[] ==> Valid()
    {
      forall c :: c in proofs ==> |c| <= maxAddend
    }

    /** `Proofs::get(claim)`. */
    function ProofOf(claim: Claim): Option<Proof>
      reads this
    {
      if claim in proofs then Some(proofs[claim]) else None
    }

    constructor (maxAddend: nat)
      ensures Valid()
      ensures this.maxAddend == maxAddend && proofs == map[]
    {
      this.maxAddend := maxAddend;
      proofs := map[];
    }

    /** `create_claim`: registers `claim` for `sender` at block `now`.  A claim
        exactly `maxAddend` bytes long is accepted. */
    method CreateClaim(sender: AccountId, claim: Claim, now: BlockNumber) returns (r: DispatchResult<Error>)
      modifies this`proofs
      ensures old(Valid()) ==> Valid()
      ensures |claim| > maxAddend ==> r == Err(ClaimOutLength)
      ensures |claim| <= maxAddend && claim in old(proofs) ==> r == Err(ProofAlreadyExist)
      ensures r.Ok? <==> |claim| <= maxAddend && claim !in old(proofs)
      ensures r.Err? ==> proofs == old(proofs)
      ensures r.Ok? ==> proofs == old(proofs)[claim := Proof(sender, now)]
    {
      if |claim| > maxAddend {
        return Err(ClaimOutLength);
      }
      if claim in proofs {
        return Err(ProofAlreadyExist);
      }
      proofs := proofs[claim := Proof(sender, now)];
      r := Ok;
    }

    /** `revoke_claim`: the owner deletes the claim, which can then be
        registered again. */
    method RevokeClaim(sender: AccountId, claim: Claim) returns (r: DispatchResult<Error>)
      modifies this`proofs
      ensures old(Valid()) ==> Valid()
      ensures claim !in old(proofs) ==> r == Err(ClaimNotExist)
      ensures claim in old(proofs) && old(proofs)[claim].owner != sender ==> r == Err(NotClaimOwner)
      ensures r.Ok? <==> old(ProofOf(claim)).Some? && old(ProofOf(claim)).value.owner == sender
      ensures r.Err? ==> proofs == old(proofs)
      ensures r.Ok? ==> proofs == old(proofs) - {claim}
    {
      if claim !in proofs {
        return Err(ClaimNotExist);
      }
      var stored := proofs[claim];
      if stored.owner != sender {
        return Err(NotClaimOwner);
      }
      proofs := proofs - {claim};
      r := Ok;
    }

    /** `transfer_claim`: the owner hands the claim to `recAccount`; the block
        number of the original registration is kept.  The length bound is not
        checked here. */
    method TransferClaim(sender: AccountId, claim: Claim, recAccount: AccountId) returns (r: DispatchResult<Error>)
      modifies this`proofs
      ensures old(Valid()) ==> Valid()
      ensures claim !in old(proofs) ==> r == Err(ClaimNotExist)
      ensures claim in old(proofs) && old(proofs)[claim].owner != sender ==> r == Err(NotClaimOwner)
      ensures r.Ok? <==> old(ProofOf(claim)).Some? && old(ProofOf(claim)).value.owner == sender
      ensures r.Err? ==> proofs == old(proofs)
      ensures r.Ok? ==> proofs == old(proofs)[claim := Proof(recAccount, old(proofs)[claim].blockNumber)]
      ensures r.Ok? ==> proofs.Keys == old(proofs).Keys
    {
      if claim !in proofs {
        return Err(ClaimNotExist);
      }
      var stored := proofs[claim];
      if stored.owner != sender {
        return Err(NotClaimOwner);
      }
      proofs := proofs - {claim};
      proofs := proofs[claim := Proof(recAccount, stored.blockNumber)];
      r := Ok;
    }
  }

  /** A claim's life: registered at block 5 by account 1, refused a second time
      and refused to a non-owner, handed to account 2 with its block number
      kept, revoked, and then registered anew by account 3.  A claim of
      `maxAddend` bytes is accepted and one byte more is refused. */
  method ClaimLifecycle() returns (created: DispatchResult<Error>, duplicate: DispatchResult<Error>,
                                   stranger: DispatchResult<Error>, handed: Option<Proof>,
                                   revoked: DispatchResult<Error>, recreated: Option<Proof>,
                                   atBound: DispatchResult<Error>, overBound: DispatchResult<Error>)
    ensures created == Ok && duplicate == Err(ProofAlreadyExist) && stranger == Err(NotClaimOwner)
    ensures handed == Some(Proof(2, 5))
    ensures revoked == Ok && recreated == Some(Proof(3, 9))
    ensures atBound == Ok && overBound == Err(ClaimOutLength)
  {
    var pallet := new Pallet(2);
    var claim: Claim := [0x12, 0x34];
    created := pallet.CreateClaim(1, claim, 5);
    duplicate := pallet.CreateClaim(2, claim, 6);
    stranger := pallet.TransferClaim(2, claim, 3);
    var moved := pallet.TransferClaim(1, claim, 2);
    handed := pallet.ProofOf(claim);
    revoked := pallet.RevokeClaim(2, claim);
    var again := pallet.CreateClaim(3, claim, 9);
    recreated := pallet.ProofOf(claim);
    atBound := pallet.CreateClaim(1, [0xAB, 0xCD], 9);
    overBound := pallet.CreateClaim(1, [0xAB, 0xCD, 0xEF], 9);
  }
}
