/**
 * The proof-of-existence pallet: a `Proofs` map from a bounded byte string
 * (the claim) to its owner and the block it was created in, with the
 * `create_claim`, `revoke_claim` and `transfer_claim` calls.
 */
module Poe {
  import opened Primitives

  type BlockNumber = nat

  /** A claim: the bytes of a `BoundedVec<u8, MaxClaimLength>`; the bound is checked where it is used. */
  type Claim = seq<byte>

  /** The value stored for a claim: `(T::AccountId, T::BlockNumber)`. */
  datatype Proof = Proof(owner: AccountId, blockNumber: BlockNumber)

  type Proofs = map<Claim, Proof>

  /** The pallet's errors; `ClaimTooLong` is declared but no call raises it. */
  datatype Error = ProofAlreadyExist | ClaimTooLong | ClaimNotExist | NotClaimOwner | TransferToSelf

  type DispatchResult = Result<(), Error>

  /** Every stored claim fits the bound of its `BoundedVec` key type. */
  ghost predicate Bounded(p: Proofs, maxClaimLength: nat)
  {
    forall c :: c in p ==> |c| <= maxClaimLength
  }

  /** `create_claim` by `sender` at block `now`: the result and the map afterwards. */
  function CreateClaimStep(p: Proofs, sender: AccountId, claim: Claim, now: BlockNumber): (DispatchResult, Proofs)
  {
    if claim in p then (Err(ProofAlreadyExist), p)
    else (Ok(()), p[claim := Proof(sender, now)])
  }

  /** `revoke_claim` by `sender`. */
  function RevokeClaimStep(p: Proofs, sender: AccountId, claim: Claim): (DispatchResult, Proofs)
  {
    if claim !in p then (Err(ClaimNotExist), p)
    else if p[claim].owner != sender then (Err(NotClaimOwner), p)
    else (Ok(()), p - {claim})
  }

  /** `transfer_claim` by `sender` to `dest`. */
  function TransferClaimStep(p: Proofs, sender: AccountId, dest: AccountId, claim: Claim): (DispatchResult, Proofs)
  {
    if claim !in p then (Err(ClaimNotExist), p)
    else if p[claim].owner != sender then (Err(NotClaimOwner), p)
    else if dest == sender then (Err(TransferToSelf), p)
    else (Ok(()), p[claim := Proof(dest, p[claim].blockNumber)])
  }

  /** One dispatched call of the pallet, with its signer and (for a create) the current block. */
  datatype Call =
    | CreateCall(sender: AccountId, claim: Claim, now: BlockNumber)
    | RevokeCall(sender: AccountId, claim: Claim)
    | TransferCall(sender: AccountId, dest: AccountId, claim: Claim)

  function Apply(p: Proofs, call: Call): (DispatchResult, Proofs)
  {
    match call
    case CreateCall(sender, claim, now) => CreateClaimStep(p, sender, claim, now)
    case RevokeCall(sender, claim) => RevokeClaimStep(p, sender, claim)
    case TransferCall(sender, dest, claim) => TransferClaimStep(p, sender, dest, claim)
  }

  /** The map after dispatching `calls` in order, failed calls included. */
  function Replay(p: Proofs, calls: seq<Call>): Proofs
    decreases |calls|
  {
    if calls == [] then p else Replay(Apply(p, calls[0]).1, calls[1..])
  }

  /** All-or-nothing: a failing call leaves the map as it was. */
  lemma ApplyFailureChangesNothing(p: Proofs, call: Call)
    ensures var (r, q) := Apply(p, call); r.Err? ==> q == p
  {
  }

  /** Locality: any call touches at most the entry of its own claim. */
  lemma ApplyTouchesOnlyItsClaim(p: Proofs, call: Call, other: Claim)
    requires other != call.claim
    ensures var q := Apply(p, call).1;
      && (other in q <==> other in p)
      && (other in p ==> q[other] == p[other])
  {
  }

  /** A call naming a claim that no call in the sequence names leaves that claim's entry alone. */
  lemma {:induction false} ReplayLeavesUnnamedClaims(p: Proofs, calls: seq<Call>, other: Claim)
    requires forall i :: 0 <= i < |calls| ==> calls[i].claim != other
    ensures other in Replay(p, calls) <==> other in p
    ensures other in p ==> Replay(p, calls)[other] == p[other]
    decreases |calls|
  {
    if calls != [] {
      ApplyTouchesOnlyItsClaim(p, calls[0], other);
      ReplayLeavesUnnamedClaims(Apply(p, calls[0]).1, calls[1..], other);
    }
  }

  /** The key bound is kept by every sequence of calls whose claims are well-typed bounded vectors. */
  lemma {:induction false} ReplayKeepsClaimsBounded(p: Proofs, calls: seq<Call>, maxClaimLength: nat)
    requires Bounded(p, maxClaimLength)
    requires forall i :: 0 <= i < |calls| ==> |calls[i].claim| <= maxClaimLength
    ensures Bounded(Replay(p, calls), maxClaimLength)
    decreases |calls|
  {
    if calls != [] {
      var q := Apply(p, calls[0]).1;
      assert forall c :: c in q ==> c in p || c == calls[0].claim;
      ReplayKeepsClaimsBounded(q, calls[1..], maxClaimLength);
    }
  }

  /** Creating a fresh claim and revoking it as its creator restores the map. */
  lemma CreateThenRevokeRestores(p: Proofs, sender: AccountId, claim: Claim, now: BlockNumber)
    requires claim !in p
    ensures var (r1, q) := CreateClaimStep(p, sender, claim, now);
      r1 == Ok(()) && RevokeClaimStep(q, sender, claim) == (Ok(()), p)
  {
    var q := CreateClaimStep(p, sender, claim, now).1;
    assert q - {claim} == p;
  }

  /** Transferring a claim and transferring it back restores the map, block number included. */
  lemma TransferAndBackRestores(p: Proofs, owner: AccountId, dest: AccountId, claim: Claim)
    requires claim in p && p[claim].owner == owner && dest != owner
    ensures var (r1, q) := TransferClaimStep(p, owner, dest, claim);
      r1 == Ok(()) && TransferClaimStep(q, dest, owner, claim) == (Ok(()), p)
  {
    var q := TransferClaimStep(p, owner, dest, claim).1;
    assert q[claim := Proof(owner, q[claim].blockNumber)] == p;
  }

  /** The pallet's `Proofs` storage, updated in place by its calls. */
  class Pallet {
    /** `T::MaxClaimLength` */
    const maxClaimLength: nat
    var proofs: Proofs

    ghost predicate Valid()
      reads this
    {
      Bounded(proofs, maxClaimLength)
    }

    constructor (maxClaimLength: nat)
      ensures this.maxClaimLength == maxClaimLength && proofs == map[] && Valid()
    {
      this.maxClaimLength := maxClaimLength;
      proofs := map[];
    }

    /** `create_claim`: fails if the claim is already stored, else records `(sender, now)` for it. */
    method CreateClaim(sender: AccountId, claim: Claim, now: BlockNumber) returns (r: DispatchResult)
      requires Valid() && |claim| <= maxClaimLength
      modifies this`proofs
      ensures Valid()
      ensures r.Err? <==> claim in old(proofs)
      ensures r.Err? ==> r.error == ProofAlreadyExist && proofs == old(proofs)
      ensures r.Ok? ==> proofs == old(proofs)[claim := Proof(sender, now)]
      ensures (r, proofs) == CreateClaimStep(old(proofs), sender, claim, now)
    {
      if claim in proofs {
        return Err(ProofAlreadyExist);
      }
      proofs := proofs[claim := Proof(sender, now)];
      r := Ok(());
    }

    /** `revoke_claim`: the claim must exist and belong to `sender`; then exactly its entry is removed. */
    method RevokeClaim(sender: AccountId, claim: Claim) returns (r: DispatchResult)
      requires Valid()
      modifies this`proofs
      ensures Valid()
      ensures r.Ok? <==> claim in old(proofs) && old(proofs)[claim].owner == sender
      ensures claim !in old(proofs) ==> r == Err(ClaimNotExist)
      ensures claim in old(proofs) && old(proofs)[claim].owner != sender ==> r == Err(NotClaimOwner)
      ensures r.Err? ==> proofs == old(proofs)
      ensures r.Ok? ==> proofs == old(proofs) - {claim}
      ensures (r, proofs) == RevokeClaimStep(old(proofs), sender, claim)
    {
      if claim !in proofs {
        return Err(ClaimNotExist);
      }
      var owner := proofs[claim].owner;
      if owner != sender {
        return Err(NotClaimOwner);
      }
      proofs := proofs - {claim};
      r := Ok(());
    }

    /**
     * `transfer_claim`: checks existence, then ownership, then that `dest`
     * differs from `sender`; then sets the owner to `dest` and keeps the
     * block number.
     */
    method TransferClaim(sender: AccountId, dest: AccountId, claim: Claim) returns (r: DispatchResult)
      requires Valid()
      modifies this`proofs
      ensures Valid()
      ensures r.Ok? <==> claim in old(proofs) && old(proofs)[claim].owner == sender && dest != sender
      ensures claim !in old(proofs) ==> r == Err(ClaimNotExist)
      ensures claim in old(proofs) && old(proofs)[claim].owner != sender ==> r == Err(NotClaimOwner)
      ensures claim in old(proofs) && old(proofs)[claim].owner == sender && dest == sender ==> r == Err(TransferToSelf)
      ensures r.Err? ==> proofs == old(proofs)
      ensures r.Ok? ==> proofs == old(proofs)[claim := Proof(dest, old(proofs)[claim].blockNumber)]
      ensures (r, proofs) == TransferClaimStep(old(proofs), sender, dest, claim)
    {
      if claim !in proofs {
        return Err(ClaimNotExist);
      }
      var Proof(owner, blockNumber) := proofs[claim];
      if owner != sender {
        return Err(NotClaimOwner);
      }
      if dest == sender {
        return Err(TransferToSelf);
      }
      proofs := proofs[claim := Proof(dest, blockNumber)];
      r := Ok(());
    }
  }
}
