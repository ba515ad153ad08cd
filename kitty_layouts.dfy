/**
 * The on-disk layouts of a stored kitty across storage versions, and the
 * `Kitties` storage as the migrations see it: records of any layout, the
 * on-chain storage version and the version the running code expects.
 */
module KittyLayouts {
  import opened Primitives
  import Kitties

  type KittyId = Kitties.KittyId

  /** Version 0: the bare sixteen DNA bytes (`V0Kitty(pub [u8; 16])`). */
  datatype V0Kitty = V0Kitty(dna: Bytes16)

  /** Version 1: DNA plus a four-byte name. */
  datatype V1Kitty = V1Kitty(dna: Bytes16, name: Bytes4)

  /** Version 2: DNA plus an eight-byte name (the record the v2 migration builds). */
  datatype V2Kitty = V2Kitty(dna: Bytes16, name: Bytes8)

  /** A stored record, tagged with the layout it is encoded in. */
  datatype StoredKitty = AsV0(v0: V0Kitty) | AsV1(v1: V1Kitty) | AsV2(v2: V2Kitty)

  /** The storage version whose layout a record is encoded in. */
  function LayoutVersion(k: StoredKitty): nat
  {
    match k
    case AsV0(_) => 0
    case AsV1(_) => 1
    case AsV2(_) => 2
  }

  /** Every record of `m` is encoded in the layout of storage version `version`. */
  ghost predicate InLayout(m: map<KittyId, StoredKitty>, version: nat)
  {
    forall id :: id in m ==> LayoutVersion(m[id]) == version
  }

  /** The `Kitties` map with the two storage versions a migration reads. */
  class KittyStorage {
    /** The storage version recorded on chain; only the upgrade hook writes it. */
    var onChainVersion: nat
    /** The storage version the running code declares. */
    const currentVersion: nat
    var kitties: map<KittyId, StoredKitty>

    constructor (onChainVersion: nat, currentVersion: nat, kitties: map<KittyId, StoredKitty>)
      ensures this.onChainVersion == onChainVersion
      ensures this.currentVersion == currentVersion
      ensures this.kitties == kitties
    {
      this.onChainVersion := onChainVersion;
      this.currentVersion := currentVersion;
      this.kitties := kitties;
    }
  }
}
