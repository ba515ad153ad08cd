# Kitties registry, kitty storage migrations and proof-of-existence claims

A Dafny model of four small pieces of state logic from two FRAME pallets of a
Substrate node template:

- **The kitties registry** (`Kitties`, `kitties.dfy`). The `NextKittyId` counter is a `u32` and starts at 0. The `Kitties` map
  holds id → 16-byte record and the `KittieOwner` map holds id → account. The pallet is a class
  `Kitties.Pallet` with those three fields. `GetNextId` hands out the counter
  and advances it with an explicit `checked_add`. `Create` allocates an id, stores the
  all-zero kitty under it and records the caller as its owner. The value-level
  function `CreateStep` specifies one call and `Run` specifies a sequence of calls. The lemmas about
  them prove that ids are unique and increasing, that `u32::MAX` is never issued, that the counter
  advances by exactly N after N successful calls, and that the registry invariant holds
  (records and owners have the same ids, all below the counter).
- **The record layouts** (`KittyLayouts`, `kitty_layouts.dfy`). They are shared by both
  migrations. A stored record is a tagged `V0 | V1 | V2` value in a
  `map<KittyId, StoredKitty>`. The class `KittyStorage` holds that map with the
  on-chain storage version and the code's storage version, both naturals.
- **Migration v0 → v1** (`KittiesMigrationV1`, `migration_v1.dfy`). `Migrate` rewrites only
  when the on-chain version is 0 and the code's version is 1; it then rewrites each record in
  place into `{dna, name: b"abcd"}`.
- **Migration → v2** (`KittiesMigrationV2`, `migration_v2.dfy`). `Migrate` rewrites only
  when the code's version is 2, and then dispatches on on-chain version 0 to `MigrateFromV0`
  and on 1 to `MigrateFromV1`; any other on-chain version is a no-op. Each of these rewrites every record to `{dna, name: b"abcdefgh"}`.
  The sequential path v0 → v1 → v2 is proved equal to the direct jump v0 → v2.
- **Proof of existence** (`Poe`, `poe.dfy`). The `Proofs` map goes from a claim (bytes bounded
  by `MaxClaimLength`) to `(owner, block number)`. The calls `CreateClaim`,
  `RevokeClaim` and `TransferClaim` check their preconditions in the source's order and fail
  without writing anything.

The signed caller (`ensure_signed`) and the current block number are method
parameters. Every call returns a `Result` whose error datatype has the
pallet's own error variants.

## Model

| member | source | states |
|---|---|---|
| Kitties.Pallet.constructor | pallets/kitties/src/lib.rs:29-39 | fresh storage: counter 0 (the `ValueQuery` default), no kitties, no owners; the registry invariant holds |
| Kitties.Pallet.GetNextId | pallets/kitties/src/lib.rs:70-76 | succeeds iff the counter is below `u32::MAX`; then returns the old counter and leaves it at old + 1; on overflow returns `InvalidKittyId` with the counter unchanged |
| Kitties.Pallet.Create | pallets/kitties/src/lib.rs:56-66 | succeeds iff the counter is below `u32::MAX`; on success the issued id is the old counter, the counter is old + 1, `Kitties` gains exactly `id ↦ Kitty([0;16])` and `KittieOwner` exactly `id ↦ who`; on failure nothing changes; the registry invariant (same key sets, keys below the counter) is required and preserved |
| Kitties.CreateStepSpec | pallets/kitties/src/lib.rs:56-76 | one `create` call: success iff counter < `u32::MAX`, the id is the old counter, the record is all zeros, the owner is the caller, only that id is written; a failure leaves the whole state equal |
| Kitties.CreateStepPreservesInvariant | pallets/kitties/src/lib.rs:58-62 | `Kitties` and `KittieOwner` keep the same key set and every key stays below `NextKittyId` |
| Kitties.FirstCreateFromGenesis | pallets/kitties/src/tests.rs:9-22 | on fresh storage the first `create` issues id 0 to its caller and leaves the counter at 1 |
| Kitties.RunIssuesFreshIds | pallets/kitties/src/lib.rs:70-76 | over any sequence of `create` calls the counter never decreases, every issued id is at least the counter before and below the counter after (so never `u32::MAX`), and later ids are strictly larger: no id is issued twice |
| Kitties.RunAdvancesCounter | pallets/kitties/src/lib.rs:56-76 | while the counter has room, N calls all succeed, the counter advances by exactly N and the i-th call gets id start + i, owned by the i-th caller and holding the default record |
| Kitties.RunKeepsEarlierEntries | pallets/kitties/src/lib.rs:61-62 | `create` calls never rewrite a record or an owner stored under an id below the counter |
| Kitties.RunPreservesInvariant | pallets/kitties/src/lib.rs:56-66 | any sequence of `create` calls preserves the registry invariant |
| KittiesMigrationV1.Migrated | pallets/kitties/src/migrations/v1.rs:40-46 | the rewrite keeps the key set, leaves every record in layout 1, copies each record's 16 DNA bytes and sets its name to `b"abcd"` |
| KittiesMigrationV1.Migrate | pallets/kitties/src/migrations/v1.rs:24-49 | returns weight 0; no change when the on-chain version is not 0 or the code's version is not 1; otherwise `Kitties` becomes the rewritten map; the version tag is outside its frame |
| KittiesMigrationV2.MigratedFromV0 | pallets/kitties/src/migrations/v2.rs:41-49 | from v0: same keys, every record in layout 2 with `dna = old.0` and `name = b"abcdefgh"` |
| KittiesMigrationV2.MigratedFromV1 | pallets/kitties/src/migrations/v2.rs:51-59 | from v1: same keys, every record in layout 2 with `dna = old.dna`; the old 4-byte name is replaced by `b"abcdefgh"` |
| KittiesMigrationV2.EffectSpec | pallets/kitties/src/migrations/v2.rs:21-39 | `migrate` always keeps the key set; when it rewrites (code at 2, chain at 0 or 1) every record ends in layout 2, otherwise the map is unchanged |
| KittiesMigrationV2.SequentialPathMatchesDirect | pallets/kitties/src/migrations/v2.rs:41-58 | for a version-0 map, v1's `migrate` (0 → 1) followed by v2's `migrate` with the stored version 1 gives the same map as v2's `migrate` straight from version 0 |
| KittiesMigrationV2.RerunAfterUpgradeIsNoOp | pallets/kitties/src/migrations/v2.rs:25-36 | a rewriting run of v2's `migrate` leaves every record in layout 2; a rerun once the tag records 2 leaves that map unchanged, by the version guard alone |
| KittiesMigrationV2.Migrate | pallets/kitties/src/migrations/v2.rs:21-39 | returns weight 0; no change unless the code's version is 2; on-chain 0 → the v0 rewrite, 1 → the v1 rewrite, any other version → no change; the version tag is outside its frame |
| KittiesMigrationV2.MigrateFromV0 | pallets/kitties/src/migrations/v2.rs:41-49 | the in-place loop leaves `Kitties` equal to the v0 rewrite of the map it started from |
| KittiesMigrationV2.MigrateFromV1 | pallets/kitties/src/migrations/v2.rs:51-59 | the in-place loop leaves `Kitties` equal to the v1 rewrite of the map it started from |
| Poe.Pallet.constructor | pallets/poe/src/lib.rs:28-35 | empty `Proofs` with the configured `MaxClaimLength` |
| Poe.Pallet.CreateClaim | pallets/poe/src/lib.rs:65-77 | fails with `ProofAlreadyExist` iff the claim is stored, leaving `Proofs` unchanged; otherwise maps the claim to (sender, current block) and nothing else; stored claims stay within `MaxClaimLength` |
| Poe.Pallet.RevokeClaim | pallets/poe/src/lib.rs:82-93 | `ClaimNotExist` on an absent claim, `NotClaimOwner` when the sender is not its owner, both without change; otherwise removes exactly that claim |
| Poe.Pallet.TransferClaim | pallets/poe/src/lib.rs:98-112 | checks existence (`ClaimNotExist`), then ownership (`NotClaimOwner`), then `dest != sender` (`TransferToSelf`), changing nothing on failure; on success the owner becomes `dest` and the block number is kept |
| Poe.ApplyFailureChangesNothing | pallets/poe/src/lib.rs:65-112 | any failing call, whatever its claim, leaves `Proofs` unchanged |
| Poe.ApplyTouchesOnlyItsClaim | pallets/poe/src/lib.rs:65-112 | any call leaves every other claim's presence and entry as they were |
| Poe.ReplayLeavesUnnamedClaims | pallets/poe/src/lib.rs:65-112 | over any sequence of calls, a claim that no call names keeps its presence and its entry |
| Poe.ReplayKeepsClaimsBounded | pallets/poe/src/lib.rs:30-35 | every stored key stays within `MaxClaimLength` across any sequence of calls whose claims are bounded vectors |
| Poe.CreateThenRevokeRestores | pallets/poe/src/lib.rs:65-93 | creating a fresh claim and revoking it as its creator succeeds and restores `Proofs` exactly |
| Poe.TransferAndBackRestores | pallets/poe/src/lib.rs:98-112 | transferring a claim to another account and back succeeds twice and restores `Proofs`, block number included |

## Left out

- Event emission (`deposit_event`) is fire-and-forget logging and is not modelled. `Kitties.Pallet.Create` returns the issued id, which the `KittyCreated` event would carry, instead of `()`.
- The FRAME machinery is not modelled: origins, `ensure_signed`, `DispatchResultWithPostInfo` and the `#[pallet::*]` macros. The signer is a method parameter and a failed signature check is not modelled.
- The current block number (`frame_system::Pallet::block_number()`) is a parameter.
- Weights and benchmarking are not modelled; both migrations return the constant 0.
- SCALE encoding, the storage hashers and `storage_key_iter(...).drain()` internals are not modelled. Storage is an already-decoded map, and the drain-and-reinsert pair is an in-place rewrite over a snapshot of the keys. The snapshot is taken in an unspecified order. The module and item prefixes passed to the rewrite loops are not modelled.
- KittiesMigrationV1.Migrate: when it rewrites, it requires every record to be in version-0 layout. Records that do not decode under the old layout are not modelled.
- KittiesMigrationV2.Migrate: when it rewrites, it requires every record to be in the layout of the on-chain version. The same is true of `MigrateFromV0` and `MigrateFromV1`. Records that do not decode under the old layout are not modelled.
- Writing the storage version tag belongs to the runtime upgrade hook, which is not part of this model. The migrations cannot change the tag: it is outside their `modifies` frame.
- The layout mismatch is kept as in the source. The registry's `Kitty` is the 16-byte tuple of `pallets/kitties/src/lib.rs:18`, while the v2 migration builds a `{dna, name}` record. The migrations use their own layouts (`KittyLayouts`) and the two are not reconciled.
- Breeding, parents, kitty transfer, genetics, randomness, prices and listings are not modelled. The registry's code defines none of them; only its tests call them.
- `ClaimTooLong` is declared in `Poe.Error` but no call raises it, because the key type enforces the length bound. The bound is a precondition on the claim argument of `CreateClaim`, which is what the `BoundedVec` type guarantees its callers.
- `T::AccountId` is a natural number and `T::BlockNumber` is unbounded. `MaxClaimLength` is a constructor parameter.
- The mock runtime and the test files are not modelled.
