/**
 * The storage migration to version 2: dispatching on the on-chain version,
 * every stored record is rewritten, under the same id, into the version-2
 * layout with its DNA kept and the name `b"abcdefgh"`; a version-1 name is
 * discarded.
 */
module KittiesMigrationV2 {
  import opened Primitives
  import opened KittyLayouts
  import KittiesMigrationV1

  /** `*b"abcdefgh"` */
  const NAME_V2: Bytes8 := [97, 98, 99, 100, 101, 102, 103, 104]

  /** The per-record conversion of `migrate_from_v0`. */
  function FromV0(kitty: V0Kitty): V2Kitty
  {
    V2Kitty(kitty.dna, NAME_V2)
  }

  /** The per-record conversion of `migrate_from_v1`: the old name is not read. */
  function FromV1(kitty: V1Kitty): V2Kitty
  {
    V2Kitty(kitty.dna, NAME_V2)
  }

  /** The map after `migrate_from_v0`: same ids, each record in layout 2 with its DNA kept. */
  function MigratedFromV0(m: map<KittyId, StoredKitty>): (r: map<KittyId, StoredKitty>)
    requires InLayout(m, 0)
    ensures r.Keys == m.Keys
    ensures InLayout(r, 2)
    ensures forall id :: id in r ==> r[id].v2.dna == m[id].v0.dna && r[id].v2.name == NAME_V2
  {
    map id | id in m :: AsV2(FromV0(m[id].v0))
  }

  /** The map after `migrate_from_v1`: same ids, each record in layout 2 with its DNA kept. */
  function MigratedFromV1(m: map<KittyId, StoredKitty>): (r: map<KittyId, StoredKitty>)
    requires InLayout(m, 1)
    ensures r.Keys == m.Keys
    ensures InLayout(r, 2)
    ensures forall id :: id in r ==> r[id].v2.dna == m[id].v1.dna && r[id].v2.name == NAME_V2
  {
    map id | id in m :: AsV2(FromV1(m[id].v1))
  }

  /** Whether `migrate` rewrites anything: the code is at version 2 and the chain at 0 or 1. */
  predicate Rewrites(onChainVersion: nat, currentVersion: nat)
  {
    currentVersion == 2 && onChainVersion <= 1
  }

  /** What `migrate` leaves in `Kitties`. */
  function Effect(onChainVersion: nat, currentVersion: nat, m: map<KittyId, StoredKitty>): map<KittyId, StoredKitty>
    requires Rewrites(onChainVersion, currentVersion) ==> InLayout(m, onChainVersion)
  {
    if currentVersion != 2 then m
    else if onChainVersion == 0 then MigratedFromV0(m)
    else if onChainVersion == 1 then MigratedFromV1(m)
    else m
  }

  /**
   * Whenever `migrate` rewrites, it leaves every record in layout 2 and
   * keeps the ids; otherwise it leaves the map as it was.
   */
  lemma EffectSpec(onChainVersion: nat, currentVersion: nat, m: map<KittyId, StoredKitty>)
    requires Rewrites(onChainVersion, currentVersion) ==> InLayout(m, onChainVersion)
    ensures var r := Effect(onChainVersion, currentVersion, m);
      && r.Keys == m.Keys
      && (Rewrites(onChainVersion, currentVersion) ==> InLayout(r, 2))
      && (!Rewrites(onChainVersion, currentVersion) ==> r == m)
  {
  }

  /**
   * The sequential path and the direct jump agree: migrating a version-0 map
   * with the version-1 migration, the hook then recording version 1, and
   * migrating with the version-2 migration gives the same map as the
   * version-2 migration applied straight to the version-0 map.
   */
  lemma SequentialPathMatchesDirect(m: map<KittyId, StoredKitty>)
    requires InLayout(m, 0)
    ensures InLayout(KittiesMigrationV1.Effect(0, 1, m), 1)
    ensures Effect(1, 2, KittiesMigrationV1.Effect(0, 1, m)) == Effect(0, 2, m)
  {
  }

  /**
   * Idempotence once the hook has recorded version 2: a rewriting run leaves
   * every record in layout 2, and a rerun with the tag at 2 changes nothing,
   * by the guard alone (version 2 is neither 0 nor 1).
   */
  lemma RerunAfterUpgradeIsNoOp(onChainVersion: nat, m: map<KittyId, StoredKitty>)
    requires onChainVersion <= 1 && InLayout(m, onChainVersion)
    ensures InLayout(Effect(onChainVersion, 2, m), 2)
    ensures Effect(2, 2, Effect(onChainVersion, 2, m)) == Effect(onChainVersion, 2, m)
  {
  }

  /**
   * `migrate`: returns at once unless the code is at version 2, then
   * dispatches on the on-chain version; any version other than 0 or 1 is a
   * no-op. Only `kitties` may change; the version tag is left to the hook.
   */
  method Migrate(s: KittyStorage) returns (weight: Weight)
    requires Rewrites(s.onChainVersion, s.currentVersion) ==> InLayout(s.kitties, s.onChainVersion)
    modifies s`kitties
    ensures weight == 0
    ensures s.currentVersion != 2 ==> s.kitties == old(s.kitties)
    ensures s.onChainVersion > 1 ==> s.kitties == old(s.kitties)
    ensures s.currentVersion == 2 && s.onChainVersion == 0 ==> s.kitties == MigratedFromV0(old(s.kitties))
    ensures s.currentVersion == 2 && s.onChainVersion == 1 ==> s.kitties == MigratedFromV1(old(s.kitties))
    ensures s.kitties == Effect(s.onChainVersion, s.currentVersion, old(s.kitties))
  {
    if s.currentVersion != 2 {
      return 0;
    }
    match s.onChainVersion {
      case 0 => MigrateFromV0(s);
      case 1 => MigrateFromV1(s);
      case _ =>
    }
    return 0;
  }

  /** `migrate_from_v0`: rewrites each version-0 record in place. */
  method MigrateFromV0(s: KittyStorage)
    requires InLayout(s.kitties, 0)
    modifies s`kitties
    ensures s.kitties == MigratedFromV0(old(s.kitties))
  {
    ghost var before := s.kitties;
    var pending := s.kitties.Keys;
    while pending != {}
      invariant pending <= before.Keys
      invariant s.kitties.Keys == before.Keys
      invariant forall id :: id in pending ==> s.kitties[id] == before[id]
      invariant forall id :: id in before && id !in pending ==> s.kitties[id] == AsV2(FromV0(before[id].v0))
      decreases pending
    {
      var index :| index in pending;
      var kitty := s.kitties[index].v0;
      s.kitties := s.kitties[index := AsV2(FromV0(kitty))];
      pending := pending - {index};
    }
    assert s.kitties == MigratedFromV0(before);
  }

  /** `migrate_from_v1`: rewrites each version-1 record in place. */
  method MigrateFromV1(s: KittyStorage)
    requires InLayout(s.kitties, 1)
    modifies s`kitties
    ensures s.kitties == MigratedFromV1(old(s.kitties))
  {
    ghost var before := s.kitties;
    var pending := s.kitties.Keys;
    while pending != {}
      invariant pending <= before.Keys
      invariant s.kitties.Keys == before.Keys
      invariant forall id :: id in pending ==> s.kitties[id] == before[id]
      invariant forall id :: id in before && id !in pending ==> s.kitties[id] == AsV2(FromV1(before[id].v1))
      decreases pending
    {
      var index :| index in pending;
      var kitty := s.kitties[index].v1;
      s.kitties := s.kitties[index := AsV2(FromV1(kitty))];
      pending := pending - {index};
    }
    assert s.kitties == MigratedFromV1(before);
  }
}
