/**
 * The storage migration from version 0 to version 1: every stored
 * `V0Kitty` is rewritten, under the same id, into a `V1Kitty` carrying the
 * same DNA and the name `b"abcd"`.
 */
module KittiesMigrationV1 {
  import opened Primitives
  import opened KittyLayouts

  /** `*b"abcd"` */
  const NAME_V1: Bytes4 := [97, 98, 99, 100]

  /** The per-record conversion of the rewrite loop. */
  function Upgrade(kitty: V0Kitty): V1Kitty
  {
    V1Kitty(kitty.dna, NAME_V1)
  }

  /** The whole map after the rewrite loop: same ids, each record in layout 1 with its DNA kept. */
  function Migrated(m: map<KittyId, StoredKitty>): (r: map<KittyId, StoredKitty>)
    requires InLayout(m, 0)
    ensures r.Keys == m.Keys
    ensures InLayout(r, 1)
    ensures forall id :: id in r ==> r[id].v1.dna == m[id].v0.dna && r[id].v1.name == NAME_V1
  {
    map id | id in m :: AsV1(Upgrade(m[id].v0))
  }

  /**
   * What `migrate` leaves in `Kitties`: unchanged unless the on-chain version
   * is 0 and the code's version is 1.
   */
  function Effect(onChainVersion: nat, currentVersion: nat, m: map<KittyId, StoredKitty>): map<KittyId, StoredKitty>
    requires onChainVersion == 0 && currentVersion == 1 ==> InLayout(m, 0)
  {
    if onChainVersion != 0 then m
    else if currentVersion != 1 then m
    else Migrated(m)
  }

  /**
   * `migrate`: two early returns on the versions, then a pass that rewrites
   * each stored record in place (the drain and re-insert under the same key).
   * Only `kitties` may change; the version tag is left to the upgrade hook.
   */
  method Migrate(s: KittyStorage) returns (weight: Weight)
    requires s.onChainVersion == 0 && s.currentVersion == 1 ==> InLayout(s.kitties, 0)
    modifies s`kitties
    ensures weight == 0
    ensures s.onChainVersion != 0 ==> s.kitties == old(s.kitties)
    ensures s.currentVersion != 1 ==> s.kitties == old(s.kitties)
    ensures s.onChainVersion == 0 && s.currentVersion == 1 ==> s.kitties == Migrated(old(s.kitties))
    ensures s.kitties == Effect(s.onChainVersion, s.currentVersion, old(s.kitties))
  {
    if s.onChainVersion != 0 {
      return 0;
    }
    if s.currentVersion != 1 {
      return 0;
    }
    ghost var before := s.kitties;
    var pending := s.kitties.Keys;
    while pending != {}
      invariant pending <= before.Keys
      invariant s.kitties.Keys == before.Keys
      invariant forall id :: id in pending ==> s.kitties[id] == before[id]
      invariant forall id :: id in before && id !in pending ==> s.kitties[id] == AsV1(Upgrade(before[id].v0))
      decreases pending
    {
      var index :| index in pending;
      var kitty := s.kitties[index].v0;
      s.kitties := s.kitties[index := AsV1(Upgrade(kitty))];
      pending := pending - {index};
    }
    assert s.kitties == Migrated(before);
    return 0;
  }
}
