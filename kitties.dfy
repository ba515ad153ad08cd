/**
 * The kitties pallet's registry: the `NextKittyId` counter and the `Kitties`
 * and `KittieOwner` storage maps, with the `create` call and its id allocator.
 */
module Kitties {
  import opened Primitives

  type KittyId = u32

  /** The registry's record as the pallet declares it: sixteen DNA bytes. */
  datatype Kitty = Kitty(dna: Bytes16)

  /** `Kitty(Default::default())`, the record `create` stores. */
  const DEFAULT_KITTY: Kitty := Kitty(ZERO16)

  datatype Error = InvalidKittyId

  /** The pallet's storage as one value: counter, records and owners. */
  datatype State = State(nextKittyId: KittyId, kitties: map<KittyId, Kitty>, kittyOwner: map<KittyId, AccountId>)

  /** Fresh storage: `NextKittyId` is a `ValueQuery` defaulting to 0 and both maps are empty. */
  const GENESIS: State := State(0, map[], map[])

  /** Every record has an owner and vice versa, and every stored id was issued before the counter. */
  ghost predicate Invariant(s: State)
  {
    && s.kitties.Keys == s.kittyOwner.Keys
    && forall id :: id in s.kitties ==> id < s.nextKittyId
  }

  /**
   * One `create` call by `who`: the result (the issued id, which the
   * `KittyCreated` event carries) and the storage afterwards. A failed
   * `get_next_id` aborts the call before anything is written.
   */
  function CreateStep(s: State, who: AccountId): (Result<KittyId, Error>, State)
  {
    match CheckedAdd(s.nextKittyId, 1)
    case None => (Err(InvalidKittyId), s)
    case Some(next) =>
      var id := s.nextKittyId;
      (Ok(id), State(next, s.kitties[id := DEFAULT_KITTY], s.kittyOwner[id := who]))
  }

  /** `create` succeeds exactly when the counter is below `u32::MAX`, and then writes only the new id. */
  lemma CreateStepSpec(s: State, who: AccountId)
    ensures var (r, t) := CreateStep(s, who);
      && (r.Ok? <==> s.nextKittyId < U32_MAX)
      && (r.Err? ==> r.error == InvalidKittyId && t == s)
      && (r.Ok? ==>
            && r.value == s.nextKittyId
            && t.nextKittyId == s.nextKittyId + 1
            && t.kitties == s.kitties[r.value := DEFAULT_KITTY]
            && t.kittyOwner == s.kittyOwner[r.value := who]
            && t.kitties[r.value].dna == ZERO16
            && t.kittyOwner[r.value] == who)
  {
  }

  /** `create` keeps owners and records in step and every key below the counter. */
  lemma CreateStepPreservesInvariant(s: State, who: AccountId)
    requires Invariant(s)
    ensures Invariant(CreateStep(s, who).1)
  {
  }

  /** On fresh storage the first `create` issues id 0 to its caller and leaves the counter at 1. */
  lemma FirstCreateFromGenesis(who: AccountId)
    ensures CreateStep(GENESIS, who) == (Ok(0), State(1, map[0 := DEFAULT_KITTY], map[0 := who]))
  {
  }

  /** A sequence of `create` calls, one per caller in order: the final storage and each call's result. */
  function Run(s: State, callers: seq<AccountId>): (State, seq<Result<KittyId, Error>>)
    decreases |callers|
  {
    if callers == [] then (s, [])
    else
      var (r, s1) := CreateStep(s, callers[0]);
      var (t, rs) := Run(s1, callers[1..]);
      (t, [r] + rs)
  }

  /**
   * Uniqueness: the counter never decreases, every id a run issues lies
   * between the counter before and the counter after (so `u32::MAX` is never
   * issued), and later calls issue strictly larger ids than earlier ones.
   */
  lemma {:induction false} RunIssuesFreshIds(s: State, callers: seq<AccountId>)
    ensures var (t, rs) := Run(s, callers);
      && |rs| == |callers|
      && s.nextKittyId <= t.nextKittyId
      && (forall i :: 0 <= i < |rs| && rs[i].Ok? ==> s.nextKittyId <= rs[i].value < t.nextKittyId < U32_MAX + 1)
      && (forall i, j :: 0 <= i < j < |rs| && rs[i].Ok? && rs[j].Ok? ==> rs[i].value < rs[j].value)
    decreases |callers|
  {
    if callers != [] {
      var (r, s1) := CreateStep(s, callers[0]);
      RunIssuesFreshIds(s1, callers[1..]);
      var (t, rs) := Run(s1, callers[1..]);
      assert Run(s, callers) == (t, [r] + rs);
      assert r.Ok? ==> r.value == s.nextKittyId && s1.nextKittyId == s.nextKittyId + 1;
      assert r.Err? ==> s1 == s;
    }
  }

  /**
   * While the counter has room, N calls all succeed: the counter advances by
   * exactly N and the i-th call's id is the old counter plus i, owned by the
   * i-th caller and holding the default record.
   */
  lemma {:induction false} RunAdvancesCounter(s: State, callers: seq<AccountId>)
    requires s.nextKittyId + |callers| <= U32_MAX
    ensures var (t, rs) := Run(s, callers);
      && t.nextKittyId == s.nextKittyId + |callers|
      && |rs| == |callers|
      && (forall i :: 0 <= i < |callers| ==>
            && rs[i] == Ok(s.nextKittyId + i)
            && s.nextKittyId + i in t.kittyOwner
            && t.kittyOwner[s.nextKittyId + i] == callers[i]
            && s.nextKittyId + i in t.kitties
            && t.kitties[s.nextKittyId + i] == DEFAULT_KITTY)
    decreases |callers|
  {
    if callers != [] {
      var (r, s1) := CreateStep(s, callers[0]);
      RunAdvancesCounter(s1, callers[1..]);
      RunKeepsEarlierEntries(s1, callers[1..], s.nextKittyId);
      var (t, rs) := Run(s1, callers[1..]);
      assert Run(s, callers) == (t, [r] + rs);
      var id := s.nextKittyId;
      assert r == Ok(id) && s1.kitties[id] == DEFAULT_KITTY && s1.kittyOwner[id] == callers[0];
      assert t.kittyOwner[id] == callers[0] && t.kitties[id] == DEFAULT_KITTY;
      forall i | 0 <= i < |callers|
        ensures ([r] + rs)[i] == Ok(id + i)
        ensures id + i in t.kittyOwner && t.kittyOwner[id + i] == callers[i]
        ensures id + i in t.kitties && t.kitties[id + i] == DEFAULT_KITTY
      {
        if i > 0 {
          assert callers[1..][i - 1] == callers[i];
          assert s1.nextKittyId + (i - 1) == id + i;
          assert rs[i - 1] == Ok(s1.nextKittyId + (i - 1));
        }
      }
    }
  }

  /** A run of `create` calls never rewrites an entry stored under an id below the counter. */
  lemma {:induction false} RunKeepsEarlierEntries(s: State, callers: seq<AccountId>, id: KittyId)
    requires id < s.nextKittyId
    ensures var t := Run(s, callers).0;
      && (id in s.kitties ==> id in t.kitties && t.kitties[id] == s.kitties[id])
      && (id in s.kittyOwner ==> id in t.kittyOwner && t.kittyOwner[id] == s.kittyOwner[id])
    decreases |callers|
  {
    if callers != [] {
      var s1 := CreateStep(s, callers[0]).1;
      RunKeepsEarlierEntries(s1, callers[1..], id);
    }
  }

  /** Any sequence of `create` calls preserves the registry invariant. */
  lemma {:induction false} RunPreservesInvariant(s: State, callers: seq<AccountId>)
    requires Invariant(s)
    ensures Invariant(Run(s, callers).0)
    decreases |callers|
  {
    if callers != [] {
      CreateStepPreservesInvariant(s, callers[0]);
      RunPreservesInvariant(CreateStep(s, callers[0]).1, callers[1..]);
    }
  }

  /** The pallet's storage items, updated in place by its calls. */
  class Pallet {
    var nextKittyId: KittyId
    var kitties: map<KittyId, Kitty>
    var kittyOwner: map<KittyId, AccountId>

    function Snapshot(): State
      reads this
    {
      State(nextKittyId, kitties, kittyOwner)
    }

    /** The registry invariant on the stored items. */
    ghost predicate Valid()
      reads this
    {
      Invariant(Snapshot())
    }

    constructor ()
      ensures Snapshot() == GENESIS
      ensures Valid()
    {
      nextKittyId := 0;
      kitties := map[];
      kittyOwner := map[];
    }

    /**
     * `get_next_id`: hands out the current counter value and advances the
     * counter with a checked add; on overflow nothing is committed.
     */
    method GetNextId() returns (r: Result<KittyId, Error>)
      requires Valid()
      modifies this`nextKittyId
      ensures Valid()
      ensures r.Ok? <==> old(nextKittyId) < U32_MAX
      ensures r.Ok? ==> r.value == old(nextKittyId) && nextKittyId == old(nextKittyId) + 1
      ensures r.Err? ==> r.error == InvalidKittyId && nextKittyId == old(nextKittyId)
    {
      var currentId := nextKittyId;
      match CheckedAdd(nextKittyId, 1) {
        case None =>
          r := Err(InvalidKittyId);
        case Some(next) =>
          nextKittyId := next;
          r := Ok(currentId);
      }
    }

    /**
     * `create` signed by `who`: allocates an id, stores the all-zero kitty
     * under it and records `who` as its owner.
     */
    method Create(who: AccountId) returns (r: Result<KittyId, Error>)
      requires Valid()
      modifies this
      ensures Valid()
      ensures (r, Snapshot()) == CreateStep(old(Snapshot()), who)
      ensures r.Ok? <==> old(nextKittyId) < U32_MAX
      ensures r.Err? ==> r.error == InvalidKittyId && Snapshot() == old(Snapshot())
      ensures r.Ok? ==>
        && r.value == old(nextKittyId)
        && nextKittyId == old(nextKittyId) + 1
        && kitties == old(kitties)[r.value := DEFAULT_KITTY]
        && kittyOwner == old(kittyOwner)[r.value := who]
    {
      r := GetNextId();
      if r.Err? {
        return;
      }
      var kittyId := r.value;
      var kitty := DEFAULT_KITTY;
      kitties := kitties[kittyId := kitty];
      kittyOwner := kittyOwner[kittyId := who];
    }
  }
}
