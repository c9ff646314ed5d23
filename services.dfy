/**
 * Host permission and open-slot bookkeeping (app/services.py).
 */
module Services {
  import opened Models
  import opened RecordStore
  import opened PartyApi

  /** `verify_host_permission`: the party must exist and be hosted by the caller. */
  function VerifyHostPermission(parties: map<int, Party>, partyId: int, hostId: string): (r: Result<Party>)
    ensures partyId !in parties ==> r == Err(NotFound)
    ensures partyId in parties && parties[partyId].hostId != hostId ==> r == Err(Forbidden)
    ensures r.Ok? <==> partyId in parties && parties[partyId].hostId == hostId
    ensures r.Ok? ==> partyId in parties && r.value == parties[partyId] && r.value.hostId == hostId
  {
    if partyId !in parties then Err(NotFound)
    else if parties[partyId].hostId != hostId then Err(Forbidden)
    else Ok(parties[partyId])
  }

  /** The ids of the slots of one party. */
  function SlotIds(slots: map<int, Slot>, partyId: int): (ids: set<int>)
    ensures forall id :: id in ids <==> id in slots && slots[id].partyId == partyId
  {
    set id | id in slots && slots[id].partyId == partyId
  }

  /**
   * The number of slots of one party (the `count()` query on
   * `PartySlot.party_id`): as many as the slot listing of the party holds,
   * and no more than the whole slot table.
   */
  function SlotCount(slots: map<int, Slot>, partyId: int): (n: nat)
    ensures n == |SlotsOf(slots, partyId)|
    ensures n <= |slots|
  {
    var ids := SlotIds(slots, partyId);
    assert ids == SlotsOf(slots, partyId).Keys;
    SubsetCardinality(ids, slots.Keys);
    |ids|
  }

  /**
   * `calculate_open_slot_count`: no value when the party has no capacity,
   * otherwise the capacity minus the party's slots, floored at zero.
   */
  function CalculateOpenSlotCount(party: Party, slots: map<int, Slot>): (r: Option<int>)
    ensures r.None? <==> party.capacity.None?
    ensures r.Some? ==>
      && r.value >= 0
      && r.value >= party.capacity.value - SlotCount(slots, party.id)
      && (r.value == 0 || r.value == party.capacity.value - SlotCount(slots, party.id))
    ensures r.Some? && party.capacity.value >= 0 ==> r.value <= party.capacity.value
  {
    if party.capacity.None? then None
    else
      var open := party.capacity.value - SlotCount(slots, party.id);
      Some(if open > 0 then open else 0)
  }

  /** Adding a slot to a party with a capacity takes one open slot, unless none is left. */
  lemma OpenSlotsAfterNewSlot(party: Party, slots: map<int, Slot>, id: int, s: Slot)
    requires id !in slots && s.partyId == party.id && party.capacity.Some?
    ensures var before := CalculateOpenSlotCount(party, slots).value;
            CalculateOpenSlotCount(party, slots[id := s]) == Some(if before > 0 then before - 1 else 0)
  {
    assert SlotIds(slots[id := s], party.id) == SlotIds(slots, party.id) + {id};
  }

  /** Adding a slot to another party leaves a party's open slot count as it was. */
  lemma OpenSlotsAfterOtherSlot(party: Party, slots: map<int, Slot>, id: int, s: Slot)
    requires id !in slots && s.partyId != party.id
    ensures CalculateOpenSlotCount(party, slots[id := s]) == CalculateOpenSlotCount(party, slots)
  {
    assert SlotIds(slots[id := s], party.id) == SlotIds(slots, party.id);
  }

  /**
   * `update_open_slot_count`: stores the computed open slot count on the
   * party and changes nothing else.
   */
  method UpdateOpenSlotCount(store: Store, partyId: int) returns (party: Party)
    requires store.Valid() && partyId in store.parties
    modifies store
    ensures store.Valid()
    ensures party == old(store.parties[partyId]).(
      openSlotCount := CalculateOpenSlotCount(old(store.parties[partyId]), old(store.slots)))
    ensures store.parties == old(store.parties)[partyId := party]
    ensures store.slots == old(store.slots) && store.members == old(store.members)
    ensures store.gearPresets == old(store.gearPresets)
    ensures store.nextPartyId == old(store.nextPartyId) && store.nextSlotId == old(store.nextSlotId)
    ensures store.nextMemberId == old(store.nextMemberId) && store.nextPresetId == old(store.nextPresetId)
  {
    party := store.parties[partyId];
    party := party.(openSlotCount := CalculateOpenSlotCount(party, store.slots));
    store.parties := store.parties[partyId := party];
  }
}
