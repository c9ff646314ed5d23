/**
 * The record store behind the handlers: the four tables the core touches,
 * each a map from primary key to record, and the next key each table hands
 * out. A handler reads and writes these maps; a write reaches the maps only
 * when the handler commits, so a handler that raises leaves them as they
 * were.
 */
module RecordStore {
  import opened Models

  /** Party keys match ids and lie in [1, next); capacity and open slot count keep their bounds. */
  ghost predicate PartiesValid(parties: map<int, Party>, next: int) {
    forall id :: id in parties ==>
      && 1 <= id < next && parties[id].id == id
      && ValidCapacity(parties[id].capacity) && ValidCount(parties[id].openSlotCount)
  }

  /** Slot keys match ids and lie in [1, next); every slot belongs to an existing party. */
  ghost predicate SlotsValid(slots: map<int, Slot>, parties: map<int, Party>, next: int) {
    forall id :: id in slots ==>
      && 1 <= id < next && slots[id].id == id
      && slots[id].partyId in parties && ValidCount(slots[id].ipTarget)
  }

  /** The member's slot, when it has one, is a slot of the member's own party. */
  ghost predicate SlotOfOwnParty(slots: map<int, Slot>, m: Member) {
    m.slotId.Some? ==> m.slotId.value in slots && slots[m.slotId.value].partyId == m.partyId
  }

  /** Member keys match ids and lie in [1, next); every member belongs to an existing party. */
  ghost predicate MembersValid(members: map<int, Member>, parties: map<int, Party>, slots: map<int, Slot>, next: int) {
    forall id :: id in members ==>
      && 1 <= id < next && members[id].id == id
      && members[id].partyId in parties && SlotOfOwnParty(slots, members[id])
  }

  /** Gear preset keys match ids and lie in [1, next). */
  ghost predicate PresetsValid(presets: map<int, GearPreset>, next: int) {
    forall id :: id in presets ==> 1 <= id < next && presets[id].id == id
  }

  /** Writing a member record that satisfies the member rules keeps the member table valid. */
  lemma MemberWriteValid(members: map<int, Member>, parties: map<int, Party>, slots: map<int, Slot>,
                         next: int, m: Member)
    requires MembersValid(members, parties, slots, next)
    requires 1 <= m.id < next && m.partyId in parties && SlotOfOwnParty(slots, m)
    ensures MembersValid(members[m.id := m], parties, slots, next)
  {
  }

  /** Adding a preset under the next key keeps the preset table valid with the key advanced. */
  lemma PresetAddValid(presets: map<int, GearPreset>, next: int, p: GearPreset)
    requires PresetsValid(presets, next) && 1 <= next && p.id == next
    ensures next !in presets
    ensures PresetsValid(presets[next := p], next + 1)
  {
  }

  class Store {
    var parties: map<int, Party>
    var slots: map<int, Slot>
    var members: map<int, Member>
    var gearPresets: map<int, GearPreset>

    // Autoincrement primary keys: every key in use lies in [1, next).
    var nextPartyId: int
    var nextSlotId: int
    var nextMemberId: int
    var nextPresetId: int

    /**
     * Keys match the records' ids and stay below the next key; numeric
     * fields keep the bounds the request validators impose; slots and
     * members refer to an existing party, and a member's slot to a slot of
     * that party.
     */
    ghost predicate Valid()
      reads this
    {
      && 1 <= nextPartyId && 1 <= nextSlotId && 1 <= nextMemberId && 1 <= nextPresetId
      && PartiesValid(parties, nextPartyId)
      && SlotsValid(slots, parties, nextSlotId)
      && MembersValid(members, parties, slots, nextMemberId)
      && PresetsValid(gearPresets, nextPresetId)
    }

    /** An empty database. */
    constructor ()
      ensures Valid()
      ensures parties == map[] && slots == map[] && members == map[] && gearPresets == map[]
    {
      parties, slots, members, gearPresets := map[], map[], map[], map[];
      nextPartyId, nextSlotId, nextMemberId, nextPresetId := 1, 1, 1, 1;
    }
  }
}
