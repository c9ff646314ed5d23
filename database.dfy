/**
 * The start-up migration of legacy slot presets (app/database.py,
 * `_migrate_slot_presets`). Older slots carry their gear preset inline in
 * `preset`; the migration moves each such preset into a gear preset record
 * of its own and points the slot at it.
 */
module Database {
  import opened Models
  import opened RecordStore

  /**
   * A slot still holding its preset inline: `gear_preset_id IS NULL` and
   * `preset IS NOT NULL`. A preset column holding JSON `null`, which is what
   * a slot created without a preset has, is not SQL NULL, so such a slot
   * matches too.
   */
  predicate IsLegacySlot(s: Slot) {
    s.gearPresetId.None? && !s.preset.SqlNull?
  }

  /** The ids of the legacy slots. */
  function LegacySlotIds(slots: map<int, Slot>): set<int> {
    set id | id in slots && IsLegacySlot(slots[id])
  }

  /** True when no slot is a legacy slot. */
  ghost predicate NoLegacySlots(slots: map<int, Slot>) {
    forall id :: id in slots ==> !IsLegacySlot(slots[id])
  }

  /** The JSON object the legacy preset record is tagged with. */
  function LegacyMetadata(s: Slot): Dict {
    map["source" := JStr("legacy_slot"), "party_id" := JInt(s.partyId), "slot_id" := JInt(s.id)]
  }

  /**
   * The gear preset created for a legacy slot: owned by "system", master
   * visibility, the slot's inline preset (`slot.preset or {}`), and metadata
   * naming the slot it came from.
   */
  function LegacyPreset(s: Slot, presetId: int): (p: GearPreset)
    requires IsLegacySlot(s)
    ensures p.id == presetId
  {
    var preset := if s.preset.Stored? && s.preset.value != map[] then s.preset.value else map[];
    GearPreset(presetId, "system", Master, preset, Some(LegacyMetadata(s)))
  }

  /**
   * The preset made from a legacy slot is owned by "system", has master
   * visibility, holds the slot's inline preset (an empty object for JSON
   * `null`), and its metadata names the slot and party it came from.
   */
  lemma LegacyPresetContents(s: Slot, presetId: int)
    requires IsLegacySlot(s)
    ensures var p := LegacyPreset(s, presetId);
      && p.ownerId == "system" && p.visibility == Master
      && (s.preset.Stored? ==> p.preset == s.preset.value)
      && (s.preset.JsonNull? ==> p.preset == map[])
      && p.metadata.Some? && p.metadata.value.Keys == {"source", "party_id", "slot_id"}
      && p.metadata.value["source"] == JStr("legacy_slot")
      && p.metadata.value["party_id"] == JInt(s.partyId) && p.metadata.value["slot_id"] == JInt(s.id)
  {
  }

  /**
   * A slot created without a preset and without a gear preset id holds JSON
   * `null`, so the migration treats it as a legacy slot and gives it an
   * empty preset.
   */
  lemma SlotWithoutPresetIsLegacy(s: Slot, presetId: int)
    requires s.gearPresetId.None? && s.preset == ToJsonColumn(None)
    ensures IsLegacySlot(s)
    ensures LegacyPreset(s, presetId).preset == map[]
  {
  }

  /**
   * The slot after migration: pointed at its new preset, inline preset
   * cleared (`slot.preset = None`, which the column stores as JSON `null`).
   */
  function MigratedSlot(s: Slot, presetId: int): (t: Slot)
    ensures !IsLegacySlot(t)
    ensures t.gearPresetId == Some(presetId) && t.preset == JsonNull
    ensures t.id == s.id && t.partyId == s.partyId && t.role == s.role && t.ipTarget == s.ipTarget
  {
    s.(gearPresetId := Some(presetId), preset := JsonNull)
  }

  /**
   * What the migration promises, comparing the tables before and after:
   * no legacy slot is left; every other slot is as it was; every legacy
   * slot points at a preset id that was free before, under which its inline
   * preset is now stored; earlier presets are untouched, and exactly one
   * preset was added per legacy slot (`MigratedPresetIdsDistinct` shows the
   * new ids are pairwise distinct).
   */
  ghost predicate MigrationResult(slots0: map<int, Slot>, presets0: map<int, GearPreset>,
                                  slots: map<int, Slot>, presets: map<int, GearPreset>)
  {
    && NoLegacySlots(slots)
    && slots.Keys == slots0.Keys
    && (forall id :: id in slots0 && !IsLegacySlot(slots0[id]) ==> slots[id] == slots0[id])
    && (forall id :: id in slots0 && IsLegacySlot(slots0[id]) ==>
          && slots[id].gearPresetId.Some?
          && var pid := slots[id].gearPresetId.value;
          && pid !in presets0 && pid in presets
          && slots[id] == MigratedSlot(slots0[id], pid)
          && presets[pid] == LegacyPreset(slots0[id], pid))
    && (forall pid :: pid in presets0 ==> pid in presets && presets[pid] == presets0[pid])
    && |presets| == |presets0| + |LegacySlotIds(slots0)|
  }

  /**
   * The state of the migration after the slots in `presetOf` were handled,
   * each given the preset id `presetOf` maps it to: handled slots are
   * migrated and their presets stored under fresh, distinct ids; all other
   * slots and all earlier presets are as they were.
   */
  ghost predicate Migrated(slots0: map<int, Slot>, presets0: map<int, GearPreset>, next0: int,
                           slots: map<int, Slot>, presets: map<int, GearPreset>, next: int,
                           presetOf: map<int, int>)
  {
    && slots.Keys == slots0.Keys
    && presetOf.Keys <= LegacySlotIds(slots0)
    && next0 <= next
    && (forall id :: id in slots0 && id !in presetOf ==> slots[id] == slots0[id])
    && (forall id :: id in presetOf ==>
          && next0 <= presetOf[id] < next
          && slots[id] == MigratedSlot(slots0[id], presetOf[id])
          && presetOf[id] in presets
          && presets[presetOf[id]] == LegacyPreset(slots0[id], presetOf[id]))
    && (forall pid :: pid in presets0 ==> pid < next0 && pid in presets && presets[pid] == presets0[pid])
  }

  /** Before the loop nothing is handled. */
  lemma MigratedStart(slots0: map<int, Slot>, presets0: map<int, GearPreset>, next0: int)
    requires forall pid :: pid in presets0 ==> pid < next0
    ensures Migrated(slots0, presets0, next0, slots0, presets0, next0, map[])
  {
  }

  /** Handling one more legacy slot, with the next preset id, keeps `Migrated`. */
  lemma MigratedStep(slots0: map<int, Slot>, presets0: map<int, GearPreset>, next0: int,
                     slots: map<int, Slot>, presets: map<int, GearPreset>, next: int,
                     presetOf: map<int, int>, id: int)
    requires Migrated(slots0, presets0, next0, slots, presets, next, presetOf)
    requires forall pid :: pid in presets ==> pid < next
    requires id in LegacySlotIds(slots0) && id !in presetOf
    ensures id in slots && slots[id] == slots0[id] && IsLegacySlot(slots[id])
    ensures Migrated(slots0, presets0, next0,
                     slots[id := MigratedSlot(slots[id], next)],
                     presets[next := LegacyPreset(slots[id], next)], next + 1,
                     presetOf[id := next])
  {
    assert next !in presets;
    var slots', presets', presetOf' :=
      slots[id := MigratedSlot(slots[id], next)], presets[next := LegacyPreset(slots[id], next)], presetOf[id := next];
    forall i | i in slots0 && i !in presetOf'
      ensures slots'[i] == slots0[i]
    {
    }
    forall i | i in presetOf'
      ensures && next0 <= presetOf'[i] < next + 1
              && slots'[i] == MigratedSlot(slots0[i], presetOf'[i])
              && presetOf'[i] in presets'
              && presets'[presetOf'[i]] == LegacyPreset(slots0[i], presetOf'[i])
    {
      if i != id {
        assert presetOf'[i] == presetOf[i] < next;
      }
    }
    forall pid | pid in presets0
      ensures pid < next0 && pid in presets' && presets'[pid] == presets0[pid]
    {
    }
  }

  /** Once every legacy slot is handled, the migration has done what it promises. */
  lemma MigratedComplete(slots0: map<int, Slot>, presets0: map<int, GearPreset>, next0: int,
                         slots: map<int, Slot>, presets: map<int, GearPreset>, next: int,
                         presetOf: map<int, int>)
    requires Migrated(slots0, presets0, next0, slots, presets, next, presetOf)
    requires forall id :: id in LegacySlotIds(slots0) ==> id in presetOf
    requires |presets| == |presets0| + |LegacySlotIds(slots0)|
    ensures MigrationResult(slots0, presets0, slots, presets)
  {
    forall id | id in slots0 && IsLegacySlot(slots0[id])
      ensures slots[id].gearPresetId == Some(presetOf[id])
    {
      assert id in presetOf;
    }
  }

  /** Every slot keeps its key, id, party and target. */
  ghost predicate SameSlotShape(slots0: map<int, Slot>, slots: map<int, Slot>) {
    && slots.Keys == slots0.Keys
    && forall id :: id in slots ==>
         slots[id].id == slots0[id].id && slots[id].partyId == slots0[id].partyId
         && slots[id].ipTarget == slots0[id].ipTarget
  }

  /** The migration changes no slot's key, id, party or target. */
  lemma MigratedShape(slots0: map<int, Slot>, presets0: map<int, GearPreset>,
                      slots: map<int, Slot>, presets: map<int, GearPreset>)
    requires MigrationResult(slots0, presets0, slots, presets)
    ensures SameSlotShape(slots0, slots)
  {
    forall id | id in slots
      ensures slots[id].id == slots0[id].id && slots[id].partyId == slots0[id].partyId
      ensures slots[id].ipTarget == slots0[id].ipTarget
    {
      if IsLegacySlot(slots0[id]) {
        assert slots[id] == MigratedSlot(slots0[id], slots[id].gearPresetId.value);
      }
    }
  }

  /** Slots of the same shape keep the store's slot and member rules. */
  lemma SameShapeValid(slots0: map<int, Slot>, slots: map<int, Slot>,
                       parties: map<int, Party>, members: map<int, Member>, nextSlot: int, nextMember: int)
    requires SameSlotShape(slots0, slots)
    requires SlotsValid(slots0, parties, nextSlot) && MembersValid(members, parties, slots0, nextMember)
    ensures SlotsValid(slots, parties, nextSlot) && MembersValid(members, parties, slots, nextMember)
  {
    forall id | id in members
      ensures SlotOfOwnParty(slots, members[id])
    {
      assert SlotOfOwnParty(slots0, members[id]);
      if members[id].slotId.Some? {
        var sid := members[id].slotId.value;
        assert sid in slots0.Keys;
        assert sid in slots;
      }
    }
  }

  /** Without legacy slots the tables as they are already satisfy the migration's promise. */
  lemma NothingToMigrate(slots0: map<int, Slot>, presets0: map<int, GearPreset>)
    requires LegacySlotIds(slots0) == {}
    ensures MigrationResult(slots0, presets0, slots0, presets0)
  {
    forall id | id in slots0
      ensures !IsLegacySlot(slots0[id])
    {
      assert id !in LegacySlotIds(slots0);
    }
  }

  /**
   * Distinct legacy slots are pointed at distinct presets: each new preset
   * names in its metadata the one slot it came from.
   */
  lemma MigratedPresetIdsDistinct(slots0: map<int, Slot>, presets0: map<int, GearPreset>,
                                  slots: map<int, Slot>, presets: map<int, GearPreset>, a: int, b: int)
    requires MigrationResult(slots0, presets0, slots, presets)
    requires forall id :: id in slots0 ==> slots0[id].id == id
    requires a in LegacySlotIds(slots0) && b in LegacySlotIds(slots0) && a != b
    ensures slots[a].gearPresetId != slots[b].gearPresetId
  {
    var pa, pb := slots[a].gearPresetId.value, slots[b].gearPresetId.value;
    LegacyPresetContents(slots0[a], pa);
    LegacyPresetContents(slots0[b], pb);
    assert presets[pa].metadata.value["slot_id"] == JInt(a);
    assert presets[pb].metadata.value["slot_id"] == JInt(b);
  }

  /** The preset keys are the old ones plus exactly the keys in [next0, next). */
  ghost predicate NewKeysInRange(presets0: map<int, GearPreset>, presets: map<int, GearPreset>, next0: int, next: int) {
    forall pid :: pid in presets <==> pid in presets0 || next0 <= pid < next
  }

  /** Adding a preset under the next key extends the range of new keys by that key. */
  lemma NewKeysInRangeStep(presets0: map<int, GearPreset>, presets: map<int, GearPreset>, next0: int, next: int,
                           p: GearPreset)
    requires NewKeysInRange(presets0, presets, next0, next) && next0 <= next
    ensures NewKeysInRange(presets0, presets[next := p], next0, next + 1)
  {
  }

  /** Some element of a non-empty set. */
  lemma Pick<T>(s: set<T>) returns (x: T)
    requires s != {}
    ensures x in s
  {
    x :| x in s;
  }

  /** A set without elements is empty. */
  lemma NoElements<T>(s: set<T>)
    requires forall x :: x !in s
    ensures s == {}
  {
  }

  /** A map that extends another and has the same size is that map. */
  lemma ExtensionOfSameSize(small: map<int, GearPreset>, large: map<int, GearPreset>)
    requires forall k :: k in small ==> k in large && large[k] == small[k]
    requires |small| == |large|
    ensures small == large
  {
    forall k | k in small.Keys
      ensures k in large.Keys
    {
    }
    assert |large.Keys - small.Keys| == |large.Keys| - |small.Keys| == 0;
    forall k | k in large
      ensures k in small && large[k] == small[k]
    {
      assert k in large.Keys;
    }
  }

  /** On tables without legacy slots the migration leaves everything as it was. */
  lemma MigrationOfCleanTables(slots0: map<int, Slot>, presets0: map<int, GearPreset>,
                               slots: map<int, Slot>, presets: map<int, GearPreset>)
    requires NoLegacySlots(slots0)
    requires MigrationResult(slots0, presets0, slots, presets)
    ensures slots == slots0 && presets == presets0
  {
    forall id | id in slots
      ensures slots[id] == slots0[id]
    {
      assert !IsLegacySlot(slots0[id]);
    }
    assert forall id :: id !in LegacySlotIds(slots0);
    NoElements(LegacySlotIds(slots0));
    assert |LegacySlotIds(slots0)| == 0;
    assert |presets| == |presets0| + |LegacySlotIds(slots0)|;
    ExtensionOfSameSize(presets0, presets);
  }

  /** Running the migration a second time changes nothing. */
  lemma MigrationIdempotent(slots0: map<int, Slot>, presets0: map<int, GearPreset>,
                            slots1: map<int, Slot>, presets1: map<int, GearPreset>,
                            slots2: map<int, Slot>, presets2: map<int, GearPreset>)
    requires MigrationResult(slots0, presets0, slots1, presets1)
    requires MigrationResult(slots1, presets1, slots2, presets2)
    ensures slots2 == slots1 && presets2 == presets1
  {
    MigrationOfCleanTables(slots1, presets1, slots2, presets2);
  }

  /**
   * `_migrate_slot_presets`: every legacy slot gets a fresh gear preset
   * holding its inline preset and is pointed at it; every other slot and
   * every existing preset is left as it was. The legacy slots are handled in
   * no particular order, as the source's query has none.
   */
  method MigrateSlotPresets(store: Store)
    requires store.Valid()
    modifies store
    ensures store.Valid()
    ensures store.parties == old(store.parties) && store.members == old(store.members)
    ensures store.nextPartyId == old(store.nextPartyId) && store.nextSlotId == old(store.nextSlotId)
    ensures store.nextMemberId == old(store.nextMemberId)
    ensures MigrationResult(old(store.slots), old(store.gearPresets), store.slots, store.gearPresets)
    ensures store.nextPresetId == old(store.nextPresetId) + |LegacySlotIds(old(store.slots))|
    ensures NewKeysInRange(old(store.gearPresets), store.gearPresets, old(store.nextPresetId), store.nextPresetId)
  {
    var slots, presets, next := MigrateTables(store.slots, store.gearPresets, store.nextPresetId);
    SameShapeValid(store.slots, slots, store.parties, store.members, store.nextSlotId, store.nextMemberId);
    store.slots, store.gearPresets, store.nextPresetId := slots, presets, next;
  }

  /**
   * The loop of `_migrate_slot_presets` on the session's tables: the legacy
   * slots are handled one at a time, in no particular order (the source's
   * query has none), each given the next free preset id.
   */
  method MigrateTables(slots0: map<int, Slot>, presets0: map<int, GearPreset>, next0: int)
    returns (slots: map<int, Slot>, presets: map<int, GearPreset>, next: int)
    requires PresetsValid(presets0, next0) && 1 <= next0
    ensures MigrationResult(slots0, presets0, slots, presets)
    ensures SameSlotShape(slots0, slots)
    ensures PresetsValid(presets, next)
    ensures next == next0 + |LegacySlotIds(slots0)|
    ensures NewKeysInRange(presets0, presets, next0, next)
  {
    slots, presets, next := slots0, presets0, next0;
    var legacy := LegacySlotIds(slots0);
    if legacy == {} {
      NothingToMigrate(slots0, presets0);
      MigratedShape(slots0, presets0, slots, presets);
      return;
    }
    // The preset id each handled slot was given.
    ghost var presetOf: map<int, int> := map[];
    MigratedStart(slots, presets, next);
    var todo := legacy;
    // The number of legacy slots handled so far.
    ghost var handled := 0;
    while todo != {}
      invariant todo <= legacy && forall i :: i in legacy ==> (i in presetOf <==> i !in todo)
      invariant Migrated(slots0, presets0, next0, slots, presets, next, presetOf)
      invariant PresetsValid(presets, next) && 1 <= next
      invariant |presets| == |presets0| + handled && handled + |todo| == |legacy|
      invariant next == next0 + handled
      invariant NewKeysInRange(presets0, presets, next0, next)
      decreases todo
    {
      // Pick shows that `todo` has an element, which the `:|` on the next line needs.
      ghost var some := Pick(todo);
      var id :| id in todo;
      MigratedStep(slots0, presets0, next0, slots, presets, next, presetOf, id);
      var preset := LegacyPreset(slots[id], next);
      PresetAddValid(presets, next, preset);
      NewKeysInRangeStep(presets0, presets, next0, next, preset);
      presets := presets[next := preset];
      slots := slots[id := MigratedSlot(slots[id], next)];
      presetOf := presetOf[id := next];
      next := next + 1;
      todo := todo - {id};
      handled := handled + 1;
    }
    MigratedComplete(slots0, presets0, next0, slots, presets, next, presetOf);
    MigratedShape(slots0, presets0, slots, presets);
  }
}
