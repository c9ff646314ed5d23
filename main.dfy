/**
 * The membership handlers of the party planner (app/main.py): lookups that
 * answer 404, the confirmed-member count, and the handlers that create
 * parties, slots and members, change a member's state and regenerate an
 * invite code.
 *
 * Each handler is a method on the record store. It builds the records it
 * will write in local variables and assigns the store's maps only where the
 * source commits. A handler that fails leaves the store unchanged: in the
 * source, whatever it may already have flushed is rolled back when the
 * session closes without a commit. The store invariant `Consistent` adds the two whole-system
 * facts the handlers keep: no party has more confirmed members than its
 * capacity, and every private party has a non-empty invite code.
 */
module PartyApi {
  import opened Models
  import opened RecordStore

  // ---------------------------------------------------------------------
  // Lookups

  /** `_get_party_or_404`. */
  function GetPartyOr404(parties: map<int, Party>, partyId: int): (r: Result<Party>)
    ensures r.Ok? <==> partyId in parties
    ensures r.Ok? ==> r.value == parties[partyId]
    ensures r.Err? ==> r.error == NotFound
  {
    if partyId in parties then Ok(parties[partyId]) else Err(NotFound)
  }

  /** `_get_slot_or_404`: the slot must exist and belong to the requested party. */
  function GetSlotOr404(slots: map<int, Slot>, partyId: int, slotId: int): (r: Result<Slot>)
    ensures r.Ok? <==> slotId in slots && slots[slotId].partyId == partyId
    ensures r.Ok? ==> r.value == slots[slotId] && r.value.partyId == partyId
    ensures r.Err? ==> r.error == NotFound
  {
    if slotId in slots && slots[slotId].partyId == partyId then Ok(slots[slotId]) else Err(NotFound)
  }

  /** The slots of one party, keyed by id (the `PartySlot.party_id == party_id` query). */
  function SlotsOf(slots: map<int, Slot>, partyId: int): (r: map<int, Slot>)
    ensures forall id :: id in r <==> id in slots && slots[id].partyId == partyId
    ensures forall id :: id in r ==> r[id] == slots[id]
  {
    map id | id in slots && slots[id].partyId == partyId :: slots[id]
  }

  /** The members of one party, keyed by id (the `PartyMember.party_id == party_id` query). */
  function MembersOf(members: map<int, Member>, partyId: int): (r: map<int, Member>)
    ensures forall id :: id in r <==> id in members && members[id].partyId == partyId
    ensures forall id :: id in r ==> r[id] == members[id]
  {
    map id | id in members && members[id].partyId == partyId :: members[id]
  }

  // ---------------------------------------------------------------------
  // Confirmed members

  /** A member that counts against the capacity of party `partyId`. */
  predicate CountsAgainst(m: Member, partyId: int) {
    m.partyId == partyId && m.state.IsConfirmed()
  }

  /** The ids of the confirmed members of a party. */
  function ConfirmedIds(members: map<int, Member>, partyId: int): (ids: set<int>)
    ensures forall id :: id in ids <==>
      id in members && members[id].partyId == partyId && members[id].state in {Accepted, Locked}
  {
    set id | id in members && CountsAgainst(members[id], partyId)
  }

  /** `_count_confirmed_members`: the number of ACCEPTED or LOCKED members of the party. */
  function CountConfirmedMembers(members: map<int, Member>, partyId: int): (n: nat)
    ensures n <= |MembersOf(members, partyId)|
  {
    var ids := ConfirmedIds(members, partyId);
    var all := MembersOf(members, partyId).Keys;
    assert ids <= all;
    SubsetCardinality(ids, all);
    |ids|
  }

  lemma {:induction false} SubsetCardinality<T>(a: set<T>, b: set<T>)
    requires a <= b
    ensures |a| <= |b|
  {
    if a != {} {
      var x :| x in a;
      SubsetCardinality(a - {x}, b - {x});
    }
  }

  /**
   * Writing one member record moves the confirmed count of a party by at
   * most one: the old record stops counting and the new one starts.
   */
  lemma ConfirmedCountAfterWrite(members: map<int, Member>, id: int, m: Member, partyId: int)
    ensures CountConfirmedMembers(members[id := m], partyId)
         == CountConfirmedMembers(members, partyId)
            - (if id in members && CountsAgainst(members[id], partyId) then 1 else 0)
            + (if CountsAgainst(m, partyId) then 1 else 0)
  {
    var before := ConfirmedIds(members, partyId);
    var after := ConfirmedIds(members[id := m], partyId);
    var rest := before - {id};
    assert after - {id} == rest;
    assert |before| == |rest| + (if id in before then 1 else 0) by {
      if id in before { assert before == rest + {id}; }
      else { assert before == rest; }
    }
    if CountsAgainst(m, partyId) {
      assert after == rest + {id};
    } else {
      assert after == rest;
    }
  }

  /** No party has more confirmed members than its capacity. */
  ghost predicate CapacityRespected(parties: map<int, Party>, members: map<int, Member>) {
    forall p :: p in parties && parties[p].capacity.Some? ==>
      CountConfirmedMembers(members, p) <= parties[p].capacity.value
  }

  /** Every private party carries a non-empty invite code. */
  ghost predicate PrivateInviteCodes(parties: map<int, Party>) {
    forall p :: p in parties && parties[p].visibility == Private ==>
      parties[p].inviteCode.Some? && parties[p].inviteCode.value != ""
  }

  /** The store invariant the handlers keep. */
  ghost predicate Consistent(store: Store)
    reads store
  {
    && store.Valid()
    && CapacityRespected(store.parties, store.members)
    && PrivateInviteCodes(store.parties)
  }

  /**
   * The capacity rule of `update_member_state`: a move into ACCEPTED or
   * LOCKED from a different state is refused when the party has a
   * (non-zero) capacity and the confirmed count, which still includes the
   * member being updated, has reached it.
   */
  predicate ExceedsCapacity(capacity: Option<int>, confirmed: int, current: MemberState, target: MemberState) {
    && target in {Accepted, Locked}
    && current != target
    && capacity.Some? && capacity.value != 0
    && confirmed >= capacity.value
  }

  /** Rewriting a member within its party, past the capacity rule, keeps every party within capacity. */
  lemma CapacityKeptByStateChange(parties: map<int, Party>, members: map<int, Member>, id: int, m: Member)
    requires CapacityRespected(parties, members)
    requires id in members && members[id].partyId == m.partyId && m.partyId in parties
    requires ValidCapacity(parties[m.partyId].capacity)
    requires !ExceedsCapacity(parties[m.partyId].capacity, CountConfirmedMembers(members, m.partyId),
                              members[id].state, m.state)
    ensures CapacityRespected(parties, members[id := m])
  {
    forall p | p in parties && parties[p].capacity.Some?
      ensures CountConfirmedMembers(members[id := m], p) <= parties[p].capacity.value
    {
      ConfirmedCountAfterWrite(members, id, m, p);
    }
  }

  /** Adding a member that is not confirmed keeps every party within capacity. */
  lemma CapacityKeptByNewMember(parties: map<int, Party>, members: map<int, Member>, id: int, m: Member)
    requires CapacityRespected(parties, members)
    requires id !in members && !m.state.IsConfirmed()
    ensures CapacityRespected(parties, members[id := m])
  {
    forall p | p in parties && parties[p].capacity.Some?
      ensures CountConfirmedMembers(members[id := m], p) <= parties[p].capacity.value
    {
      ConfirmedCountAfterWrite(members, id, m, p);
    }
  }

  /** A party no member refers to has no confirmed members. */
  lemma NoConfirmedWithoutMembers(members: map<int, Member>, partyId: int)
    requires forall id :: id in members ==> members[id].partyId != partyId
    ensures CountConfirmedMembers(members, partyId) == 0
  {
    var ids := ConfirmedIds(members, partyId);
    assert forall id :: id !in ids;
    assert ids == {};
  }

  // ---------------------------------------------------------------------
  // Invite codes

  const InviteCodeLength: nat := 4

  /** What `generate_invite_code()` returns: four decimal digits. */
  predicate IsGeneratedInviteCode(code: string) {
    |code| == InviteCodeLength && forall i :: 0 <= i < |code| ==> '0' <= code[i] <= '9'
  }

  /**
   * The invite code `create_party` stores: a private party whose request
   * has a missing or empty code gets the generated one; any other supplied
   * code is kept as sent, on public parties too.
   */
  function InitialInviteCode(visibility: PartyVisibility, supplied: Option<string>, generated: string): (code: Option<string>)
    requires IsGeneratedInviteCode(generated)
    ensures visibility == Private ==> code.Some? && code.value != ""
    ensures supplied.Some? && supplied.value != "" ==> code == supplied
    ensures visibility == Public ==> code == supplied
    ensures code != supplied ==> code == Some(generated)
  {
    if visibility == Private && (supplied.None? || supplied.value == "") then Some(generated) else supplied
  }

  /** Python truthiness of `payload.slot_id`: both `None` and `0` mean "no slot given". */
  function GivenSlot(slotId: Option<int>): (r: Option<int>)
    ensures r.Some? <==> slotId.Some? && slotId.value != 0
    ensures r.Some? ==> r == slotId
  {
    if slotId.Some? && slotId.value != 0 then slotId else None
  }

  /** The invite-code gate of `apply_to_party`: only private parties check the code. */
  predicate InviteRefused(party: Party, supplied: Option<string>) {
    party.visibility == Private && party.inviteCode != supplied
  }

  /**
   * The member 404 rule of `update_member_state`: `memberId` names an
   * existing member that belongs to party `partyId`.
   */
  predicate MemberOfParty(members: map<int, Member>, partyId: int, memberId: int) {
    memberId in members && members[memberId].partyId == partyId
  }

  // ---------------------------------------------------------------------
  // Handlers

  /** `create_party`: stores a new party built from the request. */
  method CreateParty(store: Store, request: PartyCreateRequest, generated: string) returns (r: Result<PartyDetail>)
    requires Consistent(store) && IsGeneratedInviteCode(generated)
    modifies store
    ensures Consistent(store)
    ensures r.Err? <==> DecodePartyCreate(request).Err?
    ensures r.Err? ==> r.error == Unprocessable && unchanged(store)
    ensures r.Ok? ==>
      var payload := DecodePartyCreate(request).value;
      var party := r.value.party;
      && party.id == old(store.nextPartyId) && party.id !in old(store.parties)
      && store.parties == old(store.parties)[party.id := party]
      && party.title == payload.title && party.description == payload.description
      && party.hostTip == payload.hostTip && party.visibility == payload.visibility
      && party.schedule == payload.schedule && party.capacity == payload.capacity
      && party.openSlotCount == payload.openSlotCount && party.hostId == payload.hostId
      && party.voiceChannelLink == payload.voiceChannelLink && party.status == payload.status
      && party.hostName == payload.hostName
      && party.inviteCode == InitialInviteCode(payload.visibility, payload.inviteCode, generated)
      && r.value.slots == map[] && r.value.members == map[]
      && store.slots == old(store.slots) && store.members == old(store.members)
      && store.gearPresets == old(store.gearPresets)
      && store.nextPartyId == old(store.nextPartyId) + 1 && store.nextSlotId == old(store.nextSlotId)
      && store.nextMemberId == old(store.nextMemberId) && store.nextPresetId == old(store.nextPresetId)
  {
    var decoded := DecodePartyCreate(request);
    if decoded.Err? {
      return Err(decoded.error);
    }
    var payload := decoded.value;
    var inviteCode := InitialInviteCode(payload.visibility, payload.inviteCode, generated);
    var id := store.nextPartyId;
    var party := Party(
      id, payload.title, payload.description, payload.hostTip, payload.visibility,
      payload.schedule, payload.capacity, payload.openSlotCount, payload.hostId,
      payload.voiceChannelLink, payload.status, payload.hostName, inviteCode);
    NoConfirmedWithoutMembers(store.members, id);
    store.parties := store.parties[id := party];
    store.nextPartyId := id + 1;
    r := Ok(PartyDetail(party, map[], map[]));
  }

  /** `read_party`: the party with its slots and members. */
  function ReadParty(store: Store, partyId: int): (r: Result<PartyDetail>)
    reads store
    ensures r.Ok? <==> partyId in store.parties
    ensures r.Err? ==> r.error == NotFound
    ensures r.Ok? ==>
      && r.value.party == store.parties[partyId]
      && r.value.slots == SlotsOf(store.slots, partyId)
      && r.value.members == MembersOf(store.members, partyId)
  {
    match GetPartyOr404(store.parties, partyId)
    case Err(e) => Err(e)
    case Ok(party) => Ok(PartyDetail(party, SlotsOf(store.slots, partyId), MembersOf(store.members, partyId)))
  }

  /** `list_slots`. */
  function ListSlots(store: Store, partyId: int): (r: Result<map<int, Slot>>)
    reads store
    ensures r.Ok? <==> partyId in store.parties
    ensures r.Err? ==> r.error == NotFound
    ensures r.Ok? ==> forall id :: id in r.value <==> id in store.slots && store.slots[id].partyId == partyId
    ensures r.Ok? ==> forall id :: id in r.value ==> r.value[id] == store.slots[id]
  {
    if partyId in store.parties then Ok(SlotsOf(store.slots, partyId)) else Err(NotFound)
  }

  /** `list_members`. */
  function ListMembers(store: Store, partyId: int): (r: Result<map<int, Member>>)
    reads store
    ensures r.Ok? <==> partyId in store.parties
    ensures r.Err? ==> r.error == NotFound
    ensures r.Ok? ==> forall id :: id in r.value <==> id in store.members && store.members[id].partyId == partyId
    ensures r.Ok? ==> forall id :: id in r.value ==> r.value[id] == store.members[id]
  {
    if partyId in store.parties then Ok(MembersOf(store.members, partyId)) else Err(NotFound)
  }

  /** `create_slot`: attaches a new slot to an existing party. */
  method CreateSlot(store: Store, partyId: int, request: SlotCreate) returns (r: Result<Slot>)
    requires Consistent(store)
    modifies store
    ensures Consistent(store)
    ensures DecodeSlotCreate(request).Err? ==> r == Err(Unprocessable)
    ensures DecodeSlotCreate(request).Ok? && partyId !in old(store.parties) ==> r == Err(NotFound)
    ensures r.Err? ==> unchanged(store)
    ensures r.Ok? <==> DecodeSlotCreate(request).Ok? && partyId in old(store.parties)
    ensures r.Ok? ==>
      && r.value == Slot(old(store.nextSlotId), partyId, request.role, request.ipTarget,
                         ToJsonColumn(request.preset), request.gearPresetId)
      && r.value.id !in old(store.slots)
      && store.slots == old(store.slots)[r.value.id := r.value]
      && store.parties == old(store.parties) && store.members == old(store.members)
      && store.gearPresets == old(store.gearPresets)
      && store.nextPartyId == old(store.nextPartyId) && store.nextSlotId == old(store.nextSlotId) + 1
      && store.nextMemberId == old(store.nextMemberId) && store.nextPresetId == old(store.nextPresetId)
  {
    var decoded := DecodeSlotCreate(request);
    if decoded.Err? {
      return Err(decoded.error);
    }
    var party := GetPartyOr404(store.parties, partyId);
    if party.Err? {
      return Err(party.error);
    }
    var payload := decoded.value;
    var id := store.nextSlotId;
    var slot := Slot(id, partyId, payload.role, payload.ipTarget, ToJsonColumn(payload.preset), payload.gearPresetId);
    store.slots := store.slots[id := slot];
    store.nextSlotId := id + 1;
    r := Ok(slot);
  }

  /** `apply_to_party`: checks the invite code and the requested slot, then adds an APPLIED member. */
  method ApplyToParty(store: Store, partyId: int, request: MemberCreate) returns (r: Result<Member>)
    requires Consistent(store)
    modifies store
    ensures Consistent(store)
    ensures partyId !in old(store.parties) ==> r == Err(NotFound)
    ensures partyId in old(store.parties) && InviteRefused(old(store.parties[partyId]), request.inviteCode) ==>
      r == Err(Forbidden)
    ensures (&& partyId in old(store.parties)
             && !InviteRefused(old(store.parties[partyId]), request.inviteCode)
             && request.slotId.Some?
             && GetSlotOr404(old(store.slots), partyId, request.slotId.value).Err?) ==>
      r == Err(NotFound)
    ensures r.Err? ==> unchanged(store)
    ensures r.Ok? <==>
      && partyId in old(store.parties)
      && !InviteRefused(old(store.parties[partyId]), request.inviteCode)
      && (request.slotId.Some? ==> GetSlotOr404(old(store.slots), partyId, request.slotId.value).Ok?)
    ensures r.Ok? ==>
      && r.value == Member(old(store.nextMemberId), partyId, request.slotId, None,
                           request.applicantName, ToJsonColumn(request.gearPreset), Applied)
      && r.value.id !in old(store.members)
      && store.members == old(store.members)[r.value.id := r.value]
      && store.parties == old(store.parties) && store.slots == old(store.slots)
      && store.gearPresets == old(store.gearPresets)
      && store.nextPartyId == old(store.nextPartyId) && store.nextSlotId == old(store.nextSlotId)
      && store.nextMemberId == old(store.nextMemberId) + 1 && store.nextPresetId == old(store.nextPresetId)
  {
    var party := GetPartyOr404(store.parties, partyId);
    if party.Err? {
      return Err(party.error);
    }
    if InviteRefused(party.value, request.inviteCode) {
      return Err(Forbidden);
    }
    if request.slotId.Some? {
      var slot := GetSlotOr404(store.slots, partyId, request.slotId.value);
      if slot.Err? {
        return Err(slot.error);
      }
    }
    var id := store.nextMemberId;
    var member := Member(id, partyId, request.slotId, None, request.applicantName, ToJsonColumn(request.gearPreset), Applied);
    CapacityKeptByNewMember(store.parties, store.members, id, member);
    store.members := store.members[id := member];
    store.nextMemberId := id + 1;
    r := Ok(member);
  }

  /**
   * `update_member_state`: optionally moves the member to another slot of
   * the party and sets its state, refusing a move into ACCEPTED or LOCKED
   * that the capacity rule forbids.
   */
  method UpdateMemberState(store: Store, partyId: int, memberId: int, request: StateUpdateRequest)
    returns (r: Result<Member>)
    requires Consistent(store)
    modifies store
    ensures Consistent(store)
    ensures r.Err? ==> unchanged(store)
    ensures DecodeStateUpdate(request).Err? ==> r == Err(Unprocessable)
    ensures DecodeStateUpdate(request).Ok? && !MemberOfParty(old(store.members), partyId, memberId) ==>
      r == Err(NotFound)
    ensures (&& DecodeStateUpdate(request).Ok?
             && MemberOfParty(old(store.members), partyId, memberId)
             && GivenSlot(request.slotId).Some?
             && GetSlotOr404(old(store.slots), partyId, request.slotId.value).Err?) ==>
      r == Err(NotFound)
    ensures (&& DecodeStateUpdate(request).Ok?
             && MemberOfParty(old(store.members), partyId, memberId)
             && (GivenSlot(request.slotId).Some? ==> GetSlotOr404(old(store.slots), partyId, request.slotId.value).Ok?)) ==>
      (r.Err? <==> ExceedsCapacity(old(store.parties[partyId].capacity),
                                   CountConfirmedMembers(old(store.members), partyId),
                                   old(store.members[memberId].state),
                                   DecodeStateUpdate(request).value.state))
      && (r.Err? ==> r.error == Conflict)
    ensures r.Ok? ==>
      && DecodeStateUpdate(request).Ok? && MemberOfParty(old(store.members), partyId, memberId)
      && r.value == old(store.members[memberId]).(
           state := DecodeStateUpdate(request).value.state,
           slotId := if GivenSlot(request.slotId).Some? then request.slotId else old(store.members[memberId].slotId))
      && store.members == old(store.members)[memberId := r.value]
      && store.parties == old(store.parties) && store.slots == old(store.slots)
      && store.gearPresets == old(store.gearPresets)
      && store.nextPartyId == old(store.nextPartyId) && store.nextSlotId == old(store.nextSlotId)
      && store.nextMemberId == old(store.nextMemberId) && store.nextPresetId == old(store.nextPresetId)
  {
    var decoded := DecodeStateUpdate(request);
    if decoded.Err? {
      return Err(decoded.error);
    }
    var payload := decoded.value;
    var party := GetPartyOr404(store.parties, partyId);
    if party.Err? {
      return Err(party.error);
    }
    if memberId !in store.members || store.members[memberId].partyId != partyId {
      return Err(NotFound);
    }
    // The member is edited in a local copy; the store's maps are written only at the end, where the source commits.
    var member := store.members[memberId];
    var slotId := GivenSlot(payload.slotId);
    if slotId.Some? {
      var slot := GetSlotOr404(store.slots, partyId, slotId.value);
      if slot.Err? {
        return Err(slot.error);
      }
      member := member.(slotId := slotId);
    }
    if payload.state in {Accepted, Locked} && member.state != payload.state {
      var confirmed := CountConfirmedMembers(store.members, partyId);
      if party.value.capacity.Some? && party.value.capacity.value != 0 && confirmed >= party.value.capacity.value {
        return Err(Conflict);
      }
    }
    member := member.(state := payload.state);
    MemberWriteValid(store.members, store.parties, store.slots, store.nextMemberId, member);
    CapacityKeptByStateChange(store.parties, store.members, memberId, member);
    store.members := store.members[memberId := member];
    r := Ok(member);
  }

  /** `regenerate_invite_code`: replaces the invite code of a private party. */
  method RegenerateInviteCode(store: Store, partyId: int, generated: string) returns (r: Result<string>)
    requires Consistent(store) && IsGeneratedInviteCode(generated)
    modifies store
    ensures Consistent(store)
    ensures partyId !in old(store.parties) ==> r == Err(NotFound)
    ensures partyId in old(store.parties) && old(store.parties[partyId].visibility) != Private ==> r == Err(BadRequest)
    ensures r.Err? ==> unchanged(store)
    ensures r.Ok? <==> partyId in old(store.parties) && old(store.parties[partyId].visibility) == Private
    ensures r.Ok? ==>
      && r.value == generated && r.value != ""
      && store.parties == old(store.parties)[partyId := old(store.parties[partyId]).(inviteCode := Some(generated))]
      && store.slots == old(store.slots) && store.members == old(store.members)
      && store.gearPresets == old(store.gearPresets)
      && store.nextPartyId == old(store.nextPartyId) && store.nextSlotId == old(store.nextSlotId)
      && store.nextMemberId == old(store.nextMemberId) && store.nextPresetId == old(store.nextPresetId)
  {
    var party := GetPartyOr404(store.parties, partyId);
    if party.Err? {
      return Err(party.error);
    }
    if party.value.visibility != Private {
      return Err(BadRequest);
    }
    var updated := party.value.(inviteCode := Some(generated));
    store.parties := store.parties[partyId := updated];
    r := Ok(generated);
  }
}
