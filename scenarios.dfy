/**
 * A request sequence proved from the handler contracts alone: what the
 * contracts of `PartyApi` let a caller conclude about a whole session.
 */
module Scenarios {
  import opened Models
  import opened RecordStore
  import opened PartyApi

  /** A public party request with the given capacity. */
  function PublicParty(capacity: Option<int>): PartyCreateRequest {
    PartyCreateRequest("raid", None, None, None, None, capacity, None, "host", None, None, "Host", None)
  }

  /** An application without invite code, slot or preset. */
  function Applicant(name: string): MemberCreate {
    MemberCreate(name, None, None, None, None)
  }

  /** Member `id` of party `p` is in state `st`. */
  ghost predicate InState(store: Store, p: int, id: int, st: MemberState)
    reads store
  {
    id in store.members && store.members[id].partyId == p && store.members[id].state == st
  }

  /**
   * Party `p` has capacity 2 and `confirmed` confirmed members; `a`, `b`
   * and `c` are distinct members of it.
   */
  ghost predicate CapacityTwo(store: Store, p: int, confirmed: int, a: int, b: int, c: int)
    reads store
  {
    && Consistent(store)
    && p in store.parties && store.parties[p].capacity == Some(2)
    && CountConfirmedMembers(store.members, p) == confirmed
    && a != b && b != c && a != c
  }

  /** One application to public party `p`: a new APPLIED member, every earlier member kept. */
  method ApplyOnce(store: Store, p: int, name: string) returns (id: int)
    requires Consistent(store) && p in store.parties && store.parties[p].visibility == Public
    modifies store
    ensures Consistent(store) && store.parties == old(store.parties)
    ensures id !in old(store.members) && InState(store, p, id, Applied)
    ensures forall k :: k in old(store.members) ==> k in store.members && store.members[k] == old(store.members[k])
    ensures CountConfirmedMembers(store.members, p) == old(CountConfirmedMembers(store.members, p))
  {
    ghost var before := store.members;
    var applied := ApplyToParty(store, p, Applicant(name));
    id := applied.value.id;
    ConfirmedCountAfterWrite(before, id, applied.value, p);
  }

  /** A new public party of capacity 2 and three applications to it. */
  method ApplyThree() returns (store: Store, p: int, a: int, b: int, c: int)
    ensures fresh(store)
    ensures CapacityTwo(store, p, 0, a, b, c)
    ensures InState(store, p, a, Applied) && InState(store, p, b, Applied) && InState(store, p, c, Applied)
  {
    store := new Store();
    var created := CreateParty(store, PublicParty(Some(2)), "0000");
    p := created.value.party.id;
    NoConfirmedWithoutMembers(store.members, p);
    a := ApplyOnce(store, p, "A");
    b := ApplyOnce(store, p, "B");
    c := ApplyOnce(store, p, "C");
  }

  /** Accepting an APPLIED member while the party is below capacity succeeds and adds one confirmed member. */
  method AcceptBelowCapacity(store: Store, p: int, confirmed: int, x: int, y: int, z: int)
    requires CapacityTwo(store, p, confirmed, x, y, z) && confirmed < 2
    requires InState(store, p, x, Applied)
    modifies store
    ensures CapacityTwo(store, p, confirmed + 1, x, y, z)
    ensures InState(store, p, x, Accepted)
    ensures forall st :: old(InState(store, p, y, st)) ==> InState(store, p, y, st)
    ensures forall st :: old(InState(store, p, z, st)) ==> InState(store, p, z, st)
  {
    ghost var before := store.members;
    var accepted := UpdateMemberState(store, p, x, StateUpdateRequest("accepted", None));
    ConfirmedCountAfterWrite(before, x, accepted.value, p);
  }

  /**
   * The capacity scenario: with capacity 2 and three applicants, accepting
   * the first two succeeds, accepting the third is refused with a conflict,
   * and the third applicant stays APPLIED.
   */
  method CapacityTwoThreeApplicants() returns (third: Result<Member>, thirdState: MemberState)
    ensures third == Err(Conflict)
    ensures thirdState == Applied
  {
    var store, p, a, b, c := ApplyThree();
    AcceptBelowCapacity(store, p, 0, a, b, c);
    AcceptBelowCapacity(store, p, 1, b, a, c);
    third := UpdateMemberState(store, p, c, StateUpdateRequest("accepted", None));
    thirdState := store.members[c].state;
  }
}
