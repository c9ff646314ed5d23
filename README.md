# Party planner core, modelled in Dafny

This project models the server core of a small party planner for a game. It is
a FastAPI + SQLModel service. Hosts create parties and add role slots to them. A party may be
private, behind an invite code that is either supplied by the host or
generated as four random digits. Players apply to a party,
and the host moves each member through the states
`waiting / applied / accepted / locked / rejected / kicked`. A party with a
capacity refuses a move into `accepted` or `locked` once it has as many
confirmed members as its capacity. At start-up the database migrates "legacy"
slots, whose gear preset is stored inline, into gear preset records of their
own.

Layout (one module per source file):

- `models.dfy` (`Models`) covers the record shapes, the string enumerations as
  datatypes with their stored names, and the request validators. A `Parse…` function checks one enumerated string
  and returns an `Option`. A `Decode…` function validates a whole request
  body and returns a `Result`; a rejected body is `Unprocessable` (HTTP 422).
  A nullable JSON column is a `JsonColumn`, which tells SQL NULL apart from
  the JSON text `null` that the column type stores for a Python `None`.
- `store.dfy` (`RecordStore`) holds the database as a class `Store`. It has one
  `map` per table, keyed by primary key, plus the next autoincrement key of each
  table. `Valid()` states that keys match record ids and lie below the next
  key, that numeric fields keep their bounds, and that every slot's and
  member's `party_id` and every member's `slot_id` refer to an existing row.
  It does not cover a slot's `gear_preset_id`.
- `main.dfy` (`PartyApi`) holds the lookups, the confirmed-member count and the
  request handlers. Each handler is a method that `modifies store`. Each keeps
  the store invariant `Consistent`: the store is valid, no party has more
  confirmed members than its capacity, and every private party has a non-empty
  invite code. A handler that fails leaves the store unchanged. In the source,
  anything it has already flushed is rolled back when the session closes
  without a commit.
- `services.py` is modelled by `services.dfy` (`Services`): the host check and
  the open-slot bookkeeping.
- `database.dfy` (`Database`) holds the legacy-preset migration. It is a loop
  over the legacy slots, proved against the before/after predicate
  `MigrationResult`.
- `scenarios.dfy` (`Scenarios`) holds a session of requests proved from the
  handler contracts alone. A party has capacity 2 and three applicants; two
  acceptances succeed and the third is refused.

Things the source does that can be surprising, modelled as the code does them:

- The confirmed count in `update_member_state` includes the member being
  updated. A move from `accepted` to `locked` in a full party is therefore
  refused.
- `create_party` keeps a supplied invite code on a public party too.
- `create_slot` does not refresh `open_slot_count`.
- Slots have no capacity of their own.
- None of the membership handlers checks who the host is.
- `update_member_state` treats slot id `0` like "no slot" (Python
  truthiness). `apply_to_party` treats only `None` that way.
- A slot created without a preset and without a gear preset id stores JSON
  `null` in its `preset` column. That is not SQL NULL, so the start-up
  migration treats the slot as legacy and gives it an empty gear preset.
- `Party.status` is a free string: only its default `"open"` comes from the
  `PartyStatus` names.

## Model

| member | source | states |
|---|---|---|
| Models.StatusCode | app/main.py:135-194 | each failure maps to one 4xx code: 404 exactly for not found, 403 exactly for a refused invite code, 409 exactly for a full party, 400 exactly for an invite code asked of a public party, 422 exactly for a body that fails validation |
| Models.ToJsonColumn | app/models.py:131 | an optional dict is never written as SQL NULL: `None` becomes JSON `null` and a dict is stored as it is |
| Models.FromJsonColumn | app/models.py:131 | both kinds of null read back as `None`; a stored dict reads back as itself |
| Models.JsonColumnRoundTrip | app/models.py:131 | writing an optional dict and reading it back gives the same value |
| Models.ParseMemberState | app/models.py:184-186 | accepts exactly the six state names, and returns the state with that name |
| Models.MemberStateRoundTrip | app/models.py:85-91 | every state's stored name parses back to that state |
| Models.ParseVisibility | app/models.py:117-119 | accepts exactly `public` and `private`, and returns the visibility with that name |
| Models.ParseUserRole | app/models.py:52-54 | accepts exactly `admin`, `user` and `guest`, and returns the role with that name |
| Models.DecodeUserRole | app/models.py:52-54 | an absent role defaults to `user`; a given role is accepted exactly when some role has that name; otherwise 422 |
| Models.ParseGearPresetVisibility | app/models.py:14-17 | accepts exactly `master` and `personal`, and returns the visibility with that name |
| Models.ValidCapacity | app/models.py:100 | the `ge=1` bound of `capacity`: absent or at least 1 |
| Models.ValidCount | app/models.py:101 | the `ge=0` bound of `open_slot_count` (and of `ip_target`, app/models.py:130): absent or not negative |
| Models.DecodePartyCreate | app/models.py:94-119 | accepted exactly when the visibility is absent, `public` or `private`, the capacity is absent or at least 1, and the open slot count is absent or not negative; the defaults are `public` and `"open"`; every other field is carried over |
| Models.DecodeSlotCreate | app/models.py:128-132 | accepted exactly when `ip_target` is absent or not negative, and then the body is unchanged |
| Models.DecodeStateUpdate | app/models.py:184-186 | accepted exactly when the state is one of the six names; the decoded state has that name and the slot id is kept |
| PartyApi.GetPartyOr404 | app/main.py:49-53 | succeeds exactly when the party exists, with that party; otherwise 404 |
| PartyApi.GetSlotOr404 | app/main.py:56-60 | succeeds exactly when the slot exists and belongs to the party; otherwise 404 |
| PartyApi.SlotsOf | app/main.py:114 | holds exactly the party's slots, unchanged |
| PartyApi.MembersOf | app/main.py:115 | holds exactly the party's members, unchanged |
| PartyApi.ConfirmedIds | app/main.py:63-67 | an id is in the set exactly when it is a member of the party in state ACCEPTED or LOCKED |
| PartyApi.CountConfirmedMembers | app/main.py:63-68 | the confirmed count never exceeds the number of the party's members |
| PartyApi.ConfirmedCountAfterWrite | app/main.py:63-68 | writing one member record changes a party's confirmed count by minus the old record's vote plus the new record's vote |
| PartyApi.CapacityKeptByStateChange | app/main.py:177-185 | a state change that passes the capacity rule keeps every party within its capacity |
| PartyApi.CapacityKeptByNewMember | app/main.py:144-152 | adding an unconfirmed member keeps every party within its capacity |
| PartyApi.NoConfirmedWithoutMembers | app/main.py:63-68 | a party no member refers to has a confirmed count of 0 |
| PartyApi.ExceedsCapacity | app/main.py:177-181 | the 409 rule: the target state is ACCEPTED or LOCKED and differs from the current one, the capacity is present and non-zero, and the confirmed count has reached it |
| PartyApi.InviteRefused | app/main.py:137 | the 403 rule: the party is private and the supplied code differs from its stored code |
| PartyApi.IsGeneratedInviteCode | app/utils.py:5-9 | what a generated invite code is: exactly four characters, each a decimal digit |
| PartyApi.MemberOfParty | app/main.py:169-171 | the member 404 rule: the member exists and belongs to the party |
| PartyApi.InitialInviteCode | app/main.py:73-77 | a private party always gets a non-empty code; a public party keeps exactly what was sent; a non-empty supplied code is kept; any other result is the generated code |
| PartyApi.GivenSlot | app/main.py:173-175 | a slot id counts as given exactly when it is present and not 0 |
| PartyApi.CreateParty | app/main.py:71-81 | fails exactly when validation fails (422, store unchanged); otherwise adds one party under a fresh id, with the validated fields and the initial invite code, and no slots or members; only the party key advances, by one; keeps `Consistent` |
| PartyApi.ReadParty | app/main.py:111-116 | succeeds exactly when the party exists, with that party, its slots and its members; otherwise 404 |
| PartyApi.ListSlots | app/main.py:203-206 | succeeds exactly when the party exists, with exactly the party's slots; otherwise 404 |
| PartyApi.ListMembers | app/main.py:209-212 | succeeds exactly when the party exists, with exactly the party's members; otherwise 404 |
| PartyApi.CreateSlot | app/main.py:119-126 | 422 on an invalid body, 404 on a missing party, otherwise success; success adds exactly one slot under a fresh id and advances only the slot key, by one; failure changes nothing; keeps `Consistent` |
| PartyApi.ApplyToParty | app/main.py:135-154 | 404 for a missing party, 403 for a private party with a different invite code, 404 for a slot not of this party, success otherwise; success adds exactly one APPLIED member under a fresh id and advances only the member key, by one; failure changes nothing; keeps `Consistent` |
| PartyApi.UpdateMemberState | app/main.py:162-187 | 422, 404 for a member not of the party, 404 for a foreign slot; past those, 409 exactly when the capacity rule forbids the move; success rewrites only that member's state and (if given) slot, and no key advances; failure changes nothing; keeps `Consistent` and so the capacity bound |
| PartyApi.RegenerateInviteCode | app/main.py:190-200 | 404 for a missing party, 400 for a public one, success exactly for a private party; success replaces only that party's invite code with the generated one, and no key advances; failure changes nothing |
| Services.VerifyHostPermission | app/services.py:8-14 | 404 for a missing party, 403 when the host differs, success exactly when the party exists and is hosted by the caller; success returns that party |
| Services.SlotIds | app/services.py:20 | holds exactly the ids of the party's slots |
| Services.SlotCount | app/services.py:20 | the party's slot count equals the size of its slot listing and never exceeds the size of the slot table |
| Services.CalculateOpenSlotCount | app/services.py:17-21 | no value exactly when there is no capacity; otherwise capacity minus slot count, floored at 0, and never above the capacity |
| Services.OpenSlotsAfterNewSlot | app/services.py:17-21 | a new slot of the party lowers its open slot count by one, down to 0 |
| Services.OpenSlotsAfterOtherSlot | app/services.py:17-21 | a new slot of another party leaves the open slot count as it was |
| Services.UpdateOpenSlotCount | app/services.py:24-29 | stores the computed open slot count on that party and changes nothing else; keeps the store valid |
| Database.IsLegacySlot | app/database.py:39-43 | the query's condition: `gear_preset_id IS NULL` and `preset IS NOT NULL`, where JSON `null` is not SQL NULL |
| Database.LegacySlotIds | app/database.py:39-43 | the result of the `legacy_slots` query: the ids of the slots that satisfy `IsLegacySlot` |
| Database.LegacyMetadata | app/database.py:53 | the metadata of a migrated preset: source `legacy_slot`, the slot's party id and the slot's id |
| Database.LegacyPreset | app/database.py:49-54 | the preset for a legacy slot carries the id it is stored under |
| Database.LegacyPresetContents | app/database.py:49-54 | that preset is owned by "system", is master, holds the slot's inline preset (an empty object when the column holds JSON `null`), and its metadata has exactly the keys source, party_id and slot_id, with the slot's values |
| Database.MigratedSlot | app/database.py:59-60 | the migrated slot is no longer legacy, points at the new preset and holds JSON `null` as its inline preset; its id, party, role and target are kept |
| Database.SlotWithoutPresetIsLegacy | app/database.py:39-52 | a slot with no gear preset id whose preset was written as `None` is a legacy slot, and its new preset is the empty object |
| Database.NewKeysInRangeStep | app/database.py:55-57 | storing a preset under the next autoincrement key extends the range of new keys by that key |
| Database.MigratedStart | app/database.py:48 | before the loop, with nothing handled, the migration state holds |
| Database.MigratedStep | app/database.py:48-61 | handling one more legacy slot with the next preset id keeps the migration state |
| Database.MigratedComplete | app/database.py:63 | once every legacy slot is handled, the before/after promise `MigrationResult` holds |
| Database.NothingToMigrate | app/database.py:45-46 | with no legacy slot, the untouched tables already meet `MigrationResult` |
| Database.MigratedShape | app/database.py:59-60 | migration changes no slot's key, id, party or target |
| Database.SameShapeValid | app/database.py:59-60 | so the slot and member rules of the store still hold after migration |
| Database.MigratedPresetIdsDistinct | app/database.py:48-61 | two different legacy slots end up pointing at two different presets |
| Database.MigrationOfCleanTables | app/database.py:39-46 | on tables without legacy slots, migration changes nothing |
| Database.MigrationIdempotent | app/database.py:37-63 | running the migration a second time changes nothing |
| Database.MigrateTables | app/database.py:39-63 | the loop meets `MigrationResult`: no legacy slot left, each legacy slot points at a fresh preset holding its inline preset, other slots and old presets are untouched, and one preset is added per legacy slot; the new presets take exactly the keys from the next free key on, one per legacy slot, and the next key advances by the number of legacy slots |
| Database.MigrateSlotPresets | app/database.py:37-63 | the store-level migration: `MigrationResult` between the old and new slot and preset tables, the new presets take exactly the keys `[old nextPresetId, new nextPresetId)` and the preset key advances by the number of legacy slots; parties, members and the other keys are untouched; the store is still valid |
| Scenarios.ApplyOnce | app/main.py:135-154 | applying to a public party always succeeds with a fresh APPLIED member, keeps every earlier member and leaves the confirmed count as it was |
| Scenarios.ApplyThree | app/main.py:71-154 | a new party of capacity 2 with three distinct APPLIED members and no confirmed member |
| Scenarios.AcceptBelowCapacity | app/main.py:177-187 | below capacity, accepting an APPLIED member succeeds and raises the confirmed count by one, and other members keep their states |
| Scenarios.CapacityTwoThreeApplicants | app/main.py:177-181 | with capacity 2 and three applicants, after two acceptances the third acceptance is refused with 409 and that member stays APPLIED |

## Left out

- Authentication (`app/auth.py`, users, passwords, tokens) is not part of this model. So are `list_parties`, with its case-insensitive `ilike` title and role search, and the static-file and health endpoints.
- `generate_invite_code` draws random digits. It is a parameter `generated` of the handlers that use it, required to be four decimal digits (`IsGeneratedInviteCode`).
- The HTTP framework, the session and the SQL engine are left out. Tables are maps and autoincrement keys are counters; a request body that fails validation becomes `Unprocessable`.
- Error detail messages (Korean text) are left out; only the status is modelled.
- `created_at` timestamps are left out: the clock is not modelled.
- List responses are maps keyed by id, so the order of rows in a response is not modelled.
- `_ensure_slot_gearpreset_column` alters the database schema. It has no counterpart in a model whose slots always have the column.
- `Database.MigrateSlotPresets`: the source commits after each new preset. The model writes the tables once, so a crash half-way through the migration is not modelled. The preset ids are the next free keys, handed out in order as the autoincrement does.
- Chat messages, gear preset create/update/read bodies, `PartyJoinByCode` and `PartyJoinResponse` are record shapes no core operation uses, and they are not modelled.
- `PartyApi.UpdateMemberState`: the capacity bound in `Consistent` holds only when requests are handled one at a time. The model runs every handler to completion before the next one starts. The source counts the confirmed members (app/main.py:178), compares the count with the capacity (app/main.py:180-181) and writes only afterwards (app/main.py:185), with no lock or transaction isolation around those steps. The framework runs these handlers on a thread pool, so two acceptances that arrive together can both pass the check and push a party past its capacity. Interleaved requests are not modelled, and neither are the other handlers' check-then-write sequences.
- The JSON column semantics (`JsonColumn`: a Python `None` stored as JSON `null`) follow the column type's default setting; a deployment that stores `None` as SQL NULL instead would not migrate slots created without a preset.
- `PartyApi.CreateSlot`: a slot's `gear_preset_id` is declared a foreign key to the gear preset table, but neither the source nor the model checks that it names an existing preset. The model follows a database that does not enforce foreign keys, as SQLite does by default (the default database URL is SQLite). A database that enforces them would refuse the commit for an id that names no preset, and the model does not capture that failure.
- `requested_slot_id` is a field of `Member` that the modelled handlers always leave empty, as the source does.
- Usernames are unique in the source (a database constraint on the user table), but users are not part of this model.
