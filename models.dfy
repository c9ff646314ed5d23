/**
 * Record shapes, closed string enumerations and request validators of the
 * party planner (app/models.py).
 *
 * The source stores every enumeration as a plain string and restricts the
 * strings a request may carry with regular expressions. Here each
 * enumeration is a datatype, `Name()` gives the string the source stores,
 * and a `Parse…` function is the validator: it accepts exactly the strings
 * the source's pattern accepts. A request body that fails validation is
 * answered with HTTP 422 before any handler runs; that is `Unprocessable`.
 */
module Models {

  datatype Option<T> = None | Some(value: T)

  /** The HTTP failures the handlers raise, and request validation failure. */
  datatype ApiError = NotFound | Forbidden | Conflict | BadRequest | Unprocessable

  /** The HTTP status code the framework answers each failure with. */
  function StatusCode(e: ApiError): (code: int)
    ensures 400 <= code < 500
    ensures code == 404 <==> e == NotFound
    ensures code == 403 <==> e == Forbidden
    ensures code == 409 <==> e == Conflict
    ensures code == 400 <==> e == BadRequest
    ensures code == 422 <==> e == Unprocessable
  {
    match e
    case NotFound => 404
    case Forbidden => 403
    case Conflict => 409
    case BadRequest => 400
    case Unprocessable => 422
  }

  datatype Result<T> = Ok(value: T) | Err(error: ApiError)

  /** A JSON value, as held by the source's JSON columns. */
  datatype Json =
    | JNull
    | JBool(b: bool)
    | JInt(i: int)
    | JStr(s: string)
    | JList(items: seq<Json>)
    | JObject(fields: map<string, Json>)

  /** A JSON object (a Python `dict` column). */
  type Dict = map<string, Json>

  /**
   * What a nullable JSON column holds. The column type stores a Python
   * `None` as the JSON text `null`, which is not SQL NULL: only `SqlNull`
   * satisfies an `IS NULL` test.
   */
  datatype JsonColumn = SqlNull | JsonNull | Stored(value: Dict)

  /** The column value the ORM writes for an optional dict. */
  function ToJsonColumn(v: Option<Dict>): (c: JsonColumn)
    ensures !c.SqlNull?
    ensures c.JsonNull? <==> v.None?
    ensures c.Stored? ==> v == Some(c.value)
  {
    if v.None? then JsonNull else Stored(v.value)
  }

  /** The optional dict the ORM reads back: both kinds of null read as `None`. */
  function FromJsonColumn(c: JsonColumn): (v: Option<Dict>)
    ensures v.None? <==> !c.Stored?
    ensures v.Some? ==> c == Stored(v.value)
  {
    if c.Stored? then Some(c.value) else None
  }

  /** Writing an optional dict and reading it back gives the same value. */
  lemma JsonColumnRoundTrip(v: Option<Dict>)
    ensures FromJsonColumn(ToJsonColumn(v)) == v
  {
  }

  // ---------------------------------------------------------------------
  // Enumerations

  datatype MemberState = Waiting | Applied | Accepted | Locked | Rejected | Kicked
  {
    function Name(): string {
      match this
      case Waiting => "waiting"
      case Applied => "applied"
      case Accepted => "accepted"
      case Locked => "locked"
      case Rejected => "rejected"
      case Kicked => "kicked"
    }

    /** A confirmed member (ACCEPTED or LOCKED) counts against party capacity. */
    predicate IsConfirmed() {
      this == Accepted || this == Locked
    }
  }

  /** The `^(waiting|applied|accepted|locked|rejected|kicked)$` validator. */
  function ParseMemberState(s: string): (r: Option<MemberState>)
    ensures r.Some? ==> r.value.Name() == s
    ensures r.None? ==> forall st: MemberState :: st.Name() != s
  {
    if s == "waiting" then Some(Waiting)
    else if s == "applied" then Some(Applied)
    else if s == "accepted" then Some(Accepted)
    else if s == "locked" then Some(Locked)
    else if s == "rejected" then Some(Rejected)
    else if s == "kicked" then Some(Kicked)
    else None
  }

  /** Every stored state name is read back as the same state. */
  lemma MemberStateRoundTrip(st: MemberState)
    ensures ParseMemberState(st.Name()) == Some(st)
  {
    match st
    case Waiting =>
    case Applied =>
    case Accepted =>
    case Locked =>
    case Rejected =>
    case Kicked =>
  }

  datatype PartyVisibility = Public | Private
  {
    function Name(): string {
      match this
      case Public => "public"
      case Private => "private"
    }
  }

  const DefaultVisibility: PartyVisibility := Public

  /** The `^(public|private)$` validator. */
  function ParseVisibility(s: string): (r: Option<PartyVisibility>)
    ensures r.Some? ==> r.value.Name() == s
    ensures r.None? ==> forall v: PartyVisibility :: v.Name() != s
  {
    if s == "public" then Some(Public)
    else if s == "private" then Some(Private)
    else None
  }

  datatype PartyStatus = Open | Closed
  {
    function Name(): string {
      match this
      case Open => "open"
      case Closed => "closed"
    }
  }

  /** The status string a party takes when the request gives none. */
  const DefaultStatus: string := Open.Name()

  datatype UserRole = Admin | User | Guest
  {
    function Name(): string {
      match this
      case Admin => "admin"
      case User => "user"
      case Guest => "guest"
    }
  }

  const DefaultUserRole: UserRole := User

  /** The `^(admin|user|guest)$` validator of `UserBase.role`. */
  function ParseUserRole(s: string): (r: Option<UserRole>)
    ensures r.Some? ==> r.value.Name() == s
    ensures r.None? ==> forall u: UserRole :: u.Name() != s
  {
    if s == "admin" then Some(Admin)
    else if s == "user" then Some(User)
    else if s == "guest" then Some(Guest)
    else None
  }

  /** `UserBase.role` as sent in a request: absent means the default role. */
  function DecodeUserRole(role: Option<string>): (r: Result<UserRole>)
    ensures role.None? ==> r == Ok(User)
    ensures role.Some? ==> (r.Ok? <==> exists u: UserRole :: u.Name() == role.value)
    ensures role.Some? && r.Ok? ==> r.value.Name() == role.value
    ensures r.Err? ==> r.error == Unprocessable
  {
    if role.None? then Ok(DefaultUserRole)
    else match ParseUserRole(role.value)
      case Some(u) => Ok(u)
      case None => Err(Unprocessable)
  }

  datatype GearPresetVisibility = Master | Personal
  {
    function Name(): string {
      match this
      case Master => "master"
      case Personal => "personal"
    }
  }

  /** The `^(master|personal)$` validator of `GearPresetBase.visibility`. */
  function ParseGearPresetVisibility(s: string): (r: Option<GearPresetVisibility>)
    ensures r.Some? ==> r.value.Name() == s
    ensures r.None? ==> forall v: GearPresetVisibility :: v.Name() != s
  {
    if s == "master" then Some(Master)
    else if s == "personal" then Some(Personal)
    else None
  }

  // ---------------------------------------------------------------------
  // Stored records

  datatype Party = Party(
    id: int,
    title: string,
    description: Option<string>,
    hostTip: Option<string>,
    visibility: PartyVisibility,
    schedule: Option<string>,
    capacity: Option<int>,
    openSlotCount: Option<int>,
    hostId: string,
    voiceChannelLink: Option<string>,
    status: string,
    hostName: string,
    inviteCode: Option<string>)

  datatype Slot = Slot(
    id: int,
    partyId: int,
    role: string,
    ipTarget: Option<int>,
    preset: JsonColumn,
    gearPresetId: Option<int>)

  datatype Member = Member(
    id: int,
    partyId: int,
    slotId: Option<int>,
    requestedSlotId: Option<int>,
    applicantName: string,
    gearPreset: JsonColumn,
    state: MemberState)

  datatype GearPreset = GearPreset(
    id: int,
    ownerId: string,
    visibility: GearPresetVisibility,
    preset: Dict,
    metadata: Option<Dict>)

  /** A party with its slots and members, keyed by id. */
  datatype PartyDetail = PartyDetail(
    party: Party,
    slots: map<int, Slot>,
    members: map<int, Member>)

  // ---------------------------------------------------------------------
  // Numeric bounds

  /** `capacity`, when present, is at least 1. */
  predicate ValidCapacity(capacity: Option<int>) {
    capacity.None? || capacity.value >= 1
  }

  /** `open_slot_count` and `ip_target`, when present, are not negative. */
  predicate ValidCount(count: Option<int>) {
    count.None? || count.value >= 0
  }

  // ---------------------------------------------------------------------
  // Request bodies

  /** A `PartyCreate` body as sent; `None` marks an omitted field. */
  datatype PartyCreateRequest = PartyCreateRequest(
    title: string,
    description: Option<string>,
    hostTip: Option<string>,
    visibility: Option<string>,
    schedule: Option<string>,
    capacity: Option<int>,
    openSlotCount: Option<int>,
    hostId: string,
    voiceChannelLink: Option<string>,
    status: Option<string>,
    hostName: string,
    inviteCode: Option<string>)

  /** A `PartyCreate` body after validation and defaults. */
  datatype PartyCreate = PartyCreate(
    title: string,
    description: Option<string>,
    hostTip: Option<string>,
    visibility: PartyVisibility,
    schedule: Option<string>,
    capacity: Option<int>,
    openSlotCount: Option<int>,
    hostId: string,
    voiceChannelLink: Option<string>,
    status: string,
    hostName: string,
    inviteCode: Option<string>)

  /** Validates a `PartyCreate` body: the visibility pattern and the numeric bounds. */
  function DecodePartyCreate(req: PartyCreateRequest): (r: Result<PartyCreate>)
    ensures r.Ok? <==>
      && (req.visibility.None? || req.visibility.value in {"public", "private"})
      && ValidCapacity(req.capacity)
      && ValidCount(req.openSlotCount)
    ensures r.Err? ==> r.error == Unprocessable
    ensures r.Ok? ==>
      var p := r.value;
      && (req.visibility.None? ==> p.visibility == Public)
      && (req.visibility.Some? ==> p.visibility.Name() == req.visibility.value)
      && (req.status.None? ==> p.status == "open")
      && (req.status.Some? ==> p.status == req.status.value)
      && p.title == req.title && p.description == req.description && p.hostTip == req.hostTip
      && p.schedule == req.schedule && p.capacity == req.capacity
      && p.openSlotCount == req.openSlotCount && p.hostId == req.hostId
      && p.voiceChannelLink == req.voiceChannelLink && p.hostName == req.hostName
      && p.inviteCode == req.inviteCode
  {
    var visibility := if req.visibility.None? then Some(DefaultVisibility) else ParseVisibility(req.visibility.value);
    if visibility.None? || !ValidCapacity(req.capacity) || !ValidCount(req.openSlotCount) then
      Err(Unprocessable)
    else
      Ok(PartyCreate(
        req.title, req.description, req.hostTip, visibility.value, req.schedule,
        req.capacity, req.openSlotCount, req.hostId, req.voiceChannelLink,
        if req.status.Some? then req.status.value else DefaultStatus,
        req.hostName, req.inviteCode))
  }

  /** A `PartySlotCreate` body (the fields of `SlotBase`). */
  datatype SlotCreate = SlotCreate(
    role: string,
    ipTarget: Option<int>,
    preset: Option<Dict>,
    gearPresetId: Option<int>)

  /** Validates a `PartySlotCreate` body: `ip_target`, when present, is not negative. */
  function DecodeSlotCreate(req: SlotCreate): (r: Result<SlotCreate>)
    ensures r.Ok? <==> (req.ipTarget.None? || req.ipTarget.value >= 0)
    ensures r.Ok? ==> r.value == req
    ensures r.Err? ==> r.error == Unprocessable
  {
    if ValidCount(req.ipTarget) then Ok(req) else Err(Unprocessable)
  }

  /** A `PartyMemberCreate` body; it has no validators. */
  datatype MemberCreate = MemberCreate(
    applicantName: string,
    gearPresetId: Option<int>,
    gearPreset: Option<Dict>,
    slotId: Option<int>,
    inviteCode: Option<string>)

  /** A `PartyMemberStateUpdate` body as sent. */
  datatype StateUpdateRequest = StateUpdateRequest(state: string, slotId: Option<int>)

  /** A `PartyMemberStateUpdate` body after validation. */
  datatype StateUpdate = StateUpdate(state: MemberState, slotId: Option<int>)

  /** Validates a `PartyMemberStateUpdate` body: the state is one of the six names. */
  function DecodeStateUpdate(req: StateUpdateRequest): (r: Result<StateUpdate>)
    ensures r.Ok? <==> req.state in {"waiting", "applied", "accepted", "locked", "rejected", "kicked"}
    ensures r.Ok? ==> r.value.state.Name() == req.state && r.value.slotId == req.slotId
    ensures r.Err? ==> r.error == Unprocessable
  {
    match ParseMemberState(req.state)
    case Some(st) => Ok(StateUpdate(st, req.slotId))
    case None => Err(Unprocessable)
  }
}
