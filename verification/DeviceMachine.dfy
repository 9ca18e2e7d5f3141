/**
 * addDevice and controlDevice (server/src/domain/devices.ts) as interleaved
 * database statements.
 *
 * A create runs its first idempotency lookup before it locks the account row;
 * from the lock to COMMIT it is alone for its account. A control is an UPDATE
 * with its audit row, and, when the UPDATE matched nothing, a later SELECT with a
 * snapshot of its own. The folded name stands for its own fingerprint, the digest
 * being injective.
 */
module DeviceMachine {
  import opened Basics

  type DeviceId = nat
  type FlightId = nat

  const MAX_DEVICES_PER_ACCOUNT: nat := 100
  const DEVICE_NAME_MAX: nat := 64

  datatype DeviceRow = DeviceRow(
    owner: string, name: string, folded: string, on: bool, version: int, createdAt: Time, updatedAt: Time)

  datatype KeyId = KeyId(account: string, key: string)

  datatype KeyRow = KeyRow(device: DeviceId, fingerprint: Option<string>)

  datatype AuditEvent =
    | Create(device: DeviceId)
    | Control(device: DeviceId, was: bool, on: bool, ok: bool)

  /** `name` is tidied for display and `folded` for comparison. */
  datatype AddRequest = AddRequest(owner: string, name: string, folded: string, key: Option<string>)

  datatype ControlRequest = ControlRequest(owner: string, device: DeviceId, on: bool, expected: int)

  datatype Tables = Tables(devices: map<DeviceId, DeviceRow>, keys: map<KeyId, KeyRow>, audit: seq<AuditEvent>)

  datatype Flight =
    | Adding(add: AddRequest, began: Time)
    /** Past the first lookup, waiting for the account row. */
    | Queued(add: AddRequest, began: Time)
    /** Holds the account row. */
    | Counting(add: AddRequest, began: Time)
    | Inserting(add: AddRequest, began: Time)
    /** The device, key and audit rows are inserted, visible to this transaction only. */
    | Inserted(add: AddRequest, began: Time, id: DeviceId)
    /** The name was taken; the second lookup is next. */
    | Clashed(add: AddRequest, began: Time)
    /** `seenBefore`: when the call began, the device had reached the expected version. */
    | Updating(control: ControlRequest, began: Time, seenBefore: bool)
    /** The UPDATE matched and holds the device row; its audit row is inserted. */
    | Updated(control: ControlRequest, began: Time, seenBefore: bool)
    /** The UPDATE matched nothing; the SELECT is next. */
    | Reading(control: ControlRequest, seenBefore: bool)
    /** Refused for its version; the refusal is audited in a transaction of its own. */
    | Rejecting(control: ControlRequest, current: bool)

  datatype Success =
    | Added(add: AddRequest, id: DeviceId)
    | Controlled(control: ControlRequest, seenBefore: bool, reported: DeviceRow, wrote: bool)

  datatype Error = ValidationFailed | LimitReached | NameConflict | NotFound | VersionConflict

  datatype Refusal = AddRefused(add: AddRequest, error: Error) | ControlRefused(control: ControlRequest, error: Error)

  datatype State = State(
    now: Time, tables: Tables, next: DeviceId, flights: map<FlightId, Flight>, nextFlight: FlightId,
    /** Every success answered, and every refusal, in order. No action reads them. */
    log: seq<Success>, refused: seq<Refusal>)

  datatype Action =
    | Tick(elapsed: nat)
    | BeginAdd(add: AddRequest)
    | LookUp(f: FlightId)
    | LockAccount(f: FlightId)
    | Count(f: FlightId)
    | Insert(f: FlightId)
    | LookAgain(f: FlightId)
    | CommitAdd(f: FlightId)
    | BeginControl(control: ControlRequest)
    | Update(f: FlightId)
    | CommitUpdate(f: FlightId)
    | Read(f: FlightId)
    | AuditRejection(f: FlightId)
    | Lose(f: FlightId)

  predicate HoldsAccount(fl: Flight, owner: string) {
    (fl.Counting? || fl.Inserting? || fl.Inserted? || fl.Clashed?) && fl.add.owner == owner
  }

  predicate HoldsDevice(fl: Flight, device: DeviceId) { fl.Updated? && fl.control.device == device }

  /** The WHERE clause of controlDevice's UPDATE. */
  predicate Matches(t: Tables, c: ControlRequest) {
    && c.device in t.devices
    && t.devices[c.device].owner == c.owner
    && t.devices[c.device].version == c.expected
    && t.devices[c.device].on != c.on
  }

  function Named(t: Tables, owner: string, folded: string): set<DeviceId> {
    set d | d in t.devices && t.devices[d].owner == owner && t.devices[d].folded == folded
  }

  function OwnedBy(t: Tables, owner: string): set<DeviceId> {
    set d | d in t.devices && t.devices[d].owner == owner
  }

  ghost predicate Enabled(s: State, a: Action) {
    match a
    case Tick(_) => true
    case BeginAdd(_) => true
    case LookUp(f) => f in s.flights && s.flights[f].Adding?
    case LockAccount(f) =>
      && f in s.flights && s.flights[f].Queued?
      && forall h :: h in s.flights ==> !HoldsAccount(s.flights[h], s.flights[f].add.owner)
    case Count(f) => f in s.flights && s.flights[f].Counting?
    case Insert(f) => f in s.flights && s.flights[f].Inserting?
    case LookAgain(f) => f in s.flights && s.flights[f].Clashed?
    case CommitAdd(f) => f in s.flights && s.flights[f].Inserted?
    case BeginControl(_) => true
    case Update(f) =>
      && f in s.flights && s.flights[f].Updating?
      && (Matches(s.tables, s.flights[f].control) ==>
            forall h :: h in s.flights ==> !HoldsDevice(s.flights[h], s.flights[f].control.device))
    case CommitUpdate(f) => f in s.flights && s.flights[f].Updated?
    case Read(f) => f in s.flights && s.flights[f].Reading?
    case AuditRejection(f) => f in s.flights && s.flights[f].Rejecting?
    case Lose(f) => f in s.flights
  }

  /** What findByIdempotencyKey says. */
  datatype Lookup = NotSeen | SameRequest(device: DeviceId) | DifferentRequest

  function FindByKey(t: Tables, add: AddRequest): Lookup {
    if add.key.None? || add.key.value == "" then NotSeen
    else
      var id := KeyId(add.owner, add.key.value);
      if id !in t.keys || t.keys[id].device !in t.devices then NotSeen
      else if t.keys[id].fingerprint.Some? && t.keys[id].fingerprint.value != add.folded then DifferentRequest
      else SameRequest(t.keys[id].device)
  }

  /** The rows a create commits; a key already taken stays as it was. */
  function AddRows(t: Tables, add: AddRequest, id: DeviceId, began: Time): Tables {
    var keyed := add.key.Some? && add.key.value != "" && KeyId(add.owner, add.key.value) !in t.keys;
    Tables(
      t.devices[id := DeviceRow(add.owner, add.name, add.folded, false, 1, began, began)],
      if keyed then t.keys[KeyId(add.owner, add.key.value) := KeyRow(id, Some(add.folded))] else t.keys,
      t.audit + [Create(id)])
  }

  function Changed(row: DeviceRow, on: bool, began: Time): DeviceRow {
    row.(on := on, version := row.version + 1, updatedAt := began)
  }

  function ControlRows(t: Tables, c: ControlRequest, began: Time): Tables
    requires c.device in t.devices
  {
    t.(devices := t.devices[c.device := Changed(t.devices[c.device], c.on, began)],
       audit := t.audit + [Control(c.device, !c.on, c.on, true)])
  }

  function Launch(s: State, fl: Flight): State {
    s.(flights := s.flights[s.nextFlight := fl], nextFlight := s.nextFlight + 1)
  }

  function Advance(s: State, f: FlightId, fl: Flight): State { s.(flights := s.flights[f := fl]) }

  function Finish(s: State, f: FlightId): State { s.(flights := s.flights - {f}) }

  function Succeed(s: State, f: FlightId, how: Success): State { Finish(s, f).(log := s.log + [how]) }

  function Refuse(s: State, f: FlightId, how: Refusal): State { Finish(s, f).(refused := s.refused + [how]) }

  ghost function Next(s: State, a: Action): State
    requires Enabled(s, a)
  {
    match a
    case Tick(elapsed) => s.(now := s.now + elapsed)
    case BeginAdd(add) =>
      if add.name == "" || |add.name| > DEVICE_NAME_MAX then s.(refused := s.refused + [AddRefused(add, ValidationFailed)])
      else Launch(s, Adding(add, s.now))
    case LookUp(f) =>
      var fl := s.flights[f];
      (match FindByKey(s.tables, fl.add)
       case NotSeen => Advance(s, f, Queued(fl.add, fl.began))
       case SameRequest(id) => Succeed(s, f, Added(fl.add, id))
       case DifferentRequest => Refuse(s, f, AddRefused(fl.add, ValidationFailed)))
    case LockAccount(f) => Advance(s, f, Counting(s.flights[f].add, s.flights[f].began))
    case Count(f) =>
      if |OwnedBy(s.tables, s.flights[f].add.owner)| >= MAX_DEVICES_PER_ACCOUNT then Refuse(s, f, AddRefused(s.flights[f].add, LimitReached))
      else Advance(s, f, Inserting(s.flights[f].add, s.flights[f].began))
    case Insert(f) =>
      var fl := s.flights[f];
      if Named(s.tables, fl.add.owner, fl.add.folded) != {} then Advance(s, f, Clashed(fl.add, fl.began))
      else Advance(s, f, Inserted(fl.add, fl.began, s.next)).(next := s.next + 1)
    case LookAgain(f) =>
      var fl := s.flights[f];
      (match FindByKey(s.tables, fl.add)
       case SameRequest(id) => Succeed(s, f, Added(fl.add, id))
       case DifferentRequest => Refuse(s, f, AddRefused(fl.add, ValidationFailed))
       case NotSeen => Refuse(s, f, AddRefused(fl.add, NameConflict)))
    case CommitAdd(f) =>
      var fl := s.flights[f];
      Succeed(s, f, Added(fl.add, fl.id)).(tables := AddRows(s.tables, fl.add, fl.id, fl.began))
    case BeginControl(c) =>
      if c.expected < 1 then s.(refused := s.refused + [ControlRefused(c, ValidationFailed)])
      else Launch(s, Updating(c, s.now, c.device in s.tables.devices && c.expected <= s.tables.devices[c.device].version))
    case Update(f) =>
      var fl := s.flights[f];
      if Matches(s.tables, fl.control) then Advance(s, f, Updated(fl.control, fl.began, fl.seenBefore))
      else Advance(s, f, Reading(fl.control, fl.seenBefore))
    case CommitUpdate(f) =>
      var fl := s.flights[f];
      if fl.control.device !in s.tables.devices then Finish(s, f)
      else
        var tables := ControlRows(s.tables, fl.control, fl.began);
        Succeed(s, f, Controlled(fl.control, fl.seenBefore, tables.devices[fl.control.device], true)).(tables := tables)
    case Read(f) =>
      var fl := s.flights[f];
      var d := fl.control.device;
      if d !in s.tables.devices || s.tables.devices[d].owner != fl.control.owner then Refuse(s, f, ControlRefused(fl.control, NotFound))
      else if s.tables.devices[d].version != fl.control.expected then
        Advance(s, f, Rejecting(fl.control, s.tables.devices[d].on))
      else Succeed(s, f, Controlled(fl.control, fl.seenBefore, s.tables.devices[d], false))
    case AuditRejection(f) =>
      var fl := s.flights[f];
      var event := Control(fl.control.device, fl.current, fl.control.on, false);
      Refuse(s, f, ControlRefused(fl.control, VersionConflict)).(tables := s.tables.(audit := s.tables.audit + [event]))
    case Lose(f) => Finish(s, f)
  }

  ghost predicate Start(s: State) {
    s == State(s.now, Tables(map[], map[], []), 0, map[], 0, [], [])
  }

  ghost predicate Runs(s: State, actions: seq<Action>, end: State)
    decreases |actions|
  {
    if actions == [] then end == s
    else Enabled(s, actions[0]) && Runs(Next(s, actions[0]), actions[1..], end)
  }

  ghost predicate Reachable(end: State) {
    exists s, actions :: Start(s) && Runs(s, actions, end)
  }

  /* ------------------------------------------------------------------- runs */

  lemma RunNothing(s: State)
    ensures Runs(s, [], s)
  {
  }

  lemma Take(s: State, a: Action) returns (t: State)
    requires Enabled(s, a)
    ensures t == Next(s, a) && Runs(s, [a], t)
  {
    t := Next(s, a);
    assert Runs(t, [a][1..], t);
  }

  lemma {:induction false} RunThen(s: State, actions: seq<Action>, mid: State, more: seq<Action>, end: State)
    requires Runs(s, actions, mid) && Runs(mid, more, end)
    ensures Runs(s, actions + more, end)
    decreases |actions|
  {
    hide Next, Enabled;
    if actions == [] {
      assert actions + more == more;
    } else {
      RunThen(Next(s, actions[0]), actions[1..], mid, more, end);
      assert (actions + more)[1..] == actions[1..] + more;
    }
  }

  lemma RunAlso(s: State, so: seq<Action>, mid: State, a: Action) returns (more: seq<Action>, end: State)
    requires Runs(s, so, mid) && Enabled(mid, a)
    ensures more == so + [a] && end == Next(mid, a) && Runs(s, more, end)
  {
    hide Next, Enabled;
    end := Take(mid, a);
    RunThen(s, so, mid, [a], end);
    more := so + [a];
  }

  /* ------------------------------------------------------- the audited life */

  /** A device as the audit log alone tells it. */
  datatype Life = Unborn | Alive(on: bool, version: int) | Broken

  /** One audit event: a create starts a device off at version 1; an accepted control must toggle it. */
  function Live(life: Life, e: AuditEvent, d: DeviceId): Life {
    if e.device != d then life
    else
      match e
      case Create(_) => if life.Unborn? then Alive(false, 1) else Broken
      case Control(_, was, on, ok) =>
        if !ok then life
        else if life.Alive? && life.on == was && on != was then Alive(on, life.version + 1)
        else Broken
  }

  function Lived(audit: seq<AuditEvent>, d: DeviceId): Life {
    if audit == [] then Unborn else Live(Lived(audit[..|audit| - 1], d), audit[|audit| - 1], d)
  }

  predicate Accepted(e: AuditEvent, d: DeviceId) { e.Control? && e.ok && e.device == d }

  function AcceptedControls(audit: seq<AuditEvent>, d: DeviceId): nat {
    if audit == [] then 0
    else AcceptedControls(audit[..|audit| - 1], d) + if Accepted(audit[|audit| - 1], d) then 1 else 0
  }

  lemma LivedExtends(audit: seq<AuditEvent>, e: AuditEvent, d: DeviceId)
    ensures Lived(audit + [e], d) == Live(Lived(audit, d), e, d)
  {
    assert (audit + [e])[..|audit|] == audit;
  }

  /** A life the log tells without contradiction: one version per accepted control, on exactly at even versions. */
  lemma {:induction false} LivedCounts(audit: seq<AuditEvent>, d: DeviceId)
    ensures Lived(audit, d).Alive? ==>
      var life := Lived(audit, d);
      life.version == 1 + AcceptedControls(audit, d) && (life.on <==> life.version % 2 == 0)
    ensures Lived(audit, d).Unborn? ==> AcceptedControls(audit, d) == 0
    decreases |audit|
  {
    if audit != [] { LivedCounts(audit[..|audit| - 1], d); }
  }
}
