/**
 * Devices, idempotency keys and the audit log as the object the server updates, with
 * addDevice and controlDevice run alone (server/src/domain/devices.ts).
 */
module DeviceStores {
  import opened Basics
  import opened DeviceMachine
  import T = DeviceTheorems

  datatype Answer<+V> = Done(value: V) | Failed(error: Error)

  datatype Made = Made(id: DeviceId, row: DeviceRow)

  function AddAlone(t: Tables, add: AddRequest, id: DeviceId, now: Time): (Tables, Answer<Made>) {
    if add.name == "" || |add.name| > DEVICE_NAME_MAX then (t, Failed(ValidationFailed))
    else
      match FindByKey(t, add)
      case DifferentRequest => (t, Failed(ValidationFailed))
      case SameRequest(device) => (t, if device in t.devices then Done(Made(device, t.devices[device])) else Failed(NotFound))
      case NotSeen =>
        if |OwnedBy(t, add.owner)| >= MAX_DEVICES_PER_ACCOUNT then (t, Failed(LimitReached))
        else if Named(t, add.owner, add.folded) != {} then (t, Failed(NameConflict))
        else
          var after := AddRows(t, add, id, now);
          (after, Done(Made(id, after.devices[id])))
  }

  function ControlAlone(t: Tables, c: ControlRequest, now: Time): (Tables, Answer<DeviceRow>) {
    if c.expected < 1 then (t, Failed(ValidationFailed))
    else if Matches(t, c) then
      var after := ControlRows(t, c, now);
      (after, Done(after.devices[c.device]))
    else if c.device !in t.devices || t.devices[c.device].owner != c.owner then (t, Failed(NotFound))
    else if t.devices[c.device].version != c.expected then
      (t.(audit := t.audit + [Control(c.device, t.devices[c.device].on, c.on, false)]), Failed(VersionConflict))
    else (t, Done(t.devices[c.device]))
  }

  function GetAlone(t: Tables, owner: string, d: DeviceId): Answer<DeviceRow> {
    if d in t.devices && t.devices[d].owner == owner then Done(t.devices[d]) else Failed(NotFound)
  }

  /** The tables with everybody else's devices taken out. */
  function OwnView(t: Tables, owner: string): Tables {
    t.(devices := map d | d in t.devices && t.devices[d].owner == owner :: t.devices[d])
  }

  class DeviceStore {
    var devices: map<DeviceId, DeviceRow>
    var keys: map<KeyId, KeyRow>
    var audit: seq<AuditEvent>
    var supply: DeviceId

    ghost function Contents(): Tables reads this { Tables(devices, keys, audit) }

    ghost predicate Valid() reads this {
      T.TablesOk(Contents()) && forall d :: d in devices ==> d < supply
    }

    constructor ()
      ensures Valid() && Contents() == Tables(map[], map[], [])
    {
      devices, keys, audit, supply := map[], map[], [], 0;
      new;
      EmptyIsOk();
    }

    /** The answer is a reading of what the owner may see, and of nothing else. */
    method GetDevice(owner: string, d: DeviceId) returns (answer: Answer<DeviceRow>)
      ensures answer == GetAlone(OwnView(Contents(), owner), owner, d)
      ensures answer.Done? ==> answer.value.owner == owner
    {
      if d !in devices || devices[d].owner != owner { return Failed(NotFound); }
      return Done(devices[d]);
    }

    method FindByIdempotencyKey(add: AddRequest) returns (found: Lookup)
      ensures found == FindByKey(Contents(), add)
      ensures Valid() && found.SameRequest? ==> found.device in devices && devices[found.device].owner == add.owner && devices[found.device].folded == add.folded
    {
      if add.key.None? || add.key.value == "" { return NotSeen; }
      var id := KeyId(add.owner, add.key.value);
      if id !in keys || keys[id].device !in devices { return NotSeen; }
      if keys[id].fingerprint.Some? && keys[id].fingerprint.value != add.folded { return DifferentRequest; }
      return SameRequest(keys[id].device);
    }

    method AddDevice(add: AddRequest, now: Time) returns (answer: Answer<Made>)
      requires Valid()
      modifies this
      ensures Valid()
      ensures (Contents(), answer) == AddAlone(old(Contents()), add, old(supply), now)
    {
      if |add.name| == 0 { return Failed(ValidationFailed); }
      if |add.name| > DEVICE_NAME_MAX { return Failed(ValidationFailed); }
      var found := FindByIdempotencyKey(add);
      if found.DifferentRequest? { return Failed(ValidationFailed); }
      if found.SameRequest? { return Done(Made(found.device, devices[found.device])); }
      var owned := set d | d in devices && devices[d].owner == add.owner;
      assert owned == OwnedBy(Contents(), add.owner);
      if |owned| >= MAX_DEVICES_PER_ACCOUNT { return Failed(LimitReached); }
      var namesakes := set d | d in devices && devices[d].owner == add.owner && devices[d].folded == add.folded;
      assert namesakes == Named(Contents(), add.owner, add.folded);
      if namesakes != {} {
        return Failed(NameConflict);
      }
      var id := InsertDevice(add, now);
      return Done(Made(id, devices[id]));
    }

    /** The three INSERTs, once there is room and the name is free. */
    method InsertDevice(add: AddRequest, now: Time) returns (id: DeviceId)
      requires Valid() && |OwnedBy(Contents(), add.owner)| < MAX_DEVICES_PER_ACCOUNT && Named(Contents(), add.owner, add.folded) == {}
      modifies this
      ensures Valid() && id == old(supply) && id in devices
      ensures Contents() == AddRows(old(Contents()), add, id, now)
    {
      hide T.TablesOk, OwnedBy, Named;
      T.AddedTables(Contents(), add, supply, now);
      id := supply;
      supply := supply + 1;
      devices := devices[id := DeviceRow(add.owner, add.name, add.folded, false, 1, now, now)];
      if add.key.Some? && add.key.value != "" && KeyId(add.owner, add.key.value) !in keys {
        keys := keys[KeyId(add.owner, add.key.value) := KeyRow(id, Some(add.folded))];
      }
      audit := audit + [Create(id)];
    }

    method ControlDevice(c: ControlRequest, now: Time) returns (answer: Answer<DeviceRow>)
      requires Valid()
      modifies this
      ensures Valid()
      ensures (Contents(), answer) == ControlAlone(old(Contents()), c, now)
      ensures answer.Done? ==> answer.value.on == c.on && answer.value.version in {c.expected, c.expected + 1}
    {
      if c.expected < 1 { return Failed(ValidationFailed); }
      if c.device in devices && devices[c.device].owner == c.owner && devices[c.device].version == c.expected && devices[c.device].on != c.on {
        T.ControlledTables(Contents(), c, now);
        devices := devices[c.device := Changed(devices[c.device], c.on, now)];
        audit := audit + [Control(c.device, !c.on, c.on, true)];
        return Done(devices[c.device]);
      }
      if c.device !in devices || devices[c.device].owner != c.owner { return Failed(NotFound); }
      if devices[c.device].version != c.expected {
        T.RejectedTables(Contents(), Control(c.device, devices[c.device].on, c.on, false));
        audit := audit + [Control(c.device, devices[c.device].on, c.on, false)];
        return Failed(VersionConflict);
      }
      return Done(devices[c.device]);
    }
  }

  /* ------------------------------------------------------- who gets what answer */

  /** How many devices an owner has. */
  ghost function Holding(t: Tables, owner: string): nat {
    |set d | d in t.devices && t.devices[d].owner == owner|
  }

  /**
   * A create whose key, if it has one, is not in the table: refused for its name if that is
   * empty or longer than 64 characters, for the limit if the owner has 100 devices or
   * more, for a conflict if there is room but one of them has this folded name; and
   * otherwise done, with one device more, off and at version 1, and its key kept.
   */
  lemma NewDeviceIsAnsweredExactly(t: Tables, add: AddRequest, id: DeviceId, now: Time)
    requires add.key.Some? ==> KeyId(add.owner, add.key.value) !in t.keys
    ensures var (after, answer) := AddAlone(t, add, id, now);
            var named := add.name != "" && |add.name| <= 64;
            var room := Holding(t, add.owner) < 100;
            var taken := exists d :: d in t.devices && t.devices[d].owner == add.owner && t.devices[d].folded == add.folded;
            && (answer == Failed(ValidationFailed) <==> !named)
            && (answer == Failed(LimitReached) <==> named && !room)
            && (answer == Failed(NameConflict) <==> named && room && taken)
            && (answer.Done? <==> named && room && !taken)
            && (answer.Failed? ==> after == t)
            && (answer.Done? ==>
                  var row := DeviceRow(add.owner, add.name, add.folded, false, 1, now, now);
                  && answer.value == Made(id, row) && after.devices == t.devices[id := row] && after.audit == t.audit + [Create(id)]
                  && after.keys == if add.key.Some? && add.key.value != "" then t.keys[KeyId(add.owner, add.key.value) := KeyRow(id, Some(add.folded))] else t.keys)
  {
    assert OwnedBy(t, add.owner) == set d | d in t.devices && t.devices[d].owner == add.owner;
    if d :| d in t.devices && t.devices[d].owner == add.owner && t.devices[d].folded == add.folded {
      assert d in Named(t, add.owner, add.folded);
    }
  }

  /** A create whose key is in the table changes nothing: it gets the key's device, or is refused if the key was used for another name. */
  lemma KeyedDeviceIsAnsweredExactly(t: Tables, add: AddRequest, id: DeviceId, now: Time)
    requires T.TablesOk(t) && add.key.Some? && add.key.value != "" && KeyId(add.owner, add.key.value) in t.keys
    ensures var (after, answer) := AddAlone(t, add, id, now);
            var made := t.keys[KeyId(add.owner, add.key.value)].device;
            && after == t && made in t.devices && t.devices[made].owner == add.owner
            && answer == if add.name != "" && |add.name| <= 64 && t.devices[made].folded == add.folded then Done(Made(made, t.devices[made]))
                         else Failed(ValidationFailed)
  {
    assert T.KeysOk(t);
  }

  /**
   * Run alone, a control is refused for a version below 1, as not found if the owner has no
   * such device, and for a conflict, which is audited, if the device is at another
   * version; otherwise it is done, and writes if and only if the state differs.
   */
  lemma ControlIsAnsweredExactly(t: Tables, c: ControlRequest, now: Time)
    ensures var (after, answer) := ControlAlone(t, c, now);
            var own := c.device in t.devices && t.devices[c.device].owner == c.owner;
            && (answer == Failed(ValidationFailed) <==> c.expected < 1)
            && (answer == Failed(NotFound) <==> c.expected >= 1 && !own)
            && (answer == Failed(VersionConflict) <==> c.expected >= 1 && own && t.devices[c.device].version != c.expected)
            && (answer.Done? <==> c.expected >= 1 && own && t.devices[c.device].version == c.expected)
            && (answer.Done? ==>
                  var row := t.devices[c.device];
                  && answer.value == (if row.on == c.on then row else row.(on := c.on, version := c.expected + 1, updatedAt := now))
                  && after == if row.on == c.on then t
                              else t.(devices := t.devices[c.device := answer.value], audit := t.audit + [Control(c.device, row.on, c.on, true)]))
            && (answer == Failed(VersionConflict) ==> after == t.(audit := t.audit + [Control(c.device, t.devices[c.device].on, c.on, false)]))
            && (answer.Failed? && answer.error != VersionConflict ==> after == t)
  {
  }

  lemma EmptyIsOk()
    ensures T.TablesOk(Tables(map[], map[], []))
  {
    var t := Tables(map[], map[], []);
    forall owner ensures OwnedBy(t, owner) == {} {}
  }

  /**
   * Somebody else's device is absent: reading it, or controlling it, is answered exactly
   * as if no device had that id, and leaves everything as it is.
   */
  lemma ForeignDeviceIsAbsent(t: Tables, owner: string, d: DeviceId, c: ControlRequest, now: Time)
    requires d in t.devices && t.devices[d].owner != owner && c.owner == owner && c.device == d
    ensures var absent := t.(devices := t.devices - {d});
            && GetAlone(t, owner, d) == GetAlone(absent, owner, d) == Failed(NotFound)
            && ControlAlone(t, c, now).1 == ControlAlone(absent, c, now).1
            && ControlAlone(t, c, now).0 == t
  {
  }

  /** And two worlds that differ only in other people's devices give every reader and every controller the same answer. */
  lemma OthersDevicesAreInvisible(t: Tables, u: Tables, owner: string, d: DeviceId, c: ControlRequest, now: Time)
    requires OwnView(t, owner) == OwnView(u, owner) && c.owner == owner
    ensures GetAlone(t, owner, d) == GetAlone(u, owner, d)
    ensures ControlAlone(t, c, now).1 == ControlAlone(u, c, now).1
  {
    assert d in OwnView(t, owner).devices <==> d in OwnView(u, owner).devices;
    assert c.device in OwnView(t, owner).devices <==> c.device in OwnView(u, owner).devices;
    if d in OwnView(t, owner).devices { assert OwnView(t, owner).devices[d] == OwnView(u, owner).devices[d]; }
    if c.device in OwnView(t, owner).devices { assert OwnView(t, owner).devices[c.device] == OwnView(u, owner).devices[c.device]; }
  }

  /** A create sent again with its key gets the device it made and makes no other; another request under that key is refused. */
  lemma RepeatedCreate(t: Tables, add: AddRequest, id: DeviceId, now: Time, again: AddRequest, next: DeviceId, later: Time)
    requires add.key.Some? && add.key.value != "" && again.owner == add.owner && again.key == add.key
    requires AddAlone(t, add, id, now).1.Done? && FindByKey(t, add).NotSeen? && KeyId(add.owner, add.key.value) !in t.keys
    requires again.name != "" && |again.name| <= DEVICE_NAME_MAX
    ensures var (first, made) := AddAlone(t, add, id, now);
            AddAlone(first, again, next, later) == (first, if again.folded == add.folded then Done(Made(id, first.devices[id])) else Failed(ValidationFailed))
  {
  }

  /** A change sent again after it applied conflicts, and leaves the device as it is. */
  lemma RepeatedControl(t: Tables, c: ControlRequest, now: Time, later: Time)
    requires c.expected >= 1 && Matches(t, c)
    ensures var (first, done) := ControlAlone(t, c, now);
            var (second, repeated) := ControlAlone(first, c, later);
            done.Done? && repeated == Failed(VersionConflict) && second.devices == first.devices
  {
  }

  /* ------------------------------------------- the store runs the statements */

  /** The create the store performs is one of the machine's runs. */
  lemma AddIsARun(s: State, add: AddRequest) returns (actions: seq<Action>, end: State)
    requires s.flights == map[]
    ensures Runs(s, actions, end) && end.flights == map[] && end.now == s.now
    ensures end.tables == AddAlone(s.tables, add, s.next, s.now).0
    ensures end.log == s.log + match AddAlone(s.tables, add, s.next, s.now).1
      case Done(made) => [Success.Added(add, made.id)]
      case Failed(_) => []
    ensures end.refused == s.refused + match AddAlone(s.tables, add, s.next, s.now).1
      case Done(_) => []
      case Failed(error) => [AddRefused(add, error)]
  {
    RunNothing(s);
    hide Runs, AddRows, OwnedBy, Named;
    var f := s.nextFlight;
    actions, end := RunAlso(s, [], s, BeginAdd(add));
    if add.name != "" && |add.name| <= DEVICE_NAME_MAX {
      actions, end := RunAlso(s, actions, end, LookUp(f));
      if FindByKey(s.tables, add).NotSeen? {
        actions, end := RunAlso(s, actions, end, LockAccount(f));
        actions, end := RunAlso(s, actions, end, Count(f));
        if |OwnedBy(s.tables, add.owner)| < MAX_DEVICES_PER_ACCOUNT {
          actions, end := RunAlso(s, actions, end, Insert(f));
          if Named(s.tables, add.owner, add.folded) != {} {
            actions, end := RunAlso(s, actions, end, LookAgain(f));
          } else {
            actions, end := RunAlso(s, actions, end, CommitAdd(f));
          }
        }
      }
    }
  }

  /** And so is the control. */
  lemma ControlIsARun(s: State, c: ControlRequest) returns (actions: seq<Action>, end: State)
    requires s.flights == map[]
    ensures Runs(s, actions, end) && end.flights == map[] && end.now == s.now
    ensures end.tables == ControlAlone(s.tables, c, s.now).0
    ensures end.log == s.log + match ControlAlone(s.tables, c, s.now).1
      case Done(row) => [Controlled(c, c.device in s.tables.devices && c.expected <= s.tables.devices[c.device].version, row, Matches(s.tables, c))]
      case Failed(_) => []
    ensures end.refused == s.refused + match ControlAlone(s.tables, c, s.now).1
      case Done(_) => []
      case Failed(error) => [ControlRefused(c, error)]
  {
    hide Runs;
    var f := s.nextFlight;
    RunNothing(s);
    if c.expected < 1 {
      actions, end := RunAlso(s, [], s, BeginControl(c));
    } else {
      actions, end := UpdateTried(s, c);
      if Matches(s.tables, c) {
        actions, end := RunAlso(s, actions, end, CommitUpdate(f));
      } else {
        actions, end := RunAlso(s, actions, end, Read(f));
        if f in end.flights { actions, end := RunAlso(s, actions, end, AuditRejection(f)); }
      }
    }
  }

  lemma UpdateTried(s: State, c: ControlRequest) returns (actions: seq<Action>, end: State)
    requires s.flights == map[] && c.expected >= 1
    ensures Runs(s, actions, end)
    ensures var seen := c.device in s.tables.devices && c.expected <= s.tables.devices[c.device].version;
            end == Launch(s, if Matches(s.tables, c) then Updated(c, s.now, seen) else Reading(c, seen))
  {
    hide Runs;
    RunNothing(s);
    actions, end := RunAlso(s, [], s, BeginControl(c));
    actions, end := RunAlso(s, actions, end, Update(s.nextFlight));
  }
}
