/** What holds of devices, keys and the audit log under every interleaving. */
module DeviceTheorems {
  import opened Basics
  import opened DeviceMachine

  ghost predicate DevicesOk(t: Tables) {
    && (forall d, e :: d in t.devices && e in t.devices && t.devices[d].owner == t.devices[e].owner ==>
          t.devices[d].folded == t.devices[e].folded ==> d == e)
    && (forall owner :: |OwnedBy(t, owner)| <= MAX_DEVICES_PER_ACCOUNT)
  }

  ghost predicate KeysOk(t: Tables) {
    forall k :: k in t.keys ==>
      && t.keys[k].device in t.devices
      && t.devices[t.keys[k].device].owner == k.account
      && t.keys[k].fingerprint == Some(t.devices[t.keys[k].device].folded)
  }

  /** The audit log tells of each device exactly what its row says. */
  ghost predicate LifeOk(t: Tables) {
    forall d :: Lived(t.audit, d) ==
      if d in t.devices then Alive(t.devices[d].on, t.devices[d].version) else Unborn
  }

  ghost predicate SupplyOk(s: State) {
    && (forall d :: d in s.tables.devices ==> d < s.next)
    && (forall f :: f in s.flights ==> f < s.nextFlight)
    && (forall f :: f in s.flights && s.flights[f].Inserted? ==> s.flights[f].id < s.next && s.flights[f].id !in s.tables.devices)
    && (forall f, h :: f in s.flights && h in s.flights && s.flights[f].Inserted? && s.flights[h].Inserted? ==>
          s.flights[f].id == s.flights[h].id ==> f == h)
  }

  ghost predicate LocksOk(s: State) {
    && (forall f, h, owner :: f in s.flights && h in s.flights && HoldsAccount(s.flights[f], owner) && HoldsAccount(s.flights[h], owner) ==> f == h)
    && (forall f, h, d :: f in s.flights && h in s.flights && HoldsDevice(s.flights[f], d) && HoldsDevice(s.flights[h], d) ==> f == h)
  }

  /** The device had reached the expected version when the call began, and versions never go back. */
  ghost predicate Reached(t: Tables, c: ControlRequest) {
    c.device in t.devices && c.expected <= t.devices[c.device].version
  }

  ghost predicate FlightOk(t: Tables, fl: Flight) {
    match fl
    case Inserting(add, _) => |OwnedBy(t, add.owner)| < MAX_DEVICES_PER_ACCOUNT
    case Inserted(add, _, id) => |OwnedBy(t, add.owner)| < MAX_DEVICES_PER_ACCOUNT && Named(t, add.owner, add.folded) == {}
    case Updating(c, _, seen) => seen ==> Reached(t, c)
    case Updated(c, _, seen) => Matches(t, c)
    case Reading(c, seen) =>
      seen ==>
        && Reached(t, c)
        && (t.devices[c.device].owner == c.owner && t.devices[c.device].version == c.expected ==> t.devices[c.device].on == c.on)
    case _ => true
  }

  ghost predicate FlightsOk(s: State) {
    forall f :: f in s.flights ==> FlightOk(s.tables, s.flights[f])
  }

  ghost predicate SuccessOk(t: Tables, e: Success) {
    match e
    case Added(add, id) => id in t.devices && t.devices[id].owner == add.owner && t.devices[id].folded == add.folded
    case Controlled(c, seen, reported, wrote) =>
      && c.device in t.devices
      && reported.owner == c.owner && reported.owner == t.devices[c.device].owner
      && reported.version <= t.devices[c.device].version
      && (reported.on <==> reported.version % 2 == 0)
      && (if wrote then reported.version == c.expected + 1 && reported.on == c.on
          else reported.version == c.expected && (seen ==> reported.on == c.on))
  }

  predicate Wrote(e: Success, device: DeviceId, expected: int) {
    e.Controlled? && e.wrote && e.control.device == device && e.control.expected == expected
  }

  ghost predicate LogOk(s: State) {
    && (forall e :: e in s.log ==> SuccessOk(s.tables, e))
    && (forall i, j :: 0 <= i < j < |s.log| && s.log[i].Controlled? && s.log[i].wrote ==>
          !Wrote(s.log[j], s.log[i].control.device, s.log[i].control.expected))
  }

  ghost predicate TablesOk(t: Tables) { DevicesOk(t) && KeysOk(t) && LifeOk(t) }

  ghost predicate Inv(s: State) {
    TablesOk(s.tables) && SupplyOk(s) && LocksOk(s) && FlightsOk(s) && LogOk(s)
  }

  /* --------------------------------------------------------- table by table */

  /** Rows only appear, and only advance. */
  ghost predicate Advances(t: Tables, u: Tables) {
    forall d :: d in t.devices ==>
      && d in u.devices && u.devices[d].owner == t.devices[d].owner && u.devices[d].folded == t.devices[d].folded
      && t.devices[d].version <= u.devices[d].version
      && (t.devices[d].version == u.devices[d].version ==> u.devices[d].on == t.devices[d].on)
  }

  lemma AddedOwned(t: Tables, add: AddRequest, id: DeviceId, began: Time, owner: string)
    requires id !in t.devices
    ensures OwnedBy(AddRows(t, add, id, began), owner) ==
      (if owner == add.owner then OwnedBy(t, owner) + {id} else OwnedBy(t, owner))
  {
  }

  lemma AddedDevices(t: Tables, add: AddRequest, id: DeviceId, began: Time)
    requires DevicesOk(t) && id !in t.devices
    requires |OwnedBy(t, add.owner)| < MAX_DEVICES_PER_ACCOUNT && Named(t, add.owner, add.folded) == {}
    ensures DevicesOk(AddRows(t, add, id, began))
  {
    var u := AddRows(t, add, id, began);
    forall owner ensures |OwnedBy(u, owner)| <= MAX_DEVICES_PER_ACCOUNT { AddedOwned(t, add, id, began, owner); }
    forall d | d in t.devices && t.devices[d].owner == add.owner ensures t.devices[d].folded != add.folded {
      assert d !in Named(t, add.owner, add.folded);
    }
  }

  lemma AddedKeys(t: Tables, add: AddRequest, id: DeviceId, began: Time)
    requires KeysOk(t) && id !in t.devices
    ensures KeysOk(AddRows(t, add, id, began)) && Advances(t, AddRows(t, add, id, began))
  {
  }

  lemma AddedLife(t: Tables, add: AddRequest, id: DeviceId, began: Time)
    requires LifeOk(t) && id !in t.devices
    ensures LifeOk(AddRows(t, add, id, began))
  {
    var u := AddRows(t, add, id, began);
    forall d ensures Lived(u.audit, d) == if d in u.devices then Alive(u.devices[d].on, u.devices[d].version) else Unborn {
      LivedExtends(t.audit, Create(id), d);
    }
  }

  lemma AddedTables(t: Tables, add: AddRequest, id: DeviceId, began: Time)
    requires TablesOk(t) && id !in t.devices
    requires |OwnedBy(t, add.owner)| < MAX_DEVICES_PER_ACCOUNT && Named(t, add.owner, add.folded) == {}
    ensures TablesOk(AddRows(t, add, id, began)) && Advances(t, AddRows(t, add, id, began))
  {
    hide DevicesOk, KeysOk, LifeOk, AddRows, Advances, OwnedBy, Named;
    AddedDevices(t, add, id, began);
    AddedKeys(t, add, id, began);
    AddedLife(t, add, id, began);
  }

  lemma ControlledTables(t: Tables, c: ControlRequest, began: Time)
    requires TablesOk(t) && Matches(t, c)
    ensures TablesOk(ControlRows(t, c, began)) && Advances(t, ControlRows(t, c, began))
  {
    var u := ControlRows(t, c, began);
    forall owner ensures OwnedBy(u, owner) == OwnedBy(t, owner) {}
    forall d ensures Lived(u.audit, d) == if d in u.devices then Alive(u.devices[d].on, u.devices[d].version) else Unborn {
      LivedExtends(t.audit, Control(c.device, !c.on, c.on, true), d);
    }
  }

  lemma RejectedTables(t: Tables, e: AuditEvent)
    requires TablesOk(t) && e.Control? && !e.ok
    ensures TablesOk(t.(audit := t.audit + [e]))
  {
    var u := t.(audit := t.audit + [e]);
    forall owner ensures OwnedBy(u, owner) == OwnedBy(t, owner) {}
    forall d ensures Lived(u.audit, d) == Lived(t.audit, d) { LivedExtends(t.audit, e, d); }
  }

  lemma TablesStep(s: State, a: Action)
    requires Inv(s) && Enabled(s, a)
    ensures TablesOk(Next(s, a).tables) && Advances(s.tables, Next(s, a).tables)
  {
    hide LifeOk, KeysOk, DevicesOk, LogOk, LocksOk;
    match a
    case CommitAdd(f) =>
      assert FlightOk(s.tables, s.flights[f]);
      AddedTables(s.tables, s.flights[f].add, s.flights[f].id, s.flights[f].began);
    case CommitUpdate(f) =>
      assert FlightOk(s.tables, s.flights[f]);
      ControlledTables(s.tables, s.flights[f].control, s.flights[f].began);
    case AuditRejection(f) =>
      var fl := s.flights[f];
      RejectedTables(s.tables, Control(fl.control.device, fl.current, fl.control.on, false));
    case _ =>
  }

  /** Ids come from the supply, and become devices when their create commits. */
  lemma SupplyShape(s: State, a: Action)
    requires Enabled(s, a)
    ensures var t := Next(s, a);
            && s.next <= t.next && s.nextFlight <= t.nextFlight
            && (forall f :: f in t.flights ==> f in s.flights || f == s.nextFlight < t.nextFlight)
            && (forall f :: f in t.flights && t.flights[f].Inserted? ==>
                  (f in s.flights && t.flights[f] == s.flights[f]) || (a == Insert(f) && t.flights[f].id == s.next < t.next))
            && (t.tables.devices.Keys == s.tables.devices.Keys
                || (a.CommitAdd? && a.f !in t.flights && t.tables.devices.Keys == s.tables.devices.Keys + {s.flights[a.f].id}))
  {
  }

  lemma SupplyStep(s: State, a: Action)
    requires SupplyOk(s) && Enabled(s, a)
    ensures SupplyOk(Next(s, a))
  {
    var t := Next(s, a);
    SupplyShape(s, a);
    if a.CommitAdd? { assert s.flights[a.f].Inserted?; }
    hide Next, Enabled;
  }

  /** A lock is kept, or taken when nobody else has it. */
  lemma LockShape(s: State, a: Action, f: FlightId)
    requires Enabled(s, a) && f in Next(s, a).flights
    ensures var t := Next(s, a);
            && (forall owner :: HoldsAccount(t.flights[f], owner) ==>
                  (f in s.flights && HoldsAccount(s.flights[f], owner))
                  || (a == LockAccount(f) && forall h :: h in s.flights ==> !HoldsAccount(s.flights[h], owner)))
            && (forall d :: HoldsDevice(t.flights[f], d) ==>
                  (f in s.flights && HoldsDevice(s.flights[f], d))
                  || (a == Update(f) && forall h :: h in s.flights ==> !HoldsDevice(s.flights[h], d)))
  {
  }

  lemma LocksStep(s: State, a: Action)
    requires LocksOk(s) && SupplyOk(s) && Enabled(s, a)
    ensures LocksOk(Next(s, a))
  {
    var t := Next(s, a);
    forall f | f in t.flights { LockShape(s, a, f); }
    hide Next, Enabled, HoldsAccount, HoldsDevice, SupplyOk;
  }

  /** A flight's own condition survives whatever the others commit. */
  lemma FlightStays(s: State, a: Action, f: FlightId)
    requires SupplyOk(s) && LocksOk(s) && Enabled(s, a) && Advances(s.tables, Next(s, a).tables)
    requires f in s.flights && FlightOk(s.tables, s.flights[f]) && f in Next(s, a).flights
    requires a.CommitAdd? || a.CommitUpdate? || a.AuditRejection? ==> a.f != f
    ensures FlightOk(Next(s, a).tables, s.flights[f])
  {
    if s.flights[f].Inserting? || s.flights[f].Inserted? {
      AdderStays(s, a, f);
    } else if s.flights[f].Updated? {
      WriterStays(s, a, f);
    } else {
      hide Next, Enabled, OwnedBy, Named;
    }
  }

  /** Nobody else adds for an account while its row is held. */
  lemma AdderStays(s: State, a: Action, f: FlightId)
    requires LocksOk(s) && Enabled(s, a) && SupplyOk(s) && f in s.flights && (s.flights[f].Inserting? || s.flights[f].Inserted?)
    requires a.CommitAdd? ==> a.f != f
    requires FlightOk(s.tables, s.flights[f])
    ensures FlightOk(Next(s, a).tables, s.flights[f])
  {
    var t, u, fl := s.tables, Next(s, a).tables, s.flights[f];
    assert HoldsAccount(fl, fl.add.owner);
    if a.CommitAdd? {
      assert HoldsAccount(s.flights[a.f], s.flights[a.f].add.owner);
      AddedOwned(t, s.flights[a.f].add, s.flights[a.f].id, s.flights[a.f].began, fl.add.owner);
    } else {
      SameOwned(s, a, fl.add.owner);
    }
    assert Named(u, fl.add.owner, fl.add.folded) == Named(t, fl.add.owner, fl.add.folded) by { hide OwnedBy, LocksOk; }
  }

  lemma SameOwned(s: State, a: Action, owner: string)
    requires Enabled(s, a) && !a.CommitAdd?
    ensures OwnedBy(Next(s, a).tables, owner) == OwnedBy(s.tables, owner)
  {
  }

  /** Nobody else writes a device while its row is held. */
  lemma WriterStays(s: State, a: Action, f: FlightId)
    requires LocksOk(s) && SupplyOk(s) && Enabled(s, a) && f in s.flights && s.flights[f].Updated? && FlightOk(s.tables, s.flights[f])
    requires a.CommitUpdate? ==> a.f != f
    ensures FlightOk(Next(s, a).tables, s.flights[f])
  {
    assert HoldsDevice(s.flights[f], s.flights[f].control.device);
    if a.CommitUpdate? { assert HoldsDevice(s.flights[a.f], s.flights[a.f].control.device); }
  }

  lemma FlightMoves(s: State, a: Action, f: FlightId)
    requires FlightsOk(s) && Enabled(s, a) && f in Next(s, a).flights
    requires f !in s.flights || Next(s, a).flights[f] != s.flights[f]
    ensures FlightOk(Next(s, a).tables, Next(s, a).flights[f])
  {
    if f in s.flights { assert FlightOk(s.tables, s.flights[f]); }
  }

  lemma FlightsStep(s: State, a: Action)
    requires SupplyOk(s) && LocksOk(s) && FlightsOk(s) && Enabled(s, a) && Advances(s.tables, Next(s, a).tables)
    ensures FlightsOk(Next(s, a))
  {
    var t := Next(s, a);
    hide FlightOk, LocksOk, SupplyOk, Advances;
    forall f | f in t.flights ensures FlightOk(t.tables, t.flights[f]) {
      if f in s.flights && t.flights[f] == s.flights[f] { FlightStays(s, a, f); } else { FlightMoves(s, a, f); }
    }
  }

  lemma KeyFound(t: Tables, add: AddRequest)
    requires KeysOk(t) && FindByKey(t, add).SameRequest?
    ensures SuccessOk(t, Added(add, FindByKey(t, add).device))
  {
  }

  /** What a step adds to the log is true of the tables it leaves, and no write repeats. */
  lemma NewSuccess(s: State, a: Action) returns (e: Success)
    requires Inv(s) && Enabled(s, a) && Next(s, a).log != s.log
    ensures Next(s, a).log == s.log + [e] && SuccessOk(Next(s, a).tables, e)
    ensures e.Controlled? && e.wrote ==> e.control.device in s.tables.devices && e.control.expected == s.tables.devices[e.control.device].version
  {
    hide LogOk, LocksOk, SupplyOk, FlightOk, SuccessOk, LifeOk, KeysOk, DevicesOk;
    assert FlightOk(s.tables, s.flights[a.f]);
    if a.LookUp? || a.LookAgain? || a.CommitAdd? {
      e := NewAdded(s, a);
    } else {
      e := NewControlled(s, a);
    }
  }

  lemma NewAdded(s: State, a: Action) returns (e: Success)
    requires KeysOk(s.tables) && Enabled(s, a) && Next(s, a).log != s.log && (a.LookUp? || a.LookAgain? || a.CommitAdd?)
    ensures Next(s, a).log == s.log + [e] && e.Added? && SuccessOk(Next(s, a).tables, e)
  {
    e := Next(s, a).log[|s.log|];
    if !a.CommitAdd? { KeyFound(s.tables, s.flights[a.f].add); }
  }

  lemma NewControlled(s: State, a: Action) returns (e: Success)
    requires LifeOk(s.tables) && Enabled(s, a) && Next(s, a).log != s.log && !a.LookUp? && !a.LookAgain? && !a.CommitAdd?
    requires FlightOk(s.tables, s.flights[a.f])
    ensures Next(s, a).log == s.log + [e] && SuccessOk(Next(s, a).tables, e)
    ensures e.Controlled? && e.wrote ==> e.control.device in s.tables.devices && e.control.expected == s.tables.devices[e.control.device].version
  {
    hide LifeOk;
    e := Next(s, a).log[|s.log|];
    Parity(s.tables, s.flights[a.f].control.device);
  }

  /** A device is on exactly at even versions, and its version counts its accepted controls. */
  lemma Parity(t: Tables, d: DeviceId)
    requires LifeOk(t) && d in t.devices
    ensures t.devices[d].on <==> t.devices[d].version % 2 == 0
    ensures t.devices[d].version == 1 + AcceptedControls(t.audit, d)
  {
    LivedCounts(t.audit, d);
  }

  lemma SuccessStays(t: Tables, u: Tables, e: Success)
    requires SuccessOk(t, e) && Advances(t, u)
    ensures SuccessOk(u, e)
  {
  }

  lemma LogStep(s: State, a: Action)
    requires Inv(s) && Enabled(s, a) && Advances(s.tables, Next(s, a).tables)
    ensures LogOk(Next(s, a))
  {
    var t := Next(s, a);
    forall e | e in s.log ensures SuccessOk(t.tables, e) { SuccessStays(s.tables, t.tables, e); }
    if t.log != s.log {
      var e := NewSuccess(s, a);
      hide Next, Enabled, LifeOk, KeysOk, DevicesOk, LocksOk, SupplyOk, FlightsOk, Advances;
      forall i | 0 <= i < |s.log| && s.log[i].Controlled? && s.log[i].wrote
        ensures !Wrote(e, s.log[i].control.device, s.log[i].control.expected)
      {
        assert SuccessOk(s.tables, s.log[i]);
      }
    }
  }

  lemma StepHolds(s: State, a: Action)
    requires Inv(s) && Enabled(s, a)
    ensures Inv(Next(s, a))
  {
    TablesStep(s, a);
    LogStep(s, a);
    hide TablesOk, LogOk, Next, Enabled, LocksOk, SupplyOk, FlightsOk, Advances;
    SupplyStep(s, a);
    LocksStep(s, a);
    FlightsStep(s, a);
  }

  lemma {:induction false} RunHolds(s: State, actions: seq<Action>, end: State)
    requires Inv(s) && Runs(s, actions, end)
    ensures Inv(end)
    decreases |actions|
  {
    hide Inv, Next, Enabled;
    if actions != [] {
      StepHolds(s, actions[0]);
      RunHolds(Next(s, actions[0]), actions[1..], end);
    }
  }

  lemma ReachableHolds(end: State)
    requires Reachable(end)
    ensures Inv(end)
  {
    var s, actions :| Start(s) && Runs(s, actions, end);
    StartHolds(s);
    RunHolds(s, actions, end);
  }

  lemma StartHolds(s: State)
    requires Start(s)
    ensures Inv(s)
  {
    forall owner ensures OwnedBy(s.tables, owner) == {} {}
  }

  /* ---------------------------------------------------------------- devices */

  /** One device per owner and folded name, at most 100 each, and every key points at its own request's device. */
  lemma DevicesKeepTheRules(s: State)
    requires Reachable(s)
    ensures forall d, e :: d in s.tables.devices && e in s.tables.devices && s.tables.devices[d].owner == s.tables.devices[e].owner ==>
      s.tables.devices[d].folded == s.tables.devices[e].folded ==> d == e
    ensures forall owner :: |OwnedBy(s.tables, owner)| <= 100
    ensures forall k :: k in s.tables.keys ==>
      && s.tables.keys[k].device in s.tables.devices
      && s.tables.devices[s.tables.keys[k].device].owner == k.account
      && s.tables.keys[k].fingerprint == Some(s.tables.devices[s.tables.keys[k].device].folded)
  {
    ReachableHolds(s);
  }

  /** Any two creates answered with success for one account and folded name were answered with the same device. */
  lemma SameNameSameDevice(s: State, i: nat, j: nat)
    requires Reachable(s) && i < |s.log| && j < |s.log| && s.log[i].Added? && s.log[j].Added?
    requires s.log[i].add.owner == s.log[j].add.owner && s.log[i].add.folded == s.log[j].add.folded
    ensures s.log[i].id == s.log[j].id
  {
    ReachableHolds(s);
    hide LifeOk, KeysOk, SupplyOk, LocksOk, FlightsOk;
    assert SuccessOk(s.tables, s.log[i]) && SuccessOk(s.tables, s.log[j]);
  }

  /* --------------------------------------------------------------- controls */

  /**
   * Asked with a version the device had reached, a control that succeeds reports the
   * requested state: one version on if it wrote, at the expected version if not.
   */
  lemma ControlReportsWhatWasAsked(s: State, e: Success)
    requires Reachable(s) && e in s.log && e.Controlled? && e.seenBefore
    ensures e.reported.on == e.control.on
    ensures e.reported.version == e.control.expected + if e.wrote then 1 else 0
  {
    ReachableHolds(s);
    assert SuccessOk(s.tables, e);
  }

  /**
   * Whatever the version asked with: a success that did not write reports the
   * requested state exactly when that is the state of the expected version's parity.
   */
  lemma UnwrittenReportIsParity(s: State, e: Success)
    requires Reachable(s) && e in s.log && e.Controlled? && !e.wrote
    ensures e.reported.version == e.control.expected
    ensures e.reported.on == e.control.on <==> (e.control.on <==> e.control.expected % 2 == 0)
  {
    ReachableHolds(s);
    assert SuccessOk(s.tables, e);
  }

  /** At most one control ever writes for a given device and version. */
  lemma OneWritePerVersion(s: State, i: nat, j: nat)
    requires Reachable(s) && i < |s.log| && j < |s.log|
    requires s.log[i].Controlled? && s.log[i].wrote && Wrote(s.log[j], s.log[i].control.device, s.log[i].control.expected)
    ensures i == j
  {
    ReachableHolds(s);
    hide TablesOk, SupplyOk, LocksOk, FlightsOk;
  }

  /** Once a change applied, the same change sent again neither matches nor passes for a no-op: it conflicts. */
  lemma ResendConflicts(s: State, e: Success, f: FlightId)
    requires Reachable(s) && e in s.log && e.Controlled? && e.wrote && f in s.flights
    requires (s.flights[f].Updating? || s.flights[f].Reading?) && s.flights[f].control == e.control
    ensures e.control.device in s.tables.devices
    ensures s.flights[f].Updating? ==> Enabled(s, Update(f)) && Next(s, Update(f)) == Advance(s, f, Reading(e.control, s.flights[f].seenBefore))
    ensures s.flights[f].Reading? ==> Next(s, Read(f)) == Advance(s, f, Rejecting(e.control, s.tables.devices[e.control.device].on))
  {
    ReachableHolds(s);
    hide TablesOk, SupplyOk, LocksOk, FlightsOk;
    assert SuccessOk(s.tables, e);
  }

  /* -------------------------------------------------------------- audit log */

  /**
   * A device is on iff its version is even; its version is one plus its accepted
   * controls; and replaying the audit log alone, in which every accepted control must
   * toggle, yields exactly its state and version.
   */
  lemma AuditTellsTheDevice(s: State, d: DeviceId)
    requires Reachable(s) && d in s.tables.devices
    ensures s.tables.devices[d].on <==> s.tables.devices[d].version % 2 == 0
    ensures s.tables.devices[d].version == 1 + AcceptedControls(s.tables.audit, d)
    ensures Lived(s.tables.audit, d) == Alive(s.tables.devices[d].on, s.tables.devices[d].version)
  {
    ReachableHolds(s);
    Parity(s.tables, d);
  }

  /** No step but a committed create or write changes a device, or what the audit log tells of one. */
  lemma OthersChangeNothing(s: State, a: Action, d: DeviceId)
    requires Enabled(s, a) && !a.CommitAdd? && !a.CommitUpdate?
    ensures Next(s, a).tables.devices == s.tables.devices
    ensures Lived(Next(s, a).tables.audit, d) == Lived(s.tables.audit, d)
    ensures AcceptedControls(Next(s, a).tables.audit, d) == AcceptedControls(s.tables.audit, d)
  {
    if a.AuditRejection? {
      var fl := s.flights[a.f];
      var event := Control(fl.control.device, fl.current, fl.control.on, false);
      assert Next(s, a).tables.audit == s.tables.audit + [event];
      LivedExtends(s.tables.audit, event, d);
      assert (s.tables.audit + [event])[..|s.tables.audit|] == s.tables.audit;
    }
  }

  /* ------------------------------------- asked with a version yet to come */

  ghost predicate Unheld(s: State, d: DeviceId) {
    forall h :: h in s.flights ==> !HoldsDevice(s.flights[h], d)
  }

  /** Somebody else's write of device d, from its first statement to its COMMIT. */
  function Toggled(s: State, d: DeviceId): State
    requires d in s.tables.devices
  {
    var row := s.tables.devices[d];
    var c := ControlRequest(row.owner, d, !row.on, row.version);
    var tables := ControlRows(s.tables, c, s.now);
    s.(tables := tables, nextFlight := s.nextFlight + 1, log := s.log + [Controlled(c, true, tables.devices[d], true)])
  }

  lemma ToggleRuns(s: State, d: DeviceId) returns (actions: seq<Action>)
    requires d in s.tables.devices && s.tables.devices[d].version >= 1 && Unheld(s, d)
    requires forall f :: f in s.flights ==> f < s.nextFlight
    ensures Runs(s, actions, Toggled(s, d))
  {
    var row := s.tables.devices[d];
    var n := s.nextFlight;
    var begin := BeginControl(ControlRequest(row.owner, d, !row.on, row.version));
    var a := Take(s, begin);
    var b := Take(a, Update(n));
    var c := Take(b, CommitUpdate(n));
    assert c.flights == s.flights;
    RunThen(s, [begin], a, [Update(n)], b);
    RunThen(s, [begin] + [Update(n)], b, [CommitUpdate(n)], c);
    actions := [begin] + [Update(n)] + [CommitUpdate(n)];
  }

  /** Flight f's control is answered with success, and with the state it did not ask for. */
  ghost predicate Misreported(end: State, c: ControlRequest) {
    && end.log != []
    && var e := end.log[|end.log| - 1];
       e.Controlled? && e.control == c && e.reported.on != c.on
  }

  /** The device moves to the expected version between this call's UPDATE and its SELECT. */
  lemma OvertakenRuns(s: State, f: FlightId, c: ControlRequest) returns (actions: seq<Action>, end: State)
    requires f in s.flights && s.flights[f].Updating? && s.flights[f].control == c && !s.flights[f].seenBefore
    requires forall h :: h in s.flights ==> h < s.nextFlight
    requires c.device in s.tables.devices && s.tables.devices[c.device].owner == c.owner && Unheld(s, c.device)
    requires 1 <= s.tables.devices[c.device].version == c.expected - 1 && s.tables.devices[c.device].on == c.on
    ensures Runs(s, actions, end) && Misreported(end, c)
  {
    var a := Take(s, Update(f));
    assert a.flights[f] == Reading(c, false);
    var toggling := ToggleRuns(a, c.device);
    var b := Toggled(a, c.device);
    end := Take(b, Read(f));
    RunThen(s, [Update(f)], a, toggling, b);
    RunThen(s, [Update(f)] + toggling, b, [Read(f)], end);
    actions := [Update(f)] + toggling + [Read(f)];
  }

  lemma {:induction false} CatchUpRuns(s: State, f: FlightId, c: ControlRequest) returns (actions: seq<Action>, end: State)
    requires f in s.flights && s.flights[f].Updating? && s.flights[f].control == c && !s.flights[f].seenBefore
    requires forall h :: h in s.flights ==> h < s.nextFlight
    requires c.device in s.tables.devices && s.tables.devices[c.device].owner == c.owner && Unheld(s, c.device)
    requires 1 <= s.tables.devices[c.device].version < c.expected
    requires s.tables.devices[c.device].on <==> s.tables.devices[c.device].version % 2 == 0
    requires c.on <==> c.expected % 2 == 1
    ensures Runs(s, actions, end) && Misreported(end, c)
    decreases c.expected - s.tables.devices[c.device].version
  {
    if s.tables.devices[c.device].version == c.expected - 1 {
      actions, end := OvertakenRuns(s, f, c);
    } else {
      var toggling := ToggleRuns(s, c.device);
      var rest;
      rest, end := CatchUpRuns(Toggled(s, c.device), f, c);
      RunThen(s, toggling, Toggled(s, c.device), rest, end);
      actions := toggling + rest;
    }
  }

  lemma FreedRuns(s: State, f: FlightId, d: DeviceId) returns (actions: seq<Action>, t: State)
    requires LocksOk(s) && f in s.flights && !HoldsDevice(s.flights[f], d)
    ensures Runs(s, actions, t) && Unheld(t, d)
    ensures f in t.flights && t.flights.Keys <= s.flights.Keys && t == s.(flights := t.flights) && t.flights[f] == s.flights[f]
  {
    if h :| h in s.flights && HoldsDevice(s.flights[h], d) {
      actions := [Lose(h)];
      t := Take(s, Lose(h));
    } else {
      actions, t := [], s;
    }
  }

  /** The request a caller can check before calling: a version seen, or a state of that version's own parity. */
  predicate Sound(t: Tables, c: ControlRequest) {
    (c.device in t.devices && c.expected <= t.devices[c.device].version) || (c.on <==> c.expected % 2 == 0)
  }

  /**
   * The condition is exact. A call that is not Sound when it begins can be answered
   * with the state it did not ask for, in some continuation of every reachable state.
   */
  lemma UnsoundCallCanMisreport(s: State, c: ControlRequest) returns (actions: seq<Action>, end: State)
    requires Reachable(s) && c.device in s.tables.devices && s.tables.devices[c.device].owner == c.owner
    requires c.expected >= 1 && !Sound(s.tables, c)
    ensures Runs(Next(s, BeginControl(c)), actions, end) && Misreported(end, c)
  {
    ReachableHolds(s);
    Parity(s.tables, c.device);
    hide TablesOk, FlightsOk, LogOk;
    var a := Next(s, BeginControl(c));
    LocksStep(s, BeginControl(c));
    var freeing, b := FreedRuns(a, s.nextFlight, c.device);
    var rest;
    rest, end := CatchUpRuns(b, s.nextFlight, c);
    RunThen(a, freeing, b, rest, end);
    actions := freeing + rest;
  }

  /** The call whose flight this is began in a state in which it was Sound. */
  ghost predicate SoundReport(e: Success) {
    e.Controlled? && (e.seenBefore || (e.control.on <==> e.control.expected % 2 == 0)) ==> e.reported.on == e.control.on
  }

  /** And a Sound call never is, in any run. */
  lemma SoundCallsReportTruly(s: State, e: Success)
    requires Reachable(s) && e in s.log
    ensures SoundReport(e)
  {
    ReachableHolds(s);
    assert SuccessOk(s.tables, e);
  }
}
