/** What a refused create or control can be sure of, under every interleaving (server/src/domain/devices.ts). */
module DeviceRefusals {
  import opened Basics
  import opened DeviceMachine
  import opened DeviceTheorems

  predicate KeyTakenFor(t: Tables, add: AddRequest) {
    add.key.Some? && add.key.value != "" && KeyId(add.owner, add.key.value) in t.keys
    && t.keys[KeyId(add.owner, add.key.value)].fingerprint != Some(add.folded)
  }

  ghost predicate RefusalOk(t: Tables, r: Refusal) {
    match r
    case AddRefused(add, ValidationFailed) => add.name == "" || |add.name| > 64 || KeyTakenFor(t, add)
    case AddRefused(add, LimitReached) => |OwnedBy(t, add.owner)| == 100
    case AddRefused(add, NameConflict) =>
      exists d :: d in t.devices && t.devices[d].owner == add.owner && t.devices[d].folded == add.folded
    case ControlRefused(c, ValidationFailed) => c.expected < 1
    case ControlRefused(c, NotFound) => true
    case ControlRefused(c, VersionConflict) => c.device in t.devices && t.devices[c.device].owner == c.owner
    case _ => false
  }

  ghost predicate PendingOk(t: Tables, fl: Flight) {
    match fl
    case Clashed(add, _) => exists d :: d in t.devices && t.devices[d].owner == add.owner && t.devices[d].folded == add.folded
    case Rejecting(c, _) => c.device in t.devices && t.devices[c.device].owner == c.owner
    case _ => true
  }

  ghost predicate RefusalsOk(s: State) {
    && (forall r :: r in s.refused ==> RefusalOk(s.tables, r))
    && (forall f :: f in s.flights ==> PendingOk(s.tables, s.flights[f]))
  }

  ghost predicate Keeps(t: Tables, u: Tables) {
    && Advances(t, u) && DevicesOk(u)
    && (forall k :: k in t.keys ==> k in u.keys && u.keys[k] == t.keys[k])
  }

  lemma KeysStay(s: State, a: Action)
    requires Enabled(s, a)
    ensures forall k :: k in s.tables.keys ==> k in Next(s, a).tables.keys && Next(s, a).tables.keys[k] == s.tables.keys[k]
  {
  }

  lemma SubsetIsSmaller(a: set<DeviceId>, b: set<DeviceId>)
    requires a <= b
    ensures |a| <= |b|
  {
    assert b == a + (b - a);
  }

  lemma RefusalStays(t: Tables, u: Tables, r: Refusal)
    requires Keeps(t, u) && RefusalOk(t, r)
    ensures RefusalOk(u, r)
  {
    if r.AddRefused? && r.error.LimitReached? {
      SubsetIsSmaller(OwnedBy(t, r.add.owner), OwnedBy(u, r.add.owner));
    } else if r.AddRefused? && r.error.NameConflict? {
      var d :| d in t.devices && t.devices[d].owner == r.add.owner && t.devices[d].folded == r.add.folded;
      assert d in u.devices;
    }
  }

  lemma PendingStays(t: Tables, u: Tables, fl: Flight)
    requires Keeps(t, u) && PendingOk(t, fl)
    ensures PendingOk(u, fl)
  {
    if fl.Clashed? {
      var d :| d in t.devices && t.devices[d].owner == fl.add.owner && t.devices[d].folded == fl.add.folded;
      assert d in u.devices;
    }
  }

  lemma NewPending(s: State, a: Action, f: FlightId)
    requires Enabled(s, a) && f in Next(s, a).flights && !(f in s.flights && s.flights[f] == Next(s, a).flights[f])
    ensures PendingOk(Next(s, a).tables, Next(s, a).flights[f])
  {
    if a.Insert? && Next(s, a).flights[f].Clashed? {
      var d :| d in Named(s.tables, s.flights[f].add.owner, s.flights[f].add.folded);
      assert d in s.tables.devices;
    }
  }

  lemma NewRefusal(s: State, a: Action)
    requires Enabled(s, a) && Next(s, a).refused != s.refused && DevicesOk(s.tables)
    requires a.LookAgain? || a.AuditRejection? ==> PendingOk(s.tables, s.flights[a.f])
    ensures |Next(s, a).refused| == |s.refused| + 1 && Next(s, a).refused[..|s.refused|] == s.refused
    ensures RefusalOk(Next(s, a).tables, Next(s, a).refused[|s.refused|])
  {
    if a.Count? { assert |OwnedBy(s.tables, s.flights[a.f].add.owner)| <= 100; }
  }

  lemma RefusalsStep(s: State, a: Action)
    requires DeviceTheorems.Inv(s) && RefusalsOk(s) && Enabled(s, a)
    ensures RefusalsOk(Next(s, a))
  {
    var t := Next(s, a);
    TablesStep(s, a);
    KeysStay(s, a);
    hide Next, Enabled, RefusalOk, PendingOk, Advances, DevicesOk, KeysOk, LifeOk, SupplyOk, LocksOk, FlightsOk, LogOk;
    forall r | r in t.refused ensures RefusalOk(t.tables, r) {
      if r in s.refused {
        RefusalStays(s.tables, t.tables, r);
      } else {
        NewRefusal(s, a);
        assert r == t.refused[|s.refused|] by { LastOf(s.refused, t.refused, r); }
      }
    }
    forall f | f in t.flights ensures PendingOk(t.tables, t.flights[f]) {
      if f in s.flights && s.flights[f] == t.flights[f] {
        PendingStays(s.tables, t.tables, t.flights[f]);
      } else {
        NewPending(s, a, f);
      }
    }
  }

  lemma LastOf(was: seq<Refusal>, now: seq<Refusal>, r: Refusal)
    requires |now| == |was| + 1 && now[..|was|] == was && r in now && r !in was
    ensures r == now[|was|]
  {
    forall j | 0 <= j < |was| ensures now[j] in was { assert now[..|was|][j] == was[j]; }
    var i :| 0 <= i < |now| && now[i] == r;
  }

  lemma {:induction false} RefusalsRun(s: State, actions: seq<Action>, end: State)
    requires DeviceTheorems.Inv(s) && RefusalsOk(s) && Runs(s, actions, end)
    ensures RefusalsOk(end)
    decreases |actions|
  {
    hide DeviceTheorems.Inv, RefusalsOk, Next, Enabled;
    if actions != [] {
      RefusalsStep(s, actions[0]);
      StepHolds(s, actions[0]);
      RefusalsRun(Next(s, actions[0]), actions[1..], end);
    }
  }

  /**
   * No create is refused without its reason: whoever was told of the limit has 100 devices
   * ever after, whoever was told of a conflict has a device of that folded name, whoever was
   * told that the input is invalid sent a bad name or a key used for another, and no
   * control conflicts over a device that is not the caller's.
   */
  lemma RefusalsAreTrue(s: State, add: AddRequest, c: ControlRequest)
    requires Reachable(s)
    ensures AddRefused(add, LimitReached) in s.refused ==> |OwnedBy(s.tables, add.owner)| == 100
    ensures AddRefused(add, NameConflict) in s.refused ==>
      exists d :: d in s.tables.devices && s.tables.devices[d].owner == add.owner && s.tables.devices[d].folded == add.folded
    ensures AddRefused(add, ValidationFailed) in s.refused && add.name != "" && |add.name| <= 64 ==>
      && add.key.Some? && add.key.value != "" && KeyId(add.owner, add.key.value) in s.tables.keys
      && s.tables.keys[KeyId(add.owner, add.key.value)].fingerprint != Some(add.folded)
    ensures ControlRefused(c, ValidationFailed) in s.refused ==> c.expected < 1
    ensures ControlRefused(c, VersionConflict) in s.refused ==> c.device in s.tables.devices && s.tables.devices[c.device].owner == c.owner
  {
    var start, actions :| Start(start) && Runs(start, actions, s);
    StartHolds(start);
    RefusalsRun(start, actions, s);
    assert forall r :: r in s.refused ==> RefusalOk(s.tables, r);
  }

  /** The steps that refuse, exactly: at the count, and when the name was taken and the key is looked up again. */
  lemma StepsRefuseExactly(s: State, f: FlightId)
    requires DeviceTheorems.Inv(s) && f in s.flights
    ensures s.flights[f].Counting? ==>
      var add, t := s.flights[f].add, Next(s, Count(f));
      t.refused == s.refused + if |OwnedBy(s.tables, add.owner)| == 100 then [AddRefused(add, LimitReached)] else []
    ensures s.flights[f].Inserting? ==>
      var add, t := s.flights[f].add, Next(s, Insert(f));
      t.refused == s.refused && f in t.flights
      && (t.flights[f].Clashed? <==> exists d :: d in s.tables.devices && s.tables.devices[d].owner == add.owner && s.tables.devices[d].folded == add.folded)
    ensures s.flights[f].Clashed? ==>
      var add, t := s.flights[f].add, Next(s, LookAgain(f));
      var keyed := add.key.Some? && add.key.value != "" && KeyId(add.owner, add.key.value) in s.tables.keys;
      t.refused == s.refused +
        if !keyed then [AddRefused(add, NameConflict)]
        else if s.tables.devices[s.tables.keys[KeyId(add.owner, add.key.value)].device].folded != add.folded then [AddRefused(add, ValidationFailed)]
        else []
  {
    hide LifeOk, LocksOk, SupplyOk, FlightsOk, LogOk;
    if s.flights[f].Counting? { assert |OwnedBy(s.tables, s.flights[f].add.owner)| <= 100; }
    if s.flights[f].Inserting? {
      var add := s.flights[f].add;
      if d :| d in s.tables.devices && s.tables.devices[d].owner == add.owner && s.tables.devices[d].folded == add.folded {
        assert d in Named(s.tables, add.owner, add.folded);
      }
    }
  }
}
