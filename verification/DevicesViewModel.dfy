/**
 * The Devices screen (ios/IoTSwitch/ViewModels/DevicesViewModel.swift): loads, switch
 * changes and additions overlap, each stretch between two awaits running alone.
 * Ids stand for themselves under the order the list sorts them by.
 */
module DevicesScreen {
  import opened Basics

  type DeviceId = nat

  datatype Device = Device(id: DeviceId, name: string, on: bool, version: int, createdAt: Time)

  /* ---------------------------------------------------------------- the list */

  predicate Before(a: Device, b: Device) {
    a.createdAt < b.createdAt || (a.createdAt == b.createdAt && a.id < b.id)
  }

  ghost predicate Unique(devices: seq<Device>) {
    forall i, j :: 0 <= i < j < |devices| ==> devices[i].id != devices[j].id
  }

  ghost predicate Sorted(devices: seq<Device>) {
    forall i, j :: 0 <= i < j < |devices| ==> Before(devices[i], devices[j])
  }

  /** devices.sort: earlier devices first, ids breaking ties. */
  function Insert(devices: seq<Device>, device: Device): (r: seq<Device>)
    ensures |r| == |devices| + 1
    ensures forall d :: d in r <==> d in devices || d == device
  {
    if devices == [] then [device]
    else if Before(devices[0], device) then [devices[0]] + Insert(devices[1..], device)
    else [device] + devices
  }

  function Sort(devices: seq<Device>): (r: seq<Device>)
    ensures |r| == |devices|
    ensures forall d :: d in r <==> d in devices
  {
    if devices == [] then [] else Insert(Sort(devices[1..]), devices[0])
  }

  lemma {:induction false} InsertSorts(devices: seq<Device>, device: Device)
    requires Sorted(devices) && forall d :: d in devices ==> d.id != device.id
    ensures Sorted(Insert(devices, device))
  {
    if devices != [] && Before(devices[0], device) {
      InsertSorts(devices[1..], device);
      var rest := Insert(devices[1..], device);
      forall d | d in rest ensures Before(devices[0], d) {
        if d != device {
          var i :| 0 <= i < |devices[1..]| && devices[1..][i] == d;
          assert devices[i + 1] == d;
        }
      }
    }
  }

  lemma {:induction false} SortSorts(devices: seq<Device>)
    requires Unique(devices)
    ensures Sorted(Sort(devices))
  {
    if devices != [] {
      SortSorts(devices[1..]);
      InsertSorts(Sort(devices[1..]), devices[0]);
    }
  }

  function IdsOf(devices: seq<Device>): set<DeviceId> { set d | d in devices :: d.id }

  /** The device with this id, in a list of unique ids. */
  function Find(devices: seq<Device>, id: DeviceId): Option<Device> {
    if devices == [] then None
    else if devices[0].id == id then Some(devices[0])
    else Find(devices[1..], id)
  }

  lemma {:induction false} FindIsMember(devices: seq<Device>, id: DeviceId)
    ensures Find(devices, id).Some? ==> Find(devices, id).value in devices && Find(devices, id).value.id == id
    ensures Find(devices, id).None? ==> forall d :: d in devices ==> d.id != id
  {
    if devices != [] { FindIsMember(devices[1..], id); }
  }

  lemma {:induction false} MemberIsFound(devices: seq<Device>, device: Device)
    requires Unique(devices) && device in devices
    ensures Find(devices, device.id) == Some(device)
  {
    if devices[0] != device { MemberIsFound(devices[1..], device); }
  }

  /** A fetched device, unless a newer version of it is already known. */
  function Newer(current: seq<Device>, incoming: Device): Device {
    var known := Find(current, incoming.id);
    if known.Some? && known.value.version > incoming.version then known.value else incoming
  }

  function NewerOf(current: seq<Device>, fetched: seq<Device>): (r: seq<Device>)
    ensures |r| == |fetched|
    ensures forall i :: 0 <= i < |r| ==> r[i] == Newer(current, fetched[i])
  {
    if fetched == [] then [] else [Newer(current, fetched[0])] + NewerOf(current, fetched[1..])
  }

  /** The devices added while the read ran. */
  function AddedSince(devices: seq<Device>, starting: set<DeviceId>, fetched: set<DeviceId>): (r: seq<Device>)
    ensures forall d :: d in r <==> d in devices && d.id !in starting && d.id !in fetched
    ensures Unique(devices) ==> Unique(r)
  {
    if devices == [] then []
    else
      var rest := AddedSince(devices[1..], starting, fetched);
      if devices[0].id !in starting && devices[0].id !in fetched then [devices[0]] + rest else rest
  }

  function Merged(devices: seq<Device>, starting: set<DeviceId>, fetched: seq<Device>): seq<Device> {
    Sort(NewerOf(devices, fetched) + AddedSince(devices, starting, IdsOf(fetched)))
  }

  function Without(devices: seq<Device>, id: DeviceId): (r: seq<Device>)
    ensures forall d :: d in r <==> d in devices && d.id != id
    ensures Sorted(devices) ==> Sorted(r)
  {
    if devices == [] then []
    else
      var rest := Without(devices[1..], id);
      if devices[0].id == id then rest else [devices[0]] + rest
  }

  function IndexOf(devices: seq<Device>, id: DeviceId): (i: nat)
    ensures i <= |devices|
    ensures i < |devices| ==> devices[i].id == id
    ensures i == |devices| ==> forall d :: d in devices ==> d.id != id
  {
    if devices == [] then 0 else if devices[0].id == id then 0 else 1 + IndexOf(devices[1..], id)
  }

  function Replaced(devices: seq<Device>, device: Device, insertingIfMissing: bool): seq<Device> {
    var i := IndexOf(devices, device.id);
    if i < |devices| then
      if device.version >= devices[i].version then devices[i := device] else devices
    else if insertingIfMissing then Sort(devices + [device])
    else devices
  }

  /* -------------------------------------------------------------- the screen */

  datatype Phase = Loading | Loaded | LoadFailed

  datatype Fetch = Fetched(devices: seq<Device>) | SignedOut | ApiFailure | OtherFailure

  /** What a control came to (DeviceControlService.Outcome). */
  datatype Outcome = Updated(device: Device) | Conflict(refetched: Option<Device>) | NotFound | Unknown(reconciled: Option<Device>) | Rejected | Ended

  datatype Fields = Fields(
    phase: Phase, devices: seq<Device>, pendingIntents: map<DeviceId, bool>, isRefreshing: bool, isStale: bool, loadSequence: nat)

  function Started(f: Fields, initial: bool): Fields {
    var next := f.(loadSequence := f.loadSequence + 1);
    if initial then next.(phase := Loading) else next.(isRefreshing := true)
  }

  function Finished(f: Fields, sequence: nat, starting: set<DeviceId>, fetch: Fetch): Fields {
    if sequence != f.loadSequence then f
    else
      var done := f.(isRefreshing := false);
      match fetch
      case Fetched(devices) => done.(devices := Merged(f.devices, starting, devices), phase := Loaded, isStale := false)
      case SignedOut => done.(devices := [], phase := Loading)
      case ApiFailure => if f.devices == [] then done.(phase := LoadFailed) else done.(isStale := true)
      case OtherFailure => done.(phase := LoadFailed)
  }

  function Settled(f: Fields, id: DeviceId, outcome: Outcome): Fields {
    var devices := match outcome
      case Updated(device) => Replaced(f.devices, device, false)
      case Conflict(refetched) => if refetched.Some? then Replaced(f.devices, refetched.value, false) else f.devices
      case NotFound => Without(f.devices, id)
      case Unknown(reconciled) => if reconciled.Some? then Replaced(f.devices, reconciled.value, false) else f.devices
      case _ => f.devices;
    f.(devices := devices, pendingIntents := f.pendingIntents - {id})
  }

  class DevicesViewModel {
    var phase: Phase
    var devices: seq<Device>
    var pendingIntents: map<DeviceId, bool>
    var isRefreshing: bool
    var isShowingStaleData: bool
    var loadSequence: nat

    ghost function State(): Fields reads this { Fields(phase, devices, pendingIntents, isRefreshing, isShowingStaleData, loadSequence) }

    constructor ()
      ensures State() == Fields(Loading, [], map[], false, false, 0)
    {
      phase, devices, pendingIntents, isRefreshing, isShowingStaleData, loadSequence := Loading, [], map[], false, false, 0;
    }

    /** load, up to its await. */
    method BeginLoad(initial: bool) returns (sequence: nat, startingIds: set<DeviceId>)
      modifies this
      ensures State() == Started(old(State()), initial) && sequence == loadSequence && startingIds == IdsOf(devices)
    {
      loadSequence := loadSequence + 1;
      sequence := loadSequence;
      startingIds := set d | d in devices :: d.id;
      if initial { phase := Loading; } else { isRefreshing := true; }
    }

    /** load, after it. The dictionary it builds would trap on two devices of one id. */
    method FinishLoad(sequence: nat, startingIds: set<DeviceId>, fetch: Fetch)
      requires Unique(devices)
      modifies this
      ensures State() == Finished(old(State()), sequence, startingIds, fetch)
    {
      if sequence != loadSequence { return; }
      isRefreshing := false;
      match fetch {
        case Fetched(fetched) =>
          devices := Merged(devices, startingIds, fetched);
          phase := Loaded;
          isShowingStaleData := false;
        case SignedOut =>
          devices := [];
          phase := Loading;
        case ApiFailure =>
          if devices == [] { phase := LoadFailed; } else { isShowingStaleData := true; }
        case OtherFailure =>
          phase := LoadFailed;
      }
    }

    /** setState, up to its await: whether the control is sent. */
    method BeginSet(device: Device, desired: bool) returns (send: bool)
      modifies this`pendingIntents
      ensures send <==> device.id !in old(pendingIntents) && desired != device.on
      ensures pendingIntents == if send then old(pendingIntents)[device.id := desired] else old(pendingIntents)
    {
      if device.id in pendingIntents { return false; }
      if desired == device.on { return false; }
      pendingIntents := pendingIntents[device.id := desired];
      return true;
    }

    method FinishSet(id: DeviceId, outcome: Outcome)
      modifies this
      ensures State() == Settled(old(State()), id, outcome)
    {
      match outcome {
        case Updated(device) => Replace(device, false);
        case Conflict(refetched) => if refetched.Some? { Replace(refetched.value, false); }
        case NotFound => devices := Without(devices, id);
        case Unknown(reconciled) => if reconciled.Some? { Replace(reconciled.value, false); }
        case _ =>
      }
      pendingIntents := pendingIntents - {id};
    }

    method Replace(device: Device, insertingIfMissing: bool)
      modifies this`devices
      ensures devices == Replaced(old(devices), device, insertingIfMissing)
    {
      var index := IndexOf(devices, device.id);
      if index < |devices| {
        if device.version < devices[index].version { return; }
        devices := devices[index := device];
      } else if insertingIfMissing {
        devices := Sort(devices + [device]);
      }
    }
  }

  /* ------------------------------------------------------- what each step keeps */

  /** A list, or a device, the server could have sent: ids unique, each created when it was. */
  ghost predicate Dated(devices: seq<Device>, created: DeviceId -> Time) {
    forall d :: d in devices ==> d.createdAt == created(d.id)
  }

  ghost predicate InOrder(devices: seq<Device>, created: DeviceId -> Time) { Sorted(devices) && Dated(devices, created) }

  lemma SortedIsUnique(devices: seq<Device>, created: DeviceId -> Time)
    requires InOrder(devices, created)
    ensures Unique(devices)
  {
    forall i, j | 0 <= i < j < |devices| ensures devices[i].id != devices[j].id {
      assert devices[i] in devices && devices[j] in devices && Before(devices[i], devices[j]);
    }
  }

  /** No device present before and after goes back a version. */
  ghost predicate NeverBack(was: seq<Device>, now: seq<Device>) {
    forall d, e :: d in was && e in now && d.id == e.id ==> d.version <= e.version
  }

  lemma SameIdSameDevice(devices: seq<Device>, d: Device, e: Device)
    requires Unique(devices) && d in devices && e in devices && d.id == e.id
    ensures d == e
  {
  }

  lemma MergeKeepsOrder(devices: seq<Device>, starting: set<DeviceId>, fetched: seq<Device>, created: DeviceId -> Time)
    requires InOrder(devices, created) && Unique(fetched) && Dated(fetched, created)
    ensures InOrder(Merged(devices, starting, fetched), created)
  {
    SortedIsUnique(devices, created);
    var newer, added := NewerOf(devices, fetched), AddedSince(devices, starting, IdsOf(fetched));
    forall i | 0 <= i < |fetched| ensures newer[i].id == fetched[i].id && newer[i].createdAt == created(newer[i].id) {
      FindIsMember(devices, fetched[i].id);
      assert fetched[i] in fetched;
    }
    forall i, j | 0 <= i < |newer| && 0 <= j < |added| ensures newer[i].id != added[j].id {
      assert fetched[i].id in IdsOf(fetched);
      assert added[j] in added;
    }
    SortSorts(newer + added);
  }

  lemma MergeNeverGoesBack(devices: seq<Device>, starting: set<DeviceId>, fetched: seq<Device>)
    requires Unique(devices)
    ensures NeverBack(devices, Merged(devices, starting, fetched))
  {
    var newer, added := NewerOf(devices, fetched), AddedSince(devices, starting, IdsOf(fetched));
    forall d, e | d in devices && e in Merged(devices, starting, fetched) && d.id == e.id ensures d.version <= e.version {
      assert e in newer + added;
      if e in added {
        SameIdSameDevice(devices, d, e);
      } else {
        var i :| 0 <= i < |newer| && newer[i] == e;
        FindIsMember(devices, fetched[i].id);
        MemberIsFound(devices, d);
      }
    }
  }

  /** Every fetched id is listed, and so is every device added while the read ran. */
  lemma MergeKeepsAdditions(devices: seq<Device>, starting: set<DeviceId>, fetched: seq<Device>, device: Device)
    requires Unique(devices) && device in devices && device.id !in starting
    ensures exists e :: e in Merged(devices, starting, fetched) && e.id == device.id && e.version >= device.version
  {
    var newer, added := NewerOf(devices, fetched), AddedSince(devices, starting, IdsOf(fetched));
    if device.id in IdsOf(fetched) {
      var f :| f in fetched && f.id == device.id;
      var i :| 0 <= i < |fetched| && fetched[i] == f;
      MemberIsFound(devices, device);
      assert newer[i] in newer + added;
    } else {
      assert device in newer + added;
    }
  }

  lemma ReplaceKeepsOrder(devices: seq<Device>, device: Device, inserting: bool, created: DeviceId -> Time)
    requires InOrder(devices, created) && device.createdAt == created(device.id)
    ensures InOrder(Replaced(devices, device, inserting), created)
    ensures NeverBack(devices, Replaced(devices, device, inserting))
  {
    SortedIsUnique(devices, created);
    var i := IndexOf(devices, device.id);
    if i == |devices| {
      assert Unique(devices + [device]);
      SortSorts(devices + [device]);
      forall d, e | d in devices && e in devices && d.id == e.id ensures d == e { SameIdSameDevice(devices, d, e); }
    } else {
      assert devices[i] in devices;
      forall d, e | d in devices && e in Replaced(devices, device, inserting) && d.id == e.id ensures d.version <= e.version {
        if e in devices { SameIdSameDevice(devices, d, e); } else { SameIdSameDevice(devices, d, devices[i]); }
      }
    }
  }

  /* ---------------------------------------------------------------- machine */

  datatype Load = Load(sequence: nat, starting: set<DeviceId>)

  datatype State = State(screen: Fields, loads: map<nat, Load>, nextLoad: nat, sets: map<nat, DeviceId>, nextSet: nat)

  datatype Action =
    | BeginLoad(initial: bool)
    | FinishLoad(l: nat, fetch: Fetch)
    | BeginSet(device: Device, desired: bool)
    | FinishSet(k: nat, outcome: Outcome)
    /** Another screen confirmed this device. */
    | Changed(device: Device)
    /** The add sheet did; a refresh follows as a load of its own. */
    | Added(device: Device)

  predicate Enabled(s: State, a: Action) {
    match a
    case FinishLoad(l, _) => l in s.loads
    case FinishSet(k, _) => k in s.sets
    case _ => true
  }

  function Next(s: State, a: Action): State
    requires Enabled(s, a)
  {
    match a
    case BeginLoad(initial) =>
      var screen := Started(s.screen, initial);
      s.(screen := screen, loads := s.loads[s.nextLoad := Load(screen.loadSequence, IdsOf(s.screen.devices))], nextLoad := s.nextLoad + 1)
    case FinishLoad(l, fetch) =>
      s.(screen := Finished(s.screen, s.loads[l].sequence, s.loads[l].starting, fetch), loads := s.loads - {l})
    case BeginSet(device, desired) =>
      if device.id in s.screen.pendingIntents || desired == device.on then s
      else
        s.(screen := s.screen.(pendingIntents := s.screen.pendingIntents[device.id := desired]),
           sets := s.sets[s.nextSet := device.id], nextSet := s.nextSet + 1)
    case FinishSet(k, outcome) => s.(screen := Settled(s.screen, s.sets[k], outcome), sets := s.sets - {k})
    case Changed(device) => s.(screen := s.screen.(devices := Replaced(s.screen.devices, device, false)))
    case Added(device) => s.(screen := s.screen.(devices := Replaced(s.screen.devices, device, true)))
  }

  ghost predicate DatedOutcome(outcome: Outcome, created: DeviceId -> Time) {
    match outcome
    case Updated(d) => d.createdAt == created(d.id)
    case Conflict(r) => r.Some? ==> r.value.createdAt == created(r.value.id)
    case Unknown(r) => r.Some? ==> r.value.createdAt == created(r.value.id)
    case _ => true
  }

  /** What reaches the screen comes from the server, whose lists have unique ids and whose devices keep their creation time. */
  ghost predicate FromServer(a: Action, created: DeviceId -> Time) {
    match a
    case FinishLoad(_, fetch) => fetch.Fetched? ==> Unique(fetch.devices) && Dated(fetch.devices, created)
    case FinishSet(_, outcome) => DatedOutcome(outcome, created)
    case Changed(d) => d.createdAt == created(d.id)
    case Added(d) => d.createdAt == created(d.id)
    case _ => true
  }

  ghost predicate Runs(s: State, actions: seq<Action>, end: State, created: DeviceId -> Time)
    decreases |actions|
  {
    if actions == [] then end == s
    else Enabled(s, actions[0]) && FromServer(actions[0], created) && Runs(Next(s, actions[0]), actions[1..], end, created)
  }

  ghost predicate Inv(s: State, created: DeviceId -> Time) {
    && InOrder(s.screen.devices, created)
    && (forall k :: k in s.sets ==> k < s.nextSet && s.sets[k] in s.screen.pendingIntents)
    && (forall id :: id in s.screen.pendingIntents ==> exists k :: k in s.sets && s.sets[k] == id)
    && (forall k, m :: k in s.sets && m in s.sets && s.sets[k] == s.sets[m] ==> k == m)
  }

  lemma ListStep(s: State, a: Action, created: DeviceId -> Time)
    requires InOrder(s.screen.devices, created) && Enabled(s, a) && FromServer(a, created)
    ensures InOrder(Next(s, a).screen.devices, created)
    ensures NeverBack(s.screen.devices, Next(s, a).screen.devices)
  {
    var devices := s.screen.devices;
    SortedIsUnique(devices, created);
    hide Merged, Replaced, Sorted, Unique;
    assert NeverBack(devices, devices) by {
      forall d, e | d in devices && e in devices && d.id == e.id ensures d == e { SameIdSameDevice(devices, d, e); }
    }
    match a
    case FinishLoad(l, Fetched(fetched)) =>
      MergeKeepsOrder(devices, s.loads[l].starting, fetched, created);
      MergeNeverGoesBack(devices, s.loads[l].starting, fetched);
    case FinishLoad(_, SignedOut) => EmptyInOrder(created);
    case FinishSet(_, Updated(d)) => ReplaceKeepsOrder(devices, d, false, created);
    case FinishSet(_, Conflict(r)) => if r.Some? { ReplaceKeepsOrder(devices, r.value, false, created); }
    case FinishSet(_, Unknown(r)) => if r.Some? { ReplaceKeepsOrder(devices, r.value, false, created); }
    case FinishSet(k, NotFound) => assert Dated(Without(devices, s.sets[k]), created);
    case Changed(d) => ReplaceKeepsOrder(devices, d, false, created);
    case Added(d) => ReplaceKeepsOrder(devices, d, true, created);
    case _ =>
  }

  lemma EmptyInOrder(created: DeviceId -> Time)
    ensures InOrder([], created)
  {
  }

  lemma PendingStep(s: State, a: Action, created: DeviceId -> Time)
    requires Inv(s, created) && Enabled(s, a) && InOrder(Next(s, a).screen.devices, created)
    ensures Inv(Next(s, a), created)
  {
    hide InOrder, Next;
    var t := Next(s, a);
    PendingMoves(s, a);
    forall id | id in t.screen.pendingIntents ensures exists k :: k in t.sets && t.sets[k] == id {
      if id in s.screen.pendingIntents {
        var k :| k in s.sets && s.sets[k] == id;
        assert k in t.sets && t.sets[k] == id;
      } else {
        assert t.sets[s.nextSet] == id;
      }
    }
  }

  /** Sets and pending intents come and go together. */
  lemma PendingMoves(s: State, a: Action)
    requires Enabled(s, a)
    ensures var t := Next(s, a);
            || (t.sets == s.sets && t.screen.pendingIntents == s.screen.pendingIntents && t.nextSet == s.nextSet)
            || (a.BeginSet? && a.device.id !in s.screen.pendingIntents && t.nextSet == s.nextSet + 1
                && t.sets == s.sets[s.nextSet := a.device.id] && t.screen.pendingIntents == s.screen.pendingIntents[a.device.id := a.desired])
            || (a.FinishSet? && t.sets == s.sets - {a.k} && t.screen.pendingIntents == s.screen.pendingIntents - {s.sets[a.k]} && t.nextSet == s.nextSet)
  {
    hide Merged, Replaced, Without, Sort;
  }

  lemma {:induction false} RunHolds(s: State, actions: seq<Action>, end: State, created: DeviceId -> Time)
    requires Inv(s, created) && Runs(s, actions, end, created)
    ensures Inv(end, created)
    decreases |actions|
  {
    if actions != [] {
      ListStep(s, actions[0], created);
      PendingStep(s, actions[0], created);
      hide Inv, Next, Enabled, FromServer;
      RunHolds(Next(s, actions[0]), actions[1..], end, created);
    }
  }

  const LAUNCHED: State := State(Fields(Loading, [], map[], false, false, 0), map[], 0, map[], 0)

  /**
   * Under any overlap of loads, controls and additions the list has unique ids, in order
   * of creation and then id; the next step takes no device back a version; and at most
   * one control per device is under way, exactly while its intent is pending.
   */
  lemma ListStaysSound(actions: seq<Action>, s: State, next: Action, created: DeviceId -> Time)
    requires Runs(LAUNCHED, actions, s, created) && Enabled(s, next) && FromServer(next, created)
    ensures Unique(s.screen.devices) && Sorted(s.screen.devices)
    ensures NeverBack(s.screen.devices, Next(s, next).screen.devices)
    ensures forall k, m :: k in s.sets && m in s.sets && s.sets[k] == s.sets[m] ==> k == m
    ensures forall id :: id in s.screen.pendingIntents <==> exists k :: k in s.sets && s.sets[k] == id
  {
    RunHolds(LAUNCHED, actions, s, created);
    SortedIsUnique(s.screen.devices, created);
    ListStep(s, next, created);
  }

  /** Loads are numbered as they begin, and the screen is on the last one begun. */
  ghost predicate Numbered(s: State) {
    && s.screen.loadSequence == s.nextLoad
    && (forall l :: l in s.loads ==> l < s.nextLoad && s.loads[l].sequence == l + 1)
  }

  lemma NumberedStep(s: State, a: Action)
    requires Numbered(s) && Enabled(s, a)
    ensures Numbered(Next(s, a)) && s.nextLoad <= Next(s, a).nextLoad
    ensures a.BeginLoad? ==> Next(s, a).nextLoad == s.nextLoad + 1 && s.nextLoad in Next(s, a).loads
  {
    hide Merged, Replaced, Without, Sort;
  }

  lemma {:induction false} NumberedRun(s: State, actions: seq<Action>, end: State, created: DeviceId -> Time)
    requires Numbered(s) && Runs(s, actions, end, created)
    ensures Numbered(end) && s.nextLoad <= end.nextLoad
    decreases |actions|
  {
    hide Numbered, Next, Enabled, FromServer;
    if actions != [] {
      NumberedStep(s, actions[0]);
      NumberedRun(Next(s, actions[0]), actions[1..], end, created);
    }
  }

  /**
   * Once a later load has begun, an earlier one changes nothing on the screen whenever
   * it ends, and with whatever result.
   */
  lemma SupersededLoadChangesNothing(
    before: seq<Action>, s: State, l: nat, initial: bool, after: seq<Action>, end: State, fetch: Fetch, created: DeviceId -> Time)
    requires Runs(LAUNCHED, before, s, created) && l in s.loads
    requires Runs(Next(s, BeginLoad(initial)), after, end, created) && l in end.loads
    ensures Next(end, FinishLoad(l, fetch)).screen == end.screen
  {
    hide Merged, FromServer, Runs;
    NumberedRun(LAUNCHED, before, s, created);
    NumberedStep(s, BeginLoad(initial));
    NumberedRun(Next(s, BeginLoad(initial)), after, end, created);
  }

  /* ---------------------------------------------------- what the list comes to */

  /** Whether a device belongs on the list after a load that found it with these devices listed and these fetched. */
  ghost predicate Belongs(was: seq<Device>, starting: set<DeviceId>, fetched: seq<Device>, d: Device) {
    || (d in fetched && forall known :: known in was && known.id == d.id ==> known.version <= d.version)
    || (d in was && exists incoming :: incoming in fetched && incoming.id == d.id && incoming.version < d.version)
    || (d in was && d.id !in starting && forall incoming :: incoming in fetched ==> incoming.id != d.id)
  }

  lemma NewerExactly(was: seq<Device>, incoming: Device, d: Device)
    requires Unique(was)
    ensures d == Newer(was, incoming) <==>
      || (d == incoming && forall known :: known in was && known.id == d.id ==> known.version <= d.version)
      || (d in was && d.id == incoming.id && incoming.version < d.version)
  {
    FindIsMember(was, incoming.id);
    forall known | known in was && known.id == incoming.id ensures Find(was, incoming.id) == Some(known) { MemberIsFound(was, known); }
  }

  lemma MergedMembers(was: seq<Device>, starting: set<DeviceId>, fetched: seq<Device>, d: Device)
    ensures d in Merged(was, starting, fetched) <==> d in NewerOf(was, fetched) || d in AddedSince(was, starting, IdsOf(fetched))
  {
  }

  lemma MergedExactly(was: seq<Device>, starting: set<DeviceId>, fetched: seq<Device>, d: Device)
    requires Unique(was) && Unique(fetched)
    ensures d in Merged(was, starting, fetched) <==> Belongs(was, starting, fetched, d)
  {
    hide Newer, NewerOf, AddedSince, Find, Merged;
    var newer, added := NewerOf(was, fetched), AddedSince(was, starting, IdsOf(fetched));
    MergedMembers(was, starting, fetched, d);
    if i :| 0 <= i < |fetched| && fetched[i].id == d.id {
      NewerExactly(was, fetched[i], d);
      assert fetched[i] in fetched && newer[i] == Newer(was, fetched[i]) && newer[i] in newer;
      assert d.id in IdsOf(fetched);
      if d in newer {
        var j :| 0 <= j < |newer| && newer[j] == d;
        NewerExactly(was, fetched[j], d);
        assert i == j;
      }
    } else if d in newer {
      var j :| 0 <= j < |newer| && newer[j] == d;
      NewerExactly(was, fetched[j], d);
    }
  }

  /**
   * And until then it takes effect: when the last load begun succeeds, every fetched device
   * is listed as fetched, unless the list held it at a higher version, and then that one
   * is; and what else is listed was added since the load began. So a device gone from the
   * server leaves, and nothing else does.
   */
  lemma LastLoadTakesEffect(actions: seq<Action>, s: State, l: nat, fetched: seq<Device>, created: DeviceId -> Time)
    requires Runs(LAUNCHED, actions, s, created) && l in s.loads && l == s.nextLoad - 1 && Unique(fetched)
    ensures var was, now, starting := s.screen.devices, Next(s, FinishLoad(l, Fetched(fetched))).screen.devices, s.loads[l].starting;
            && (forall d :: d in fetched ==>
                  if exists known :: known in was && known.id == d.id && known.version > d.version
                  then forall known :: known in was && known.id == d.id ==> known in now
                  else d in now)
            && (forall d :: d in was && d.id !in starting && (forall incoming :: incoming in fetched ==> incoming.id != d.id) ==> d in now)
            && (forall d :: d in now ==>
                  || (d in fetched && forall known :: known in was && known.id == d.id ==> known.version <= d.version)
                  || (d in was && exists incoming :: incoming in fetched && incoming.id == d.id && incoming.version < d.version)
                  || (d in was && d.id !in starting && forall incoming :: incoming in fetched ==> incoming.id != d.id))
            && (forall d :: d in was && d.id in starting && (forall incoming :: incoming in fetched ==> incoming.id != d.id) ==>
                  forall e :: e in now ==> e.id != d.id)
    ensures Next(s, FinishLoad(l, Fetched(fetched))).screen ==
      s.screen.(devices := Next(s, FinishLoad(l, Fetched(fetched))).screen.devices, phase := Loaded, isStale := false, isRefreshing := false)
  {
    hide Merged, FromServer, Runs, Belongs;
    NumberedRun(LAUNCHED, actions, s, created);
    RunHolds(LAUNCHED, actions, s, created);
    SortedIsUnique(s.screen.devices, created);
    var was, now, starting := s.screen.devices, Next(s, FinishLoad(l, Fetched(fetched))).screen.devices, s.loads[l].starting;
    assert now == Merged(was, starting, fetched);
    forall d ensures d in now <==> Belongs(was, starting, fetched, d) { MergedExactly(was, starting, fetched, d); }
    BelongsMeans(was, now, starting, fetched);
  }

  lemma BelongsMeans(was: seq<Device>, now: seq<Device>, starting: set<DeviceId>, fetched: seq<Device>)
    requires Unique(was) && Unique(fetched) && forall d :: d in now <==> Belongs(was, starting, fetched, d)
    ensures forall d :: d in fetched ==>
      if exists known :: known in was && known.id == d.id && known.version > d.version
      then forall known :: known in was && known.id == d.id ==> known in now
      else d in now
    ensures forall d :: d in was && d.id !in starting && (forall incoming :: incoming in fetched ==> incoming.id != d.id) ==> d in now
    ensures forall d :: d in now ==>
      || (d in fetched && forall known :: known in was && known.id == d.id ==> known.version <= d.version)
      || (d in was && exists incoming :: incoming in fetched && incoming.id == d.id && incoming.version < d.version)
      || (d in was && d.id !in starting && forall incoming :: incoming in fetched ==> incoming.id != d.id)
    ensures forall d :: d in was && d.id in starting && (forall incoming :: incoming in fetched ==> incoming.id != d.id) ==>
      forall e :: e in now ==> e.id != d.id
  {
    forall d | d in fetched
      ensures if exists known :: known in was && known.id == d.id && known.version > d.version
              then forall known :: known in was && known.id == d.id ==> known in now
              else d in now
    {
      if newer :| newer in was && newer.id == d.id && newer.version > d.version {
        forall known | known in was && known.id == d.id ensures known in now { SameIdSameDevice(was, known, newer); }
      }
    }
  }

  /** Any other end of the last load: a failure keeps the list, marked stale or failed; a session that is gone empties it. */
  lemma LastLoadFailsSoftly(actions: seq<Action>, s: State, l: nat, fetch: Fetch, created: DeviceId -> Time)
    requires Runs(LAUNCHED, actions, s, created) && l in s.loads && l == s.nextLoad - 1 && !fetch.Fetched?
    ensures var was, now := s.screen, Next(s, FinishLoad(l, fetch)).screen;
            && now.devices == (if fetch.SignedOut? then [] else was.devices)
            && (now.phase == LoadFailed <==> fetch.OtherFailure? || (fetch.ApiFailure? && (was.devices == [] || was.phase == LoadFailed)))
            && (fetch.SignedOut? ==> now.phase == Loading)
            && (fetch.ApiFailure? && was.devices != [] ==> now.phase == was.phase)
            && (now.isStale <==> was.isStale || (fetch.ApiFailure? && was.devices != []))
            && !now.isRefreshing && now.pendingIntents == was.pendingIntents && now.loadSequence == was.loadSequence
  {
    hide Merged, FromServer, Runs;
    NumberedRun(LAUNCHED, actions, s, created);
  }

  /** A device confirmed from anywhere takes the place of its older self, never of a newer one, and joins the list only if it may. */
  lemma ReplacedExactly(devices: seq<Device>, device: Device, inserting: bool, d: Device)
    requires Unique(devices)
    ensures d in Replaced(devices, device, inserting) <==>
      || (d in devices && (d.id != device.id || device.version < d.version))
      || (d == device && if exists known :: known in devices && known.id == device.id
                         then exists known :: known in devices && known.id == device.id && known.version <= device.version
                         else inserting)
  {
    var i := IndexOf(devices, device.id);
    if i < |devices| {
      assert devices[i] in devices;
      forall known | known in devices && known.id == device.id ensures known == devices[i] { SameIdSameDevice(devices, known, devices[i]); }
      if device.version >= devices[i].version {
        var after := devices[i := device];
        assert after[i] in after;
        forall k | 0 <= k < |devices| && k != i ensures devices[k] in after && devices[k].id != device.id { assert after[k] == devices[k]; }
      }
    }
  }

  /**
   * What a switch change comes to on the screen, in any run: its intent is over, and no
   * other; the device it reports, at whatever outcome reports one, takes the place of its
   * older self; a device not found leaves; and everything else stays.
   */
  lemma SetSettlesExactly(actions: seq<Action>, s: State, k: nat, outcome: Outcome, created: DeviceId -> Time, d: Device)
    requires Runs(LAUNCHED, actions, s, created) && k in s.sets
    ensures var was, now, id := s.screen, Next(s, FinishSet(k, outcome)).screen, s.sets[k];
            var reported := match outcome
              case Updated(device) => Some(device)
              case Conflict(refetched) => refetched
              case Unknown(reconciled) => reconciled
              case _ => None;
            && now.pendingIntents == was.pendingIntents - {id}
            && now == was.(devices := now.devices, pendingIntents := now.pendingIntents)
            && (reported.None? ==> (d in now.devices <==> d in was.devices && (outcome.NotFound? ==> d.id != id)))
            && (reported.Some? ==>
                  (d in now.devices <==>
                     || (d in was.devices && (d.id != reported.value.id || reported.value.version < d.version))
                     || (d == reported.value && exists known :: known in was.devices && known.id == d.id && known.version <= d.version)))
  {
    RunHolds(LAUNCHED, actions, s, created);
    SortedIsUnique(s.screen.devices, created);
    hide Runs, FromServer, Replaced, InOrder;
    var devices := s.screen.devices;
    match outcome
    case Updated(device) => ReplacedExactly(devices, device, false, d);
    case Conflict(r) => if r.Some? { ReplacedExactly(devices, r.value, false, d); }
    case Unknown(r) => if r.Some? { ReplacedExactly(devices, r.value, false, d); }
    case _ =>
  }

  /**
   * What the other steps do, in any run: a switch change is sent if and only if none is
   * pending for the device and its state differs; a device confirmed elsewhere updates the
   * list; and one just added joins it.
   */
  lemma StepsShowExactly(actions: seq<Action>, s: State, created: DeviceId -> Time, device: Device, desired: bool, d: Device)
    requires Runs(LAUNCHED, actions, s, created)
    ensures var was, sent := s.screen.devices, Next(s, BeginSet(device, desired));
            && (sent.nextSet == s.nextSet + 1 <==> device.id !in s.screen.pendingIntents && desired != device.on)
            && (sent.nextSet == s.nextSet + 1 ==>
                  sent.sets == s.sets[s.nextSet := device.id] && sent.screen == s.screen.(pendingIntents := s.screen.pendingIntents[device.id := desired]))
            && (sent.nextSet != s.nextSet + 1 ==> sent == s)
            && (d in Next(s, Changed(device)).screen.devices <==>
                  || (d in was && (d.id != device.id || device.version < d.version))
                  || (d == device && exists known :: known in was && known.id == device.id && known.version <= device.version))
            && (d in Next(s, Added(device)).screen.devices <==>
                  || (d in was && (d.id != device.id || device.version < d.version))
                  || (d == device && forall known :: known in was && known.id == device.id ==> known.version <= device.version))
  {
    RunHolds(LAUNCHED, actions, s, created);
    SortedIsUnique(s.screen.devices, created);
    hide Runs, Replaced, InOrder;
    var was := s.screen.devices;
    ReplacedExactly(was, device, false, d);
    ReplacedExactly(was, device, true, d);
    forall known, other | known in was && other in was && known.id == device.id && other.id == device.id ensures known == other {
      SameIdSameDevice(was, known, other);
    }
  }

  /** A device that appeared while a load ran is still listed when it succeeds, at its version or a newer one. */
  lemma AdditionSurvivesLoad(actions: seq<Action>, s: State, created: DeviceId -> Time, l: nat, fetched: seq<Device>, device: Device)
    requires Runs(LAUNCHED, actions, s, created) && Enabled(s, FinishLoad(l, Fetched(fetched)))
    requires device in s.screen.devices && device.id !in s.loads[l].starting
    ensures exists e :: e in Next(s, FinishLoad(l, Fetched(fetched))).screen.devices && e.id == device.id && e.version >= device.version
  {
    RunHolds(LAUNCHED, actions, s, created);
    SortedIsUnique(s.screen.devices, created);
    if s.loads[l].sequence == s.screen.loadSequence {
      MergeKeepsAdditions(s.screen.devices, s.loads[l].starting, fetched, device);
    } else {
      assert device in Next(s, FinishLoad(l, Fetched(fetched))).screen.devices;
    }
  }
}
