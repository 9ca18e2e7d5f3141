/**
 * Write budgets (server/src/write-budgets.ts): control writes are counted against
 * their grant and then their device, creates against their grant; every budget is
 * counted even when an earlier one already refuses.
 */
module WriteBudgetRules {
  import opened Basics
  import R = RateLimits

  const CONTROL_PER_GRANT: nat := 20
  const CONTROL_PER_DEVICE: nat := 6
  const CREATE_PER_GRANT: nat := 10
  const HOUR: Time := 60 * MINUTE

  datatype Write = Control(grantId: string, device: Option<string>) | Create(grantId: string)

  function GrantKey(write: Write): string {
    (if write.Control? then "control-grant:" else "create-grant:") + write.grantId
  }

  function DeviceKey(device: string): string { "control-device:" + device }

  function GrantRule(write: Write): R.Rule {
    if write.Control? then R.Rule(CONTROL_PER_GRANT, MINUTE) else R.Rule(CREATE_PER_GRANT, HOUR)
  }

  function DeviceRule(): R.Rule { R.Rule(CONTROL_PER_DEVICE, MINUTE) }

  predicate Names(write: Write) { write.Control? && write.device.Some? && write.device.value != "" }

  function Spent(slots: map<string, R.Slot>, write: Write, now: Time): map<string, R.Slot> {
    var once := R.HitIn(slots, GrantKey(write), GrantRule(write).windowMs, now);
    if Names(write) then R.HitIn(once, DeviceKey(write.device.value), MINUTE, now) else once
  }

  /** What each budget says of this write, counted first against its grant and then against its device. */
  function ByGrant(slots: map<string, R.Slot>, write: Write, now: Time): R.Result {
    R.Judge(R.HitIn(slots, GrantKey(write), GrantRule(write).windowMs, now)[GrantKey(write)], GrantRule(write).limit, now)
  }

  function ByDevice(slots: map<string, R.Slot>, write: Write, now: Time): R.Result {
    if Names(write) then R.Judge(Spent(slots, write, now)[DeviceKey(write.device.value)], CONTROL_PER_DEVICE, now) else R.Ok
  }

  class WriteBudgets {
    const store: R.MemoryBucketStore
    const enforcing: bool

    constructor (store: R.MemoryBucketStore, enforcing: bool)
      ensures this.store == store && this.enforcing == enforcing
    {
      this.store := store;
      this.enforcing := enforcing;
    }

    method Spend(write: Write, now: Time) returns (result: R.Result)
      requires store.Valid()
      modifies store, store.windows.Values
      ensures store.Valid() && store.Slots() == Spent(old(store.Slots()), write, now)
      ensures var first := ByGrant(old(store.Slots()), write, now);
              var second := ByDevice(old(store.Slots()), write, now);
              result == if !enforcing || (first.Ok? && second.Ok?) then R.Ok else if first.Refused? then first else second
    {
      var window := store.Hit(GrantKey(write), GrantRule(write).windowMs, now);
      assert store.Slots()[GrantKey(write)] == R.Slot(window.count, window.resetAt);
      var first := R.Judge(R.Slot(window.count, window.resetAt), GrantRule(write).limit, now);
      var refused := first;
      if Names(write) {
        var other := store.Hit(DeviceKey(write.device.value), MINUTE, now);
        assert store.Slots()[DeviceKey(write.device.value)] == R.Slot(other.count, other.resetAt);
        var second := R.Judge(R.Slot(other.count, other.resetAt), CONTROL_PER_DEVICE, now);
        if first.Ok? { refused := second; }
      }
      if refused.Ok? || !enforcing { return R.Ok; }
      return refused;
    }
  }

  /** No two budgets share a key: a grant's controls, its creates, and each device have their own. */
  lemma BudgetsAreApart(a: Write, b: Write, device: string, other: string)
    ensures GrantKey(a) == GrantKey(b) <==> a.Control? == b.Control? && a.grantId == b.grantId
    ensures DeviceKey(device) == DeviceKey(other) <==> device == other
    ensures GrantKey(a) != DeviceKey(device)
  {
    var control, create, named := "control-grant:", "create-grant:", "control-device:";
    assert GrantKey(a)[1] == (if a.Control? then 'o' else 'r') && GrantKey(b)[1] == (if b.Control? then 'o' else 'r');
    assert GrantKey(a)[if a.Control? then |control| else |create|..] == a.grantId;
    assert GrantKey(b)[if b.Control? then |control| else |create|..] == b.grantId;
    assert DeviceKey(device)[|named|..] == device && DeviceKey(other)[|named|..] == other;
    assert DeviceKey(device)[1] == 'o' && DeviceKey(device)[8] == 'd';
    if a.Control? { assert GrantKey(a)[8] == 'g'; }
  }

  /**
   * What a spend answers, exactly, and what it costs: a grant has 20 controls a minute and
   * 10 creates an hour, a device 6 controls a minute, each from its first write on.
   */
  lemma SpendIsJudgedExactly(slots: map<string, R.Slot>, write: Write, now: Time)
    ensures ByGrant(slots, write, now).Ok? <==> R.Used(slots, GrantKey(write), now) < if write.Control? then 20 else 10
    ensures ByDevice(slots, write, now).Ok? <==>
      (write.Control? && write.device.Some? && write.device.value != "" ==> R.Used(slots, DeviceKey(write.device.value), now) < 6)
    ensures R.Used(Spent(slots, write, now), GrantKey(write), now) == R.Used(slots, GrantKey(write), now) + 1
    ensures Names(write) ==>
      R.Used(Spent(slots, write, now), DeviceKey(write.device.value), now) == R.Used(slots, DeviceKey(write.device.value), now) + 1
    ensures R.Used(slots, GrantKey(write), now) == 0 && !(GrantKey(write) in slots && slots[GrantKey(write)].resetAt > now) ==>
      Spent(slots, write, now)[GrantKey(write)].resetAt == now + if write.Control? then 60000 else 3600000
  {
    var key, windowMs := GrantKey(write), GrantRule(write).windowMs;
    var once := R.HitIn(slots, key, windowMs, now);
    hide R.HitIn, R.Used;
    R.HitCountsItsOwnKey(slots, key, windowMs, now, key, now);
    UsedNow(once, key, now);
    if Names(write) {
      var device := DeviceKey(write.device.value);
      BudgetsAreApart(write, write, write.device.value, write.device.value);
      R.HitCountsItsOwnKey(slots, key, windowMs, now, device, now);
      R.HitCountsItsOwnKey(once, device, MINUTE, now, key, now);
      UsedNow(R.HitIn(once, device, MINUTE, now), device, now);
    }
  }

  lemma UsedNow(slots: map<string, R.Slot>, key: string, now: Time)
    requires key in slots && slots[key].resetAt > now
    ensures R.Used(slots, key, now) == slots[key].count
  {
  }

  /** One grant's writes never cost another grant's budget, creates never controls', and one device's controls never another's. */
  lemma OthersKeepTheirBudgets(slots: map<string, R.Slot>, write: Write, other: Write, now: Time, later: Time)
    requires now <= later
    ensures other.grantId != write.grantId || other.Control? != write.Control? ==>
      R.Used(Spent(slots, write, now), GrantKey(other), later) == R.Used(slots, GrantKey(other), later)
    ensures Names(other) && !(Names(write) && write.device == other.device) ==>
      R.Used(Spent(slots, write, now), DeviceKey(other.device.value), later) == R.Used(slots, DeviceKey(other.device.value), later)
  {
    var device := if Names(write) then write.device.value else "";
    var named := if Names(other) then other.device.value else "";
    BudgetsAreApart(write, other, named, device);
    BudgetsAreApart(other, write, device, named);
    hide R.HitIn, R.Used, GrantKey, DeviceKey;
    var once := R.HitIn(slots, GrantKey(write), GrantRule(write).windowMs, now);
    R.HitCountsItsOwnKey(slots, GrantKey(write), GrantRule(write).windowMs, now, GrantKey(other), later);
    R.HitCountsItsOwnKey(slots, GrantKey(write), GrantRule(write).windowMs, now, DeviceKey(named), later);
    R.HitCountsItsOwnKey(once, DeviceKey(device), MINUTE, now, GrantKey(other), later);
    R.HitCountsItsOwnKey(once, DeviceKey(device), MINUTE, now, DeviceKey(named), later);
  }

  /* ---------------------------------------- spends interleaved, and enforced */

  /** Where a spend has got to; a verdict is the turn at which the bucket allowed it, if it did. */
  datatype Spend =
    | Begun(write: Write)
    | GrantHit(write: Write, h: nat)
    | GrantRead(write: Write, byGrant: Option<nat>)
    | DeviceHit(write: Write, byGrant: Option<nat>, h: nat)

  /** A write let through, with the turns it took in its buckets. */
  datatype Passed = Passed(write: Write, byGrant: nat, byDevice: Option<nat>)

  datatype State = State(buckets: R.State, spends: map<nat, Spend>, next: nat, passed: seq<Passed>)

  datatype Action = Tick(elapsed: nat) | Sweeps | Begin(write: Write) | Step(i: nat)

  /** The buckets' own limits, wherever a key of theirs is in use. */
  ghost predicate RulesOk(rules: map<string, R.Rule>) {
    && (forall w: Write {:trigger GrantKey(w)} :: GrantKey(w) in rules ==> rules[GrantKey(w)] == GrantRule(w))
    && (forall d: string {:trigger DeviceKey(d)} :: DeviceKey(d) in rules ==> rules[DeviceKey(d)] == DeviceRule())
  }

  predicate CanStep(b: R.State, spend: Spend) {
    match spend
    case Begun(write) => R.Enabled(b, R.Hits(GrantKey(write)))
    case GrantHit(_, h) => R.Enabled(b, R.Reads(h))
    case GrantRead(write, _) => Names(write) ==> R.Enabled(b, R.Hits(DeviceKey(write.device.value)))
    case DeviceHit(_, _, h) => R.Enabled(b, R.Reads(h))
  }

  predicate Enabled(s: State, a: Action) {
    match a
    case Tick(_) => true
    case Sweeps => true
    case Begin(write) =>
      && GrantKey(write) in s.buckets.rules
      && (Names(write) ==> DeviceKey(write.device.value) in s.buckets.rules)
    case Step(i) => i in s.spends && CanStep(s.buckets, s.spends[i])
  }

  /** The turn just allowed, if this reading allowed one. */
  function Verdict(was: R.State, now: R.State): Option<nat> {
    if |now.allowed| > |was.allowed| then Some(|was.allowed|) else None
  }

  function Decide(s: State, i: nat, write: Write, byGrant: Option<nat>, byDevice: Option<nat>): State {
    var done := s.(spends := s.spends - {i});
    if byGrant.None? || (Names(write) && byDevice.None?) then done
    else done.(passed := s.passed + [Passed(write, byGrant.value, byDevice)])
  }

  function Next(s: State, a: Action): State
    requires Enabled(s, a)
  {
    match a
    case Tick(elapsed) => s.(buckets := R.Next(s.buckets, R.Tick(elapsed)))
    case Sweeps => s.(buckets := R.Next(s.buckets, R.Sweeps))
    case Begin(write) => s.(spends := s.spends[s.next := Begun(write)], next := s.next + 1)
    case Step(i) =>
      match s.spends[i]
      case Begun(write) =>
        s.(buckets := R.Next(s.buckets, R.Hits(GrantKey(write))), spends := s.spends[i := GrantHit(write, s.buckets.next)])
      case GrantHit(write, h) =>
        var buckets := R.Next(s.buckets, R.Reads(h));
        s.(buckets := buckets, spends := s.spends[i := GrantRead(write, Verdict(s.buckets, buckets))])
      case GrantRead(write, byGrant) =>
        if !Names(write) then Decide(s, i, write, byGrant, None)
        else
          s.(buckets := R.Next(s.buckets, R.Hits(DeviceKey(write.device.value))),
             spends := s.spends[i := DeviceHit(write, byGrant, s.buckets.next)])
      case DeviceHit(write, byGrant, h) =>
        var buckets := R.Next(s.buckets, R.Reads(h));
        Decide(s.(buckets := buckets), i, write, byGrant, Verdict(s.buckets, buckets))
  }

  ghost predicate Start(s: State) {
    R.Start(s.buckets) && RulesOk(s.buckets.rules) && s.spends == map[] && s.passed == []
  }

  predicate Runs(s: State, actions: seq<Action>, end: State)
    decreases |actions|
  {
    if actions == [] then end == s
    else Enabled(s, actions[0]) && Runs(Next(s, actions[0]), actions[1..], end)
  }

  ghost predicate Reachable(end: State) {
    exists s, actions :: Start(s) && Runs(s, actions, end)
  }

  /* -------------------------------------------------------------- invariant */

  predicate TurnOf(b: R.State, i: nat, key: string) { i < |b.allowed| && b.allowed[i].key == key }

  function TurnsOf(spend: Spend): set<nat> {
    if (spend.GrantRead? || spend.DeviceHit?) && spend.byGrant.Some? then {spend.byGrant.value} else {}
  }

  function TurnsTaken(p: Passed): set<nat> {
    {p.byGrant} + if p.byDevice.Some? then {p.byDevice.value} else {}
  }

  ghost predicate SpendOk(b: R.State, spend: Spend) {
    match spend
    case Begun(_) => true
    case GrantHit(write, h) => h < b.next && (h in b.reading ==> b.reading[h].key == GrantKey(write))
    case GrantRead(write, byGrant) => byGrant.Some? ==> TurnOf(b, byGrant.value, GrantKey(write))
    case DeviceHit(write, byGrant, h) =>
      && Names(write) && h < b.next
      && (byGrant.Some? ==> TurnOf(b, byGrant.value, GrantKey(write)))
      && (h in b.reading ==> b.reading[h].key == DeviceKey(write.device.value))
  }

  ghost predicate PassedOk(b: R.State, p: Passed) {
    && TurnOf(b, p.byGrant, GrantKey(p.write))
    && (Names(p.write) ==> p.byDevice.Some? && TurnOf(b, p.byDevice.value, DeviceKey(p.write.device.value)))
  }

  ghost predicate Inv(s: State) {
    && R.WindowsOk(s.buckets) && R.TurnsOk(s.buckets) && RulesOk(s.buckets.rules)
    && (forall i :: i in s.spends ==> i < s.next && SpendOk(s.buckets, s.spends[i]))
    && (forall i :: 0 <= i < |s.passed| ==> PassedOk(s.buckets, s.passed[i]))
    && OwnTurns(s)
  }

  /** No turn is taken twice. */
  ghost predicate OwnTurns(s: State) {
    && (forall i, t {:trigger t in TurnsOf(s.spends[i])} :: i in s.spends && t in TurnsOf(s.spends[i]) ==> t < |s.buckets.allowed|)
    && (forall i, t {:trigger t in TurnsTaken(s.passed[i])} :: 0 <= i < |s.passed| && t in TurnsTaken(s.passed[i]) ==> t < |s.buckets.allowed|)
    && (forall i, j :: i in s.spends && j in s.spends && i != j ==> TurnsOf(s.spends[i]) !! TurnsOf(s.spends[j]))
    && (forall i, j :: i in s.spends && 0 <= j < |s.passed| ==> TurnsOf(s.spends[i]) !! TurnsTaken(s.passed[j]))
    && (forall i, j :: 0 <= i < j < |s.passed| ==> TurnsTaken(s.passed[i]) !! TurnsTaken(s.passed[j]))
  }

  /** Windows and turns as they should be, no earlier verdict undone, and no reading of another's. */
  ghost predicate BucketsMoved(b: R.State, n: R.State) {
    && R.WindowsOk(n) && R.TurnsOk(n) && n.rules == b.rules
    && b.allowed <= n.allowed && |n.allowed| <= |b.allowed| + 1 && b.next <= n.next
    && (forall h :: h in n.reading && h < b.next ==> h in b.reading && n.reading[h] == b.reading[h])
  }

  lemma BucketShape(b: R.State, a: R.Action)
    requires R.Enabled(b, a)
    requires forall h :: h in b.reading ==> h < b.next
    ensures var n := R.Next(b, a);
            && b.allowed <= n.allowed && |n.allowed| <= |b.allowed| + 1 && b.next <= n.next
            && (forall h :: h in n.reading && h < b.next ==> h in b.reading && n.reading[h] == b.reading[h])
    ensures a.Hits? ==>
      var n := R.Next(b, a); n.next == b.next + 1 && b.next in n.reading && n.reading[b.next].key == a.key && n.allowed == b.allowed
    ensures a.Reads? ==>
      var n := R.Next(b, a); Verdict(b, n).Some? ==> TurnOf(n, Verdict(b, n).value, b.reading[a.h].key)
  {
  }

  lemma BucketMoves(b: R.State, a: R.Action)
    requires R.WindowsOk(b) && R.TurnsOk(b) && R.Enabled(b, a)
    ensures BucketsMoved(b, R.Next(b, a))
    ensures a.Hits? ==>
      var n := R.Next(b, a); n.next == b.next + 1 && b.next in n.reading && n.reading[b.next].key == a.key && n.allowed == b.allowed
    ensures a.Reads? ==>
      var n := R.Next(b, a); Verdict(b, n).Some? ==> TurnOf(n, Verdict(b, n).value, b.reading[a.h].key)
  {
    BucketShape(b, a);
    hide R.Next, R.WindowsOk, R.Enabled, R.TurnsOk;
    R.WindowsStep(b, a);
    R.TurnsStep(b, a);
  }

  function NewTurns(b: R.State, n: R.State): set<nat> {
    if |n.allowed| > |b.allowed| then {|b.allowed|} else {}
  }

  /** What a spend's step comes to: the spend moves on or is over, keeping its turns and at most the new one. */
  ghost predicate Moved(s: State, i: nat, t: State)
    requires i in s.spends
  {
    var own := TurnsOf(s.spends[i]) + NewTurns(s.buckets, t.buckets);
    || (t.passed == s.passed && i in t.spends && t.spends == s.spends[i := t.spends[i]]
        && SpendOk(t.buckets, t.spends[i]) && TurnsOf(t.spends[i]) <= own)
    || (t.passed == s.passed && t.spends == s.spends - {i})
    || (t.spends == s.spends - {i} && |t.passed| == |s.passed| + 1 && t.passed == s.passed + [t.passed[|s.passed|]]
        && PassedOk(t.buckets, t.passed[|s.passed|]) && TurnsTaken(t.passed[|s.passed|]) <= own)
  }

  lemma SpendMoves(s: State, i: nat)
    requires R.WindowsOk(s.buckets) && R.TurnsOk(s.buckets) && Enabled(s, Step(i)) && SpendOk(s.buckets, s.spends[i])
    ensures BucketsMoved(s.buckets, Next(s, Step(i)).buckets) && Moved(s, i, Next(s, Step(i)))
    ensures Next(s, Step(i)).next == s.next
  {
    hide R.Next, R.WindowsOk, R.TurnsOk, GrantKey, DeviceKey;
    var b := s.buckets;
    match s.spends[i]
    case Begun(write) => BucketMoves(b, R.Hits(GrantKey(write)));
    case GrantHit(write, h) => BucketMoves(b, R.Reads(h));
    case GrantRead(write, byGrant) =>
      if Names(write) { BucketMoves(b, R.Hits(DeviceKey(write.device.value))); }
    case DeviceHit(write, byGrant, h) => BucketMoves(b, R.Reads(h));
  }

  lemma OwnTurnsMoved(s: State, i: nat, t: State)
    requires OwnTurns(s) && i in s.spends && Moved(s, i, t)
    requires s.buckets.allowed <= t.buckets.allowed
    ensures OwnTurns(t)
  {
    hide SpendOk, PassedOk, TurnsOf, TurnsTaken;
    assert forall n :: n in TurnsOf(s.spends[i]) ==> n < |s.buckets.allowed|;
  }

  lemma ConditionsStay(s: State, t: State)
    requires BucketsMoved(s.buckets, t.buckets)
    ensures forall spend :: SpendOk(s.buckets, spend) ==> SpendOk(t.buckets, spend)
    ensures forall p :: PassedOk(s.buckets, p) ==> PassedOk(t.buckets, p)
  {
    hide GrantKey, DeviceKey, R.WindowsOk, R.TurnsOk;
  }

  lemma SpendsMoved(s: State, i: nat, t: State)
    requires Inv(s) && i in s.spends && BucketsMoved(s.buckets, t.buckets) && Moved(s, i, t) && t.next == s.next
    ensures Inv(t)
  {
    OwnTurnsMoved(s, i, t);
    ConditionsStay(s, t);
    hide R.WindowsOk, R.TurnsOk, RulesOk, OwnTurns, SpendOk, PassedOk, TurnsOf, TurnsTaken, NewTurns;
  }

  lemma BucketsTick(s: State, t: State)
    requires Inv(s) && BucketsMoved(s.buckets, t.buckets) && t == s.(buckets := t.buckets)
    ensures Inv(t)
  {
    ConditionsStay(s, t);
    hide R.WindowsOk, R.TurnsOk, RulesOk, SpendOk, PassedOk, TurnsOf, TurnsTaken;
  }

  lemma StepHolds(s: State, a: Action)
    requires Inv(s) && Enabled(s, a)
    ensures Inv(Next(s, a)) && Next(s, a).buckets.rules == s.buckets.rules
  {
    hide R.Next, R.WindowsOk, R.TurnsOk, RulesOk, SpendOk, PassedOk;
    match a
    case Step(i) =>
      SpendMoves(s, i);
      SpendsMoved(s, i, Next(s, a));
    case Begin(write) =>
      assert SpendOk(s.buckets, Begun(write)) by { BegunOk(s.buckets, write); }
    case Tick(elapsed) =>
      BucketMoves(s.buckets, R.Tick(elapsed));
      BucketsTick(s, Next(s, a));
    case Sweeps =>
      BucketMoves(s.buckets, R.Sweeps);
      BucketsTick(s, Next(s, a));
  }

  lemma BegunOk(b: R.State, write: Write)
    ensures SpendOk(b, Begun(write))
  {
  }

  lemma {:induction false} RunHolds(s: State, actions: seq<Action>, end: State)
    requires Inv(s) && Runs(s, actions, end)
    ensures Inv(end) && end.buckets.rules == s.buckets.rules
    decreases |actions|
  {
    hide Inv, Next, Enabled;
    if actions != [] {
      StepHolds(s, actions[0]);
      RunHolds(Next(s, actions[0]), actions[1..], end);
    }
  }

  lemma ReachableHolds(s: State)
    requires Reachable(s)
    ensures Inv(s)
  {
    var start, actions :| Start(start) && Runs(start, actions, s);
    RunHolds(start, actions, s);
  }

  /* ---------------------------------------------------------------- the bounds */

  /** The writes let through on these turns. */
  function PassedOn(s: State, byDevice: bool, turns: set<nat>): set<nat> {
    set i: nat | i < |s.passed| &&
      (if byDevice then s.passed[i].byDevice.Some? && s.passed[i].byDevice.value in turns else s.passed[i].byGrant in turns)
  }

  function TurnTaken(p: Passed, byDevice: bool): nat {
    if byDevice && p.byDevice.Some? then p.byDevice.value else p.byGrant
  }

  lemma {:induction false} InjectionSize(a: set<nat>, into: map<nat, nat>, b: set<nat>)
    requires a <= into.Keys && (forall i :: i in a ==> into[i] in b)
    requires forall i, j :: i in a && j in a && into[i] == into[j] ==> i == j
    ensures |a| <= |b|
    decreases |a|
  {
    if i :| i in a { InjectionSize(a - {i}, into, b - {into[i]}); }
  }

  lemma PassedAtMost(s: State, byDevice: bool, turns: set<nat>)
    requires OwnTurns(s)
    ensures |PassedOn(s, byDevice, turns)| <= |turns|
  {
    var into: map<nat, nat> := map i: nat | i < |s.passed| :: TurnTaken(s.passed[i], byDevice);
    forall i, j | 0 <= i < |s.passed| && 0 <= j < |s.passed| && into[i] == into[j] ensures i == j {
      assert into[i] in TurnsTaken(s.passed[i]) && into[j] in TurnsTaken(s.passed[j]);
    }
    InjectionSize(PassedOn(s, byDevice, turns), into, turns);
  }

  /**
   * However spends interleave, at most twice a grant's budget of writes is let through in
   * any span as long as its window: 40 controls a minute, 20 creates an hour.
   */
  lemma GrantBudgetHolds(s: State, write: Write, from: Time, passed: set<nat>)
    requires Reachable(s)
    requires forall i :: i in passed ==>
      i < |s.passed| && s.passed[i].write.Control? == write.Control? && s.passed[i].write.grantId == write.grantId
    requires forall i :: i in passed ==> s.passed[i].byGrant < |s.buckets.allowed|
    requires forall i :: i in passed ==>
      from <= s.buckets.allowed[s.passed[i].byGrant].at < from + if write.Control? then 60000 else 3600000
    ensures |passed| <= if write.Control? then 40 else 20
  {
    hide GrantKey, DeviceKey, GrantRule, OwnTurns, R.TurnsOk, R.WindowsOk;
    forall i | i in passed ensures GrantKey(s.passed[i].write) == GrantKey(write) { SameGrantSameKey(s.passed[i].write, write); }
    RuleInNumbers(write);
    ReachableHolds(s);
    var key := GrantKey(write);
    if i :| i in passed {
      assert PassedOk(s.buckets, s.passed[i]);
      TurnHasRule(s, s.passed[i].byGrant);
      var turns := R.AllowedWithin(s.buckets, key, from, GrantRule(write).windowMs);
      R.WithinSpan(s.buckets, key, from);
      forall j | j in passed ensures j in PassedOn(s, false, turns) { assert PassedOk(s.buckets, s.passed[j]); }
      PassedAtMost(s, false, turns);
      R.SubsetSize(passed, PassedOn(s, false, turns));
    }
  }

  lemma SameGrantSameKey(a: Write, b: Write)
    requires a.Control? == b.Control? && a.grantId == b.grantId
    ensures GrantKey(a) == GrantKey(b)
  {
  }

  lemma RuleInNumbers(write: Write)
    ensures GrantRule(write) == if write.Control? then R.Rule(20, 60000) else R.Rule(10, 3600000)
  {
  }

  lemma TurnHasRule(s: State, i: nat)
    requires R.TurnsOk(s.buckets) && i < |s.buckets.allowed|
    ensures s.buckets.allowed[i].key in s.buckets.rules
  {
    assert R.TurnOk(s.buckets, s.buckets.allowed[i]);
  }

  /** And at most 12 controls a minute of any one device, whichever grants they come from. */
  lemma DeviceBudgetHolds(s: State, device: string, from: Time, passed: set<nat>)
    requires Reachable(s) && device != ""
    requires forall i :: i in passed ==> i < |s.passed| && s.passed[i].write.Control? && s.passed[i].write.device == Some(device)
    requires forall i :: i in passed ==> s.passed[i].byDevice.Some? && s.passed[i].byDevice.value < |s.buckets.allowed|
    requires forall i :: i in passed ==> from <= s.buckets.allowed[s.passed[i].byDevice.value].at < from + MINUTE
    ensures |passed| <= 12
  {
    ReachableHolds(s);
    hide GrantKey, DeviceKey, OwnTurns, R.TurnsOk, R.WindowsOk;
    var key := DeviceKey(device);
    if i :| i in passed {
      assert PassedOk(s.buckets, s.passed[i]);
      TurnHasRule(s, s.passed[i].byDevice.value);
      assert s.buckets.rules[key] == DeviceRule();
      var turns := R.AllowedWithin(s.buckets, key, from, MINUTE);
      R.WithinSpan(s.buckets, key, from);
      forall j | j in passed ensures j in PassedOn(s, true, turns) { assert PassedOk(s.buckets, s.passed[j]); }
      PassedAtMost(s, true, turns);
      R.SubsetSize(passed, PassedOn(s, true, turns));
    }
  }

  /** Every write let through took a turn in its grant's budget and, if it names a device, one in the device's. */
  lemma PassedWritesAreCounted(s: State, i: nat)
    requires Reachable(s) && i < |s.passed|
    ensures var p := s.passed[i];
            && p.byGrant < |s.buckets.allowed| && s.buckets.allowed[p.byGrant].key == GrantKey(p.write)
            && (Names(p.write) ==> p.byDevice.Some? && TurnOf(s.buckets, p.byDevice.value, DeviceKey(p.write.device.value)))
  {
    ReachableHolds(s);
    hide GrantKey, DeviceKey;
    assert PassedOk(s.buckets, s.passed[i]);
  }

  /* -------------------------------------------------- a spend nothing interrupts */

  lemma GrantHalf(s: State, i: nat, write: Write, other: string) returns (hit: State, t: State)
    requires R.WindowsOk(s.buckets) && i in s.spends && s.spends[i] == Begun(write) && other != GrantKey(write)
    requires GrantKey(write) in s.buckets.rules && s.buckets.rules[GrantKey(write)] == GrantRule(write)
    ensures Enabled(s, Step(i)) && hit == Next(s, Step(i)) && Enabled(hit, Step(i)) && t == Next(hit, Step(i))
    ensures R.WindowsOk(t.buckets) && t.buckets.rules == s.buckets.rules && t.passed == s.passed
    ensures i in t.spends && t.spends[i].GrantRead? && t.spends[i].write == write
    ensures t.spends[i].byGrant.Some? <==> R.Counted(s.buckets, GrantKey(write)) < if write.Control? then 20 else 10
    ensures R.Counted(t.buckets, GrantKey(write)) == R.Counted(s.buckets, GrantKey(write)) + 1
    ensures R.Counted(t.buckets, other) == R.Counted(s.buckets, other)
  {
    hide GrantKey, R.Next, R.Counted, R.WindowsOk;
    R.HitReadAtOnceIsAllowedIff(s.buckets, GrantKey(write), other);
    hit := Next(s, Step(i));
    t := Next(hit, Step(i));
    R.WindowsStep(s.buckets, R.Hits(GrantKey(write)));
    R.WindowsStep(hit.buckets, R.Reads(s.buckets.next));
  }

  lemma DeviceHalf(s: State, i: nat, write: Write, other: string) returns (hit: State, t: State)
    requires R.WindowsOk(s.buckets) && i in s.spends && s.spends[i].GrantRead? && s.spends[i].write == write
    requires Names(write) && other != DeviceKey(write.device.value)
    requires DeviceKey(write.device.value) in s.buckets.rules && s.buckets.rules[DeviceKey(write.device.value)] == DeviceRule()
    ensures Enabled(s, Step(i)) && hit == Next(s, Step(i)) && Enabled(hit, Step(i)) && t == Next(hit, Step(i))
    ensures t.passed == s.passed || (|t.passed| == |s.passed| + 1 && t.passed[|s.passed|].write == write)
    ensures |t.passed| == |s.passed| + 1 <==> s.spends[i].byGrant.Some? && R.Counted(s.buckets, DeviceKey(write.device.value)) < 6
    ensures R.Counted(t.buckets, DeviceKey(write.device.value)) == R.Counted(s.buckets, DeviceKey(write.device.value)) + 1
    ensures R.Counted(t.buckets, other) == R.Counted(s.buckets, other)
  {
    hide DeviceKey, R.Next, R.Counted, R.WindowsOk;
    R.HitReadAtOnceIsAllowedIff(s.buckets, DeviceKey(write.device.value), other);
    hit := Next(s, Step(i));
    t := Next(hit, Step(i));
  }

  lemma NothingMore(s: State, i: nat, write: Write) returns (t: State)
    requires i in s.spends && s.spends[i].GrantRead? && s.spends[i].write == write && !Names(write)
    ensures Enabled(s, Step(i)) && t == Next(s, Step(i)) && t.buckets == s.buckets
    ensures t.passed == s.passed || (|t.passed| == |s.passed| + 1 && t.passed[|s.passed|].write == write)
    ensures |t.passed| == |s.passed| + 1 <==> s.spends[i].byGrant.Some?
  {
    t := Next(s, Step(i));
  }

  lemma Began(s: State, write: Write)
    requires Reachable(s) && Enabled(s, Begin(write))
    ensures var a := Next(s, Begin(write));
            && a.buckets == s.buckets && a.passed == s.passed && s.next in a.spends && a.spends[s.next] == Begun(write)
            && R.WindowsOk(s.buckets) && s.buckets.rules[GrantKey(write)] == GrantRule(write)
            && (Names(write) ==> s.buckets.rules[DeviceKey(write.device.value)] == DeviceRule())
  {
    ReachableHolds(s);
  }

  /**
   * A spend that nothing interrupts is let through if and only if its grant has made fewer
   * than 20 controls in its minute, or 10 creates in its hour, and the device named has had
   * fewer than 6 controls in its own; and it is counted against both either way.
   */
  lemma UninterruptedSpendPassesIff(s: State, write: Write) returns (actions: seq<Action>, end: State)
    requires Reachable(s) && Enabled(s, Begin(write))
    ensures Runs(s, actions, end)
    ensures |end.passed| == |s.passed| + 1 <==>
      && R.Counted(s.buckets, GrantKey(write)) < (if write.Control? then 20 else 10)
      && (write.Control? && write.device.Some? && write.device.value != "" ==> R.Counted(s.buckets, DeviceKey(write.device.value)) < 6)
    ensures |end.passed| == |s.passed| + 1 ==> end.passed[|s.passed|].write == write
    ensures R.Counted(end.buckets, GrantKey(write)) == R.Counted(s.buckets, GrantKey(write)) + 1
    ensures Names(write) ==>
      R.Counted(end.buckets, DeviceKey(write.device.value)) == R.Counted(s.buckets, DeviceKey(write.device.value)) + 1
  {
    hide Next, GrantKey, DeviceKey, R.Counted, R.WindowsOk, Reachable;
    var device := if Names(write) then write.device.value else "";
    BudgetsAreApart(write, write, device, device);
    Began(s, write);
    var i, a := s.next, Next(s, Begin(write));
    var b, c := GrantHalf(a, i, write, DeviceKey(device));
    if !Names(write) {
      end := NothingMore(c, i, write);
      actions := [Begin(write), Step(i), Step(i), Step(i)];
    } else {
      var d;
      d, end := DeviceHalf(c, i, write, GrantKey(write));
      actions := [Begin(write), Step(i), Step(i), Step(i), Step(i)];
      assert actions[4..] == [Step(i)] + actions[5..] && Runs(end, actions[5..], end);
      assert Runs(d, actions[4..], end);
    }
    assert actions[3..] == [Step(i)] + actions[4..] && Runs(c, actions[3..], end);
    assert actions[2..] == [Step(i)] + actions[3..] && Runs(b, actions[2..], end);
    assert actions[1..] == [Step(i)] + actions[2..] && Runs(a, actions[1..], end);
  }
}
