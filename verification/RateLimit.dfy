/**
 * Fixed-window rate limits (server/src/security/rate-limit.ts).
 *
 * `hit` hands its caller the window's own record, which later hits go on counting,
 * and the caller reads it after an await. So a window is an object here, and in the
 * machine below a hit and its reading are two steps.
 */
module RateLimits {
  import opened Basics

  const SWEEP_ABOVE: nat := 10000

  datatype Slot = Slot(count: nat, resetAt: Time)

  /* ------------------------------------------------------------- one store */

  function Swept(slots: map<string, Slot>, now: Time): map<string, Slot> {
    map k | k in slots && slots[k].resetAt > now :: slots[k]
  }

  function HitIn(slots: map<string, Slot>, key: string, windowMs: Time, now: Time): (r: map<string, Slot>)
    ensures windowMs > 0 ==> key in r && r[key].count >= 1 && now < r[key].resetAt
  {
    if key !in slots || slots[key].resetAt <= now then
      var started := slots[key := Slot(1, now + windowMs)];
      if |started| > SWEEP_ABOVE then Swept(started, now) else started
    else slots[key := slots[key].(count := slots[key].count + 1)]
  }

  class Window {
    var count: nat
    var resetAt: Time

    constructor (resetAt: Time)
      ensures count == 1 && this.resetAt == resetAt
    {
      count := 1;
      this.resetAt := resetAt;
    }
  }

  class MemoryBucketStore {
    var windows: map<string, Window>

    ghost predicate Valid()
      reads this
    {
      forall k, l :: k in windows && l in windows && windows[k] == windows[l] ==> k == l
    }

    ghost function Slots(): map<string, Slot>
      reads this, windows.Values
    {
      map k | k in windows :: Slot(windows[k].count, windows[k].resetAt)
    }

    constructor ()
      ensures Valid() && windows == map[]
    {
      windows := map[];
    }

    /** Counts one hit. The caller gets the window itself: what it reads there later may be more. */
    method Hit(key: string, windowMs: Time, now: Time) returns (window: Window)
      requires Valid() && windowMs > 0
      modifies this, windows.Values
      ensures Valid()
      ensures Slots() == HitIn(old(Slots()), key, windowMs, now)
      ensures key in windows && windows[key] == window && now < window.resetAt
      ensures key in old(windows) && old(windows[key].resetAt) > now ==> window == old(windows[key])
      ensures forall w :: w in windows.Values ==> w in old(windows.Values) || fresh(w)
    {
      if key !in windows || windows[key].resetAt <= now {
        window := Begin(key, windowMs, now);
      } else {
        window := windows[key];
        window.count := window.count + 1;
        assert Slots() == HitIn(old(Slots()), key, windowMs, now);
      }
    }

    method Begin(key: string, windowMs: Time, now: Time) returns (window: Window)
      requires Valid() && windowMs > 0 && (key in windows ==> windows[key].resetAt <= now)
      modifies this`windows
      ensures Valid()
      ensures Slots() == HitIn(old(Slots()), key, windowMs, now)
      ensures key in windows && windows[key] == window && window.resetAt == now + windowMs && fresh(window)
      ensures forall w :: w in windows.Values ==> w in old(windows.Values) || w == window
    {
      window := Open(key, windowMs, now);
      SameSize(windows, Slots());
      if |windows| > SWEEP_ABOVE { SweepSlots(now); }
    }

    /** The new window takes the key's place in the map. */
    method Open(key: string, windowMs: Time, now: Time) returns (window: Window)
      requires Valid()
      modifies this`windows
      ensures Valid() && Slots() == old(Slots())[key := Slot(1, now + windowMs)]
      ensures key in windows && windows[key] == window && window.resetAt == now + windowMs && fresh(window)
      ensures forall w :: w in windows.Values ==> w in old(windows.Values) || w == window
    {
      window := new Window(now + windowMs);
      windows := windows[key := window];
    }

    method SweepSlots(now: Time)
      requires Valid()
      modifies this`windows
      ensures Valid() && Slots() == Swept(old(Slots()), now)
      ensures windows == map k | k in old(windows) && old(windows[k].resetAt) > now :: old(windows)[k]
    {
      Sweep(now);
    }

    method Sweep(now: Time)
      modifies this`windows
      ensures windows == map k | k in old(windows) && old(windows[k].resetAt) > now :: old(windows)[k]
    {
      var pending := windows.Keys;
      ghost var was := windows;
      while pending != {}
        invariant pending <= was.Keys
        invariant windows == map k | k in was && (k in pending || was[k].resetAt > now) :: was[k]
        decreases pending
      {
        var key :| key in pending;
        if windows[key].resetAt <= now { windows := windows - {key}; }
        pending := pending - {key};
      }
    }
  }

  lemma SameSize<T, U>(m: map<string, T>, n: map<string, U>)
    requires m.Keys == n.Keys
    ensures |m| == |n|
  {
    assert |m| == |m.Keys| && |n| == |n.Keys|;
  }

  /** Sweeping is unobservable: the next hit on any key counts as it would have. */
  lemma SweepIsUnobservable(slots: map<string, Slot>, swept: Time, key: string, windowMs: Time, now: Time)
    requires swept <= now && windowMs > 0
    ensures var after, plain := HitIn(Swept(slots, swept), key, windowMs, now), HitIn(slots, key, windowMs, now);
            key in after && key in plain && after[key] == plain[key]
  {
  }

  /** How many hits the key's open window has counted. */
  function Used(slots: map<string, Slot>, key: string, now: Time): nat {
    if key in slots && slots[key].resetAt > now then slots[key].count else 0
  }

  /** A hit counts one more in its key's open window, or opens one, and costs no other key anything. */
  lemma HitCountsItsOwnKey(slots: map<string, Slot>, key: string, windowMs: Time, now: Time, other: string, later: Time)
    requires windowMs > 0 && now <= later
    ensures var after := HitIn(slots, key, windowMs, now);
            && key in after && after[key].count == Used(slots, key, now) + 1
            && after[key].resetAt == (if key in slots && slots[key].resetAt > now then slots[key].resetAt else now + windowMs)
            && (other != key ==> Used(after, other, later) == Used(slots, other, later)
                                 && (Used(slots, other, later) > 0 ==> other in after && after[other] == slots[other]))
  {
  }

  /** A refusal says to wait until the window is over, in whole seconds, at least one, and never a second longer. */
  lemma RefusedUntilTheWindowEnds(slot: Slot, limit: nat, now: Time)
    ensures var verdict := Judge(slot, limit, now);
            && (verdict.Ok? <==> slot.count <= limit)
            && (verdict.Refused? ==>
                  && verdict.retryAfter >= 1 && now + verdict.retryAfter * 1000 >= slot.resetAt
                  && (verdict.retryAfter > 1 ==> now + (verdict.retryAfter - 1) * 1000 < slot.resetAt))
  {
  }

  /* ------------------------------------------------------- buckets, over runs */

  datatype Result = Ok | Refused(retryAfter: int)

  /** Math.max(1, Math.ceil(ms / 1000)). */
  function RetryAfter(resetAt: Time, now: Time): int {
    Max(1, (resetAt - now + 999) / SECOND)
  }

  /** What a bucket says of the record it reads. */
  function Judge(slot: Slot, limit: nat, now: Time): Result {
    if slot.count <= limit then Ok else Refused(RetryAfter(slot.resetAt, now))
  }

  /** One hit after another, each finished before the next, on any keys. */
  datatype Knock = Knock(key: string, windowMs: Time, at: Time)

  function HitAll(slots: map<string, Slot>, knocks: seq<Knock>): map<string, Slot> {
    if knocks == [] then slots
    else
      var last := knocks[|knocks| - 1];
      HitIn(HitAll(slots, knocks[..|knocks| - 1]), last.key, last.windowMs, last.at)
  }

  function KnocksOn(knocks: seq<Knock>, key: string): nat {
    if knocks == [] then 0
    else KnocksOn(knocks[..|knocks| - 1], key) + if knocks[|knocks| - 1].key == key then 1 else 0
  }

  /**
   * Called one at a time, a bucket allows exactly the first `limit` hits of a window:
   * within the window the record counts this key's hits, whatever else is hit or swept.
   */
  lemma {:induction false} FirstHitsAreAllowed(
    slots: map<string, Slot>, key: string, windowMs: Time, limit: nat, start: Time, knocks: seq<Knock>)
    requires windowMs > 0 && (key in slots ==> slots[key].resetAt <= start)
    requires forall i :: 0 <= i < |knocks| ==> start <= knocks[i].at < start + windowMs && knocks[i].windowMs > 0
    ensures var after := HitAll(HitIn(slots, key, windowMs, start), knocks);
            && key in after && after[key] == Slot(1 + KnocksOn(knocks, key), start + windowMs)
            && (Judge(after[key], limit, start).Ok? <==> 1 + KnocksOn(knocks, key) <= limit)
  {
    if knocks != [] {
      FirstHitsAreAllowed(slots, key, windowMs, limit, start, knocks[..|knocks| - 1]);
    }
  }

  type WindowId = nat

  datatype Rule = Rule(limit: nat, windowMs: Time)

  /** One hit: which window it was counted in, and as its how-manieth. */
  datatype Turn = Turn(key: string, window: WindowId, rank: nat, at: Time)

  datatype Record = Record(key: string, startedAt: Time, count: nat, resetAt: Time)

  datatype State = State(
    rules: map<string, Rule>, now: Time,
    /** Every window ever started, and the one each key is on. */
    windows: seq<Record>, current: map<string, WindowId>,
    /** Hits whose record has not been read yet. */
    reading: map<nat, Turn>, next: nat,
    /** Hits that were allowed, in the order they were read. No action reads it. */
    allowed: seq<Turn>)

  datatype Action =
    | Tick(elapsed: nat)
    | Hits(key: string)
    | Reads(h: nat)
    | Sweeps

  predicate Enabled(s: State, a: Action) {
    match a
    case Hits(key) => key in s.rules && s.rules[key].windowMs > 0
    case Reads(h) => h in s.reading && s.reading[h].window < |s.windows| && s.reading[h].key in s.rules
    case _ => true
  }

  predicate OnOpenWindow(s: State, key: string) {
    key in s.current && s.current[key] < |s.windows| && s.windows[s.current[key]].resetAt > s.now
  }

  function Next(s: State, a: Action): State
    requires Enabled(s, a)
  {
    match a
    case Tick(elapsed) => s.(now := s.now + elapsed)
    case Hits(key) =>
      if OnOpenWindow(s, key) then
        var w := s.current[key];
        var rank := s.windows[w].count + 1;
        s.(windows := s.windows[w := s.windows[w].(count := rank)],
           reading := s.reading[s.next := Turn(key, w, rank, s.now)], next := s.next + 1)
      else
        s.(windows := s.windows + [Record(key, s.now, 1, s.now + s.rules[key].windowMs)],
           current := s.current[key := |s.windows|],
           reading := s.reading[s.next := Turn(key, |s.windows|, 1, s.now)], next := s.next + 1)
    case Reads(h) =>
      var turn := s.reading[h];
      var record := s.windows[turn.window];
      s.(reading := s.reading - {h},
         allowed := if Judge(Slot(record.count, record.resetAt), s.rules[turn.key].limit, s.now).Ok? then s.allowed + [turn] else s.allowed)
    case Sweeps =>
      s.(current := map k | k in s.current && s.current[k] < |s.windows| && s.windows[s.current[k]].resetAt > s.now :: s.current[k])
  }

  predicate Start(s: State) {
    s.windows == [] && s.current == map[] && s.reading == map[] && s.allowed == []
  }

  predicate Runs(s: State, actions: seq<Action>, end: State)
    decreases |actions|
  {
    if actions == [] then end == s
    else Enabled(s, actions[0]) && Runs(Next(s, actions[0]), actions[1..], end)
  }

  ghost predicate Reachable(end: State) {
    exists s, actions :: Start(s) && Runs(s, actions, end)
  }

  /* -------------------------------------------------------------- invariant */

  ghost predicate RecordOk(rules: map<string, Rule>, w: Record, now: Time) {
    w.key in rules && w.startedAt <= now && w.count >= 1 && w.resetAt == w.startedAt + rules[w.key].windowMs
  }

  /** Windows of one key follow one another. */
  ghost predicate InTurn(windows: seq<Record>) {
    forall i, j :: 0 <= i < j < |windows| && windows[i].key == windows[j].key ==> windows[i].resetAt <= windows[j].startedAt
  }

  /** A key's open window is the one it is on. */
  ghost predicate CurrentOk(windows: seq<Record>, current: map<string, WindowId>, now: Time) {
    && (forall k :: k in current ==> current[k] < |windows| && windows[current[k]].key == k)
    && (forall i :: 0 <= i < |windows| && windows[i].resetAt > now ==> windows[i].key in current && current[windows[i].key] == i)
  }

  ghost predicate WindowsOk(s: State) {
    && (forall i :: 0 <= i < |s.windows| ==> RecordOk(s.rules, s.windows[i], s.now))
    && InTurn(s.windows)
    && CurrentOk(s.windows, s.current, s.now)
  }

  ghost predicate TurnOk(s: State, turn: Turn) {
    && turn.window < |s.windows|
    && var w := s.windows[turn.window];
       && w.key == turn.key && turn.key in s.rules && 1 <= turn.rank <= w.count
       && w.startedAt <= turn.at < w.resetAt
  }

  predicate Distinct(a: Turn, b: Turn) { a.window == b.window ==> a.rank != b.rank }

  ghost predicate TurnsOk(s: State) {
    && (forall h :: h in s.reading ==> TurnOk(s, s.reading[h]) && h < s.next)
    && (forall i :: 0 <= i < |s.allowed| ==> TurnOk(s, s.allowed[i]) && s.allowed[i].rank <= s.rules[s.allowed[i].key].limit)
    && (forall h, k :: h in s.reading && k in s.reading && h != k ==> Distinct(s.reading[h], s.reading[k]))
    && (forall h, i :: h in s.reading && 0 <= i < |s.allowed| ==> Distinct(s.reading[h], s.allowed[i]))
    && (forall i, j :: 0 <= i < j < |s.allowed| ==> Distinct(s.allowed[i], s.allowed[j]))
  }

  lemma CountedWindows(s: State, key: string)
    requires WindowsOk(s) && OnOpenWindow(s, key)
    ensures var w := s.current[key];
            WindowsOk(s.(windows := s.windows[w := s.windows[w].(count := s.windows[w].count + 1)]))
  {
  }

  lemma StartedWindows(s: State, key: string)
    requires WindowsOk(s) && key in s.rules && s.rules[key].windowMs > 0 && !OnOpenWindow(s, key)
    ensures WindowsOk(s.(windows := s.windows + [Record(key, s.now, 1, s.now + s.rules[key].windowMs)], current := s.current[key := |s.windows|]))
  {
    forall i | 0 <= i < |s.windows| && s.windows[i].key == key ensures s.windows[i].resetAt <= s.now {}
  }

  lemma HitsWindows(s: State, key: string)
    requires WindowsOk(s) && Enabled(s, Hits(key))
    ensures WindowsOk(Next(s, Hits(key)))
  {
    if OnOpenWindow(s, key) {
      CountedWindows(s, key);
    } else {
      StartedWindows(s, key);
    }
    hide RecordOk, InTurn, CurrentOk, OnOpenWindow;
  }

  lemma WindowsStep(s: State, a: Action)
    requires WindowsOk(s) && Enabled(s, a)
    ensures WindowsOk(Next(s, a)) && Next(s, a).rules == s.rules
  {
    if a.Hits? {
      hide WindowsOk;
      HitsWindows(s, a.key);
    }
  }

  lemma TurnStays(s: State, a: Action, turn: Turn)
    requires Enabled(s, a) && TurnOk(s, turn)
    ensures TurnOk(Next(s, a), turn)
  {
  }

  lemma NewTurn(s: State, key: string)
    requires WindowsOk(s) && Enabled(s, Hits(key))
    ensures var t := Next(s, Hits(key));
            && t.next == s.next + 1 && s.next in t.reading && t.reading == s.reading[s.next := t.reading[s.next]]
            && t.allowed == s.allowed && t.rules == s.rules
            && TurnOk(t, t.reading[s.next])
            && forall turn :: TurnOk(s, turn) ==> Distinct(t.reading[s.next], turn) && Distinct(turn, t.reading[s.next])
  {
  }

  lemma ReadTurn(s: State, h: nat)
    requires WindowsOk(s) && TurnsOk(s) && Enabled(s, Reads(h))
    ensures TurnsOk(Next(s, Reads(h)))
  {
    hide TurnOk, Distinct, WindowsOk;
    var t := Next(s, Reads(h));
    forall turn | TurnOk(s, turn) ensures TurnOk(t, turn) { TurnStays(s, Reads(h), turn); }
    ReadInLimit(s, h);
    forall i | 0 <= i < |s.allowed| ensures Distinct(s.allowed[i], s.reading[h]) { DistinctEitherWay(s.reading[h], s.allowed[i]); }
  }

  lemma DistinctEitherWay(a: Turn, b: Turn)
    requires Distinct(a, b)
    ensures Distinct(b, a)
  {
  }

  /** An allowed turn's rank is within the limit, for the record it read had counted it. */
  lemma ReadInLimit(s: State, h: nat)
    requires Enabled(s, Reads(h)) && TurnOk(s, s.reading[h])
    ensures var t := Next(s, Reads(h));
            && t.reading == s.reading - {h} && t.next == s.next && t.rules == s.rules
            && (t.allowed == s.allowed || (t.allowed == s.allowed + [s.reading[h]] && s.reading[h].rank <= s.rules[s.reading[h].key].limit))
  {
  }

  lemma TurnsStep(s: State, a: Action)
    requires WindowsOk(s) && TurnsOk(s) && Enabled(s, a)
    ensures TurnsOk(Next(s, a))
  {
    var t := Next(s, a);
    forall turn | TurnOk(s, turn) ensures TurnOk(t, turn) { TurnStays(s, a, turn); }
    if a.Hits? {
      NewTurn(s, a.key);
      hide TurnOk, Distinct, Next, WindowsOk;
    } else if a.Reads? {
      ReadTurn(s, a.h);
    } else {
      hide TurnOk, Distinct, WindowsOk;
    }
  }

  lemma {:induction false} RunHolds(s: State, actions: seq<Action>, end: State)
    requires WindowsOk(s) && TurnsOk(s) && Runs(s, actions, end)
    ensures WindowsOk(end) && TurnsOk(end) && end.rules == s.rules
    decreases |actions|
  {
    hide WindowsOk, TurnsOk, Next, Enabled;
    if actions != [] {
      WindowsStep(s, actions[0]);
      TurnsStep(s, actions[0]);
      RunHolds(Next(s, actions[0]), actions[1..], end);
    }
  }

  /* ----------------------------------------------------------------- waiting */

  /** A window once started keeps its key and its times, whatever else is hit or swept. */
  ghost predicate Outlives(was: seq<Record>, now: seq<Record>) {
    |was| <= |now| && forall i :: 0 <= i < |was| ==>
      now[i].key == was[i].key && now[i].startedAt == was[i].startedAt && now[i].resetAt == was[i].resetAt
  }

  lemma {:induction false} WindowsOutlive(s: State, actions: seq<Action>, end: State)
    requires Runs(s, actions, end)
    ensures Outlives(s.windows, end.windows)
    decreases |actions|
  {
    if actions != [] { WindowsOutlive(Next(s, actions[0]), actions[1..], end); }
  }

  /**
   * A refused caller that waits as told meets a later window, whoever else hits the key
   * meanwhile: if one is open when it comes back, it was started after the one it was
   * refused in, and otherwise its own hit starts one.
   */
  lemma WaitingReachesANewWindow(s: State, h: nat, actions: seq<Action>, end: State)
    requires Reachable(s) && Enabled(s, Reads(h)) && Runs(Next(s, Reads(h)), actions, end)
    requires var turn := s.reading[h];
             var verdict := Judge(Slot(s.windows[turn.window].count, s.windows[turn.window].resetAt), s.rules[turn.key].limit, s.now);
             verdict.Refused? && end.now >= s.now + verdict.retryAfter * SECOND
    ensures var turn := s.reading[h];
            && turn.window < |end.windows|
            && (OnOpenWindow(end, turn.key) ==> end.current[turn.key] > turn.window)
  {
    hide Next, TurnOk, Distinct, RecordOk;
    var start, so :| Start(start) && Runs(start, so, s);
    RunHolds(start, so, s);
    WindowsStep(s, Reads(h));
    TurnsStep(s, Reads(h));
    ReadKeepsWindows(s, h);
    RunHolds(Next(s, Reads(h)), actions, end);
    WindowsOutlive(Next(s, Reads(h)), actions, end);
    RefusedWindowIsOver(s, h, end);
  }

  lemma ReadKeepsWindows(s: State, h: nat)
    requires Enabled(s, Reads(h))
    ensures Next(s, Reads(h)).windows == s.windows
  {
  }

  lemma RefusedWindowIsOver(s: State, h: nat, end: State)
    requires TurnsOk(s) && WindowsOk(end) && Enabled(s, Reads(h)) && Outlives(s.windows, end.windows)
    requires end.now >= s.windows[s.reading[h].window].resetAt
    ensures OnOpenWindow(end, s.reading[h].key) ==> end.current[s.reading[h].key] > s.reading[h].window
  {
    assert TurnOk(s, s.reading[h]);
    assert RecordOk(end.rules, end.windows[s.reading[h].window], end.now);
  }

  /* ---------------------------------------------------------------- counting */

  /** Things told apart by a number from 1 to n are at most n. */
  lemma {:induction false} RankedAtMost(indices: set<nat>, rank: map<nat, nat>, n: nat)
    requires indices <= rank.Keys
    requires forall i :: i in indices ==> 1 <= rank[i] <= n
    requires forall i, j :: i in indices && j in indices && rank[i] == rank[j] ==> i == j
    ensures |indices| <= n
    decreases n
  {
    if indices != {} {
      if last :| last in indices && rank[last] == n {
        RankedAtMost(indices - {last}, rank, n - 1);
      } else {
        RankedAtMost(indices, rank, n - 1);
      }
    }
  }

  /** The allowed hits on a key whose hit fell within [from, from + span). */
  function AllowedWithin(s: State, key: string, from: Time, span: Time): set<nat> {
    set i: nat | i < |s.allowed| && s.allowed[i].key == key && from <= s.allowed[i].at < from + span
  }

  function AllowedIn(s: State, window: WindowId): set<nat> {
    set i: nat | i < |s.allowed| && s.allowed[i].window == window
  }

  /** At most `limit` hits are allowed in a window, however late their records are read. */
  lemma AtMostLimitPerWindow(s: State, window: WindowId)
    requires Reachable(s) && window < |s.windows|
    ensures s.windows[window].key in s.rules && |AllowedIn(s, window)| <= s.rules[s.windows[window].key].limit
  {
    var start, actions :| Start(start) && Runs(start, actions, s);
    RunHolds(start, actions, s);
    InWindow(s, window);
  }

  lemma InWindow(s: State, window: WindowId)
    requires WindowsOk(s) && TurnsOk(s) && window < |s.windows|
    ensures |AllowedIn(s, window)| <= s.rules[s.windows[window].key].limit
  {
    var rank: map<nat, nat> := map i: nat | i < |s.allowed| :: s.allowed[i].rank;
    forall i | i in AllowedIn(s, window) ensures 1 <= rank[i] <= s.rules[s.windows[window].key].limit {
      assert TurnOk(s, s.allowed[i]);
    }
    RankedAtMost(AllowedIn(s, window), rank, s.rules[s.windows[window].key].limit);
  }

  /** A span no longer than a window meets at most two windows of a key. */
  lemma TwoWindows(s: State, key: string, from: Time, i: nat, j: nat, k: nat)
    requires WindowsOk(s) && TurnsOk(s) && key in s.rules
    requires var hits := AllowedWithin(s, key, from, s.rules[key].windowMs); i in hits && j in hits && k in hits
    ensures var u, v, w := s.allowed[i].window, s.allowed[j].window, s.allowed[k].window; u == v || v == w || u == w
  {
    assert TurnOk(s, s.allowed[i]) && TurnOk(s, s.allowed[j]) && TurnOk(s, s.allowed[k]);
  }

  /** In any span of windowMs, wherever it starts, at most 2 * limit hits on a key are allowed. */
  lemma AtMostTwiceLimitInAnySpan(s: State, key: string, from: Time)
    requires Reachable(s) && key in s.rules
    ensures |AllowedWithin(s, key, from, s.rules[key].windowMs)| <= 2 * s.rules[key].limit
  {
    var start, actions :| Start(start) && Runs(start, actions, s);
    RunHolds(start, actions, s);
    WithinSpan(s, key, from);
  }

  lemma WithinSpan(s: State, key: string, from: Time)
    requires WindowsOk(s) && TurnsOk(s) && key in s.rules
    ensures |AllowedWithin(s, key, from, s.rules[key].windowMs)| <= 2 * s.rules[key].limit
  {
    var hits := AllowedWithin(s, key, from, s.rules[key].windowMs);
    if i :| i in hits {
      assert TurnOk(s, s.allowed[i]);
      var first := AllowedIn(s, s.allowed[i].window);
      InWindow(s, s.allowed[i].window);
      if j :| j in hits && j !in first {
        assert TurnOk(s, s.allowed[j]);
        var second := AllowedIn(s, s.allowed[j].window);
        InWindow(s, s.allowed[j].window);
        forall k | k in hits ensures k in first + second { TwoWindows(s, key, from, i, j, k); }
        SubsetSize(hits, first + second);
        UnionSize(first, second);
      } else {
        SubsetSize(hits, first);
      }
    }
  }

  lemma {:induction false} SubsetSize(a: set<nat>, b: set<nat>)
    requires a <= b
    ensures |a| <= |b|
    decreases |a|
  {
    if x :| x in a { SubsetSize(a - {x}, b - {x}); }
  }

  lemma UnionSize(a: set<nat>, b: set<nat>)
    ensures |a + b| <= |a| + |b|
  {
    assert |a + b| == |a| + |b| - |a * b|;
  }

  /* ------------------------------------------------------------ hits in the open */

  /** What the key's open window has counted. */
  function Counted(s: State, key: string): nat {
    if OnOpenWindow(s, key) then s.windows[s.current[key]].count else 0
  }

  /** A hit read at once is allowed if and only if fewer than the limit were counted in its window; it counts there, and in no other key's. */
  lemma HitReadAtOnceIsAllowedIff(s: State, key: string, other: string)
    requires WindowsOk(s) && Enabled(s, Hits(key))
    ensures var hit := Next(s, Hits(key));
            && Enabled(hit, Reads(s.next)) && hit.allowed == s.allowed
            && var read := Next(hit, Reads(s.next));
               && |read.allowed| == |s.allowed| + (if Counted(s, key) < s.rules[key].limit then 1 else 0)
               && s.allowed <= read.allowed && read.reading == s.reading - {s.next} && read.next == s.next + 1
               && Counted(read, key) == Counted(s, key) + 1
               && (other != key ==> Counted(read, other) == Counted(s, other))
               && read.rules == s.rules && read.now == s.now
  {
  }
}
