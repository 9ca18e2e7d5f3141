/**
 * One tap of a switch, from the app's control service through `authorized` to the
 * server's interleaved statements (ios/IoTSwitch/ViewModels/DeviceControlService.swift,
 * ios/IoTSwitch/Session/SessionController.swift).
 *
 * The channel may lose, delay or repeat any copy; other callers do as they please.
 */
module DeviceControl {
  import opened Basics
  import opened DeviceMachine
  import T = DeviceTheorems

  /** What a call came to, as the app's networking reports it. */
  datatype Reply = Success(row: DeviceRow) | Unauthenticated | UnknownOutcome | VersionConflict | NotFound | OtherError

  datatype Outcome =
    | Updated(row: DeviceRow)
    | Conflict(refetched: Option<DeviceRow>)
    | Unknown(reconciled: Option<DeviceRow>)
    | Gone
    | Rejected
    | SignedOut

  datatype Phase =
    | Tapped
    /** `attempt` copies have been sent; the reply to the last is awaited. */
    | Calling(attempt: nat)
    /** The first copy got a 401; the session is being renewed. */
    | Renewing
    /** Reading the device back; what for depends on the reply. */
    | ReadingBack(conflict: bool)
    | Ended(outcome: Outcome)

  datatype State = State(server: DeviceMachine.State, tap: ControlRequest, phase: Phase, sent: seq<ControlRequest>)

  datatype Action =
    /** Any step of the server, for anyone. */
    | Server(step: DeviceMachine.Action)
    /** authorized has a token, and runs the operation. */
    | Send
    /** It has none, or could not renew it. */
    | Refuse(signedOut: bool)
    | Hear(reply: Reply)
    | ReadBack(read: bool)
    /** A copy sent, perhaps long ago and not for the first time, reaches the server. */
    | Deliver(copy: nat)

  /** A success heard is one the server answered this very request with. */
  ghost predicate Genuine(s: State, reply: Reply) {
    reply.Success? ==> exists e :: e in s.server.log && e.Controlled? && e.control == s.tap && e.reported == reply.row
  }

  ghost predicate Enabled(s: State, a: Action) {
    match a
    case Server(step) => DeviceMachine.Enabled(s.server, step)
    case Send => s.phase.Tapped? || s.phase.Renewing?
    case Refuse(_) => s.phase.Tapped? || s.phase.Renewing?
    case Hear(reply) => s.phase.Calling? && Genuine(s, reply)
    case ReadBack(_) => s.phase.ReadingBack?
    case Deliver(copy) => copy < |s.sent|
  }

  /** control's switch on the result of `authorized`. */
  function AfterReply(attempt: nat, reply: Reply): Phase {
    match reply
    case Success(row) => Ended(Outcome.Updated(row))
    case Unauthenticated => if attempt == 1 then Renewing else Ended(SignedOut)
    case UnknownOutcome => ReadingBack(false)
    case VersionConflict => ReadingBack(true)
    case NotFound => Ended(Gone)
    case OtherError => Ended(Rejected)
  }

  function RowOf(s: State): Option<DeviceRow> {
    if s.tap.device in s.server.tables.devices && s.server.tables.devices[s.tap.device].owner == s.tap.owner then
      Some(s.server.tables.devices[s.tap.device])
    else None
  }

  ghost function Next(s: State, a: Action): State
    requires Enabled(s, a)
  {
    match a
    case Server(step) => s.(server := DeviceMachine.Next(s.server, step))
    case Send => s.(phase := Calling(if s.phase.Tapped? then 1 else 2), sent := s.sent + [s.tap])
    case Refuse(signedOut) => s.(phase := Ended(if signedOut then SignedOut else Rejected))
    case Hear(reply) => s.(phase := AfterReply(s.phase.attempt, reply))
    case ReadBack(read) =>
      var row := if read then RowOf(s) else None;
      s.(phase := Ended(if s.phase.conflict then Conflict(row) else Unknown(row)))
    case Deliver(copy) => s.(server := DeviceMachine.Next(s.server, BeginControl(s.sent[copy])))
  }

  /** The switch is tapped: the app has seen the device at this version, and nothing has asked for this yet. */
  ghost predicate Start(s: State) {
    && DeviceMachine.Reachable(s.server) && s.phase == Tapped && s.sent == []
    && T.Reached(s.server.tables, s.tap)
    && (forall f :: f in s.server.flights ==> !Asks(s.server.flights[f], s.tap))
    && (forall e :: e in s.server.log && e.Controlled? ==> e.control != s.tap)
  }

  ghost predicate Runs(s: State, actions: seq<Action>, end: State)
    decreases |actions|
  {
    if actions == [] then end == s
    else Enabled(s, actions[0]) && Runs(Next(s, actions[0]), actions[1..], end)
  }

  predicate Asks(fl: Flight, c: ControlRequest) {
    (fl.Updating? || fl.Updated? || fl.Reading?) && fl.control == c
  }

  /** Every copy is the tap itself, at most two were sent, and every call for it began at a version already reached. */
  ghost predicate Inv(s: State) {
    && T.Inv(s.server) && T.Reached(s.server.tables, s.tap)
    && (forall i :: 0 <= i < |s.sent| ==> s.sent[i] == s.tap)
    && (match s.phase case Tapped => |s.sent| == 0 case Calling(n) => |s.sent| == n && 1 <= n <= 2 case Renewing => |s.sent| == 1 case _ => |s.sent| <= 2)
    && SeenBefore(s.server, s.tap)
    && (s.phase.Ended? && s.phase.outcome.Updated? ==>
          exists e :: e in s.server.log && e.Controlled? && e.control == s.tap && e.reported == s.phase.outcome.row)
  }

  /** Every call for the tap that is under way, or was answered with success, began at a version already reached. */
  ghost predicate SeenBefore(s: DeviceMachine.State, tap: ControlRequest) {
    && (forall f :: f in s.flights && Asks(s.flights[f], tap) ==> s.flights[f].seenBefore)
    && (forall e :: e in s.log && e.Controlled? && e.control == tap ==> e.seenBefore)
  }

  lemma SeenStaysSeen(s: DeviceMachine.State, a: DeviceMachine.Action, tap: ControlRequest)
    requires DeviceMachine.Enabled(s, a) && T.Reached(s.tables, tap) && SeenBefore(s, tap)
    ensures SeenBefore(DeviceMachine.Next(s, a), tap)
  {
  }

  lemma LogGrows(s: DeviceMachine.State, a: DeviceMachine.Action)
    requires DeviceMachine.Enabled(s, a)
    ensures s.log <= DeviceMachine.Next(s, a).log
  {
  }

  lemma ServerStep(s: DeviceMachine.State, a: DeviceMachine.Action, tap: ControlRequest)
    requires T.Inv(s) && DeviceMachine.Enabled(s, a) && T.Reached(s.tables, tap) && SeenBefore(s, tap)
    ensures var t := DeviceMachine.Next(s, a); T.Inv(t) && T.Reached(t.tables, tap) && s.log <= t.log && SeenBefore(t, tap)
  {
    T.StepHolds(s, a);
    T.TablesStep(s, a);
    hide T.Inv;
    SeenStaysSeen(s, a, tap);
    LogGrows(s, a);
    hide SeenBefore, DeviceMachine.Next, DeviceMachine.Enabled;
  }

  lemma StepHolds(s: State, a: Action)
    requires Inv(s) && Enabled(s, a)
    ensures Inv(Next(s, a))
  {
    hide T.Inv, T.Reached, DeviceMachine.Next, DeviceMachine.Enabled, SeenBefore;
    if a.Server? {
      ServerStep(s.server, a.step, s.tap);
      ReportStands(s, Next(s, a));
    } else if a.Deliver? {
      assert DeviceMachine.Enabled(s.server, BeginControl(s.sent[a.copy])) by { AnyoneMayCall(s.server, s.sent[a.copy]); }
      ServerStep(s.server, BeginControl(s.sent[a.copy]), s.tap);
      ReportStands(s, Next(s, a));
    } else {
      AppStepHolds(s, a);
    }
  }

  lemma AnyoneMayCall(s: DeviceMachine.State, c: ControlRequest)
    ensures DeviceMachine.Enabled(s, BeginControl(c))
  {
  }

  lemma ReportStands(s: State, t: State)
    requires Inv(s) && s.server.log <= t.server.log && t.phase == s.phase && t.tap == s.tap
    ensures t.phase.Ended? && t.phase.outcome.Updated? ==>
      exists e :: e in t.server.log && e.Controlled? && e.control == t.tap && e.reported == t.phase.outcome.row
  {
    hide T.Inv, T.Reached, SeenBefore;
    if s.phase.Ended? && s.phase.outcome.Updated? {
      var e :| e in s.server.log && e.Controlled? && e.control == s.tap && e.reported == s.phase.outcome.row;
      assert e in t.server.log;
    }
  }

  lemma AppStepHolds(s: State, a: Action)
    requires Inv(s) && Enabled(s, a) && !a.Server? && !a.Deliver?
    ensures Inv(Next(s, a))
  {
    hide T.Inv, T.Reached, SeenBefore, DeviceMachine.Next, DeviceMachine.Enabled;
  }

  lemma {:induction false} RunHolds(s: State, actions: seq<Action>, end: State)
    requires Inv(s) && Runs(s, actions, end)
    ensures Inv(end) && end.tap == s.tap
    decreases |actions|
  {
    hide Inv, Next, Enabled;
    if actions != [] {
      StepHolds(s, actions[0]);
      TapStays(s, actions[0]);
      RunHolds(Next(s, actions[0]), actions[1..], end);
    }
  }

  lemma TapStays(s: State, a: Action)
    requires Enabled(s, a)
    ensures Next(s, a).tap == s.tap
  {
  }

  lemma StartHolds(s: State)
    requires Start(s)
    ensures Inv(s)
  {
    T.ReachableHolds(s.server);
    hide T.Inv, T.Reached;
  }

  /**
   * One tap acts at most once: every copy sent is the same command, never its inverse;
   * however often copies arrive, the server writes for the command at most once, and
   * then to the state asked for, one version on from the one seen.
   */
  lemma OneTapActsAtMostOnce(start: State, actions: seq<Action>, s: State, i: nat, j: nat)
    requires Start(start) && Runs(start, actions, s)
    ensures |s.sent| <= 2 && forall k :: 0 <= k < |s.sent| ==> s.sent[k] == start.tap
    ensures i < |s.server.log| && T.Wrote(s.server.log[i], start.tap.device, start.tap.expected) && s.server.log[i].control == start.tap ==>
      s.server.log[i].reported.on == start.tap.on && s.server.log[i].reported.version == start.tap.expected + 1
    ensures i < j < |s.server.log| && T.Wrote(s.server.log[i], start.tap.device, start.tap.expected) ==>
      !T.Wrote(s.server.log[j], start.tap.device, start.tap.expected)
  {
    StartHolds(start);
    RunHolds(start, actions, s);
    hide T.TablesOk, T.SupplyOk, T.LocksOk, T.FlightsOk, T.Reached;
    if i < |s.server.log| && T.Wrote(s.server.log[i], start.tap.device, start.tap.expected) && s.server.log[i].control == start.tap {
      assert T.SuccessOk(s.server.tables, s.server.log[i]);
    }
  }

  /** A tap reported as done shows the state asked for, at the version seen or the next. */
  lemma UpdatedIsWhatWasAsked(start: State, actions: seq<Action>, s: State)
    requires Start(start) && Runs(start, actions, s) && s.phase.Ended? && s.phase.outcome.Updated?
    ensures s.phase.outcome.row.on == start.tap.on
    ensures s.phase.outcome.row.version in {start.tap.expected, start.tap.expected + 1}
  {
    StartHolds(start);
    RunHolds(start, actions, s);
    var e :| e in s.server.log && e.Controlled? && e.control == s.tap && e.reported == s.phase.outcome.row;
    hide T.TablesOk, T.SupplyOk, T.LocksOk, T.FlightsOk, T.Reached;
    assert T.SuccessOk(s.server.tables, e);
  }

  /* -------------------------------------------------------- what a tap comes to */

  /**
   * What each reply comes to: a success is shown; a 401 renews the session once and sends
   * the same command again, and a second one signs out; after a conflict or an unknown
   * outcome the device is read back and shown as it is, if it is still the person's own.
   */
  lemma RepliesComeTo(s: State, reply: Reply, read: bool)
    requires Inv(s) && Enabled(s, Hear(reply))
    ensures var t := Next(s, Hear(reply));
            var own := s.tap.device in s.server.tables.devices && s.server.tables.devices[s.tap.device].owner == s.tap.owner;
            var shown := if read && own then Some(s.server.tables.devices[s.tap.device]) else None;
            && t.server == s.server && t.sent == s.sent
            && (reply.Success? ==> t.phase == Ended(Outcome.Updated(reply.row)))
            && (reply.Unauthenticated? && |s.sent| == 1 ==> Enabled(t, Send) && Next(t, Send).sent == [s.tap, s.tap])
            && (reply.Unauthenticated? && |s.sent| == 2 ==> t.phase == Ended(SignedOut))
            && (reply.VersionConflict? ==> Enabled(t, ReadBack(read)) && Next(t, ReadBack(read)).phase == Ended(Conflict(shown)))
            && (reply.UnknownOutcome? ==> Enabled(t, ReadBack(read)) && Next(t, ReadBack(read)).phase == Ended(Unknown(shown)))
            && (reply.NotFound? ==> t.phase == Ended(Gone))
            && (reply.OtherError? ==> t.phase == Ended(Rejected))
            && (t.phase.Ended? ==> !Enabled(t, Send) && !Enabled(t, Hear(OtherError)) && !Enabled(t, ReadBack(read)))
  {
    hide T.Inv, T.Reached, SeenBefore, DeviceMachine.Next, DeviceMachine.Enabled;
  }

  /** The server's part of an undisturbed tap: the call, its UPDATE and its COMMIT. */
  lemma ServedTap(s: DeviceMachine.State, tap: ControlRequest) returns (t: DeviceMachine.State)
    requires tap.expected >= 1 && Matches(s.tables, tap) && T.Reached(s.tables, tap)
    requires forall f :: f in s.flights ==> !HoldsDevice(s.flights[f], tap.device)
    ensures var f := s.nextFlight;
            var begun := DeviceMachine.Next(s, BeginControl(tap));
            && DeviceMachine.Enabled(begun, Update(f)) && DeviceMachine.Enabled(DeviceMachine.Next(begun, Update(f)), CommitUpdate(f))
            && t == DeviceMachine.Next(DeviceMachine.Next(begun, Update(f)), CommitUpdate(f))
    ensures var row := s.tables.devices[tap.device];
            var changed := row.(on := tap.on, version := row.version + 1, updatedAt := s.now);
            && t.tables.devices == s.tables.devices[tap.device := changed]
            && t.log == s.log + [Controlled(tap, true, changed, true)]
  {
    var begun := DeviceMachine.Next(s, BeginControl(tap));
    var updated := DeviceMachine.Next(begun, Update(s.nextFlight));
    t := DeviceMachine.Next(updated, CommitUpdate(s.nextFlight));
  }

  /**
   * A tap that nothing gets in the way of does what was asked: from any moment at which the
   * device is as it was seen and nobody's change of it is under way, it ends in the state
   * asked for, one version on, shown to the person as the server has it.
   */
  lemma UndisturbedTapSucceeds(start: State) returns (actions: seq<Action>, end: State)
    requires Start(start) && start.tap.expected >= 1 && Matches(start.server.tables, start.tap)
    requires forall f :: f in start.server.flights ==> !HoldsDevice(start.server.flights[f], start.tap.device)
    ensures Runs(start, actions, end)
    ensures var was := start.server.tables.devices[start.tap.device];
            var row := was.(on := start.tap.on, version := was.version + 1, updatedAt := start.server.now);
            && end.phase == Ended(Outcome.Updated(row)) && end.sent == [start.tap]
            && end.server.tables.devices == start.server.tables.devices[start.tap.device := row]
  {
    hide DeviceMachine.Next, DeviceMachine.Enabled, T.Reached, DeviceMachine.Reachable, Matches;
    var f := start.server.nextFlight;
    var served := ServedTap(start.server, start.tap);
    var row := served.tables.devices[start.tap.device];
    AnyoneMayCall(start.server, start.tap);
    var a, b := Sent(start);
    var c := Next(b, Server(Update(f)));
    var d := Next(c, Server(CommitUpdate(f)));
    assert Controlled(start.tap, true, row, true) in d.server.log;
    end := Next(d, Hear(Success(row)));
    hide Next, Enabled;
    actions := [Send, Deliver(0), Server(Update(f)), Server(CommitUpdate(f)), Hear(Success(row))];
    assert Runs(end, actions[5..], end);
    assert actions[4..] == [actions[4]] + actions[5..] && Runs(d, actions[4..], end);
    assert actions[3..] == [actions[3]] + actions[4..] && Runs(c, actions[3..], end);
    assert actions[2..] == [actions[2]] + actions[3..] && Runs(b, actions[2..], end);
    assert actions[1..] == [actions[1]] + actions[2..] && Runs(a, actions[1..], end);
  }

  /** The command goes out, and reaches the server. */
  lemma Sent(start: State) returns (a: State, b: State)
    requires start.phase == Tapped && start.sent == [] && DeviceMachine.Enabled(start.server, BeginControl(start.tap))
    ensures Enabled(start, Send) && a == Next(start, Send) && Enabled(a, Deliver(0)) && b == Next(a, Deliver(0))
    ensures b == start.(server := DeviceMachine.Next(start.server, BeginControl(start.tap)), phase := Calling(1), sent := [start.tap])
  {
    hide DeviceMachine.Next, DeviceMachine.Enabled;
    a := Next(start, Send);
    b := Next(a, Deliver(0));
  }
}
