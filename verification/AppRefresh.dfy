/**
 * The app's refreshes against the token endpoint, statement by statement
 * (SessionController.swift with server/src/oauth/store.ts).
 *
 * The channel may lose a request or its response, and delivers nothing once the app
 * has given up; but a request that had reached the server by then goes on there. All
 * the server does interleaves, for this grant and for every other.
 */
module AppRefresh {
  import opened Basics
  import opened OAuthTables
  import opened SealedStore
  import opened GrantLife
  import opened GrantTheft
  import S = Session
  import M = RefreshMachine
  import I = RefreshInvariant
  import T = RefreshTheorems

  datatype Wire =
    /** The request is on its way. */
    | Asking
    /** It reached the server, as this flight. */
    | Serving(f: M.FlightId)

  datatype State = State(
    app: S.State, db: M.State,
    /** The exchange of each refresh the app still waits for. */
    wires: map<S.TaskId, Wire>)

  datatype Action =
    /** A statement of anybody's, or time passing. */
    | Server(step: M.Action)
    | RefreshOnce
    /** The request reaches the server. */
    | Deliver(t: S.TaskId)
    /** The response reaches the app. */
    | Receive(t: S.TaskId)
    /** The app sees a transport failure. A request not yet delivered is lost; one being served is served on. */
    | GiveUp(t: S.TaskId)
    | Resume(t: S.TaskId)
    | Expire

  /** api.refresh: invalid_grant and invalid_dpop_proof are refusals of the credential, other errors are failures. */
  function OutcomeOf(ended: M.Ended): S.Outcome {
    match ended
    case Answered(_, _, body) => S.Answer(S.TokenResponse(body.accessToken, body.refreshToken, body.expiresIn))
    case Refused(_, InvalidTarget) => S.Failure
    case Refused(_, InvalidScope) => S.Failure
    case _ => S.Refusal
  }

  predicate Waiting(s: State, t: S.TaskId) {
    t in s.wires && t in s.app.tasks && s.app.tasks[t].progress.Running?
  }

  ghost predicate Enabled(s: State, a: Action) {
    match a
    case Server(step) => M.Enabled(s.db, step)
    case Deliver(t) => Waiting(s, t) && s.wires[t].Asking?
    case Receive(t) => Waiting(s, t) && s.wires[t].Serving? && s.wires[t].f in s.db.past.ended
    case GiveUp(t) => Waiting(s, t)
    case Resume(t) => S.Enabled(s.app, S.Resume(t))
    case _ => true
  }

  /** Nobody else presents the grant's tokens or asks for its revocation; everything else of the server's is free. */
  ghost predicate Allowed(s: State, h: Holder, a: Action) {
    Enabled(s, a) && (a.Server? ==> Foreign(s.db, h.grant, a.step))
  }

  ghost function Next(s: State, h: Holder, a: Action): State
    requires Enabled(s, a)
  {
    match a
    case Server(step) => s.(db := M.Next(s.db, step))
    case RefreshOnce =>
      var app := S.Next(s.app, S.RefreshOnce);
      if app.nextTask == s.app.nextTask then s.(app := app)
      else s.(app := app, wires := s.wires[s.app.nextTask := Asking])
    case Deliver(t) =>
      s.(db := Presented(s.db, h, s.app.tasks[t].token), wires := s.wires[t := Serving(s.db.nextFlight)])
    case Receive(t) =>
      var outcome := OutcomeOf(s.db.past.ended[s.wires[t].f]);
      s.(app := S.Next(s.app, S.Return(t, outcome, s.db.now)), wires := s.wires - {t})
    case GiveUp(t) => s.(app := S.Next(s.app, S.Return(t, S.Failure, s.db.now)), wires := s.wires - {t})
    case Resume(t) => s.(app := S.Next(s.app, S.Resume(t)))
    case Expire => s.(app := S.Next(s.app, S.Expire))
  }

  /** A request is delivered by the rule of GrantLife. */
  ghost predicate InRule(s: State, h: Holder, a: Action) {
    a.Deliver? && a.t in s.app.tasks ==> Ruled(s.db, h.grant, s.app.tasks[a.t].token)
  }

  ghost predicate Runs(s: State, h: Holder, actions: seq<Action>, end: State)
    decreases |actions|
  {
    if actions == [] then end == s
    else Allowed(s, h, actions[0]) && Runs(Next(s, h, actions[0]), h, actions[1..], end)
  }

  /** Every request of the run is delivered by the rule. */
  ghost predicate Orderly(s: State, h: Holder, actions: seq<Action>)
    decreases |actions|
  {
    actions == [] || (Allowed(s, h, actions[0]) && InRule(s, h, actions[0]) && Orderly(Next(s, h, actions[0]), h, actions[1..]))
  }

  /** Just signed in: the app holds the only refresh token of a live grant bound to its key, and nobody has asked anything of it. */
  ghost predicate SignedIn(s: State, h: Holder) {
    && S.Inv(s.app) && s.app.tasks == map[] && s.wires == map[] && s.app.app.isSignedIn
    && M.Reachable(s.db) && Lives(s.db, h) && RowsKept(s.db, h.grant)
    && Line(s.db, h.grant) == [Tip(s.db, h.grant)] && Tip(s.db, h.grant) !in s.db.past.bodies
    && s.app.app.refreshToken == Some(Tip(s.db, h.grant)) && Tip(s.db, h.grant) !in s.app.spent
    && s.app.known <= s.db.past.born
    && NoTheftOf(s.db, h.grant)
    && (forall f :: f in s.db.flights ==> Spares(s.db, h.grant, s.db.flights[f]) && !AsksOf(s.db, h.grant, s.db.flights[f]))
  }

  predicate AsksOf(db: M.State, g: GrantId, fl: M.Flight) {
    (Pending(fl) || fl.Rotated? || fl.Replaying?) && Of(db, fl.token, g)
  }

  /* -------------------------------------------------------------- invariant */

  predicate AsksFor(fl: M.Flight, x: Secret) { (Pending(fl) || fl.Rotated? || fl.Replaying?) && fl.token == x }

  /** What the app may present: the tip, or the token exchanged for a tip it has not heard of. */
  ghost predicate Presentable(s: State, h: Holder, x: Secret) {
    && Of(s.db, x, h.grant) && x !in s.app.spent && BeforeTip(s.db, h.grant, x)
    && (x != Tip(s.db, h.grant) ==> Tip(s.db, h.grant) !in s.app.known)
  }

  ghost predicate WireOk(s: State, x: Secret, wire: Wire) {
    wire.Serving? ==>
      && wire.f < s.db.nextFlight
      && (wire.f in s.db.flights ==> AsksFor(s.db.flights[wire.f], x))
      && (wire.f in s.db.past.ended ==> s.db.past.ended[wire.f].token == x)
  }

  ghost predicate AppOk(s: State) {
    && S.Inv(s.app) && S.InEpoch(s.app) && s.app.known <= s.db.past.born
    && (forall t :: t in s.wires <==> t in s.app.tasks && s.app.tasks[t].progress.Running?)
  }

  /** Nobody asks for a tip the app has not heard of. */
  ghost predicate Quiet(s: State, h: Holder) {
    Tip(s.db, h.grant) !in s.app.known ==> NobodyAsks(s.db, Tip(s.db, h.grant))
  }

  ghost predicate TokensOk(s: State, h: Holder) {
    && (s.app.app.refreshToken.Some? ==> Presentable(s, h, s.app.app.refreshToken.value))
    && (forall t :: t in s.wires && t in s.app.tasks ==>
          Presentable(s, h, s.app.tasks[t].token) && WireOk(s, s.app.tasks[t].token, s.wires[t]))
  }

  ghost predicate Inv(s: State, h: Holder) {
    I.Inv(s.db) && Kept(s.db, h) && AppOk(s) && Quiet(s, h) && TokensOk(s, h)
  }

  lemma SignedInHolds(s: State, h: Holder)
    requires SignedIn(s, h)
    ensures Inv(s, h)
  {
    T.ReachableHolds(s.db);
    SignedInLine(s, h);
    hide I.Inv, M.Reachable;
  }

  lemma SignedInLine(s: State, h: Holder)
    requires I.HistoryOk(s.db) && Line(s.db, h.grant) == [Tip(s.db, h.grant)]
    ensures Of(s.db, Tip(s.db, h.grant), h.grant)
  {
    assert Tip(s.db, h.grant) in s.db.past.lines[h.grant];
  }

  /* ------------------------------------------------------- steps of the server */

  /** Where a request for x can be after one step: still asking, gone, or ended with x's answer. */
  lemma RequestGoesOn(s: M.State, a: M.Action, f: M.FlightId, x: Secret)
    requires M.Enabled(s, a) && f < s.nextFlight
    requires f in s.flights ==> AsksFor(s.flights[f], x)
    requires f in s.past.ended ==> s.past.ended[f].token == x
    ensures var t := M.Next(s, a);
            && f < t.nextFlight
            && (f in t.flights ==> AsksFor(t.flights[f], x) || (t.flights[f].Revoking? && t.flights[f].theft == Some(x)))
            && (f in t.past.ended ==> t.past.ended[f].token == x)
  {
    if a.TakeLock? {
      LockGoesOn(s, a.f, f, x);
    } else {
      hide M.Locked;
    }
  }

  lemma LockGoesOn(s: M.State, locking: M.FlightId, f: M.FlightId, x: Secret)
    requires M.Enabled(s, M.TakeLock(locking)) && f < s.nextFlight
    requires f in s.flights ==> AsksFor(s.flights[f], x)
    requires f in s.past.ended ==> s.past.ended[f].token == x
    ensures var t := M.Next(s, M.TakeLock(locking));
            && f < t.nextFlight
            && (f in t.flights ==> AsksFor(t.flights[f], x) || (t.flights[f].Revoking? && t.flights[f].theft == Some(x)))
            && (f in t.past.ended ==> t.past.ended[f].token == x)
  {
  }

  lemma WireStep(s: State, h: Holder, a: M.Action, x: Secret, wire: Wire)
    requires M.Enabled(s.db, a) && WireOk(s, x, wire) && Of(M.Next(s.db, a), x, h.grant)
    requires FlightsKept(M.Next(s.db, a), h)
    ensures WireOk(s.(db := M.Next(s.db, a)), x, wire)
  {
    hide M.Next, M.Enabled, Asked;
    if wire.Serving? {
      RequestGoesOn(s.db, a, wire.f, x);
      if wire.f in M.Next(s.db, a).flights { assert Spares(M.Next(s.db, a), h.grant, M.Next(s.db, a).flights[wire.f]); }
    }
  }

  /** A step that leaves the grant's line as it was leaves what the app may present as it was. */
  lemma SteadyTokens(s: State, t: State, h: Holder, x: Secret)
    requires Steady(s.db, t.db, h) && t.app == s.app && Presentable(s, h, x)
    ensures Presentable(t, h, x)
  {
  }

  lemma NobodyStarts(s: M.State, a: M.Action, h: Holder)
    requires M.Enabled(s, a) && Foreign(s, h.grant, a) && Of(s, Tip(s, h.grant), h.grant) && NobodyAsks(s, Tip(s, h.grant))
    ensures NobodyAsks(M.Next(s, a), Tip(s, h.grant))
  {
    forall f | f in M.Next(s, a).flights && Pending(M.Next(s, a).flights[f]) { RequestComesFrom(s, a, f); }
    hide M.Next, M.Enabled;
  }

  /** A rotation moves the tip: what the app may present is now what was exchanged for it. */
  lemma MovedTokens(s: State, t: State, h: Holder, f: M.FlightId, x: Secret)
    requires TipMoved(s.db, t.db, h, f) && t.app == s.app && Presentable(s, h, x) && s.app.known <= s.db.past.born
    requires Tip(s.db, h.grant) in s.app.known
    ensures Presentable(t, h, x)
  {
  }

  lemma TipIsKnown(s: State, h: Holder, f: M.FlightId)
    requires Quiet(s, h) && M.Enabled(s.db, M.CommitRotation(f)) && TipMoved(s.db, M.Next(s.db, M.CommitRotation(f)), h, f)
    ensures Tip(s.db, h.grant) in s.app.known
  {
    hide M.Next;
  }

  lemma OwnRotation(s: State, h: Holder, f: M.FlightId)
    requires Inv(s, h) && M.Enabled(s.db, M.CommitRotation(f)) && Of(s.db, s.db.flights[f].token, h.grant)
    ensures Inv(s.(db := M.Next(s.db, M.CommitRotation(f))), h)
  {
    hide I.Inv, M.Next, LineKept, Together, Settled, NoTheftOf, TipMoved, Presentable, WireOk, S.Inv, S.InEpoch;
    var a := M.CommitRotation(f);
    var t := s.(db := M.Next(s.db, a));
    T.StepHolds(s.db, a);
    RotationKept(s.db, h, f);
    TipIsKnown(s, h, f);
    MovedTip(s.db, t.db, h, f);
    if s.app.app.refreshToken.Some? { MovedTokens(s, t, h, f, s.app.app.refreshToken.value); }
    forall u | u in s.wires && u in s.app.tasks
      ensures Presentable(t, h, s.app.tasks[u].token) && WireOk(t, s.app.tasks[u].token, s.wires[u])
    {
      MovedTokens(s, t, h, f, s.app.tasks[u].token);
      PresentableOf(t, h, s.app.tasks[u].token);
      WireStep(s, h, a, s.app.tasks[u].token, s.wires[u]);
    }
  }

  lemma PresentableOf(s: State, h: Holder, x: Secret)
    requires Presentable(s, h, x)
    ensures Of(s.db, x, h.grant)
  {
  }

  lemma MovedTip(s: M.State, t: M.State, h: Holder, f: M.FlightId)
    requires TipMoved(s, t, h, f)
    requires forall k :: k in s.flights && Pending(s.flights[k]) ==> s.flights[k].token != Tip(t, h.grant)
    ensures Tip(t, h.grant) !in s.past.born && s.past.born <= t.past.born && NobodyAsks(t, Tip(t, h.grant))
  {
  }

  lemma ServerStep(s: State, h: Holder, a: M.Action)
    requires Inv(s, h) && M.Enabled(s.db, a) && Foreign(s.db, h.grant, a) && !RotatesOwn(s.db, h.grant, a)
    ensures Inv(s.(db := M.Next(s.db, a)), h)
  {
    hide I.Inv, M.Next, M.Enabled, LineKept, Together, Settled, NoTheftOf, Presentable, WireOk, S.Inv, S.InEpoch, Foreign, NobodyAsks;
    var t := s.(db := M.Next(s.db, a));
    T.StepHolds(s.db, a);
    ForeignStep(s.db, h, a);
    SteadyTip(s.db, t.db, h);
    TipOfGrant(s.db, h);
    if Tip(s.db, h.grant) !in s.app.known { NobodyStarts(s.db, a, h); }
    if s.app.app.refreshToken.Some? { SteadyTokens(s, t, h, s.app.app.refreshToken.value); }
    forall u | u in s.wires && u in s.app.tasks
      ensures Presentable(t, h, s.app.tasks[u].token) && WireOk(t, s.app.tasks[u].token, s.wires[u])
    {
      SteadyTokens(s, t, h, s.app.tasks[u].token);
      PresentableOf(t, h, s.app.tasks[u].token);
      WireStep(s, h, a, s.app.tasks[u].token, s.wires[u]);
    }
  }

  lemma SteadyTip(s: M.State, t: M.State, h: Holder)
    requires Steady(s, t, h)
    ensures Tip(t, h.grant) == Tip(s, h.grant) && s.past.born <= t.past.born
  {
  }

  lemma TipOfGrant(s: M.State, h: Holder)
    requires I.Inv(s) && LineKept(s, h)
    ensures Of(s, Tip(s, h.grant), h.grant)
  {
    hide I.RowsOk, I.LinesOk, I.FlightsOk, I.PrivateOk, I.LocksOk, I.SealsOk, I.EndedOk, I.SupplyOk;
    TipIsOf(s, h);
  }

  /* ------------------------------------------------------------ steps of the app */

  lemma DeliverStep(s: State, h: Holder, t: S.TaskId)
    requires Inv(s, h) && Enabled(s, Deliver(t)) && InRule(s, h, Deliver(t))
    ensures Inv(Next(s, h, Deliver(t)), h)
  {
    hide I.Inv, LineKept, Together, Settled, NoTheftOf, FlightsKept, Ruled;
    var n := Next(s, h, Deliver(t));
    var x := s.app.tasks[t].token;
    assert Presentable(s, h, x);
    PresentKept(s.db, h, x);
    PresentedHolds(s.db, h, x);
    forall y | Presentable(s, h, y) ensures Presentable(n, h, y) {}
    NotYetEnded(s.db);
  }

  /** No answer is on record for a flight not yet launched. */
  lemma NotYetEnded(s: M.State)
    requires I.Inv(s)
    ensures s.nextFlight !in s.past.ended && s.nextFlight !in s.flights
  {
    hide I.RowsOk, I.LinesOk, I.FlightsOk, I.PrivateOk, I.LocksOk, I.SealsOk, I.EndedOk, I.HistoryOk;
  }

  lemma BodyOnRecord(s: M.State, f: M.FlightId)
    requires I.Inv(s) && f in s.past.ended && s.past.ended[f].Answered?
    ensures s.past.ended[f].token in s.past.bodies && s.past.bodies[s.past.ended[f].token] == s.past.ended[f].body
  {
    hide I.RowsOk, I.LinesOk, I.FlightsOk, I.PrivateOk, I.LocksOk, I.SealsOk, I.SupplyOk, I.HistoryOk;
  }

  lemma TipIsBorn(s: M.State, h: Holder)
    requires I.Inv(s) && Of(s, Tip(s, h.grant), h.grant)
    ensures Tip(s, h.grant) in s.past.born
  {
    hide I.RowsOk, I.LinesOk, I.FlightsOk, I.PrivateOk, I.LocksOk, I.SealsOk, I.SupplyOk, I.EndedOk;
  }

  lemma ReceiveStep(s: State, h: Holder, t: S.TaskId)
    requires Inv(s, h) && Enabled(s, Receive(t))
    ensures Inv(Next(s, h, Receive(t)), h)
    ensures s.db.past.ended[s.wires[t].f].Answered? && s.app.app.isSignedIn ==>
      Next(s, h, Receive(t)).app.app.refreshToken == Some(Tip(s.db, h.grant))
  {
    hide I.Inv, Together, Settled, NoTheftOf, FlightsKept, Lives, RowsKept;
    var n := Next(s, h, Receive(t));
    var x := s.app.tasks[t].token;
    var ended := s.db.past.ended[s.wires[t].f];
    var b := S.Return(t, OutcomeOf(ended), s.db.now);
    assert Presentable(s, h, x) && WireOk(s, x, s.wires[t]);
    TipOfGrant(s.db, h);
    TipIsBorn(s.db, h);
    if ended.Answered? { BodyOnRecord(s.db, s.wires[t].f); }
    assert S.Orderly(s.app, b);
    S.StepHolds(s.app, b);
    S.EpochStep(s.app, b);
  }

  lemma AppStep(s: State, h: Holder, a: Action)
    requires Inv(s, h) && Enabled(s, a) && (a.RefreshOnce? || a.GiveUp? || a.Resume? || a.Expire?)
    ensures Inv(Next(s, h, a), h)
  {
    hide I.Inv, LineKept, Together, Settled, NoTheftOf, FlightsKept;
    var n := Next(s, h, a);
    var b := match a
      case RefreshOnce => S.RefreshOnce
      case GiveUp(t) => S.Return(t, S.Failure, s.db.now)
      case Resume(t) => S.Resume(t)
      case _ => S.Expire;
    S.StepHolds(s.app, b);
    S.EpochStep(s.app, b);
    forall x | Presentable(s, h, x) ensures Presentable(n, h, x) {}
  }

  lemma StepHolds(s: State, h: Holder, a: Action)
    requires Inv(s, h) && Allowed(s, h, a) && InRule(s, h, a)
    ensures Inv(Next(s, h, a), h)
  {
    hide Inv, M.Next, InRule, Foreign;
    match a
    case Server(step) =>
      if RotatesOwn(s.db, h.grant, step) { OwnRotation(s, h, step.f); } else { ServerStep(s, h, step); }
    case Deliver(t) => DeliverStep(s, h, t);
    case Receive(t) => ReceiveStep(s, h, t);
    case _ => AppStep(s, h, a);
  }

  lemma {:induction false} RunHolds(s: State, h: Holder, actions: seq<Action>, end: State)
    requires Inv(s, h) && Runs(s, h, actions, end) && Orderly(s, h, actions)
    ensures Inv(end, h)
    decreases |actions|
  {
    hide Inv, Next, InRule, Enabled;
    if actions != [] {
      StepHolds(s, h, actions[0]);
      RunHolds(Next(s, h, actions[0]), h, actions[1..], end);
    }
  }

  /* --------------------------------------------------------------- theorems */

  /**
   * However requests and responses are lost and statements interleave, as long as every
   * request is delivered by the rule no transaction ever finds the app's refreshes to be
   * theft, none has, none answers the app so, and the grant stays unrevoked.
   */
  lemma NeverTheft(start: State, h: Holder, actions: seq<Action>, s: State)
    requires SignedIn(start, h) && Runs(start, h, actions, s) && Orderly(start, h, actions)
    ensures !Revoked(s.db.tables, h.grant) && !StolenFrom(s.db, h) && NoTheftOf(s.db, h.grant)
    ensures forall t :: Enabled(s, Receive(t)) ==> !s.db.past.ended[s.wires[t].f].TheftFound?
  {
    hide Kept, AppOk, Quiet, I.Inv, StolenFrom, NoTheftOf, Presentable;
    SignedInHolds(start, h);
    RunHolds(start, h, actions, s);
    KeptIsNotStolen(s.db, h);
    KeptHasNoTheft(s.db, h);
    forall t | Enabled(s, Receive(t)) ensures !s.db.past.ended[s.wires[t].f].TheftFound? {
      assert s.db.past.ended[s.wires[t].f].token == s.app.tasks[t].token;
      PresentableOf(s, h, s.app.tasks[t].token);
      NotStolenAnswer(s.db, h, s.wires[t].f);
    }
  }

  lemma KeptHasNoTheft(s: M.State, h: Holder)
    requires Kept(s, h)
    ensures NoTheftOf(s, h.grant)
  {
  }

  lemma NotStolenAnswer(s: M.State, h: Holder, f: M.FlightId)
    requires NoTheftOf(s, h.grant) && f in s.past.ended && Of(s, s.past.ended[f].token, h.grant)
    ensures !s.past.ended[f].TheftFound?
  {
  }

  /**
   * While signed in the app holds the line's tip, the grant's only unreplaced token; or
   * the token exchanged for the tip, whose lost answer names it; and a token response
   * received always leaves it holding the tip.
   */
  lemma HoldsTheTip(start: State, h: Holder, actions: seq<Action>, s: State)
    requires SignedIn(start, h) && Runs(start, h, actions, s) && Orderly(start, h, actions) && s.app.app.isSignedIn
    ensures s.app.app.refreshToken.Some?
    ensures var x, tip := s.app.app.refreshToken.value, Tip(s.db, h.grant);
            x == tip || (x in s.db.past.bodies && s.db.past.bodies[x].refreshToken == Some(tip))
    ensures forall r :: r in s.db.tables.refresh && s.db.tables.refresh[r].grantId == h.grant ==>
      (s.db.tables.refresh[r].replacedBy.None? <==> r == Tip(s.db, h.grant))
    ensures forall t :: Enabled(s, Receive(t)) && s.db.past.ended[s.wires[t].f].Answered? ==>
      Next(s, h, Receive(t)).app.app.refreshToken == Some(Tip(s.db, h.grant))
  {
    hide Kept, AppOk, I.Inv, Next;
    SignedInHolds(start, h);
    RunHolds(start, h, actions, s);
    HeldIs(s);
    OnlyTheTip(s.db, h);
    forall t | Enabled(s, Receive(t)) && s.db.past.ended[s.wires[t].f].Answered?
      ensures Next(s, h, Receive(t)).app.app.refreshToken == Some(Tip(s.db, h.grant))
    {
      ReceiveStep(s, h, t);
    }
  }

  lemma HeldIs(s: State)
    requires AppOk(s) && s.app.app.isSignedIn
    ensures s.app.app.refreshToken.Some?
  {
  }

  lemma OnlyTheTip(s: M.State, h: Holder)
    requires I.Inv(s) && Kept(s, h)
    ensures forall r :: r in s.tables.refresh && s.tables.refresh[r].grantId == h.grant ==>
      (s.tables.refresh[r].replacedBy.None? <==> r == Tip(s, h.grant))
  {
    hide I.RowsOk, I.FlightsOk, I.PrivateOk, I.LocksOk, I.SupplyOk, I.EndedOk, I.SealsOk, FlightsKept, Together, Settled, NoTheftOf;
    var line := Line(s, h.grant);
    forall r | r in s.tables.refresh && s.tables.refresh[r].grantId == h.grant
      ensures s.tables.refresh[r].replacedBy.None? <==> r == Tip(s, h.grant)
    {
      assert r in line;
      var i :| 0 <= i < |line| && line[i] == r;
      assert I.Linked(line, s.tables.refresh, i);
      assert NoDuplicates(line);
    }
  }

  /** A duplicate that reads its sealed answer before the grace window is over finds it, and answers with it. */
  lemma SealedAnswerIsThere(start: State, h: Holder, actions: seq<Action>, s: State, f: M.FlightId)
    requires SignedIn(start, h) && Runs(start, h, actions, s) && Orderly(start, h, actions)
    requires M.Enabled(s.db, M.Unseal(f)) && s.db.flights[f].token in s.db.tables.refresh
    requires WithinGrace(s.db.tables.refresh[s.db.flights[f].token], s.db.now)
    ensures var t, fl := M.Next(s.db, M.Unseal(f)), s.db.flights[f];
            && fl.token in s.db.past.bodies && f in t.past.ended
            && t.past.ended[f] == M.Answered(fl.token, fl.req, s.db.past.bodies[fl.token])
  {
    hide I.Inv, I.Entitled, Kept, AppOk, Quiet, TokensOk, WithinGrace, UnsealIn, AfterUnseal;
    SignedInHolds(start, h);
    RunHolds(start, h, actions, s);
    T.ReplayIsKnown(s.db, f);
    T.CopyIsThere(s.db, s.db.flights[f].token, s.db.flights[f].req);
  }

  /**
   * What the app makes of the server's answer: one that refuses its token, or its proof,
   * ends the session when its caller resumes, nothing held or stored; one that refuses the
   * resource or the scope, and a response lost, leave it as it was, free to try again; and
   * tokens are held and stored.
   */
  lemma AnswersComeTo(s: State, h: Holder, t: S.TaskId)
    requires Enabled(s, Receive(t)) && s.app.app.account.Some?
    ensures var ended, heard := s.db.past.ended[s.wires[t].f], Next(s, h, Receive(t));
            && S.Enabled(heard.app, S.Resume(t))
            && var after := Next(heard, h, Resume(t)).app.app;
               && after.refreshTask.None?
               && (match ended
                   case Answered(_, _, body) =>
                     && after.access == Some(S.Access(body.accessToken, s.db.now, s.db.now + body.expiresIn * 1000))
                     && (body.refreshToken.Some? ==> after.refreshToken == body.refreshToken
                                                     && after.stored == Some(S.Stored(body.refreshToken.value, s.app.app.account.value)))
                     && after.isSignedIn == s.app.app.isSignedIn && after.account == s.app.app.account
                   case Refused(_, why) =>
                     if why.InvalidTarget? || why.InvalidScope? then after == s.app.app.(refreshTask := None)
                     else after == S.Fields(None, None, None, None, false, None)
                   case _ => after == S.Fields(None, None, None, None, false, None))
               && Next(Next(s, h, GiveUp(t)), h, Resume(t)).app.app == s.app.app.(refreshTask := None)
  {
  }

  /* ------------------------------------------------------ the rule is exact */

  /** Steps of the server alone. */
  function Served(steps: seq<M.Action>): seq<Action> {
    if steps == [] then [] else [Server(steps[0])] + Served(steps[1..])
  }

  lemma {:induction false} ServedRuns(s: State, h: Holder, steps: seq<M.Action>, end: M.State)
    requires M.Runs(s.db, steps, end) && Ongoing(steps)
    ensures Runs(s, h, Served(steps), s.(db := end)) && Orderly(s, h, Served(steps))
    decreases |steps|
  {
    hide M.Next, M.Enabled;
    if steps != [] {
      assert steps[0] in steps;
      assert Ongoing(steps[1..]);
      ServedRuns(s.(db := M.Next(s.db, steps[0])), h, steps[1..], end);
      assert Served(steps)[1..] == Served(steps[1..]);
    }
  }

  /**
   * The rule is exact: in any state an orderly run leads to, a request the rule forbids,
   * once delivered, can end in the server revoking the grant for theft.
   */
  lemma UnruledDeliveryCanBeTheft(start: State, h: Holder, actions: seq<Action>, s: State, t: S.TaskId)
    returns (more: seq<Action>, end: State)
    requires SignedIn(start, h) && Runs(start, h, actions, s) && Orderly(start, h, actions)
    requires Enabled(s, Deliver(t)) && !InRule(s, h, Deliver(t))
    ensures Runs(Next(s, h, Deliver(t)), h, more, end) && StolenFrom(end.db, h)
  {
    hide I.Inv, Kept, AppOk, Quiet, Ruled, StolenFrom;
    SignedInHolds(start, h);
    RunHolds(start, h, actions, s);
    more, end := UnruledFrom(s, h, t);
  }

  lemma UnruledFrom(s: State, h: Holder, t: S.TaskId) returns (more: seq<Action>, end: State)
    requires Inv(s, h) && Enabled(s, Deliver(t)) && !InRule(s, h, Deliver(t))
    ensures Runs(Next(s, h, Deliver(t)), h, more, end) && StolenFrom(end.db, h)
  {
    hide I.Inv, Kept, AppOk, Quiet, Ruled, StolenFrom, Ongoing;
    var steps, db := UnruledPresentationCanBeTheft(s.db, h, s.app.tasks[t].token);
    var n := Next(s, h, Deliver(t));
    ServedRuns(n, h, steps, db);
    more, end := Served(steps), n.(db := db);
  }

  /* ----------------------------------------- one request lost on its way back */

  lemma {:induction false} Then(s: State, h: Holder, so: seq<Action>, mid: State, more: seq<Action>, end: State)
    requires Runs(s, h, so, mid) && Orderly(s, h, so) && Runs(mid, h, more, end) && Orderly(mid, h, more)
    ensures Runs(s, h, so + more, end) && Orderly(s, h, so + more)
    decreases |so|
  {
    hide Next, Enabled, InRule;
    if so == [] {
      assert so + more == more;
    } else {
      Then(Next(s, h, so[0]), h, so[1..], mid, more, end);
      assert (so + more)[1..] == so[1..] + more;
    }
  }

  lemma Also(s: State, h: Holder, so: seq<Action>, mid: State, a: Action) returns (more: seq<Action>, end: State)
    requires Runs(s, h, so, mid) && Orderly(s, h, so) && Inv(mid, h) && Allowed(mid, h, a) && InRule(mid, h, a)
    ensures more == so + [a] && end == Next(mid, h, a) && Runs(s, h, more, end) && Orderly(s, h, more) && Inv(end, h)
  {
    hide Inv, Next, Enabled, InRule, Foreign;
    end := Next(mid, h, a);
    StepHolds(mid, h, a);
    assert Runs(end, h, [a][1..], end) && Orderly(end, h, [a][1..]);
    Then(s, h, so, mid, [a], end);
    more := so + [a];
  }

  /** The app signed in with x, nothing outstanding. */
  predicate Idle(s: State, x: Secret) {
    && s.wires == map[] && s.app.tasks == map[] && s.app.app.isSignedIn
    && s.app.app.refreshToken == Some(x) && s.app.app.refreshTask.None?
  }

  /** The app's only refresh, of x, is on its way. */
  predicate AskingFor(s: State, t: S.TaskId, x: Secret) {
    s.wires == map[t := Asking] && s.app.tasks == map[t := S.Refresh(x, S.Running)] && s.app.app.isSignedIn
    && s.app.app.refreshToken == Some(x)
  }

  lemma Ask(s0: State, h: Holder, so: seq<Action>, s: State, x: Secret) returns (more: seq<Action>, end: State)
    requires Runs(s0, h, so, s) && Orderly(s0, h, so) && Inv(s, h) && Idle(s, x)
    ensures Runs(s0, h, more, end) && Orderly(s0, h, more) && Inv(end, h)
    ensures end.db == s.db && AskingFor(end, s.app.nextTask, x)
  {
    hide Inv, Runs, Orderly;
    more, end := Also(s0, h, so, s, RefreshOnce);
  }

  lemma DeliverAsked(s0: State, h: Holder, so: seq<Action>, s: State, t: S.TaskId, x: Secret) returns (more: seq<Action>, end: State)
    requires Runs(s0, h, so, s) && Orderly(s0, h, so) && Inv(s, h) && AskingFor(s, t, x) && Ruled(s.db, h.grant, x)
    ensures Runs(s0, h, more, end) && Orderly(s0, h, more) && Inv(end, h)
    ensures end == s.(db := Presented(s.db, h, x), wires := map[t := Serving(s.db.nextFlight)])
  {
    hide Inv, Runs, Orderly, Ruled;
    more, end := Also(s0, h, so, s, Deliver(t));
  }

  /** The app asks, the request reaches the server, and the app gives up on it. */
  lemma AskInVain(s0: State, h: Holder, so: seq<Action>, s: State, x: Secret) returns (more: seq<Action>, end: State)
    requires Runs(s0, h, so, s) && Orderly(s0, h, so) && Inv(s, h) && Idle(s, x) && Ruled(s.db, h.grant, x)
    ensures Runs(s0, h, more, end) && Orderly(s0, h, more) && Inv(end, h)
    ensures end.db == Presented(s.db, h, x) && Idle(end, x)
  {
    hide Inv, Runs, Orderly, Ruled;
    var t := s.app.nextTask;
    more, end := Ask(s0, h, so, s, x);
    more, end := DeliverAsked(s0, h, more, end, t, x);
    more, end := Also(s0, h, more, end, GiveUp(t));
    more, end := Also(s0, h, more, end, Resume(t));
  }

  /** Nobody has asked anything of the grant, so the app may. */
  lemma FirstIsRuled(s: M.State, h: Holder, x: Secret)
    requires I.Inv(s) && LineKept(s, h) && x == Tip(s, h.grant) && Of(s, x, h.grant)
    requires forall f :: f in s.flights ==> !AsksOf(s, h.grant, s.flights[f])
    ensures Ruled(s, h.grant, x)
  {
    hide I.RowsOk, I.FlightsOk, I.PrivateOk, I.LocksOk, I.SupplyOk, I.EndedOk, I.LinesOk, I.HistoryOk, Lives, RowsKept;
    TipUnreplaced(s, h, x);
  }

  lemma TipUnreplaced(s: M.State, h: Holder, x: Secret)
    requires I.SealsOk(s) && LineKept(s, h) && x == Tip(s, h.grant)
    ensures x in s.tables.refresh ==> s.tables.refresh[x].replacedBy.None?
  {
    hide I.CopyOk;
  }

  /** A second request for the tip, at once after the first, is by the rule too. */
  lemma AgainIsRuled(s: M.State, h: Holder, x: Secret)
    requires I.Inv(s) && LineKept(s, h) && x == Tip(s, h.grant) && Of(s, x, h.grant)
    requires forall f :: f in s.flights ==> !AsksOf(s, h.grant, s.flights[f])
    ensures Ruled(Presented(s, h, x), h.grant, x)
  {
    hide I.RowsOk, I.FlightsOk, I.PrivateOk, I.LocksOk, I.SupplyOk, I.EndedOk, I.LinesOk, I.HistoryOk, Lives, RowsKept;
    TipUnreplaced(s, h, x);
  }

  /** Flight n's rotation is served and answered, while flight k, for the same token, waits for its snapshot. */
  lemma ServeThrough(s0: State, h: Holder, so: seq<Action>, s: State, t: S.TaskId, x: Secret, n: M.FlightId, k: M.FlightId)
    returns (more: seq<Action>, end: State)
    requires Runs(s0, h, so, s) && Orderly(s0, h, so) && Inv(s, h)
    requires n in s.db.flights && s.db.flights[n] == M.Begun(x, RequestOf(h), s.db.now) && Rotatable(s.db, h, s.db.flights[n])
    requires k in s.db.flights && k != n && s.db.flights[k] == M.Begun(x, RequestOf(h), s.db.now)
    requires M.Unlocked(s.db, n, {x})
    ensures Runs(s0, h, more, end) && Orderly(s0, h, more) && Inv(end, h)
    ensures end == s.(db := end.db) && end.db.now == s.db.now
    ensures n in end.db.past.ended && end.db.past.ended[n].Answered?
    ensures k in end.db.flights && end.db.flights[k] == s.db.flights[k]
    ensures x in end.db.tables.refresh && end.db.tables.refresh[x].replacedBy.Some?
    ensures var y := end.db.tables.refresh[x].replacedBy.value;
            y in end.db.tables.refresh && end.db.now < end.db.tables.refresh[y].expiresAt
  {
    hide Runs, Orderly, Rotatable, AppOk, Quiet, TokensOk, Kept, I.Inv, Through, M.Next, M.Enabled, Lives;
    LivesKept(s.db, h);
    var steps, db := BegunThrough(s.db, h, n);
    ThroughIs(s.db, db, n, x, s.db.now);
    ThroughSuccessor(s.db, db, n, x, s.db.now);
    ServedRuns(s, h, steps, db);
    var m := s.(db := db);
    more := so + Served(steps);
    RunHolds(s, h, Served(steps), m);
    Then(s0, h, so, s, Served(steps), m);
    AnswerServed(m.db, n);
    more, end := Also(s0, h, more, m, Server(M.Answer(n)));
  }

  lemma LivesKept(s: M.State, h: Holder)
    requires Kept(s, h)
    ensures Lives(s, h)
  {
  }

  lemma ThroughSuccessor(s: M.State, t: M.State, f: M.FlightId, w: Secret, began: Time)
    requires Through(s, t, f, w, began)
    ensures t.tables.refresh[w].replacedBy.value in t.tables.refresh
    ensures t.tables.refresh[t.tables.refresh[w].replacedBy.value].expiresAt == began + REFRESH_TTL
  {
  }

  lemma AnswerServed(s: M.State, n: M.FlightId)
    requires n in s.flights && s.flights[n].Rotated?
    ensures M.Enabled(s, M.Answer(n))
    ensures var t := M.Next(s, M.Answer(n));
            && t.tables == s.tables && t.now == s.now && n in t.past.ended && t.past.ended[n].Answered?
            && (forall k :: k in s.flights && k != n ==> k in t.flights && t.flights[k] == s.flights[k])
  {
  }

  /** The tip, asked for before: nobody holds its row, and the app's request may rotate it. */
  lemma AskedTip(s: M.State, h: Holder, x: Secret)
    requires I.Inv(s) && LineKept(s, h) && x == Tip(s, h.grant) && Of(s, x, h.grant) && x in s.tables.refresh
    requires s.now < s.tables.refresh[x].expiresAt && FlightsKept(s, h)
    requires forall f :: f in s.flights ==> !AsksOf(s, h.grant, s.flights[f])
    ensures var p := Presented(s, h, x);
            var b, n, k := Presented(p, h, x), p.nextFlight, s.nextFlight;
            && n in b.flights && b.flights[n] == M.Begun(x, RequestOf(h), b.now) && Rotatable(b, h, b.flights[n])
            && k in b.flights && k != n && b.flights[k] == M.Begun(x, RequestOf(h), b.now)
            && M.Unlocked(b, n, {x})
  {
    hide I.RowsOk, I.FlightsOk, I.PrivateOk, I.LocksOk, I.SupplyOk, I.EndedOk, I.LinesOk, Asked;
    TipUnreplaced(s, h, x);
    RowOfToken(s, h, x);
    forall f | f in s.flights ensures M.Held(s.flights[f]) != Some(x) { assert Spares(s, h.grant, s.flights[f]); }
  }

  /** Exchanged for a successor, the token's answer names it and the grant's tip is it. */
  lemma SuccessorIsTip(s: State, h: Holder, t: S.TaskId, x: Secret)
    requires Inv(s, h) && t in s.wires && t in s.app.tasks && s.app.tasks[t].token == x
    requires x in s.db.tables.refresh && s.db.tables.refresh[x].replacedBy.Some?
    ensures s.db.tables.refresh[x].replacedBy == Some(Tip(s.db, h.grant)) && Tip(s.db, h.grant) !in s.db.past.bodies
    ensures x != Tip(s.db, h.grant) && Of(s.db, x, h.grant)
  {
    hide I.RowsOk, I.FlightsOk, I.PrivateOk, I.LocksOk, I.SupplyOk, I.EndedOk, I.LinesOk, Together, Settled, FlightsKept, Lives, RowsKept;
    assert Presentable(s, h, x);
    RowOfToken(s.db, h, x);
  }

  /**
   * What the rule is for. From every fresh sign-in, without a moment passing: one request
   * reaches the server and the app gives up on it; the retry is answered; and when the
   * app presents the successor while the first request still has its snapshot to take,
   * the server can end up revoking the grant. The app never had two refreshes out, and
   * nothing was delivered after it gave up.
   */
  lemma GivenUpRequestCanCostTheGrant(start: State, h: Holder) returns (actions: seq<Action>, last: S.TaskId, s: State, more: seq<Action>, end: State)
    requires SignedIn(start, h) && Idle(start, Tip(start.db, h.grant))
    requires Tip(start.db, h.grant) in start.db.tables.refresh
    requires start.db.now < start.db.tables.refresh[Tip(start.db, h.grant)].expiresAt
    ensures Runs(start, h, actions, s) && Orderly(start, h, actions) && s.db.now == start.db.now
    ensures Enabled(s, Deliver(last)) && !InRule(s, h, Deliver(last))
    ensures Runs(Next(s, h, Deliver(last)), h, more, end) && StolenFrom(end.db, h)
  {
    hide Inv, Runs, Orderly, Ruled, I.Inv, LineKept, FlightsKept, AsksOf, Lives, Rotatable, NoTheftOf, RowsKept, StolenFrom;
    var x := Tip(start.db, h.grant);
    SignedInHolds(start, h);
    StartFacts(start, h);
    FirstIsRuled(start.db, h, x);
    actions, s := AskInVain(start, h, [], start, x);
    AgainIsRuled(start.db, h, x);
    var retry := s.app.nextTask;
    actions, s := Ask(start, h, actions, s, x);
    var n, k := s.db.nextFlight, start.db.nextFlight;
    actions, s := DeliverAsked(start, h, actions, s, retry, x);
    AskedTip(start.db, h, x);
    actions, s := ServeThrough(start, h, actions, s, retry, x, n, k);
    SuccessorIsTip(s, h, retry, x);
    actions, s := Heard(start, h, actions, s, retry, x);
    last := s.app.nextTask;
    actions, s := Ask(start, h, actions, s, Tip(s.db, h.grant));
    StillUnseen(s.db, h, k, x);
    more, end := UnruledFrom(s, h, last);
  }

  lemma StartFacts(start: State, h: Holder)
    requires SignedIn(start, h) && Inv(start, h)
    ensures I.Inv(start.db) && LineKept(start.db, h) && Of(start.db, Tip(start.db, h.grant), h.grant) && FlightsKept(start.db, h)
    ensures Runs(start, h, [], start) && Orderly(start, h, [])
    ensures forall f :: f in start.db.flights ==> !AsksOf(start.db, h.grant, start.db.flights[f])
  {
    hide I.Inv, Together, Settled, NoTheftOf, M.Reachable, FlightsKept, AsksOf;
    assert Presentable(start, h, Tip(start.db, h.grant));
  }

  /** The answer arrives, and the app holds the tip. */
  lemma Heard(s0: State, h: Holder, so: seq<Action>, s: State, t: S.TaskId, x: Secret) returns (more: seq<Action>, end: State)
    requires Runs(s0, h, so, s) && Orderly(s0, h, so) && Inv(s, h)
    requires s.app.tasks == map[t := S.Refresh(x, S.Running)] && s.app.app.isSignedIn && s.wires.Keys == {t}
    requires s.wires[t].Serving? && s.wires[t].f in s.db.past.ended && s.db.past.ended[s.wires[t].f].Answered?
    ensures Runs(s0, h, more, end) && Orderly(s0, h, more) && Inv(end, h)
    ensures end.db == s.db && Idle(end, Tip(s.db, h.grant))
  {
    hide Inv, Runs, Orderly;
    ReceiveStep(s, h, t);
    more, end := Also(s0, h, so, s, Receive(t));
    SignedInStill(s, h, t);
    more, end := Also(s0, h, more, end, Resume(t));
    assert end.app.tasks == map[] && end.wires == map[];
  }

  lemma SignedInStill(s: State, h: Holder, t: S.TaskId)
    requires Enabled(s, Receive(t)) && s.db.past.ended[s.wires[t].f].Answered?
    ensures Next(s, h, Receive(t)).app.app.isSignedIn == s.app.app.isSignedIn
    ensures Next(s, h, Receive(t)).app.tasks == s.app.tasks[t := S.Refresh(s.app.tasks[t].token, S.Renewed)]
  {
  }

  lemma StillUnseen(s: M.State, h: Holder, k: M.FlightId, x: Secret)
    requires k in s.flights && s.flights[k].Begun? && s.flights[k].token == x && x in s.tables.refresh && Of(s, x, h.grant)
    requires var y := Tip(s, h.grant); y in s.tables.refresh && y !in s.past.bodies && y != x && s.now < s.tables.refresh[y].expiresAt
    ensures !Ruled(s, h.grant, Tip(s, h.grant))
  {
    assert Unseen(s, h.grant, s.flights[k]);
  }

  /* ------------------------------------------------------------ a sign-in */

  /** A sign-in from the server's start is one the theorems above speak of. */
  lemma FreshSignIn(jkt: string, account: S.Account) returns (s: State, h: Holder)
    ensures SignedIn(s, h) && Idle(s, Tip(s.db, h.grant))
    ensures Tip(s.db, h.grant) in s.db.tables.refresh && s.db.now < s.db.tables.refresh[Tip(s.db, h.grant)].expiresAt
  {
    hide M.Reachable;
    SignInReached(jkt);
    h := Holder(0, jkt);
    s := State(S.State(S.Restored(Some(S.Stored(2, account))), map[], 0, {2}, {}, map[]), AfterSignIn(jkt), map[]);
    assert Line(s.db, 0) == [2];
  }
}
