/**
 * The rule for presenting a token is exact: a request made against it can end in
 * theft, in some continuation of the state it is made in.
 */
module GrantTheft {
  import opened Basics
  import opened OAuthTables
  import opened SealedStore
  import opened RefreshMachine
  import opened RefreshInvariant
  import opened RefreshCommits
  import opened GrantLife
  import T = RefreshTheorems

  /** Steps of transactions already under way: nobody asks for anything new. */
  ghost predicate Ongoing(actions: seq<Action>) {
    forall a :: a in actions ==> !a.BeginRefresh? && !a.BeginRevoke?
  }

  /* ------------------------------------------ a request run through by itself */

  /** Flight f rotated its token, and nothing else of the tables' rows or the flights moved. */
  ghost predicate Through(s: State, t: State, f: FlightId, w: Secret, began: Time) {
    && t.now == s.now && t.tables.grants == s.tables.grants && t.nextFlight == s.nextFlight
    && f in t.flights && t.flights[f].Rotated? && t.flights == s.flights[f := t.flights[f]]
    && w in s.tables.refresh && w in t.tables.refresh
    && t.tables.refresh[w].grantId == s.tables.refresh[w].grantId
    && t.tables.refresh[w].replacedBy.Some? && t.tables.refresh[w].replacedAt == Some(began)
    && (forall r :: r in s.tables.refresh && r != w ==> r in t.tables.refresh && t.tables.refresh[r] == s.tables.refresh[r])
    && var successor := t.tables.refresh[w].replacedBy.value;
       successor in t.tables.refresh && t.tables.refresh[successor].expiresAt == began + REFRESH_TTL
  }

  lemma SealedThrough(s: State, h: Holder, f: FlightId) returns (actions: seq<Action>, t: State)
    requires Inv(s) && f in s.flights && s.flights[f].Sealed?
    ensures Runs(s, actions, t) && Ongoing(actions) && Inv(t) && Through(s, t, f, s.flights[f].token, s.flights[f].began)
  {
    hide Inv, Next;
    RunNothing(s);
    actions, t := RunAlso(s, [], s, CommitRotation(f));
    T.StepHolds(s, CommitRotation(f));
    RotationThrough(s, f);
  }

  lemma RotationThrough(s: State, f: FlightId)
    requires Inv(s) && Enabled(s, CommitRotation(f))
    ensures Through(s, Next(s, CommitRotation(f)), f, s.flights[f].token, s.flights[f].began)
  {
    hide Next, RowsOk, LinesOk, PrivateOk, SealsOk, LocksOk, EndedOk, Indexed, FlightOk, SupplyOk;
    assert FlightOk(s, s.flights[f]);
    var g, successor := CommitShape(s, f);
    CommittedThrough(s, Next(s, CommitRotation(f)), f, s.flights[f], g, successor);
  }

  lemma CommittedThrough(s: State, t: State, f: FlightId, fl: Flight, g: GrantId, successor: Secret)
    requires Committing(s, f, fl, g, successor) && Committed(s, t, f, fl, g, successor)
    requires s.tables.refresh.Keys <= s.past.born
    ensures Through(s, t, f, fl.token, fl.began)
  {
    hide FlightOk;
  }

  /** A step of f itself that only moves f, and may seal or mint. */
  ghost predicate OnlyMoved(s: State, t: State, f: FlightId) {
    && t.now == s.now && t.tables == s.tables && t.nextFlight == s.nextFlight && f in t.flights && t.flights == s.flights[f := t.flights[f]]
  }

  lemma ThroughLater(s: State, m: State, t: State, f: FlightId, w: Secret, began: Time)
    requires OnlyMoved(s, m, f) && Through(m, t, f, w, began)
    ensures Through(s, t, f, w, began)
  {
  }

  lemma MintedThrough(s: State, h: Holder, f: FlightId) returns (actions: seq<Action>, t: State)
    requires Inv(s) && f in s.flights && s.flights[f].Minted?
    ensures Runs(s, actions, t) && Ongoing(actions) && Inv(t) && Through(s, t, f, s.flights[f].token, s.flights[f].began)
  {
    hide Inv, Through;
    RunNothing(s);
    var m, rest;
    actions, m := RunAlso(s, [], s, Seal(f));
    T.StepHolds(s, Seal(f));
    rest, t := SealedThrough(m, h, f);
    RunThen(s, actions, m, rest, t);
    ThroughLater(s, m, t, f, s.flights[f].token, s.flights[f].began);
    actions := actions + rest;
  }

  lemma ChosenThrough(s: State, h: Holder, f: FlightId) returns (actions: seq<Action>, t: State)
    requires Inv(s) && f in s.flights && s.flights[f].Chosen?
    ensures Runs(s, actions, t) && Ongoing(actions) && Inv(t) && Through(s, t, f, s.flights[f].token, s.flights[f].began)
  {
    hide Inv, Through;
    ChosenHasRow(s, f);
    RunNothing(s);
    var m, rest;
    actions, m := RunAlso(s, [], s, Issue(f));
    T.StepHolds(s, Issue(f));
    rest, t := MintedThrough(m, h, f);
    RunThen(s, actions, m, rest, t);
    ThroughLater(s, m, t, f, s.flights[f].token, s.flights[f].began);
    actions := actions + rest;
  }

  lemma ChosenHasRow(s: State, f: FlightId)
    requires Inv(s) && f in s.flights && s.flights[f].Chosen?
    ensures s.flights[f].token in s.tables.refresh && s.tables.refresh[s.flights[f].token].grantId in s.tables.grants
  {
    hide LinesOk, PrivateOk, LocksOk, EndedOk, SealsOk, SupplyOk, HistoryOk;
    assert FlightOk(s, s.flights[f]);
  }

  /** A request of the app's own for an unreplaced, unexpired token of its live grant. */
  ghost predicate Rotatable(s: State, h: Holder, fl: Flight) {
    && Pending(fl) && (Undecided(fl) ==> fl.req == RequestOf(h)) && fl.token in s.tables.refresh
    && var row := s.tables.refresh[fl.token];
       row.grantId == h.grant && row.replacedBy.None? && row.revokedAt.None? && fl.began < row.expiresAt
  }

  lemma LockRotates(s: State, h: Holder, f: FlightId)
    requires Inv(s) && Lives(s, h) && Enabled(s, TakeLock(f)) && Rotatable(s, h, s.flights[f])
    ensures var t := Next(s, TakeLock(f));
            OnlyMoved(s, t, f) && t.flights[f].Chosen? && t.flights[f].token == s.flights[f].token && t.flights[f].began == s.flights[f].began
  {
    hide LinesOk, PrivateOk, LocksOk, EndedOk, SealsOk, SupplyOk, Indexed;
    assert FlightOk(s, s.flights[f]);
  }

  lemma WaitingThrough(s: State, h: Holder, f: FlightId) returns (actions: seq<Action>, t: State)
    requires Inv(s) && Lives(s, h) && f in s.flights && s.flights[f].Waiting? && Rotatable(s, h, s.flights[f])
    requires Unlocked(s, f, {s.flights[f].token})
    ensures Runs(s, actions, t) && Ongoing(actions) && Inv(t) && Through(s, t, f, s.flights[f].token, s.flights[f].began)
  {
    hide Inv, Through, Next, Lives, Rotatable;
    RunNothing(s);
    var m, rest;
    actions, m := RunAlso(s, [], s, TakeLock(f));
    T.StepHolds(s, TakeLock(f));
    LockRotates(s, h, f);
    rest, t := ChosenThrough(m, h, f);
    RunThen(s, actions, m, rest, t);
    ThroughLater(s, m, t, f, s.flights[f].token, s.flights[f].began);
    actions := actions + rest;
  }

  lemma SnapshotWaits(s: State, f: FlightId)
    requires Enabled(s, TakeSnapshot(f)) && s.flights[f].token in s.tables.refresh
    ensures var t, fl := Next(s, TakeSnapshot(f)), s.flights[f];
            OnlyMoved(s, t, f) && t.flights[f] == Waiting(fl.token, fl.req, fl.began, s.tables)
  {
  }

  lemma BegunThrough(s: State, h: Holder, f: FlightId) returns (actions: seq<Action>, t: State)
    requires Inv(s) && Lives(s, h) && f in s.flights && s.flights[f].Begun? && Rotatable(s, h, s.flights[f])
    requires Unlocked(s, f, {s.flights[f].token})
    ensures Runs(s, actions, t) && Ongoing(actions) && Inv(t) && Through(s, t, f, s.flights[f].token, s.flights[f].began)
  {
    hide Inv, Through, Next;
    RunNothing(s);
    var m, rest;
    actions, m := RunAlso(s, [], s, TakeSnapshot(f));
    T.StepHolds(s, TakeSnapshot(f));
    SnapshotWaits(s, f);
    rest, t := WaitingThrough(m, h, f);
    RunThen(s, actions, m, rest, t);
    ThroughLater(s, m, t, f, s.flights[f].token, s.flights[f].began);
    actions := actions + rest;
  }

  /** A request that may rotate its token can, once nobody else holds the row. */
  lemma RequestThrough(s: State, h: Holder, f: FlightId) returns (actions: seq<Action>, t: State)
    requires Inv(s) && Lives(s, h) && f in s.flights && Rotatable(s, h, s.flights[f]) && Unlocked(s, f, {s.flights[f].token})
    ensures Runs(s, actions, t) && Ongoing(actions) && Inv(t) && Through(s, t, f, s.flights[f].token, s.flights[f].began)
  {
    hide Inv, Through, Lives;
    match s.flights[f]
    case Begun(_, _, _) => actions, t := BegunThrough(s, h, f);
    case Waiting(_, _, _, _) => actions, t := WaitingThrough(s, h, f);
    case Chosen(_, _, _, _) => actions, t := ChosenThrough(s, h, f);
    case Minted(_, _, _, _) => actions, t := MintedThrough(s, h, f);
    case Sealed(_, _, _, _) => actions, t := SealedThrough(s, h, f);
  }

  /* ------------------------------------------------------------------- theft */

  /** A transaction is revoking the grant over one of its own tokens. */
  ghost predicate StolenFrom(t: State, h: Holder) {
    exists k :: k in t.flights && t.flights[k].Revoking? && t.flights[k].theft.Some? && t.flights[k].todo == [h.grant]
  }

  /** A replaced token's row is held by nobody who would rotate it. */
  lemma ReplacedIsFree(s: State, h: Holder, f: FlightId, w: Secret)
    requires Inv(s) && w in s.tables.refresh && s.tables.refresh[w].replacedBy.Some?
    requires forall k :: k in s.flights && s.flights[k].Revoking? ==> s.flights[k].theft != Some(w)
    ensures Unlocked(s, f, {w})
  {
    hide RowsOk, LinesOk, PrivateOk, LocksOk, EndedOk, SealsOk, SupplyOk, HistoryOk, MintedOk, CopyOk, PresentedOk;
    forall k | k in s.flights && k != f ensures Held(s.flights[k]) != Some(w) { assert FlightOk(s, s.flights[k]); }
  }

  /** A request for a replaced token, out of time or with the successor used, takes its snapshot and its lock, and is theft. */
  lemma TheftFollows(s: State, h: Holder, f: FlightId) returns (actions: seq<Action>, t: State)
    requires Inv(s) && Lives(s, h) && f in s.flights && s.flights[f].Begun? && s.flights[f].req == RequestOf(h)
    requires var w := s.flights[f].token;
             && w in s.tables.refresh && s.tables.refresh[w].grantId == h.grant && s.tables.refresh[w].replacedBy.Some?
             && (!WithinGrace(s.tables.refresh[w], s.flights[f].began) || SuccessorUsed(s.tables.refresh, s.tables.refresh[w]))
             && (forall k :: k in s.flights && s.flights[k].Revoking? ==> s.flights[k].theft != Some(w))
    ensures Runs(s, actions, t) && Ongoing(actions) && StolenFrom(t, h)
  {
    hide Inv, Next;
    RunNothing(s);
    var m;
    actions, m := RunAlso(s, [], s, TakeSnapshot(f));
    T.StepHolds(s, TakeSnapshot(f));
    SnapshotWaits(s, f);
    ReplacedIsFree(m, h, f, s.flights[f].token);
    LockIsTheftIff(m, h, f);
    actions, t := RunAlso(s, actions, m, TakeLock(f));
  }

  /* --------------------------------------------- a token presented off the rule */

  lemma RowOfToken(s: State, h: Holder, w: Secret)
    requires HistoryOk(s) && SealsOk(s) && w in s.tables.refresh && Of(s, w, h.grant)
    ensures s.tables.refresh[w].grantId == h.grant
    ensures s.tables.refresh[w].replacedBy.Some? <==> w in s.past.bodies
    ensures w in s.past.bodies ==> s.tables.refresh[w].replacedBy == s.past.bodies[w].refreshToken
  {
    hide Indexed, CopyOk, BoxesInPlace;
  }

  lemma NoThiefHolds(s: State, h: Holder, w: Secret)
    requires FlightsKept(s, h) && Of(s, w, h.grant)
    ensures forall k :: k in s.flights && s.flights[k].Revoking? ==> s.flights[k].theft != Some(w)
  {
    forall k | k in s.flights && s.flights[k].Revoking? ensures s.flights[k].theft != Some(w) {
      assert Spares(s, h.grant, s.flights[k]);
    }
  }

  /** The app's request for x reaches the server. */
  function Presented(s: State, h: Holder, x: Secret): State { Launch(s, Begun(x, RequestOf(h), s.now)) }

  lemma PresentedHolds(s: State, h: Holder, x: Secret)
    requires Inv(s) && LineKept(s, h) && Of(s, x, h.grant)
    ensures Inv(Presented(s, h, x)) && Lives(Presented(s, h, x), h)
  {
    hide RowsOk, LinesOk, LocksOk, EndedOk, SealsOk, FlightsOk, Next;
    CanPresent(s, h, x, RequestOf(h));
    T.StepHolds(s, BeginRefresh(x, RequestOf(h)));
    PresentedIs(s, h, x);
  }

  lemma PresentedIs(s: State, h: Holder, x: Secret)
    requires Enabled(s, BeginRefresh(x, RequestOf(h)))
    ensures Next(s, BeginRefresh(x, RequestOf(h))) == Presented(s, h, x)
  {
  }

  /** Presented after the grace window of its replacement. */
  lemma LatePresentation(s: State, h: Holder, x: Secret) returns (actions: seq<Action>, t: State)
    requires Inv(s) && Kept(s, h) && Of(s, x, h.grant) && x in s.tables.refresh && !InWindow(s, x, s.now)
    ensures Runs(Presented(s, h, x), actions, t) && Ongoing(actions) && StolenFrom(t, h)
  {
    hide RowsOk, LinesOk, LocksOk, EndedOk, FlightsOk, PrivateOk, SupplyOk, LineKept, Together, Settled, Lives;
    PresentedHolds(s, h, x);
    RowOfToken(s, h, x);
    NoThiefHolds(s, h, x);
    actions, t := TheftFollows(Presented(s, h, x), h, s.nextFlight);
  }

  /** Free a row of its holder, who loses its connection. */
  lemma Freed(s: State, f: FlightId, w: Secret) returns (actions: seq<Action>, t: State)
    requires Inv(s)
    ensures Runs(s, actions, t) && Ongoing(actions) && Inv(t) && Unlocked(t, f, {w})
    ensures t == s.(flights := t.flights) && t.flights.Keys <= s.flights.Keys
    ensures forall k :: k in s.flights && (k == f || Held(s.flights[k]) != Some(w)) ==> k in t.flights
    ensures forall k :: k in t.flights ==> t.flights[k] == s.flights[k]
  {
    hide RowsOk, LinesOk, EndedOk, FlightsOk, PrivateOk, SupplyOk, SealsOk, HistoryOk;
    RunNothing(s);
    actions, t := [], s;
    if k :| k in s.flights && k != f && Held(s.flights[k]) == Some(w) {
      actions, t := RunAlso(s, [], s, Lose(k));
      T.StepHolds(s, Lose(k));
    }
  }

  lemma StillRotatable(s: State, t: State, h: Holder, fl: Flight)
    requires Rotatable(s, h, fl) && t.tables == s.tables
    ensures Rotatable(t, h, fl)
  {
  }

  lemma RequestIsRotatable(s: State, h: Holder, f: FlightId)
    requires Inv(s) && Kept(s, h) && f in s.flights && MayRotate(s, s.flights[f]) && Of(s, s.flights[f].token, h.grant)
    requires s.flights[f].token !in s.past.bodies
    ensures Rotatable(s, h, s.flights[f])
  {
    hide RowsOk, LinesOk, LocksOk, EndedOk, FlightsOk, PrivateOk, SupplyOk, HistoryOk, SealsOk, Lives, Together, Settled;
    RowOfToken(s, h, s.flights[f].token);
    assert Asked(s, h, s.flights[f]);
  }

  /** Presented more than a window after a request that may yet rotate it: that request rotates first. */
  lemma StaleWindow(s: State, h: Holder, x: Secret, f: FlightId) returns (actions: seq<Action>, t: State)
    requires Inv(s) && Kept(s, h) && Of(s, x, h.grant) && x in s.tables.refresh && x !in s.past.bodies
    requires f in s.flights && MayRotate(s, s.flights[f]) && s.flights[f].token == x && s.now >= s.flights[f].began + REFRESH_GRACE
    requires s.nextFlight !in s.flights
    ensures Runs(Presented(s, h, x), actions, t) && Ongoing(actions) && StolenFrom(t, h)
  {
    hide Inv, LineKept, Together, Settled, Lives, Rotatable, Through, StolenFrom;
    StaleFacts(s, h, x, f);
    var l, n := Presented(s, h, x), s.nextFlight;
    var m, rest, r, last;
    actions, m := Freed(l, f, x);
    LivesStill(l, m, h);
    StillRotatable(s, m, h, s.flights[f]);
    rest, r := RequestThrough(m, h, f);
    RunThen(l, actions, m, rest, r);
    ThroughIs(m, r, f, x, s.flights[f].began);
    LivesStill(m, r, h);
    last, t := TheftFollows(r, h, n);
    RunThen(l, actions + rest, r, last, t);
    actions := actions + rest + last;
  }

  lemma StaleFacts(s: State, h: Holder, x: Secret, f: FlightId)
    requires Inv(s) && Kept(s, h) && Of(s, x, h.grant) && x in s.tables.refresh && x !in s.past.bodies
    requires f in s.flights && MayRotate(s, s.flights[f]) && s.flights[f].token == x
    ensures Inv(Presented(s, h, x)) && Lives(Presented(s, h, x), h) && Rotatable(s, h, s.flights[f])
    ensures s.tables.refresh[x].grantId == h.grant && f != s.nextFlight
    ensures forall k :: k in s.flights && s.flights[k].Revoking? ==> s.flights[k].theft != Some(x)
  {
    hide RowsOk, LinesOk, LocksOk, EndedOk, FlightsOk, PrivateOk, Together, Settled, Lives, Rotatable, LineKept;
    PresentedHolds(s, h, x);
    RequestIsRotatable(s, h, f);
    RowOfToken(s, h, x);
    NoThiefHolds(s, h, x);
  }

  lemma LivesStill(s: State, t: State, h: Holder)
    requires Lives(s, h) && t.tables.grants == s.tables.grants
    ensures Lives(t, h)
  {
  }

  lemma ThroughIs(s: State, t: State, f: FlightId, w: Secret, began: Time)
    requires Through(s, t, f, w, began)
    ensures t.now == s.now && t.tables.grants == s.tables.grants
    ensures f in t.flights && t.flights[f].Rotated? && t.flights == s.flights[f := t.flights[f]]
    ensures w in t.tables.refresh && w in s.tables.refresh && t.tables.refresh[w].grantId == s.tables.refresh[w].grantId
    ensures t.tables.refresh[w].replacedBy.Some? && t.tables.refresh[w].replacedAt == Some(began)
    ensures forall r :: r in s.tables.refresh && r != w ==> r in t.tables.refresh && t.tables.refresh[r] == s.tables.refresh[r]
  {
  }

  /** Presented while a request for its predecessor has its snapshot to take: the new request rotates first. */
  lemma OvertakenRequest(s: State, h: Holder, x: Secret, k: FlightId) returns (actions: seq<Action>, t: State)
    requires Inv(s) && Kept(s, h) && Of(s, x, h.grant) && BeforeTip(s, h.grant, x) && x in s.tables.refresh && x !in s.past.bodies
    requires s.now < s.tables.refresh[x].expiresAt && k in s.flights && Unseen(s, h.grant, s.flights[k]) && s.flights[k].token != x
    ensures Runs(Presented(s, h, x), actions, t) && Ongoing(actions) && StolenFrom(t, h)
  {
    hide Inv, LineKept, Together, Settled, Lives, Rotatable, Through, StolenFrom;
    var l, n := Presented(s, h, x), s.nextFlight;
    OvertakenFacts(s, h, x, k);
    var rest, r;
    actions, r := RequestThrough(l, h, n);
    ThroughIs(l, r, n, x, s.now);
    LivesStill(l, r, h);
    rest, t := TheftFollows(r, h, k);
    RunThen(l, actions, r, rest, t);
    actions := actions + rest;
  }

  lemma OvertakenFacts(s: State, h: Holder, x: Secret, k: FlightId)
    requires Inv(s) && Kept(s, h) && Of(s, x, h.grant) && BeforeTip(s, h.grant, x) && x in s.tables.refresh && x !in s.past.bodies
    requires s.now < s.tables.refresh[x].expiresAt && k in s.flights && Unseen(s, h.grant, s.flights[k]) && s.flights[k].token != x
    ensures var l, n, w := Presented(s, h, x), s.nextFlight, s.flights[k].token;
            && Inv(l) && Lives(l, h) && Rotatable(l, h, l.flights[n]) && Unlocked(l, n, {x}) && k != n
            && s.flights[k].req == RequestOf(h)
            && s.tables.refresh[w].grantId == h.grant && s.tables.refresh[w].replacedBy == Some(x)
            && (forall j :: j in s.flights && s.flights[j].Revoking? ==> s.flights[j].theft != Some(w))
  {
    hide RowsOk, LinesOk, LocksOk, EndedOk, PrivateOk, Together, Lives;
    hide FlightOk;
    PresentedHolds(s, h, x);
    RowOfToken(s, h, x);
    RowOfToken(s, h, s.flights[k].token);
    NoThiefHolds(s, h, s.flights[k].token);
    NoThiefHolds(s, h, x);
    assert Asked(s, h, s.flights[k]);
    forall j | j in s.flights ensures Held(s.flights[j]) != Some(x) {
      assert FlightOk(s, s.flights[j]);
      if s.flights[j].Chosen? || s.flights[j].Minted? || s.flights[j].Sealed? { SealedMayRotate(s, j); }
    }
  }

  /**
   * The rule is exact. Presented by it, a token of a kept grant leaves it kept, and a
   * kept grant is never stolen from (GrantLife); presented against it, some continuation
   * ends in a transaction that revokes the grant for theft.
   */
  lemma UnruledPresentationCanBeTheft(s: State, h: Holder, x: Secret) returns (actions: seq<Action>, t: State)
    requires Inv(s) && Kept(s, h) && Of(s, x, h.grant) && BeforeTip(s, h.grant, x) && !Ruled(s, h.grant, x)
    ensures Runs(Presented(s, h, x), actions, t) && Ongoing(actions) && StolenFrom(t, h)
  {
    hide Kept, BeforeTip, InWindow, StolenFrom, RowsOk, LinesOk, LocksOk, EndedOk, PrivateOk, FlightsOk, HistoryOk, SealsOk;
    if !InWindow(s, x, s.now) {
      actions, t := LatePresentation(s, h, x);
    } else if f :| f in s.flights && MayRotate(s, s.flights[f]) && s.flights[f].token == x && s.now >= s.flights[f].began + REFRESH_GRACE {
      actions, t := StaleWindow(s, h, x, f);
    } else {
      var k :| k in s.flights && Unseen(s, h.grant, s.flights[k]) && s.flights[k].token != x;
      actions, t := OvertakenRequest(s, h, x, k);
    }
  }

  /** A kept grant is not being stolen from. */
  lemma KeptIsNotStolen(s: State, h: Holder)
    requires Kept(s, h)
    ensures !StolenFrom(s, h) && !Revoked(s.tables, h.grant)
  {
    assert forall k :: k in s.flights && s.flights[k].Revoking? ==> h.grant !in s.flights[k].todo;
  }
}
