/**
 * One grant whose tokens only their own app presents: what every statement of
 * everybody keeps of it, and when a request for it is theft. The states and actions
 * are RefreshMachine's; AppRefresh adds the app and the channel.
 */
module GrantLife {
  import opened Basics
  import opened OAuthTables
  import opened SealedStore
  import opened RefreshMachine
  import opened RefreshInvariant
  import opened RefreshCommits
  import T = RefreshTheorems

  const CLIENT_ID: string := "iot-switch-ios"

  /** Who the app is to the server: the grant, and the key all its proofs are made with. */
  datatype Holder = Holder(grant: GrantId, jkt: string)

  function RequestOf(h: Holder): Request { Request(CLIENT_ID, None, None, Some(h.jkt)) }

  function Line(s: State, g: GrantId): seq<Secret> { if g in s.past.lines then s.past.lines[g] else [] }

  /** The last refresh token committed for the grant. */
  function Tip(s: State, g: GrantId): Secret { if Line(s, g) == [] then 0 else Line(s, g)[|Line(s, g)| - 1] }

  predicate Of(s: State, r: Secret, g: GrantId) { T.IsOf(s, r, g) }

  /** On its way to a rotation, or not yet decided. */
  predicate Pending(fl: Flight) { fl.Begun? || fl.Waiting? || fl.Chosen? || fl.Minted? || fl.Sealed? }

  predicate Undecided(fl: Flight) { fl.Begun? || fl.Waiting? }

  ghost predicate Lives(s: State, h: Holder) {
    && h.grant in s.tables.grants
    && var grant := s.tables.grants[h.grant];
       grant.revokedAt.None? && grant.clientId == CLIENT_ID && (grant.dpopJkt.Some? ==> grant.dpopJkt.value == h.jkt)
  }

  /** A token whose transaction begins now, or began then, has not been replaced for longer than the grace window. */
  ghost predicate InWindow(s: State, w: Secret, began: Time) {
    w in s.tables.refresh && s.tables.refresh[w].replacedBy.Some? ==> WithinGrace(s.tables.refresh[w], began)
  }

  /** The tip, or a token exchanged for the tip. */
  ghost predicate BeforeTip(s: State, g: GrantId, w: Secret) {
    w == Tip(s, g) || (w in s.past.bodies && s.past.bodies[w].refreshToken == Some(Tip(s, g)))
  }

  ghost predicate SeenUnused(s: State, w: Secret, seen: Tables) {
    w in s.tables.refresh && s.tables.refresh[w].replacedBy.Some? ==> !SuccessorUsed(seen.refresh, s.tables.refresh[w])
  }

  /** A revocation under way has nothing to do with the grant. */
  ghost predicate Spares(s: State, g: GrantId, fl: Flight) {
    fl.Revoking? ==>
      && g !in fl.todo && g !in fl.hit && (fl.theft.Some? ==> !Of(s, fl.theft.value, g))
      && (forall r :: r in fl.marked ==> r in s.past.grantOf && s.past.grantOf[r] != g)
  }

  /** A request for one of the grant's tokens is the app's, in time, and its snapshot saw no successor used. */
  ghost predicate Asked(s: State, h: Holder, fl: Flight) {
    match fl
    case Begun(w, req, began) =>
      Of(s, w, h.grant) && w in s.tables.refresh ==> req == RequestOf(h) && BeforeTip(s, h.grant, w) && InWindow(s, w, began)
    case Waiting(w, req, began, seen) =>
      Of(s, w, h.grant) ==> req == RequestOf(h) && seen.refresh.Keys <= s.past.born && InWindow(s, w, began) && SeenUnused(s, w, seen)
    case _ => true
  }

  /** A request that may still rotate its token: pending, and begun before the token expired. */
  predicate MayRotate(s: State, fl: Flight) {
    Pending(fl) && fl.token in s.tables.refresh && fl.began < s.tables.refresh[fl.token].expiresAt
  }

  /** Requests for the tip all began within one grace window of each that may yet rotate it. */
  ghost predicate Together(s: State, g: GrantId) {
    forall f, k :: f in s.flights && k in s.flights && MayRotate(s, s.flights[f]) && Undecided(s.flights[k]) ==>
      s.flights[f].token == Tip(s, g) && s.flights[k].token == Tip(s, g) ==>
        s.flights[k].began < s.flights[f].began + REFRESH_GRACE
  }

  /** A request for a surviving token of the grant whose snapshot is still to be taken. */
  ghost predicate Unseen(s: State, g: GrantId, fl: Flight) {
    fl.Begun? && Of(s, fl.token, g) && fl.token in s.tables.refresh
  }

  /** While the tip may be rotated, no request for an older token still has its snapshot to take. */
  ghost predicate Settled(s: State, g: GrantId) {
    forall f, k :: f in s.flights && k in s.flights && MayRotate(s, s.flights[f]) && Unseen(s, g, s.flights[k]) ==>
      s.flights[f].token == Tip(s, g) ==> s.flights[k].token == Tip(s, g)
  }

  ghost predicate RowsKept(s: State, g: GrantId) {
    forall r :: r in s.tables.refresh && s.tables.refresh[r].grantId == g ==> s.tables.refresh[r].revokedAt.None?
  }

  ghost predicate FlightsKept(s: State, h: Holder) {
    forall f :: f in s.flights ==> Spares(s, h.grant, s.flights[f]) && Asked(s, h, s.flights[f])
  }

  ghost predicate NoTheftOf(s: State, g: GrantId) {
    forall f :: f in s.past.ended && s.past.ended[f].TheftFound? ==> !Of(s, s.past.ended[f].token, g)
  }

  ghost predicate LineKept(s: State, h: Holder) {
    Lives(s, h) && Line(s, h.grant) != [] && Tip(s, h.grant) !in s.past.bodies && RowsKept(s, h.grant)
  }

  ghost predicate Kept(s: State, h: Holder) {
    && LineKept(s, h) && FlightsKept(s, h) && Together(s, h.grant) && Settled(s, h.grant) && NoTheftOf(s, h.grant)
  }

  /** A step of anybody: nobody but the app presents the grant's tokens, and nobody asks for its revocation. */
  ghost predicate Foreign(s: State, g: GrantId, a: Action) {
    (a.BeginRefresh? ==> !Of(s, a.token, g)) && (a.BeginRevoke? ==> g !in a.grants)
  }

  /* --------------------------------------------------------- the grant's rows */

  /** All that concerns the grant is as it was, except that pruning may have taken rows of it. */
  ghost predicate Steady(s: State, t: State, h: Holder) {
    && Lives(t, h) && Line(t, h.grant) == Line(s, h.grant)
    && s.past.born <= t.past.born && s.now <= t.now
    && (forall w :: Of(t, w, h.grant) <==> Of(s, w, h.grant))
    && (forall w :: w in s.past.bodies ==> w in t.past.bodies && t.past.bodies[w] == s.past.bodies[w])
    && Tip(s, h.grant) !in t.past.bodies
    && (forall r :: r in t.tables.refresh && (t.tables.refresh[r].grantId == h.grant || Of(s, r, h.grant)) ==>
          r in s.tables.refresh && t.tables.refresh[r] == s.tables.refresh[r])
  }

  lemma SteadyLine(s: State, t: State, h: Holder)
    requires LineKept(s, h) && Steady(s, t, h)
    ensures LineKept(t, h)
  {
  }

  lemma SteadyFlight(s: State, t: State, h: Holder, fl: Flight)
    requires Steady(s, t, h) && Spares(s, h.grant, fl) && Asked(s, h, fl)
    requires fl.Revoking? ==> forall r :: r in fl.marked ==> r in t.past.grantOf && t.past.grantOf[r] == s.past.grantOf[r]
    ensures Spares(t, h.grant, fl) && Asked(t, h, fl)
  {
  }

  /** Actions that touch neither the tables nor the history of tokens. */
  predicate Still(a: Action) {
    !a.CommitRotation? && !a.CommitRevoke? && !a.PruneAccess? && !a.FinishPrune? && !a.CommitEstablish?
  }

  lemma StillShape(s: State, a: Action)
    requires Enabled(s, a) && Still(a)
    ensures var t := Next(s, a); t.tables == s.tables && t.past == s.past.(ended := t.past.ended) && s.now <= t.now
  {
  }

  lemma StillSteady(s: State, h: Holder, a: Action)
    requires LineKept(s, h) && Enabled(s, a) && Still(a)
    ensures Steady(s, Next(s, a), h)
  {
    hide Next, Enabled;
    StillShape(s, a);
  }

  lemma PruneSteady(s: State, h: Holder, a: Action)
    requires LineKept(s, h) && Enabled(s, a) && (a.PruneAccess? || a.FinishPrune?)
    ensures Steady(s, Next(s, a), h)
  {
  }

  lemma RevokeSteady(s: State, h: Holder, f: FlightId)
    requires HistoryOk(s) && LineKept(s, h) && Enabled(s, CommitRevoke(f)) && Spares(s, h.grant, s.flights[f])
    ensures Steady(s, Next(s, CommitRevoke(f)), h)
  {
    hide Indexed;
  }

  lemma FoundSteady(s: State, h: Holder, f: FlightId)
    requires SupplyOk(s) && HistoryOk(s) && PrivateOk(s) && LineKept(s, h) && Enabled(s, CommitEstablish(f)) && FlightOk(s, s.flights[f])
    ensures Steady(s, Next(s, CommitEstablish(f)), h)
  {
    hide Indexed, LineKept;
    FoundingShape(s, f);
    FoundedSteady(s, Next(s, CommitEstablish(f)), h, f, s.flights[f]);
  }

  lemma FoundedSteady(s: State, t: State, h: Holder, f: FlightId, fl: Flight)
    requires Founding(s, f, fl) && Founded(s, t, f, fl) && SupplyOk(s) && HistoryOk(s) && LineKept(s, h)
    ensures Steady(s, t, h)
  {
    hide Indexed, FlightOk;
    assert fl.grantId in Private(fl);
    if fl.issued.refreshToken.Some? { assert fl.issued.refreshToken.value in Private(fl); }
  }

  lemma OtherRotationSteady(s: State, t: State, h: Holder, f: FlightId, fl: Flight, g: GrantId, successor: Secret)
    requires Committing(s, f, fl, g, successor) && Committed(s, t, f, fl, g, successor) && HistoryOk(s)
    requires LineKept(s, h) && g != h.grant && fl.token in s.past.grantOf && s.past.grantOf[fl.token] == g
    ensures Steady(s, t, h)
  {
    hide FlightOk, CopyOk, Entitled, Indexed, HistoryOk;
    TipIsOf(s, h);
    SuccessorIsNew(s, f, fl, g, successor);
  }

  lemma SuccessorIsNew(s: State, f: FlightId, fl: Flight, g: GrantId, successor: Secret)
    requires Committing(s, f, fl, g, successor) && HistoryOk(s)
    ensures successor !in s.past.grantOf && successor !in s.past.bodies
    ensures s.tables.refresh[fl.token].grantId == g
  {
    hide FlightOk, CopyOk, Indexed;
  }

  /** Any step but a rotation of the grant's own. */
  predicate RotatesOwn(s: State, g: GrantId, a: Action) {
    a.CommitRotation? && a.f in s.flights && s.flights[a.f].Sealed? && Of(s, s.flights[a.f].token, g)
  }

  lemma RotationSteady(s: State, h: Holder, f: FlightId)
    requires Inv(s) && LineKept(s, h) && Enabled(s, CommitRotation(f)) && !Of(s, s.flights[f].token, h.grant)
    ensures Steady(s, Next(s, CommitRotation(f)), h)
  {
    hide Next, RowsOk, LinesOk, PrivateOk, SealsOk, LocksOk, EndedOk, Indexed, LineKept, Steady, FlightOk, SupplyOk;
    assert FlightOk(s, s.flights[f]);
    RotationIsKnown(s, f);
    var g, successor := CommitShape(s, f);
    OtherRotationSteady(s, Next(s, CommitRotation(f)), h, f, s.flights[f], g, successor);
  }

  lemma RotationIsKnown(s: State, f: FlightId)
    requires HistoryOk(s) && Enabled(s, CommitRotation(f)) && FlightOk(s, s.flights[f])
    ensures s.flights[f].token in s.tables.refresh && s.flights[f].token in s.past.grantOf
    ensures s.past.grantOf[s.flights[f].token] == s.tables.refresh[s.flights[f].token].grantId
  {
  }

  lemma SteadyStep(s: State, h: Holder, a: Action)
    requires Inv(s) && LineKept(s, h) && FlightsKept(s, h) && Enabled(s, a) && !RotatesOwn(s, h.grant, a)
    ensures Steady(s, Next(s, a), h)
  {
    hide Next, RowsOk, LinesOk, PrivateOk, SealsOk, LocksOk, EndedOk, HistoryOk, SupplyOk, LineKept, Steady, FlightOk, Asked;
    match a
    case CommitRotation(f) => RotationSteady(s, h, f);
    case CommitRevoke(f) => RevokeSteady(s, h, f);
    case PruneAccess => PruneSteady(s, h, a);
    case FinishPrune(f) => PruneSteady(s, h, a);
    case CommitEstablish(f) => FoundSteady(s, h, f);
    case _ => StillSteady(s, h, a);
  }

  /* ------------------------------------------------------------ the requests */

  /** A request in the next state was launched by this step, or was one before, of the same token, begun when it was. */
  lemma RequestComesFrom(s: State, a: Action, f: FlightId)
    requires Enabled(s, a) && f in Next(s, a).flights && Pending(Next(s, a).flights[f])
    ensures var y := Next(s, a).flights[f];
            || (f == s.nextFlight && a.BeginRefresh? && y == Begun(a.token, a.req, s.now))
            || (f in s.flights && Pending(s.flights[f]) && y.token == s.flights[f].token && y.began == s.flights[f].began
                && (Undecided(y) ==> Undecided(s.flights[f])) && (y.Begun? ==> y == s.flights[f]))
  {
  }

  /** Between a token of the grant and the tip, nothing was used: the tip is unreplaced, and nothing of the grant is revoked. */
  lemma TipUnused(s: State, h: Holder, w: Secret)
    requires HistoryOk(s) && SealsOk(s) && LineKept(s, h) && BeforeTip(s, h.grant, w)
    ensures SeenUnused(s, w, s.tables)
  {
    hide BoxesInPlace, CopyOk;
    assert Tip(s, h.grant) in s.past.lines[h.grant];
  }

  lemma SnapshotKept(s: State, h: Holder, f: FlightId)
    requires Inv(s) && Kept(s, h) && Enabled(s, TakeSnapshot(f)) && f in Next(s, TakeSnapshot(f)).flights
    ensures Asked(Next(s, TakeSnapshot(f)), h, Next(s, TakeSnapshot(f)).flights[f])
  {
    hide RowsOk, LinesOk, PrivateOk, LocksOk, EndedOk, HistoryOk, SealsOk, FlightOk, Together, Settled, SeenUnused, LineKept;
    var fl := s.flights[f];
    assert Asked(s, h, fl);
    if Of(s, fl.token, h.grant) { TipUnused(s, h, fl.token); }
    SeenStill(s, Next(s, TakeSnapshot(f)), fl.token, s.tables);
  }

  lemma SeenStill(s: State, t: State, w: Secret, seen: Tables)
    requires t.tables == s.tables
    ensures SeenUnused(s, w, seen) == SeenUnused(t, w, seen)
  {
  }

  /**
   * The decision on a request for a live grant's token, from its own client and key: it
   * is theft exactly when the token was replaced and either its transaction began after
   * the grace window, or its snapshot saw the successor used.
   */
  lemma LockIsTheftIff(s: State, h: Holder, f: FlightId)
    requires Inv(s) && Lives(s, h) && Enabled(s, TakeLock(f)) && s.flights[f].req == RequestOf(h)
    requires s.flights[f].token in s.tables.refresh && s.tables.refresh[s.flights[f].token].grantId == h.grant
    ensures var t, fl, row := Next(s, TakeLock(f)), s.flights[f], s.tables.refresh[s.flights[f].token];
            (f in t.flights && t.flights[f].Revoking?) <==>
              row.replacedBy.Some? && (!WithinGrace(row, fl.began) || SuccessorUsed(fl.seen.refresh, row))
    ensures var t := Next(s, TakeLock(f));
            f in t.flights && t.flights[f].Revoking? ==>
              t.flights[f].theft == Some(s.flights[f].token) && t.flights[f].todo == [h.grant]
  {
    hide LinesOk, PrivateOk, LocksOk, EndedOk, SealsOk, SupplyOk, Indexed;
    assert FlightOk(s, s.flights[f]);
  }

  lemma LockKept(s: State, h: Holder, f: FlightId)
    requires Inv(s) && Kept(s, h) && Enabled(s, TakeLock(f)) && f in Next(s, TakeLock(f)).flights
    ensures var fl := Next(s, TakeLock(f)).flights[f]; Spares(Next(s, TakeLock(f)), h.grant, fl) && !Undecided(fl)
  {
    hide RowsOk, LinesOk, PrivateOk, LocksOk, EndedOk, HistoryOk, SealsOk, SupplyOk, FlightOk, Together, Settled;
    var fl := s.flights[f];
    assert Asked(s, h, fl);
    LockedRow(s, f);
    if Of(s, fl.token, h.grant) { LockIsTheftIff(s, h, f); }
  }

  lemma LockedRow(s: State, f: FlightId)
    requires HistoryOk(s) && Enabled(s, TakeLock(f))
    ensures s.flights[f].token in s.tables.refresh ==>
      s.flights[f].token in s.past.grantOf && s.past.grantOf[s.flights[f].token] == s.tables.refresh[s.flights[f].token].grantId
  {
    hide Indexed;
  }

  lemma StatementKept(s: State, h: Holder, f: FlightId)
    requires HistoryOk(s) && Enabled(s, RevokeStatement(f)) && Spares(s, h.grant, s.flights[f])
    ensures Spares(Next(s, RevokeStatement(f)), h.grant, Next(s, RevokeStatement(f)).flights[f])
  {
    hide Indexed;
    assert s.flights[f].todo[0] in s.flights[f].todo;
  }

  /** Every other way a flight moves or is launched leaves nothing to check. */
  lemma OtherMoves(s: State, h: Holder, a: Action, f: FlightId)
    requires Enabled(s, a) && Foreign(s, h.grant, a) && f in Next(s, a).flights
    requires !a.TakeSnapshot? && !a.TakeLock? && !a.RevokeStatement?
    requires f !in s.flights || Next(s, a).flights[f] != s.flights[f]
    requires forall w :: Of(Next(s, a), w, h.grant) <==> Of(s, w, h.grant)
    ensures Spares(Next(s, a), h.grant, Next(s, a).flights[f]) && Asked(Next(s, a), h, Next(s, a).flights[f])
  {
    hide Of, BeforeTip, InWindow, SeenUnused;
  }

  /** A statement moves only its own flight. */
  lemma MoverIs(s: State, a: Action, f: FlightId)
    requires Enabled(s, a) && (a.TakeSnapshot? || a.TakeLock? || a.RevokeStatement?) && f in Next(s, a).flights && f != a.f
    ensures f in s.flights && Next(s, a).flights[f] == s.flights[f]
  {
  }

  lemma MarksKnown(s: State, t: State, fl: Flight, g: GrantId)
    requires Spares(s, g, fl) && fl.Revoking?
    requires forall r :: r in s.past.grantOf ==> r in t.past.grantOf && t.past.grantOf[r] == s.past.grantOf[r]
    ensures forall r :: r in fl.marked ==> r in t.past.grantOf && t.past.grantOf[r] == s.past.grantOf[r]
  {
  }

  lemma FlightStep(s: State, h: Holder, a: Action, f: FlightId)
    requires Inv(s) && Kept(s, h) && Enabled(s, a) && Foreign(s, h.grant, a) && Steady(s, Next(s, a), h) && f in Next(s, a).flights
    requires forall r :: r in s.past.grantOf ==> r in Next(s, a).past.grantOf && Next(s, a).past.grantOf[r] == s.past.grantOf[r]
    ensures Spares(Next(s, a), h.grant, Next(s, a).flights[f]) && Asked(Next(s, a), h, Next(s, a).flights[f])
  {
    hide Next, Enabled, RowsOk, LinesOk, PrivateOk, LocksOk, EndedOk, HistoryOk, SealsOk, SupplyOk, FlightOk;
    hide Together, Settled, Asked, Spares, LineKept;
    var t := Next(s, a);
    if f in s.flights && t.flights[f] == s.flights[f] {
      if s.flights[f].Revoking? { MarksKnown(s, t, s.flights[f], h.grant); }
      SteadyFlight(s, t, h, s.flights[f]);
    } else {
      MovedFlight(s, h, a, f);
    }
  }

  lemma MovedFlight(s: State, h: Holder, a: Action, f: FlightId)
    requires Inv(s) && Kept(s, h) && Enabled(s, a) && Foreign(s, h.grant, a) && Steady(s, Next(s, a), h) && f in Next(s, a).flights
    requires f !in s.flights || Next(s, a).flights[f] != s.flights[f]
    ensures Spares(Next(s, a), h.grant, Next(s, a).flights[f]) && Asked(Next(s, a), h, Next(s, a).flights[f])
  {
    hide Next, RowsOk, LinesOk, PrivateOk, LocksOk, EndedOk, HistoryOk, SealsOk, SupplyOk, FlightOk;
    hide Together, Settled, LineKept, BeforeTip, InWindow, SeenUnused, Of;
    if a.TakeSnapshot? || a.TakeLock? || a.RevokeStatement? {
      if f != a.f { MoverIs(s, a, f); }
      MovedKind(s, a);
      if a.TakeSnapshot? {
        SnapshotKept(s, h, f);
      } else if a.TakeLock? {
        LockKept(s, h, f);
      } else {
        StatementKept(s, h, f);
      }
    } else {
      OtherMoves(s, h, a, f);
    }
  }

  lemma MovedKind(s: State, a: Action)
    requires Enabled(s, a) && (a.TakeSnapshot? || a.TakeLock? || a.RevokeStatement?) && a.f in Next(s, a).flights
    ensures a.TakeSnapshot? ==> Next(s, a).flights[a.f].Waiting?
    ensures a.TakeLock? ==> !Undecided(Next(s, a).flights[a.f])
    ensures a.RevokeStatement? ==> Next(s, a).flights[a.f].Revoking?
  {
  }

  lemma TipIsOf(s: State, h: Holder)
    requires HistoryOk(s) && LineKept(s, h)
    ensures Of(s, Tip(s, h.grant), h.grant)
  {
    assert Tip(s, h.grant) in s.past.lines[h.grant];
  }

  lemma TogetherStep(s: State, h: Holder, a: Action)
    requires Together(s, h.grant) && Settled(s, h.grant) && Of(s, Tip(s, h.grant), h.grant)
    requires Enabled(s, a) && Foreign(s, h.grant, a) && Steady(s, Next(s, a), h)
    ensures Together(Next(s, a), h.grant) && Settled(Next(s, a), h.grant)
  {
    var t := Next(s, a);
    forall f | f in t.flights && Pending(t.flights[f]) { RequestComesFrom(s, a, f); }
    hide Next, Enabled;
  }

  lemma TheftStep(s: State, h: Holder, a: Action)
    requires NoTheftOf(s, h.grant) && FlightsKept(s, h) && Enabled(s, a)
    requires forall w :: Of(Next(s, a), w, h.grant) ==> Of(s, w, h.grant) || (RotatesOwn(s, h.grant, a) && w !in s.past.grantOf)
    requires EndedOk(s) && SupplyOk(s)
    ensures NoTheftOf(Next(s, a), h.grant)
  {
    var t := Next(s, a);
    forall f | f in t.past.ended && t.past.ended[f].TheftFound? ensures !Of(t, t.past.ended[f].token, h.grant) {
      TheftComesFrom(s, a, f);
      if f in s.past.ended && s.past.ended[f] == t.past.ended[f] {
        assert s.past.ended[f].token in s.past.grantOf;
      } else {
        assert Spares(s, h.grant, s.flights[f]);
      }
    }
    hide Next, Enabled;
  }

  lemma TheftComesFrom(s: State, a: Action, f: FlightId)
    requires Enabled(s, a) && f in Next(s, a).past.ended && Next(s, a).past.ended[f].TheftFound?
    ensures (f in s.past.ended && s.past.ended[f] == Next(s, a).past.ended[f])
         || (a == CommitRevoke(f) && s.flights[f].theft == Some(Next(s, a).past.ended[f].token))
  {
  }

  lemma GrantOfGrows(s: State, a: Action)
    requires Inv(s) && Enabled(s, a)
    ensures forall r :: r in s.past.grantOf ==> r in Next(s, a).past.grantOf && Next(s, a).past.grantOf[r] == s.past.grantOf[r]
  {
    hide Inv, Next, Enabled;
    forall r | r in s.past.grantOf { T.StepKeepsGrantOf(s, a, r); }
  }

  /** Whatever anybody else does, and the app's own requests short of a rotation, the grant is kept. */
  lemma ForeignStep(s: State, h: Holder, a: Action)
    requires Inv(s) && Kept(s, h) && Enabled(s, a) && Foreign(s, h.grant, a) && !RotatesOwn(s, h.grant, a)
    ensures Kept(Next(s, a), h) && Steady(s, Next(s, a), h)
  {
    hide Next, Enabled, RowsOk, LinesOk, PrivateOk, LocksOk, HistoryOk, SealsOk, FlightOk, LineKept, Spares, Asked, Together, Settled;
    var t := Next(s, a);
    SteadyStep(s, h, a);
    GrantOfGrows(s, a);
    assert LineKept(t, h) by { SteadyLine(s, t, h); }
    forall f | f in t.flights ensures Spares(t, h.grant, t.flights[f]) && Asked(t, h, t.flights[f]) { FlightStep(s, h, a, f); }
    TipIsOf(s, h);
    TogetherStep(s, h, a);
    TheftStep(s, h, a);
  }

  /* ---------------------------------------------------- the grant's rotation */

  /** What a rotation of the grant's own comes to: the tip is exchanged for a token nobody has heard of. */
  ghost predicate TipMoved(s: State, t: State, h: Holder, f: FlightId) {
    var g := h.grant;
    && f in s.flights && s.flights[f].Sealed? && s.flights[f].token == Tip(s, g)
    && Lives(t, h) && Line(t, g) == Line(s, g) + [Tip(t, g)] && s.past.born <= t.past.born && s.now == t.now
    && Tip(t, g) !in s.past.born && Tip(t, g) !in t.past.bodies
    && t.past.bodies == s.past.bodies[Tip(s, g) := s.flights[f].issued] && s.flights[f].issued.refreshToken == Some(Tip(t, g))
    && (forall w :: Of(t, w, g) <==> Of(s, w, g) || w == Tip(t, g))
    && t.past.grantOf == s.past.grantOf[Tip(t, g) := g] && t.past.ended == s.past.ended
    && f in t.flights && t.flights[f].Rotated? && t.flights == s.flights[f := t.flights[f]]
    && Tip(s, g) in s.tables.refresh && Tip(s, g) in t.tables.refresh
    && t.tables.refresh[Tip(s, g)] ==
         s.tables.refresh[Tip(s, g)].(replacedBy := Some(Tip(t, g)), replacedAt := Some(s.flights[f].began))
    && Tip(t, g) in t.tables.refresh && t.tables.refresh[Tip(t, g)].revokedAt.None?
    && (forall r :: r != Tip(s, g) && r != Tip(t, g) ==>
          (r in t.tables.refresh <==> r in s.tables.refresh) && (r in s.tables.refresh ==> t.tables.refresh[r] == s.tables.refresh[r]))
  }

  lemma RotatesTheTip(s: State, h: Holder, f: FlightId)
    requires HistoryOk(s) && LinesOk(s) && LineKept(s, h) && Enabled(s, CommitRotation(f)) && FlightOk(s, s.flights[f])
    requires Of(s, s.flights[f].token, h.grant)
    ensures s.flights[f].token == Tip(s, h.grant)
  {
    hide CopyOk;
    UnreplacedIsLast(s.past.lines[h.grant], s.tables.refresh, s.flights[f].token);
  }

  lemma CommittedTip(s: State, t: State, h: Holder, f: FlightId, fl: Flight, successor: Secret)
    requires Committing(s, f, fl, h.grant, successor) && Committed(s, t, f, fl, h.grant, successor) && HistoryOk(s)
    requires SupplyOk(s) && LineKept(s, h) && fl.token == Tip(s, h.grant)
    ensures TipMoved(s, t, h, f) && Tip(t, h.grant) == successor
  {
    hide FlightOk, Indexed, RowsKept;
    assert Line(t, h.grant) == Line(s, h.grant) + [successor];
  }

  lemma RotationMovesTip(s: State, h: Holder, f: FlightId)
    requires Inv(s) && LineKept(s, h) && Enabled(s, CommitRotation(f)) && Of(s, s.flights[f].token, h.grant)
    ensures TipMoved(s, Next(s, CommitRotation(f)), h, f)
  {
    hide Next, RowsOk, LinesOk, PrivateOk, SealsOk, LocksOk, EndedOk, Indexed, LineKept, FlightOk, SupplyOk, TipMoved;
    assert FlightOk(s, s.flights[f]);
    RotationIsKnown(s, f);
    RotatesTheTip(s, h, f);
    var g, successor := CommitShape(s, f);
    RotationGrant(s, f, g, successor);
    CommittedTip(s, Next(s, CommitRotation(f)), h, f, s.flights[f], successor);
  }

  lemma RotationGrant(s: State, f: FlightId, g: GrantId, successor: Secret)
    requires f in s.flights && Committing(s, f, s.flights[f], g, successor)
    ensures s.flights[f].token in s.tables.refresh && s.tables.refresh[s.flights[f].token].grantId == g
  {
    hide FlightOk;
  }

  /** No request is for a token still private to a rotation. */
  lemma NobodyAsksForIt(s: State, f: FlightId, k: FlightId)
    requires SupplyOk(s) && Enabled(s, CommitRotation(f)) && FlightOk(s, s.flights[f]) && s.flights[f].issued.refreshToken.Some?
    requires k in s.flights && FlightOk(s, s.flights[k]) && Pending(s.flights[k])
    ensures s.flights[k].token != s.flights[f].issued.refreshToken.value
  {
    assert s.flights[f].issued.refreshToken.value in Private(s.flights[f]);
  }

  lemma RotatedFlight(s: State, t: State, h: Holder, f: FlightId, k: FlightId)
    requires TipMoved(s, t, h, f) && Together(s, h.grant) && Settled(s, h.grant) && MayRotate(s, s.flights[f]) && k in s.flights && k != f
    requires Spares(s, h.grant, s.flights[k]) && Asked(s, h, s.flights[k])
    requires Pending(s.flights[k]) ==> s.flights[k].token != Tip(t, h.grant)
    requires s.flights[k].Revoking? && s.flights[k].theft.Some? ==> s.flights[k].theft.value in s.past.grantOf
    requires s.past.grantOf.Keys <= s.past.born
    ensures Spares(t, h.grant, s.flights[k]) && Asked(t, h, s.flights[k])
  {
    var fl := s.flights[k];
    if Undecided(fl) && Of(s, fl.token, h.grant) && fl.token == Tip(s, h.grant) {
      assert fl.began < s.flights[f].began + REFRESH_GRACE;
    }
  }

  lemma RotatedLine(s: State, t: State, h: Holder, f: FlightId)
    requires TipMoved(s, t, h, f) && LineKept(s, h)
    ensures LineKept(t, h)
  {
    hide Of;
  }

  lemma RotatedTogether(s: State, t: State, h: Holder, f: FlightId)
    requires TipMoved(s, t, h, f) && Together(s, h.grant)
    requires forall k :: k in s.flights && Pending(s.flights[k]) ==> s.flights[k].token != Tip(t, h.grant)
    ensures Together(t, h.grant) && Settled(t, h.grant)
  {
    hide Lives;
  }

  lemma RotatedTheft(s: State, t: State, h: Holder, f: FlightId)
    requires TipMoved(s, t, h, f) && NoTheftOf(s, h.grant) && EndedOk(s) && s.past.grantOf.Keys <= s.past.born
    ensures NoTheftOf(t, h.grant)
  {
  }

  /** Its own rotation keeps the grant too: every request still to be decided was in time for it. */
  lemma RotationKept(s: State, h: Holder, f: FlightId)
    requires Inv(s) && Kept(s, h) && Enabled(s, CommitRotation(f)) && Of(s, s.flights[f].token, h.grant)
    ensures Kept(Next(s, CommitRotation(f)), h) && TipMoved(s, Next(s, CommitRotation(f)), h, f)
    ensures forall k :: k in s.flights && Pending(s.flights[k]) ==> s.flights[k].token != Tip(Next(s, CommitRotation(f)), h.grant)
  {
    hide Next, RowsOk, LinesOk, PrivateOk, SealsOk, LocksOk, EndedOk, Indexed, LineKept, FlightOk, SupplyOk;
    hide TipMoved, Spares, Asked, Together, Settled, NoTheftOf;
    var t := Next(s, CommitRotation(f));
    RotationMovesTip(s, h, f);
    MovedTipIs(s, t, h, f);
    assert FlightOk(s, s.flights[f]);
    forall k | k in s.flights && Pending(s.flights[k]) ensures s.flights[k].token != Tip(t, h.grant) {
      assert FlightOk(s, s.flights[k]);
      NobodyAsksForIt(s, f, k);
    }
    RotatedLine(s, t, h, f);
    RotatedTogether(s, t, h, f);
    RotatedTheft(s, t, h, f);
    forall k | k in t.flights ensures Spares(t, h.grant, t.flights[k]) && Asked(t, h, t.flights[k]) {
      if k == f {
        RotatedIsDone(t, h, t.flights[f]);
      } else {
        assert FlightOk(s, s.flights[k]);
        TheftKnown(s, k);
        SealedMayRotate(s, f);
        RotatedFlight(s, t, h, f, k);
      }
    }
  }

  lemma MovedTipIs(s: State, t: State, h: Holder, f: FlightId)
    requires TipMoved(s, t, h, f)
    ensures f in s.flights && s.flights[f].Sealed? && s.flights[f].issued.refreshToken == Some(Tip(t, h.grant))
    ensures f in t.flights && t.flights[f].Rotated? && t.flights == s.flights[f := t.flights[f]]
  {
  }

  lemma SealedMayRotate(s: State, f: FlightId)
    requires f in s.flights && FlightOk(s, s.flights[f]) && (s.flights[f].Chosen? || s.flights[f].Minted? || s.flights[f].Sealed?)
    ensures MayRotate(s, s.flights[f]) && s.tables.refresh[s.flights[f].token].replacedBy.None?
  {
  }

  lemma TheftKnown(s: State, k: FlightId)
    requires k in s.flights && FlightOk(s, s.flights[k])
    ensures s.flights[k].Revoking? && s.flights[k].theft.Some? ==> s.flights[k].theft.value in s.past.grantOf
  {
  }

  lemma RotatedIsDone(t: State, h: Holder, fl: Flight)
    requires fl.Rotated?
    ensures Spares(t, h.grant, fl) && Asked(t, h, fl)
  {
  }

  /* ---------------------------------------------------------- a new request */

  /**
   * The rule for presenting a token: not after the grace window of its replacement, nor
   * of a request that may yet replace it; and, for a token not exchanged yet, not while a
   * request for an older one still has its snapshot to take.
   */
  ghost predicate Ruled(s: State, g: GrantId, x: Secret) {
    x in s.tables.refresh ==>
      && InWindow(s, x, s.now)
      && (x !in s.past.bodies ==>
            && (forall f :: f in s.flights && MayRotate(s, s.flights[f]) && s.flights[f].token == x ==>
                  s.now < s.flights[f].began + REFRESH_GRACE)
            && (s.now < s.tables.refresh[x].expiresAt ==>
                  forall k :: k in s.flights && Unseen(s, g, s.flights[k]) ==> s.flights[k].token == x))
  }

  ghost predicate NobodyAsks(s: State, x: Secret) {
    forall f :: f in s.flights && Pending(s.flights[f]) ==> s.flights[f].token != x
  }

  lemma CanPresent(s: State, h: Holder, x: Secret, req: Request)
    requires SupplyOk(s) && HistoryOk(s) && PrivateOk(s) && Of(s, x, h.grant)
    ensures Enabled(s, BeginRefresh(x, req))
  {
    hide Indexed;
  }

  lemma BegunEarlier(s: State, k: FlightId)
    requires k in s.flights && FlightOk(s, s.flights[k]) && Undecided(s.flights[k])
    ensures s.flights[k].began <= s.now
  {
  }

  /** A request made by the rule keeps the grant. */
  lemma PresentKept(s: State, h: Holder, x: Secret)
    requires Inv(s) && Kept(s, h) && Of(s, x, h.grant) && BeforeTip(s, h.grant, x) && Ruled(s, h.grant, x)
    requires x == Tip(s, h.grant) || NobodyAsks(s, Tip(s, h.grant))
    ensures Kept(Launch(s, Begun(x, RequestOf(h), s.now)), h)
  {
    hide Inv, LineKept, NoTheftOf, Spares, Together, Settled;
    var n := Begun(x, RequestOf(h), s.now);
    var t := Launch(s, n);
    assert LineKept(t, h) && NoTheftOf(t, h.grant) by { LaunchedLine(s, h, n); }
    forall f | f in t.flights ensures Spares(t, h.grant, t.flights[f]) && Asked(t, h, t.flights[f]) {
      if f != s.nextFlight {
        LaunchedSpares(s, h, n, s.flights[f]);
      } else {
        LaunchedSpares(s, h, n, n);
      }
    }
    LaunchedTogether(s, h, x);
  }

  lemma LaunchedLine(s: State, h: Holder, n: Flight)
    requires LineKept(s, h) && NoTheftOf(s, h.grant)
    ensures LineKept(Launch(s, n), h) && NoTheftOf(Launch(s, n), h.grant)
  {
  }

  lemma LaunchedSpares(s: State, h: Holder, n: Flight, fl: Flight)
    ensures Spares(s, h.grant, fl) || !fl.Revoking? ==> Spares(Launch(s, n), h.grant, fl)
    ensures Asked(s, h, fl) == Asked(Launch(s, n), h, fl)
  {
  }

  lemma LaunchedTogether(s: State, h: Holder, x: Secret)
    requires Inv(s) && Together(s, h.grant) && Settled(s, h.grant) && Ruled(s, h.grant, x) && LineKept(s, h) && Of(s, x, h.grant)
    requires x == Tip(s, h.grant) || NobodyAsks(s, Tip(s, h.grant))
    ensures var t := Launch(s, Begun(x, RequestOf(h), s.now)); Together(t, h.grant) && Settled(t, h.grant)
  {
    hide RowsOk, LinesOk, PrivateOk, LocksOk, EndedOk, HistoryOk, SealsOk, SupplyOk, FlightOk, InWindow;
    hide Lives, RowsKept;
    forall k | k in s.flights && Undecided(s.flights[k]) ensures s.flights[k].began <= s.now {
      assert FlightOk(s, s.flights[k]);
      BegunEarlier(s, k);
    }
  }

  /* ------------------------------------------------------------ a sign-in */

  const SCOPES: seq<string> := ["devices:read", "devices:control", "devices:create"]

  /** The server after one sign-in from its start: grant 0, access token 1, refresh token 2. */
  function AfterSignIn(jkt: string): State {
    var grant := Grant("account", CLIENT_ID, API_RESOURCE, SCOPES, Some(jkt), None);
    State(
      0,
      Tables(map[0 := grant], map[1 := AccessRow(0, API_RESOURCE, SCOPES, Some(jkt), NATIVE_ACCESS_TTL_SECONDS * SECOND)],
             map[2 := RefreshRow(0, API_RESOURCE, SCOPES, None, None, None, REFRESH_TTL)]),
      map[], 3, map[], 1,
      History({0, 1, 2}, map[0 := [2]], map[2 := 0], map[], map[]))
  }

  lemma SignInReached(jkt: string)
    ensures Reachable(AfterSignIn(jkt))
  {
    hide Runs, Next, AfterSignIn, DuringSignIn;
    var s := State(0, Tables(map[], map[], map[]), map[], 0, map[], 0, History({}, map[], map[], map[], map[]));
    RunNothing(s);
    var so, t := RunAlso(s, [], s, BeginEstablish("account", CLIENT_ID, API_RESOURCE, SCOPES, Some(jkt), true));
    EstablishingIs(s, t, jkt);
    so, t := RunAlso(s, so, t, CommitEstablish(0));
    EstablishedIs(jkt);
    assert Start(s) && Reaches(s, t);
  }

  /** The sign-in's transaction under way. */
  function DuringSignIn(jkt: string): State {
    var grant := Grant("account", CLIENT_ID, API_RESOURCE, SCOPES, Some(jkt), None);
    State(
      0, Tables(map[], map[], map[]), map[], 3,
      map[0 := Establishing(0, 0, grant, MakeIssued(1, Some(2), API_RESOURCE, SCOPES, Some(jkt)))], 1,
      History({}, map[], map[], map[], map[]))
  }

  lemma EstablishingIs(s: State, t: State, jkt: string)
    requires s == State(0, Tables(map[], map[], map[]), map[], 0, map[], 0, History({}, map[], map[], map[], map[]))
    requires t == Next(s, BeginEstablish("account", CLIENT_ID, API_RESOURCE, SCOPES, Some(jkt), true))
    ensures t == DuringSignIn(jkt) && Enabled(t, CommitEstablish(0))
  {
  }

  lemma EstablishedIs(jkt: string)
    requires Enabled(DuringSignIn(jkt), CommitEstablish(0))
    ensures Next(DuringSignIn(jkt), CommitEstablish(0)) == AfterSignIn(jkt)
  {
    var t := Next(DuringSignIn(jkt), CommitEstablish(0));
    assert t.flights == map[] && t.past.born == {0, 1, 2};
    assert t.tables == AfterSignIn(jkt).tables;
  }

}
