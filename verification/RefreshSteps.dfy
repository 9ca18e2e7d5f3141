/**
 * Every action of the refresh machine keeps the invariant.
 *
 * Rely and guarantee: `Grows` is what any action does to the shared state, and
 * `Undisturbed` what one flight relies on from the actions of the others.
 */
module RefreshSteps {
  import opened Basics
  import opened OAuthTables
  import opened SealedStore
  import opened RefreshMachine
  import opened RefreshInvariant

  ghost predicate SameRow(a: RefreshRow, b: RefreshRow) {
    && a.grantId == b.grantId && a.audience == b.audience && a.scope == b.scope && a.expiresAt == b.expiresAt
  }

  /** Ids keep their meaning, revocation is never undone, and histories only lengthen. */
  ghost predicate Grows(s: State, t: State) {
    && s.now <= t.now && s.next <= t.next && s.nextFlight <= t.nextFlight
    && s.past.born <= t.past.born
    && (forall r :: r in s.past.grantOf ==> r in t.past.grantOf && t.past.grantOf[r] == s.past.grantOf[r])
    && (forall r :: r in s.past.bodies ==> r in t.past.bodies && t.past.bodies[r] == s.past.bodies[r])
    && (forall g :: g in s.past.lines ==> g in t.past.lines && s.past.lines[g] <= t.past.lines[g])
    && (forall g :: g in s.tables.grants ==>
          && g in t.tables.grants
          && t.tables.grants[g] == s.tables.grants[g].(revokedAt := t.tables.grants[g].revokedAt)
          && (Revoked(s.tables, g) ==> Revoked(t.tables, g)))
    && (forall r :: r in s.tables.refresh && r in t.tables.refresh ==> SameRow(s.tables.refresh[r], t.tables.refresh[r]))
  }

  ghost predicate Unpublished(s: State, t: State, token: Secret) {
    && (token in t.tables.refresh ==> token in s.tables.refresh)
    && (forall h :: h in t.flights ==> token !in Private(t.flights[h]))
  }

  ghost predicate StillHeld(s: State, t: State, token: Secret) {
    && token in s.tables.refresh && token in t.tables.refresh
    && t.tables.refresh[token].replacedBy == s.tables.refresh[token].replacedBy
    && t.tables.refresh[token].revokedAt == s.tables.refresh[token].revokedAt
    && token !in t.past.bodies
  }

  ghost predicate CopyKept(s: State, t: State, key: Key) {
    && (key in t.sealed ==> key in s.sealed && t.sealed[key] == s.sealed[key])
    && (key in s.sealed && s.sealed[key].expiresAt > t.now ==> key in t.sealed)
  }

  /** No link enters a line that ends in a doomed token. */
  ghost predicate NoLinkInto(s: State, t: State, doomed: set<Secret>) {
    && (forall r :: r in t.tables.refresh && r !in s.tables.refresh ==> r !in s.past.grantOf)
    && (forall g, r :: g in t.past.lines && r in t.past.lines[g] && r in doomed ==> g in s.past.lines && r in s.past.lines[g])
  }

  ghost predicate Undisturbed(s: State, t: State, fl: Flight) {
    match fl
    case Begun(token, _, _) => Unpublished(s, t, token)
    case Waiting(token, _, _, _) => Unpublished(s, t, token)
    case Chosen(token, _, _, _) => Unpublished(s, t, token) && StillHeld(s, t, token)
    case Minted(token, _, _, _) => Unpublished(s, t, token) && StillHeld(s, t, token)
    case Sealed(token, req, _, _) =>
      && Unpublished(s, t, token) && StillHeld(s, t, token)
      && CopyKept(s, t, Key(req.clientId, token))
    case Pruning(doomed) => NoLinkInto(s, t, doomed)
    case _ => true
  }

  lemma PrefixStays(s: State, t: State, doomed: set<Secret>, g: GrantId)
    requires HistoryOk(s) && Grows(s, t) && NoLinkInto(s, t, doomed) && g in t.past.lines
    requires NoDuplicates(t.past.lines[g])
    requires g in s.past.lines ==> TakesPrefix(s.past.lines[g], s.tables.refresh, doomed)
    ensures TakesPrefix(t.past.lines[g], t.tables.refresh, doomed)
  {
    var line := t.past.lines[g];
    forall i | 0 <= i < |line| - 1 && line[i] in t.tables.refresh && line[i + 1] in doomed ensures line[i] in doomed {
      var was := s.past.lines[g];
      assert line[i + 1] in was && was <= line;
      var k :| 0 <= k < |was| && was[k] == line[i + 1];
      assert k == i + 1;
      assert was[i] == line[i] && line[i] in s.past.grantOf;
    }
  }

  lemma FlightStays(s: State, t: State, fl: Flight)
    requires FlightOk(s, fl) && Grows(s, t) && Undisturbed(s, t, fl)
    requires fl.Pruning? ==> HistoryOk(s) && forall g :: g in t.past.lines ==> NoDuplicates(t.past.lines[g])
    ensures FlightOk(t, fl)
  {
    match fl
    case Waiting(_, _, _, seen) =>
      assert SeenOk(t, seen);
    case Pruning(doomed) =>
      forall g | g in t.past.lines ensures TakesPrefix(t.past.lines[g], t.tables.refresh, doomed) {
        PrefixStays(s, t, doomed, g);
      }
    case _ =>
  }

  /** Every flight but f goes on as it was. */
  ghost predicate OnlyMoves(s: State, t: State, f: FlightId) {
    forall h :: h in t.flights && h != f ==> h in s.flights && t.flights[h] == s.flights[h]
  }

  /** A secret private to a flight was private to it before, or is newly minted by f. */
  ghost predicate MintsFresh(s: State, t: State, f: FlightId) {
    && OnlyMoves(s, t, f)
    && (f in t.flights ==> forall x :: x in Private(t.flights[f]) ==>
          s.next <= x < t.next || (f in s.flights && x in Private(s.flights[f])))
  }

  lemma PrivateStays(s: State, t: State, f: FlightId)
    requires PrivateOk(s) && SupplyOk(s) && MintsFresh(s, t, f) && t.past.born == s.past.born && s.next <= t.next
    ensures PrivateOk(t)
  {
    forall h, k, x | h in t.flights && k in t.flights && x in Private(t.flights[h]) && x in Private(t.flights[k])
      ensures h == k
    {
      PrivateApart(s, t, f, h, k, x);
    }
  }

  lemma PrivateApart(s: State, t: State, f: FlightId, h: FlightId, k: FlightId, x: Secret)
    requires PrivateOk(s) && MintsFresh(s, t, f)
    requires h in t.flights && k in t.flights && x in Private(t.flights[h]) && x in Private(t.flights[k])
    ensures h == k
  {
    if h != f { assert x in Private(s.flights[h]); }
    if k != f { assert x in Private(s.flights[k]); }
  }

  lemma LocksStay(s: State, t: State, f: FlightId)
    requires LocksOk(s) && OnlyMoves(s, t, f)
    requires f in t.flights && Held(t.flights[f]).Some? ==> f in s.flights && Held(s.flights[f]) == Held(t.flights[f])
    ensures LocksOk(t)
  {
  }

  lemma QuietGrows(s: State, t: State)
    requires Quiet(s, t)
    ensures Grows(s, t)
  {
  }

  lemma QuietUndisturbed(s: State, t: State, f: FlightId, fl: Flight)
    requires Quiet(s, t) && FlightOk(s, fl) && MintsFresh(s, t, f)
    requires fl.Sealed? ==> CopyKept(s, t, Key(fl.req.clientId, fl.token))
    ensures Undisturbed(s, t, fl)
  {
    match fl
    case Pruning(doomed) =>
    case _ =>
  }

  lemma QuietFlights(s: State, t: State, f: FlightId)
    requires Quiet(s, t) && FlightsOk(s) && HistoryOk(s) && MintsFresh(s, t, f)
    requires forall h :: h in s.flights && h != f && s.flights[h].Sealed? ==>
      CopyKept(s, t, Key(s.flights[h].req.clientId, s.flights[h].token))
    requires f in t.flights ==> FlightOk(t, t.flights[f])
    ensures FlightsOk(t)
  {
    QuietGrows(s, t);
    forall h | h in t.flights ensures FlightOk(t, t.flights[h]) {
      if h != f {
        assert FlightOk(s, s.flights[h]);
        QuietUndisturbed(s, t, f, s.flights[h]);
        FlightStays(s, t, s.flights[h]);
      }
    }
  }

  lemma QuietSeals(s: State, t: State)
    requires Quiet(s, t) && SealsOk(s) && t.sealed == s.sealed
    ensures SealsOk(t)
  {
  }

  lemma QuietAssembled(s: State, t: State, f: FlightId)
    requires Inv(s) && Quiet(s, t) && MintsFresh(s, t, f) && t.sealed == s.sealed
    requires f in t.flights ==> FlightOk(t, t.flights[f])
    requires LocksOk(t) && EndedOk(t) && SupplyOk(t)
    ensures Inv(t)
  {
    PrivateStays(s, t, f);
    QuietFlights(s, t, f);
    QuietSeals(s, t);
    QuietKeepsTables(s, t);
  }

  lemma QuietHolds(s: State, t: State, f: FlightId)
    requires Inv(s) && Quiet(s, t) && MintsFresh(s, t, f) && t.sealed == s.sealed
    requires f in t.flights ==> FlightOk(t, t.flights[f])
    requires f in t.flights ==> f < t.nextFlight
    requires f in t.flights && Held(t.flights[f]).Some? ==> f in s.flights && Held(s.flights[f]) == Held(t.flights[f])
    requires EndedOk(t) && forall h :: h in t.past.ended ==> h < t.nextFlight
    ensures Inv(t)
  {
    LocksStay(s, t, f);
    QuietAssembled(s, t, f);
  }

  lemma TickHolds(s: State, elapsed: nat)
    requires Inv(s)
    ensures Inv(Next(s, Tick(elapsed)))
  {
    var t := Next(s, Tick(elapsed));
    PrivateStays(s, t, s.nextFlight);
    QuietFlights(s, t, s.nextFlight);
    QuietKeepsTables(s, t);
    QuietSeals(s, t);
  }

  lemma BeginRefreshHolds(s: State, token: Secret, req: Request)
    requires Inv(s) && Enabled(s, BeginRefresh(token, req))
    ensures Inv(Next(s, BeginRefresh(token, req)))
  {
    QuietHolds(s, Next(s, BeginRefresh(token, req)), s.nextFlight);
  }

  lemma TakeSnapshotHolds(s: State, f: FlightId)
    requires Inv(s) && Enabled(s, TakeSnapshot(f))
    ensures Inv(Next(s, TakeSnapshot(f)))
  {
    hide LinesOk, LocksOk, PrivateOk, SealsOk, Indexed;
    assert FlightOk(s, s.flights[f]);
    QuietHolds(s, Next(s, TakeSnapshot(f)), f);
  }

  /** Where the decision leads, the flight's own condition holds. */
  lemma LockedFlight(s: State, t: State, f: FlightId, fl: Flight)
    requires HistoryOk(s) && RowsOk(s) && SealsOk(s)
    requires fl.Waiting? && FlightOk(s, fl) && f in s.flights
    requires t == Locked(s, f, fl.token, fl.req, fl.began, fl.seen) && f in t.flights
    requires forall h :: h in s.flights && h != f ==> fl.token !in Private(s.flights[h])
    ensures FlightOk(t, t.flights[f])
  {
    hide Indexed;
    if t.flights[f].Chosen? {
      LockedRotation(s, t, f, fl);
    } else {
      hide RowsOk;
      LockedOther(s, t, f, fl);
    }
  }

  lemma LockedRotation(s: State, t: State, f: FlightId, fl: Flight)
    requires RowsOk(s) && SealsOk(s) && fl.Waiting? && FlightOk(s, fl) && f in s.flights
    requires t == Locked(s, f, fl.token, fl.req, fl.began, fl.seen) && f in t.flights && t.flights[f].Chosen?
    requires forall h :: h in s.flights && h != f ==> fl.token !in Private(s.flights[h])
    ensures FlightOk(t, t.flights[f])
  {
    hide CopyOk, BoxesInPlace;
    var scope := t.flights[f].scope;
    assert HoldingOk(t, fl.token, fl.req, fl.began, scope) by { hide PresentedOk; }
    assert PresentedOk(t, fl.token, fl.began) by { hide HoldingOk, SeenOk, RowsOk, SealsOk; }
  }

  lemma LockedOther(s: State, t: State, f: FlightId, fl: Flight)
    requires HistoryOk(s) && SealsOk(s) && fl.Waiting? && FlightOk(s, fl) && f in s.flights
    requires t == Locked(s, f, fl.token, fl.req, fl.began, fl.seen) && f in t.flights && !t.flights[f].Chosen?
    ensures FlightOk(t, t.flights[f])
  {
    hide CopyOk, BoxesInPlace, Indexed, PresentedOk;
  }

  lemma LockedShape(s: State, t: State, f: FlightId, fl: Flight)
    requires fl.Waiting? && f in s.flights && t == Locked(s, f, fl.token, fl.req, fl.began, fl.seen)
    ensures t == s.(flights := t.flights, past := s.past.(ended := t.past.ended))
    ensures f in t.flights ==>
      && t.flights == s.flights[f := t.flights[f]] && t.past.ended == s.past.ended
      && Private(t.flights[f]) == {} && Held(t.flights[f]) in {None, Some(fl.token)}
    ensures f !in t.flights ==> t.flights == s.flights - {f} && exists why :: t.past.ended == s.past.ended[f := Refused(fl.token, why)]
  {
  }

  lemma LocksTaken(s: State, t: State, f: FlightId, token: Secret)
    requires LocksOk(s) && Unlocked(s, f, {token}) && OnlyMoves(s, t, f)
    requires f in t.flights ==> Held(t.flights[f]) in {None, Some(token)}
    ensures LocksOk(t)
  {
    forall h | h in t.flights && h != f ensures Held(t.flights[h]) != Some(token) {
      assert h in s.flights && t.flights[h] == s.flights[h];
    }
  }

  lemma TakeLockHolds(s: State, f: FlightId)
    requires Inv(s) && Enabled(s, TakeLock(f))
    ensures Inv(Next(s, TakeLock(f)))
  {
    var t := Next(s, TakeLock(f));
    LockedShape(s, t, f, s.flights[f]);
    LocksTaken(s, t, f, s.flights[f].token);
    assert FlightOk(s, s.flights[f]);
    if f in t.flights { LockedFlight(s, t, f, s.flights[f]); }
    QuietAssembled(s, t, f);
  }

  lemma IssuedFlight(s: State, t: State, f: FlightId)
    requires PrivateOk(s) && Enabled(s, Issue(f)) && t == Next(s, Issue(f)) && FlightOk(s, s.flights[f])
    ensures f in t.flights && FlightOk(t, t.flights[f])
  {
  }

  lemma IssueHolds(s: State, f: FlightId)
    requires Inv(s) && Enabled(s, Issue(f))
    ensures Inv(Next(s, Issue(f)))
  {
    var t := Next(s, Issue(f));
    assert FlightOk(s, s.flights[f]);
    IssuedFlight(s, t, f);
    QuietHolds(s, t, f);
  }

  lemma AnswerHolds(s: State, f: FlightId)
    requires Inv(s) && Enabled(s, Answer(f))
    ensures Inv(Next(s, Answer(f)))
  {
    hide RowsOk, HistoryOk, LinesOk, LocksOk, PrivateOk, SealsOk;
    assert FlightOk(s, s.flights[f]);
    QuietHolds(s, Next(s, Answer(f)), f);
  }

  lemma LoseHolds(s: State, f: FlightId)
    requires Inv(s) && Enabled(s, Lose(f))
    ensures Inv(Next(s, Lose(f)))
  {
    QuietHolds(s, Next(s, Lose(f)), f);
  }

  lemma BeginRevokeHolds(s: State, grants: seq<GrantId>)
    requires Inv(s)
    ensures Inv(Next(s, BeginRevoke(grants)))
  {
    QuietHolds(s, Next(s, BeginRevoke(grants)), s.nextFlight);
  }

  lemma RevokeStatementHolds(s: State, f: FlightId)
    requires Inv(s) && Enabled(s, RevokeStatement(f))
    ensures Inv(Next(s, RevokeStatement(f)))
  {
    hide RowsOk, HistoryOk, LinesOk, LocksOk, PrivateOk, SealsOk;
    assert FlightOk(s, s.flights[f]);
    QuietHolds(s, Next(s, RevokeStatement(f)), f);
  }

  /** What has expired of a line is a prefix of what survives of it: a successor never expires first. */
  lemma ExpiredIsPrefix(line: seq<Secret>, tables: Tables, now: Time)
    requires LineOk(line, tables.refresh)
    ensures TakesPrefix(line, tables.refresh, ExpiredRefresh(tables, now))
  {
    forall i | 0 <= i < |line| && line[i] in tables.refresh && line[i] !in ExpiredRefresh(tables, now)
      ensures i + 1 == |line| || line[i + 1] !in ExpiredRefresh(tables, now)
    {
      assert Linked(line, tables.refresh, i);
    }
  }

  lemma BeginPruneHolds(s: State)
    requires Inv(s)
    ensures Inv(Next(s, BeginPrune))
  {
    var t := Next(s, BeginPrune);
    var doomed := ExpiredRefresh(s.tables, s.now);
    forall g | g in t.past.lines ensures TakesPrefix(t.past.lines[g], t.tables.refresh, doomed) {
      ExpiredIsPrefix(s.past.lines[g], s.tables, s.now);
    }
    assert FlightOk(t, Pruning(doomed));
    QuietHolds(s, t, s.nextFlight);
  }

  lemma BeginEstablishHolds(s: State, a: Action)
    requires Inv(s) && a.BeginEstablish?
    ensures Inv(Next(s, a))
  {
    QuietHolds(s, Next(s, a), s.nextFlight);
  }

  lemma SealHolds(s: State, f: FlightId)
    requires Inv(s) && Enabled(s, Seal(f))
    ensures Inv(Next(s, Seal(f)))
  {
    var t := Next(s, Seal(f));
    assert FlightOk(s, s.flights[f]);
    SealShape(s, t, f);
    SealCopies(s, t, f);
    assert s.flights[f].token in s.past.grantOf && s.past.grantOf[s.flights[f].token] == s.tables.refresh[s.flights[f].token].grantId by {
      hide RowsOk, LinesOk, PrivateOk, LocksOk, Indexed, SealsOk;
    }
    hide RowsOk, HistoryOk, LinesOk, PrivateOk, LocksOk, SealsOk, FlightOk, EndedOk, SupplyOk, CopyKept, Quiet;
    SealSeals(s, t, f);
    hide Next, Enabled;
    SealAssembled(s, t, f);
  }

  lemma SealAssembled(s: State, t: State, f: FlightId)
    requires Inv(s) && Quiet(s, t) && MintsFresh(s, t, f) && t.past == s.past && SealsOk(t)
    requires t.next == s.next && t.nextFlight == s.nextFlight && t.now == s.now
    requires f in s.flights && f in t.flights && Held(t.flights[f]) == Held(s.flights[f]) && t.flights.Keys == s.flights.Keys
    requires FlightOk(t, t.flights[f])
    requires forall h :: h in s.flights && h != f && s.flights[h].Sealed? ==>
      CopyKept(s, t, Key(s.flights[h].req.clientId, s.flights[h].token))
    ensures Inv(t)
  {
    hide FlightOk, RowsOk, HistoryOk, LinesOk, SealsOk, CopyKept, PrivateOk;
    PrivateStays(s, t, f);
    LocksStay(s, t, f);
    QuietFlights(s, t, f);
    QuietKeepsTables(s, t);
  }

  lemma SealShape(s: State, t: State, f: FlightId)
    requires Enabled(s, Seal(f)) && t == Next(s, Seal(f)) && FlightOk(s, s.flights[f])
    ensures Quiet(s, t) && MintsFresh(s, t, f) && t.past == s.past && t.next == s.next && t.nextFlight == s.nextFlight && t.now == s.now
    ensures f in t.flights && Held(t.flights[f]) == Held(s.flights[f]) && t.flights.Keys == s.flights.Keys
    ensures FlightOk(t, t.flights[f])
  {
  }

  /** Sealing one response leaves every other live copy as it was. */
  lemma SealCopies(s: State, t: State, f: FlightId)
    requires LocksOk(s) && Enabled(s, Seal(f)) && t == Next(s, Seal(f))
    ensures forall h :: h in s.flights && h != f && s.flights[h].Sealed? ==>
      CopyKept(s, t, Key(s.flights[h].req.clientId, s.flights[h].token))
  {
    assert Held(s.flights[f]) == Some(s.flights[f].token);
    forall h | h in s.flights && h != f && s.flights[h].Sealed?
      ensures CopyKept(s, t, Key(s.flights[h].req.clientId, s.flights[h].token))
    {
      assert Held(s.flights[h]) == Some(s.flights[h].token);
    }
  }

  lemma SealSeals(s: State, t: State, f: FlightId)
    requires SealsOk(s) && Enabled(s, Seal(f)) && t == Next(s, Seal(f)) && FlightOk(s, s.flights[f])
    requires s.flights[f].token in s.past.grantOf
    requires s.flights[f].token in s.tables.refresh ==>
      s.past.grantOf[s.flights[f].token] == s.tables.refresh[s.flights[f].token].grantId
    ensures SealsOk(t)
  {
    var fl := s.flights[f];
    assert t.sealed == SealIn(s.sealed, Key(fl.req.clientId, fl.token), fl.issued, REFRESH_GRACE, s.now);
  }

  lemma UnsealShape(s: State, t: State, f: FlightId)
    requires Enabled(s, Unseal(f)) && t == Next(s, Unseal(f))
    ensures t == s.(sealed := AfterUnseal(s.sealed, Key(s.flights[f].req.clientId, s.flights[f].token), s.now),
                    flights := s.flights - {f}, past := s.past.(ended := t.past.ended))
    ensures Quiet(s, t) && MintsFresh(s, t, f) && f !in t.flights
    ensures forall key :: CopyKept(s, t, key)
  {
  }

  lemma UnsealSeals(s: State, t: State, f: FlightId)
    requires SealsOk(s) && Enabled(s, Unseal(f)) && t == Next(s, Unseal(f))
    ensures SealsOk(t) && Quiet(s, t) && MintsFresh(s, t, f) && f !in t.flights
    ensures forall key :: CopyKept(s, t, key)
  {
    UnsealShape(s, t, f);
    hide Next, Enabled, MintsFresh, Quiet;
  }

  lemma UnsealEnded(s: State, t: State, f: FlightId)
    requires SealsOk(s) && EndedOk(s) && SupplyOk(s) && Enabled(s, Unseal(f)) && t == Next(s, Unseal(f))
    requires FlightOk(s, s.flights[f])
    ensures EndedOk(t) && SupplyOk(t)
  {
  }

  lemma UnsealHolds(s: State, f: FlightId)
    requires Inv(s) && Enabled(s, Unseal(f))
    ensures Inv(Next(s, Unseal(f)))
  {
    var t := Next(s, Unseal(f));
    assert FlightOk(s, s.flights[f]);
    UnsealSeals(s, t, f);
    UnsealEnded(s, t, f);
    PrivateStays(s, t, f);
    LocksStay(s, t, f);
    QuietFlights(s, t, f);
    QuietKeepsTables(s, t);
  }
}
