/** The actions that change the tables keep the invariant too. */
module RefreshCommits {
  import opened Basics
  import opened OAuthTables
  import opened SealedStore
  import opened RefreshMachine
  import opened RefreshInvariant
  import opened RefreshSteps

  /* -------------------------------------------------------- lines, by value */

  lemma IndexedExtends(lines: map<GrantId, seq<Secret>>, grantOf: map<Secret, GrantId>, g: GrantId, successor: Secret)
    requires Indexed(lines, grantOf) && g in lines && successor !in grantOf
    ensures Indexed(lines[g := lines[g] + [successor]], grantOf[successor := g])
  {
    assert successor !in lines[g];
  }

  lemma IndexedStarts(lines: map<GrantId, seq<Secret>>, grantOf: map<Secret, GrantId>, g: GrantId)
    requires Indexed(lines, grantOf) && g !in lines
    ensures Indexed(lines[g := []], grantOf)
    ensures forall r :: r !in grantOf ==> Indexed(lines[g := [r]], grantOf[r := g])
  {
  }

  /** A row at an index of its line, where nothing replaced it, is the last of the line. */
  lemma UnreplacedIsLast(line: seq<Secret>, refresh: map<Secret, RefreshRow>, token: Secret)
    requires LineOk(line, refresh) && token in line && token in refresh && refresh[token].replacedBy.None?
    ensures line[|line| - 1] == token
  {
    var k :| 0 <= k < |line| && line[k] == token;
    assert Linked(line, refresh, k);
  }

  /** Retiring the last token in favour of a fresh one lengthens the line by one. */
  lemma LineExtends(
    line: seq<Secret>, was: map<Secret, RefreshRow>, now: map<Secret, RefreshRow>, token: Secret, successor: Secret)
    requires LineOk(line, was) && NoDuplicates(line) && token in line && token in was && was[token].replacedBy.None?
    requires successor !in line && successor in now && now[successor].replacedBy.None? && successor != token
    requires was[token].expiresAt <= now[successor].expiresAt && Covers(was[token].scope, now[successor].scope)
    requires token in now && SameRow(was[token], now[token]) && now[token].replacedBy == Some(successor)
    requires forall r :: r in line && r != token ==> (r in now <==> r in was) && (r in now ==> now[r] == was[r])
    ensures LineOk(line + [successor], now)
  {
    UnreplacedIsLast(line, was, token);
    forall i | 0 <= i < |line| + 1 ensures Linked(line + [successor], now, i) {
      if i < |line| { assert Linked(line, was, i); }
    }
  }

  /** A line is as it was when its rows are, up to the revocation mark. */
  lemma LineStays(line: seq<Secret>, was: map<Secret, RefreshRow>, now: map<Secret, RefreshRow>)
    requires LineOk(line, was)
    requires forall r :: r in line ==> (r in now <==> r in was)
    requires forall r :: r in line && r in now ==> SameRow(was[r], now[r]) && now[r].replacedBy == was[r].replacedBy
    ensures LineOk(line, now)
  {
    forall i | 0 <= i < |line| ensures Linked(line, now, i) { assert Linked(line, was, i); }
  }

  /** Deleting a prefix leaves the rest linked. */
  lemma LinePruned(line: seq<Secret>, refresh: map<Secret, RefreshRow>, doomed: set<Secret>)
    requires LineOk(line, refresh) && TakesPrefix(line, refresh, doomed)
    ensures LineOk(line, refresh - doomed)
  {
    forall i | 0 <= i < |line| ensures Linked(line, refresh - doomed, i) { assert Linked(line, refresh, i); }
  }

  /* ------------------------------------------------------- rotation commits */

  /** A rotation about to commit. */
  ghost predicate Committing(s: State, f: FlightId, fl: Flight, g: GrantId, successor: Secret) {
    && f in s.flights && s.flights[f] == fl && fl.Sealed?
    && fl.token in s.tables.refresh && fl.token in s.past.born && fl.token !in s.past.bodies
    && g in s.tables.grants && g in s.past.lines
    && fl.issued.refreshToken == Some(successor) && fl.issued.accessToken != successor
    && successor !in s.past.born && fl.issued.accessToken !in s.past.born
    && successor < s.next && fl.issued.accessToken < s.next
    && fl.began <= s.now
    && var row := s.tables.refresh[fl.token];
       && row.grantId == g && row.replacedBy.None? && row.audience == s.tables.grants[g].resource
       && row.expiresAt <= fl.began + REFRESH_TTL
       && Covers(row.scope, fl.issued.scope)
       && Entitled(s, g, fl.req)
       && CopyOk(s, Key(fl.req.clientId, fl.token), fl.issued, fl.began + REFRESH_GRACE)
  }

  function Successor(s: State, fl: Flight, g: GrantId): RefreshRow
    requires fl.Sealed? && g in s.tables.grants
  {
    RefreshRow(g, s.tables.grants[g].resource, fl.issued.scope, None, None, None, fl.began + REFRESH_TTL)
  }

  /** What COMMIT makes of the state. */
  ghost predicate Committed(s: State, t: State, f: FlightId, fl: Flight, g: GrantId, successor: Secret)
    requires Committing(s, f, fl, g, successor)
  {
    && t == s.(tables := t.tables, past := t.past, flights := s.flights[f := Rotated(fl.token, fl.req, fl.issued)])
    && t.tables.grants == s.tables.grants
    && t.tables.access == s.tables.access[fl.issued.accessToken :=
         AccessRow(g, s.tables.grants[g].resource, fl.issued.scope, s.tables.grants[g].dpopJkt,
                   fl.began + fl.issued.expiresIn * SECOND)]
    && t.tables.refresh == s.tables.refresh[successor := Successor(s, fl, g)][fl.token :=
         s.tables.refresh[fl.token].(replacedBy := Some(successor), replacedAt := Some(fl.began))]
    && t.past == s.past.(
         born := s.past.born + SecretsOf(fl.issued), lines := s.past.lines[g := s.past.lines[g] + [successor]],
         grantOf := s.past.grantOf[successor := g], bodies := s.past.bodies[fl.token := fl.issued])
  }

  lemma CommitShape(s: State, f: FlightId) returns (g: GrantId, successor: Secret)
    requires SupplyOk(s) && RowsOk(s) && s.past.lines.Keys == s.tables.grants.Keys && PrivateOk(s)
    requires Enabled(s, CommitRotation(f)) && FlightOk(s, s.flights[f])
    ensures Committing(s, f, s.flights[f], g, successor)
    ensures Committed(s, Next(s, CommitRotation(f)), f, s.flights[f], g, successor)
  {
    var fl := s.flights[f];
    g := s.tables.refresh[fl.token].grantId;
    successor := fl.issued.refreshToken.value;
    assert successor in Private(s.flights[f]) && fl.issued.accessToken in Private(s.flights[f]);
  }

  lemma CommitRows(s: State, t: State, f: FlightId, fl: Flight, g: GrantId, successor: Secret)
    requires Committing(s, f, fl, g, successor) && Committed(s, t, f, fl, g, successor)
    requires SupplyOk(s) && RowsOk(s)
    ensures SupplyOk(t) && RowsOk(t)
  {
  }

  lemma CommitHistory(s: State, t: State, f: FlightId, fl: Flight, g: GrantId, successor: Secret)
    requires Committing(s, f, fl, g, successor) && Committed(s, t, f, fl, g, successor)
    requires HistoryOk(s)
    ensures HistoryOk(t)
  {
    hide FlightOk, RowsOk;
    IndexedExtends(s.past.lines, s.past.grantOf, g, successor);
    hide Indexed;
  }

  lemma CommitLines(s: State, t: State, f: FlightId, fl: Flight, g: GrantId, successor: Secret)
    requires Committing(s, f, fl, g, successor) && Committed(s, t, f, fl, g, successor)
    requires HistoryOk(s) && LinesOk(s)
    ensures LinesOk(t)
  {
    assert successor !in s.past.grantOf;
    LineExtends(s.past.lines[g], s.tables.refresh, t.tables.refresh, fl.token, successor);
    forall h | h in s.past.lines && h != g ensures LineOk(s.past.lines[h], t.tables.refresh) {
      assert fl.token !in s.past.lines[h] && successor !in s.past.lines[h];
      LineStays(s.past.lines[h], s.tables.refresh, t.tables.refresh);
    }
  }

  lemma CommitSeals(s: State, t: State, f: FlightId, fl: Flight, g: GrantId, successor: Secret)
    requires Committing(s, f, fl, g, successor) && Committed(s, t, f, fl, g, successor)
    requires s.past.grantOf.Keys <= s.past.born && s.past.bodies.Keys <= s.past.grantOf.Keys
    requires fl.token in s.past.grantOf && s.past.grantOf[fl.token] == g
    requires SealsOk(s)
    ensures SealsOk(t)
  {
    assert successor !in s.past.bodies && successor !in s.past.grantOf;
    forall key | key in t.sealed && key.token == fl.token ensures key.clientId == fl.req.clientId {
    }
  }

  lemma CommitPrivate(s: State, t: State, f: FlightId, fl: Flight, g: GrantId, successor: Secret)
    requires Committing(s, f, fl, g, successor) && Committed(s, t, f, fl, g, successor)
    requires PrivateOk(s)
    ensures PrivateOk(t)
  {
    forall h, x {:trigger x in Private(t.flights[h])} | h in t.flights && x in Private(t.flights[h])
      ensures h != f && x in Private(s.flights[h]) && x !in Private(s.flights[f])
    {
    }
  }

  lemma CommitGrows(s: State, t: State, f: FlightId, fl: Flight, g: GrantId, successor: Secret)
    requires Committing(s, f, fl, g, successor) && Committed(s, t, f, fl, g, successor)
    requires s.past.grantOf.Keys <= s.past.born && s.tables.refresh.Keys <= s.past.born
    ensures Grows(s, t)
  {
    assert successor !in s.past.grantOf && successor !in s.tables.refresh;
  }

  lemma CommitUndisturbed(s: State, t: State, f: FlightId, fl: Flight, g: GrantId, successor: Secret, h: FlightId)
    requires Committing(s, f, fl, g, successor) && Committed(s, t, f, fl, g, successor)
    requires h in s.flights && h != f && FlightOk(s, s.flights[h]) && LocksOk(s)
    requires s.past.grantOf.Keys <= s.past.born
    ensures Undisturbed(s, t, s.flights[h])
  {
    hide Undisturbed, FlightOk, LocksOk;
    if s.flights[h].Pruning? {
      CommitSparesPruning(s, t, f, fl, g, successor, h);
    } else {
      CommitSparesRequest(s, t, f, fl, g, successor, h);
    }
  }

  lemma CommitSparesPruning(s: State, t: State, f: FlightId, fl: Flight, g: GrantId, successor: Secret, h: FlightId)
    requires Committing(s, f, fl, g, successor) && Committed(s, t, f, fl, g, successor)
    requires h in s.flights && h != f && FlightOk(s, s.flights[h]) && s.flights[h].Pruning?
    requires s.past.grantOf.Keys <= s.past.born
    ensures Undisturbed(s, t, s.flights[h])
  {
  }

  lemma CommitSparesRequest(s: State, t: State, f: FlightId, fl: Flight, g: GrantId, successor: Secret, h: FlightId)
    requires Committing(s, f, fl, g, successor) && Committed(s, t, f, fl, g, successor)
    requires h in s.flights && h != f && FlightOk(s, s.flights[h]) && !s.flights[h].Pruning? && LocksOk(s)
    ensures Undisturbed(s, t, s.flights[h])
  {
    hide NoLinkInto, SeenOk, TakesPrefix, MintedOk, StillHeld, Unpublished, PresentedOk, HoldingOk;
    assert Held(fl) == Some(fl.token);
    var other := s.flights[h];
    if other.Begun? || other.Waiting? || other.Chosen? || other.Minted? || other.Sealed? {
      CommitUnpublished(s, t, f, fl, g, successor, other.token, other.began);
      if !other.Begun? && !other.Waiting? {
        assert Held(other) != Some(fl.token);
        CommitStillHeld(s, t, f, fl, g, successor, other);
      }
    }
  }

  lemma CommitUnpublished(s: State, t: State, f: FlightId, fl: Flight, g: GrantId, successor: Secret, token: Secret, began: Time)
    requires Committing(s, f, fl, g, successor) && Committed(s, t, f, fl, g, successor) && PresentedOk(s, token, began)
    ensures Unpublished(s, t, token) && token != successor
  {
    assert successor in Private(s.flights[f]);
  }

  lemma CommitStillHeld(s: State, t: State, f: FlightId, fl: Flight, g: GrantId, successor: Secret, other: Flight)
    requires Committing(s, f, fl, g, successor) && Committed(s, t, f, fl, g, successor)
    requires other.Chosen? || other.Minted? || other.Sealed?
    requires HoldingOk(s, other.token, other.req, other.began, if other.Chosen? then other.scope else other.issued.scope)
    requires other.token != fl.token && other.token != successor
    ensures StillHeld(s, t, other.token)
  {
  }

  lemma CommitFlight(s: State, t: State, f: FlightId, fl: Flight, g: GrantId, successor: Secret, h: FlightId)
    requires Committing(s, f, fl, g, successor) && Committed(s, t, f, fl, g, successor)
    requires h in s.flights && h != f && FlightOk(s, s.flights[h]) && LocksOk(s)
    requires HistoryOk(s) && HistoryOk(t) && s.tables.refresh.Keys <= s.past.born
    ensures FlightOk(t, s.flights[h])
  {
    CommitGrows(s, t, f, fl, g, successor);
    CommitUndisturbed(s, t, f, fl, g, successor, h);
    FlightStays(s, t, s.flights[h]);
  }

  lemma CommitEnded(s: State, t: State, f: FlightId, fl: Flight, g: GrantId, successor: Secret)
    requires Committing(s, f, fl, g, successor) && Committed(s, t, f, fl, g, successor)
    requires EndedOk(s) && s.past.grantOf.Keys <= s.past.born
    ensures EndedOk(t)
  {
    assert successor !in s.past.grantOf;
  }

  lemma CommitOwnFlight(s: State, t: State, f: FlightId, fl: Flight, g: GrantId, successor: Secret)
    requires Committing(s, f, fl, g, successor) && Committed(s, t, f, fl, g, successor)
    requires fl.token in s.past.grantOf && s.past.grantOf[fl.token] == g
    ensures FlightOk(t, t.flights[f])
  {
  }

  lemma CommitOwnGrant(s: State, f: FlightId, fl: Flight, g: GrantId, successor: Secret)
    requires Committing(s, f, fl, g, successor) && HistoryOk(s)
    ensures f in s.flights && fl.token in s.past.grantOf && s.past.grantOf[fl.token] == g
  {
    hide FlightOk, Indexed;
  }

  lemma CommitMovesOwn(s: State, t: State, f: FlightId, fl: Flight, g: GrantId, successor: Secret)
    requires Committing(s, f, fl, g, successor) && Committed(s, t, f, fl, g, successor)
    ensures forall h :: h in t.flights && h != f ==> h in s.flights && t.flights[h] == s.flights[h]
  {
  }

  lemma CommitFlights(s: State, t: State, f: FlightId, fl: Flight, g: GrantId, successor: Secret)
    requires Committing(s, f, fl, g, successor) && Committed(s, t, f, fl, g, successor)
    requires FlightsOk(s) && LocksOk(s) && HistoryOk(s) && HistoryOk(t) && s.tables.refresh.Keys <= s.past.born
    ensures FlightsOk(t)
  {
    hide FlightOk, HistoryOk, LocksOk, Committing, Committed;
    CommitOwnGrant(s, f, fl, g, successor);
    CommitOwnFlight(s, t, f, fl, g, successor);
    CommitMovesOwn(s, t, f, fl, g, successor);
    forall h | h in t.flights && h != f ensures FlightOk(t, t.flights[h]) {
      CommitFlight(s, t, f, fl, g, successor, h);
    }
  }

  lemma CommitAll(s: State, t: State, f: FlightId, fl: Flight, g: GrantId, successor: Secret)
    requires Committing(s, f, fl, g, successor) && Committed(s, t, f, fl, g, successor) && Inv(s)
    ensures Inv(t)
  {
    hide RowsOk, LinesOk, FlightsOk, PrivateOk, SealsOk, EndedOk, Indexed;
    CommitRows(s, t, f, fl, g, successor);
    CommitHistory(s, t, f, fl, g, successor);
    CommitLines(s, t, f, fl, g, successor);
    CommitSeals(s, t, f, fl, g, successor);
    CommitPrivate(s, t, f, fl, g, successor);
    CommitEnded(s, t, f, fl, g, successor);
    CommitFlights(s, t, f, fl, g, successor);
    LocksStay(s, t, f);
  }

  lemma CommitRotationHolds(s: State, f: FlightId)
    requires Inv(s) && Enabled(s, CommitRotation(f))
    ensures Inv(Next(s, CommitRotation(f)))
  {
    assert FlightOk(s, s.flights[f]);
    var g, successor := CommitShape(s, f);
    CommitAll(s, Next(s, CommitRotation(f)), f, s.flights[f], g, successor);
  }

  /* ----------------------------------------------------- revocation commits */

  /** What a revocation's COMMIT leaves: every row, with some marks added. */
  ghost predicate MarksAdded(s: State, t: State) {
    && t.tables.grants.Keys == s.tables.grants.Keys && t.tables.refresh.Keys == s.tables.refresh.Keys
    && (forall g :: g in t.tables.grants ==>
          && t.tables.grants[g] == s.tables.grants[g].(revokedAt := t.tables.grants[g].revokedAt)
          && (Revoked(s.tables, g) ==> Revoked(t.tables, g)))
    && (forall r :: r in t.tables.refresh ==>
          t.tables.refresh[r] == s.tables.refresh[r].(revokedAt := t.tables.refresh[r].revokedAt))
    && (forall a :: a in t.tables.access ==> a in s.tables.access && t.tables.access[a] == s.tables.access[a])
    && t.past == s.past.(ended := t.past.ended)
    && t == s.(tables := t.tables, past := t.past, flights := t.flights)
    && (forall h :: h in t.flights && Held(t.flights[h]).Some? && Held(t.flights[h]).value in t.tables.refresh ==>
          t.tables.refresh[Held(t.flights[h]).value] == s.tables.refresh[Held(t.flights[h]).value])
  }

  lemma RevokeShape(s: State, f: FlightId)
    requires Enabled(s, CommitRevoke(f))
    ensures var t := Next(s, CommitRevoke(f)); MarksAdded(s, t) && t.flights == s.flights - {f}
  {
  }

  lemma MarkedTables(s: State, t: State)
    requires MarksAdded(s, t) && SupplyOk(s) && RowsOk(s) && t.flights.Keys <= s.flights.Keys
    requires forall f :: f in t.past.ended ==> f < t.nextFlight
    ensures SupplyOk(t) && RowsOk(t)
  {
  }

  lemma MarkedLines(s: State, t: State)
    requires MarksAdded(s, t) && HistoryOk(s) && LinesOk(s)
    ensures HistoryOk(t) && LinesOk(t)
  {
    forall g | g in t.past.lines ensures LineOk(t.past.lines[g], t.tables.refresh) {
      LineStays(s.past.lines[g], s.tables.refresh, t.tables.refresh);
    }
  }

  lemma MarkedSeals(s: State, t: State)
    requires MarksAdded(s, t) && SealsOk(s)
    ensures SealsOk(t)
  {
  }

  lemma MarkedGrows(s: State, t: State)
    requires MarksAdded(s, t)
    ensures Grows(s, t)
  {
  }

  lemma MarkedUndisturbed(s: State, t: State, f: FlightId, fl: Flight)
    requires MarksAdded(s, t) && OnlyMoves(s, t, f) && f !in t.flights && FlightOk(s, fl)
    requires exists h :: h in t.flights && t.flights[h] == fl
    ensures Undisturbed(s, t, fl)
  {
    hide FlightOk, Undisturbed;
    if fl.Pruning? { MarkedPruning(s, t, fl); } else { MarkedRequest(s, t, f, fl); }
  }

  lemma MarkedPruning(s: State, t: State, fl: Flight)
    requires MarksAdded(s, t) && fl.Pruning? && FlightOk(s, fl)
    ensures Undisturbed(s, t, fl)
  {
  }

  lemma MarkedRequest(s: State, t: State, f: FlightId, fl: Flight)
    requires MarksAdded(s, t) && OnlyMoves(s, t, f) && f !in t.flights && FlightOk(s, fl) && !fl.Pruning?
    requires exists h :: h in t.flights && t.flights[h] == fl
    ensures Undisturbed(s, t, fl)
  {
    hide NoLinkInto, SeenOk, TakesPrefix, MintedOk;
  }

  lemma MarkedFlight(s: State, t: State, f: FlightId, fl: Flight)
    requires MarksAdded(s, t) && OnlyMoves(s, t, f) && f !in t.flights && FlightOk(s, fl) && HistoryOk(s)
    requires exists h :: h in t.flights && t.flights[h] == fl
    ensures FlightOk(t, fl)
  {
    hide MarksAdded, FlightOk;
    MarkedGrows(s, t);
    MarkedUndisturbed(s, t, f, fl);
    assert t.past.lines == s.past.lines by { MarkedSameLines(s, t); }
    FlightStays(s, t, fl);
  }

  lemma MarkedSameLines(s: State, t: State)
    requires MarksAdded(s, t)
    ensures t.past.lines == s.past.lines
  {
  }

  lemma MarkedFlights(s: State, t: State, f: FlightId)
    requires MarksAdded(s, t) && OnlyMoves(s, t, f) && f !in t.flights && FlightsOk(s) && HistoryOk(s)
    ensures FlightsOk(t)
  {
    forall h | h in t.flights ensures FlightOk(t, t.flights[h]) {
      assert FlightOk(s, s.flights[h]);
      MarkedFlight(s, t, f, s.flights[h]);
    }
  }

  /** A theft's transaction leaves the grant revoked, whoever revoked it first. */
  lemma RevokeEnded(s: State, f: FlightId)
    requires SupplyOk(s) && EndedOk(s) && Enabled(s, CommitRevoke(f)) && FlightOk(s, s.flights[f])
    ensures var t := Next(s, CommitRevoke(f));
            EndedOk(t) && forall h :: h in t.past.ended ==> h < t.nextFlight
  {
  }

  lemma CommitRevokeHolds(s: State, f: FlightId)
    requires Inv(s) && Enabled(s, CommitRevoke(f))
    ensures Inv(Next(s, CommitRevoke(f)))
  {
    var t := Next(s, CommitRevoke(f));
    assert FlightOk(s, s.flights[f]);
    RevokeShape(s, f);
    RevokeEnded(s, f);
    hide RowsOk, HistoryOk, LinesOk, FlightsOk, PrivateOk, SealsOk, EndedOk, Next;
    MarkedTables(s, t);
    MarkedLines(s, t);
    MarkedSeals(s, t);
    MarkedFlights(s, t, f);
    PrivateStays(s, t, f);
    LocksStay(s, t, f);
  }

  /* ---------------------------------------------------------------- pruning */

  lemma PruneAccessHolds(s: State)
    requires Inv(s)
    ensures Inv(Next(s, PruneAccess))
  {
    var t := Next(s, PruneAccess);
    PruneAccessShape(s);
    hide RowsOk, HistoryOk, LinesOk, FlightsOk, PrivateOk, SealsOk, EndedOk, Next, MarksAdded;
    MarkedTables(s, t);
    MarkedLines(s, t);
    MarkedSeals(s, t);
    MarkedFlights(s, t, s.nextFlight);
    PrivateStays(s, t, s.nextFlight);
    LocksStay(s, t, s.nextFlight);
    PruneAccessEnded(s);
  }

  lemma PruneAccessShape(s: State)
    ensures var t := Next(s, PruneAccess);
            MarksAdded(s, t) && t.flights == s.flights && t.past == s.past && t.next == s.next && t.nextFlight == s.nextFlight
  {
  }

  lemma PruneAccessEnded(s: State)
    requires EndedOk(s)
    ensures EndedOk(Next(s, PruneAccess))
  {
  }

  ghost predicate Pruned(s: State, t: State, f: FlightId, doomed: set<Secret>) {
    && f in s.flights && s.flights[f] == Pruning(doomed) && Unlocked(s, f, doomed)
    && t == s.(tables := s.tables.(refresh := s.tables.refresh - doomed), flights := s.flights - {f})
  }

  lemma PrunedTables(s: State, t: State, f: FlightId, doomed: set<Secret>)
    requires Pruned(s, t, f, doomed) && SupplyOk(s) && RowsOk(s) && SealsOk(s) && EndedOk(s)
    ensures SupplyOk(t) && RowsOk(t) && SealsOk(t) && EndedOk(t)
  {
  }

  lemma PrunedLines(s: State, t: State, f: FlightId, doomed: set<Secret>)
    requires Pruned(s, t, f, doomed) && HistoryOk(s) && LinesOk(s) && FlightOk(s, s.flights[f])
    ensures HistoryOk(t) && LinesOk(t)
  {
    forall g | g in t.past.lines ensures LineOk(t.past.lines[g], t.tables.refresh) {
      LinePruned(s.past.lines[g], s.tables.refresh, doomed);
    }
  }

  lemma PrunedFlight(s: State, t: State, f: FlightId, doomed: set<Secret>, h: FlightId)
    requires Pruned(s, t, f, doomed) && HistoryOk(s) && h in s.flights && h != f && FlightOk(s, s.flights[h])
    ensures FlightOk(t, s.flights[h])
  {
    var fl := s.flights[h];
    PrunedGrows(s, t, f, doomed);
    PrunedUndisturbed(s, t, f, doomed, h);
    hide FlightOk, Grows, Undisturbed, Indexed;
    assert forall g :: g in t.past.lines ==> NoDuplicates(t.past.lines[g]) by { assert Indexed(s.past.lines, s.past.grantOf); PrunedNames(s); }
    FlightStays(s, t, fl);
  }

  lemma PrunedNames(s: State)
    requires Indexed(s.past.lines, s.past.grantOf)
    ensures forall g :: g in s.past.lines ==> NoDuplicates(s.past.lines[g])
  {
  }

  lemma PrunedGrows(s: State, t: State, f: FlightId, doomed: set<Secret>)
    requires Pruned(s, t, f, doomed)
    ensures Grows(s, t)
  {
  }

  lemma PrunedUndisturbed(s: State, t: State, f: FlightId, doomed: set<Secret>, h: FlightId)
    requires Pruned(s, t, f, doomed) && h in s.flights && h != f && FlightOk(s, s.flights[h])
    ensures Undisturbed(s, t, s.flights[h])
  {
    var fl := s.flights[h];
    assert Held(fl).None? || Held(fl).value !in doomed;
    match fl
    case Pruning(_) =>
    case _ =>
  }

  lemma FinishPruneHolds(s: State, f: FlightId)
    requires Inv(s) && Enabled(s, FinishPrune(f))
    ensures Inv(Next(s, FinishPrune(f)))
  {
    var t := Next(s, FinishPrune(f));
    var doomed := s.flights[f].doomed;
    assert Pruned(s, t, f, doomed) && FlightOk(s, s.flights[f]);
    assert FlightsOk(t) by {
      hide RowsOk, LinesOk, PrivateOk, SealsOk, EndedOk, SupplyOk, LocksOk;
      forall h | h in t.flights ensures FlightOk(t, t.flights[h]) { PrunedFlight(s, t, f, doomed, h); }
    }
    hide RowsOk, HistoryOk, LinesOk, FlightsOk, PrivateOk, SealsOk, EndedOk, Next;
    PrunedTables(s, t, f, doomed);
    PrunedLines(s, t, f, doomed);
    PrivateStays(s, t, f);
    LocksStay(s, t, f);
  }

  /* ------------------------------------------------------------ new grants */

  ghost predicate Founding(s: State, f: FlightId, fl: Flight) {
    && f in s.flights && s.flights[f] == fl && fl.Establishing? && FlightOk(s, fl)
    && (forall x :: x in Private(fl) ==> x < s.next && x !in s.past.born)
  }

  /** The grant row, its first tokens, and its line. */
  ghost predicate Founded(s: State, t: State, f: FlightId, fl: Flight)
    requires Founding(s, f, fl)
  {
    var g, issued := fl.grantId, fl.issued;
    var refresh := if issued.refreshToken.Some? then [issued.refreshToken.value] else [];
    && t == s.(tables := t.tables, past := t.past, flights := s.flights - {f})
    && t.tables.grants == s.tables.grants[g := fl.grant]
    && t.tables.access == s.tables.access[issued.accessToken :=
         AccessRow(g, fl.grant.resource, fl.grant.scope, fl.grant.dpopJkt, fl.began + issued.expiresIn * SECOND)]
    && t.tables.refresh == (if refresh == [] then s.tables.refresh else
         s.tables.refresh[refresh[0] := RefreshRow(g, fl.grant.resource, fl.grant.scope, None, None, None, fl.began + REFRESH_TTL)])
    && t.past == s.past.(
         born := s.past.born + {g} + SecretsOf(issued), lines := s.past.lines[g := refresh],
         grantOf := if refresh == [] then s.past.grantOf else s.past.grantOf[refresh[0] := g])
  }

  lemma FoundingShape(s: State, f: FlightId)
    requires PrivateOk(s) && Enabled(s, CommitEstablish(f)) && FlightOk(s, s.flights[f])
    ensures Founding(s, f, s.flights[f]) && Founded(s, Next(s, CommitEstablish(f)), f, s.flights[f])
  {
    var fl := s.flights[f];
    forall x | x in Private(fl) ensures x < s.next && x !in s.past.born {
      assert x in Private(s.flights[f]);
    }
  }

  lemma FoundedTables(s: State, t: State, f: FlightId, fl: Flight)
    requires Founding(s, f, fl) && Founded(s, t, f, fl) && SupplyOk(s) && RowsOk(s)
    ensures SupplyOk(t) && RowsOk(t)
  {
    assert fl.grantId in Private(fl) && fl.issued.accessToken in Private(fl);
  }

  lemma FoundedHistory(s: State, t: State, f: FlightId, fl: Flight)
    requires Founding(s, f, fl) && Founded(s, t, f, fl) && SupplyOk(s) && HistoryOk(s)
    ensures HistoryOk(t)
  {
    hide FlightOk, Indexed;
    assert fl.grantId in Private(fl) && fl.grantId !in s.past.lines;
    IndexedStarts(s.past.lines, s.past.grantOf, fl.grantId);
    if fl.issued.refreshToken.Some? {
      assert fl.issued.refreshToken.value in Private(fl);
      assert fl.issued.refreshToken.value !in s.past.grantOf;
    }
  }

  lemma FoundedLines(s: State, t: State, f: FlightId, fl: Flight)
    requires Founding(s, f, fl) && Founded(s, t, f, fl) && SupplyOk(s) && HistoryOk(s) && LinesOk(s)
    ensures LinesOk(t)
  {
    hide FlightOk;
    if fl.issued.refreshToken.Some? { assert fl.issued.refreshToken.value in Private(fl); }
    forall h | h in s.past.lines ensures LineOk(s.past.lines[h], t.tables.refresh) {
      assert forall r :: r in s.past.lines[h] ==> r in s.past.born;
      LineStays(s.past.lines[h], s.tables.refresh, t.tables.refresh);
    }
  }

  lemma FoundedSeals(s: State, t: State, f: FlightId, fl: Flight)
    requires Founding(s, f, fl) && Founded(s, t, f, fl) && SupplyOk(s) && SealsOk(s) && EndedOk(s)
    requires s.past.grantOf.Keys <= s.past.born && s.past.bodies.Keys <= s.past.grantOf.Keys
    ensures SealsOk(t) && EndedOk(t)
  {
    hide SealsOk, EndedOk, CopyOk;
    FoundedCopies(s, t, f, fl);
    FoundedEnded(s, t, f, fl);
  }

  lemma FoundedEnded(s: State, t: State, f: FlightId, fl: Flight)
    requires Founding(s, f, fl) && Founded(s, t, f, fl) && SupplyOk(s) && EndedOk(s)
    requires s.past.grantOf.Keys <= s.past.born && s.past.bodies.Keys <= s.past.grantOf.Keys
    ensures EndedOk(t)
  {
    hide FlightOk;
    assert fl.grantId in Private(fl) && fl.grantId !in s.tables.grants;
    if fl.issued.refreshToken.Some? { assert fl.issued.refreshToken.value in Private(fl); }
  }

  lemma FoundedCopies(s: State, t: State, f: FlightId, fl: Flight)
    requires Founding(s, f, fl) && Founded(s, t, f, fl) && SupplyOk(s) && SealsOk(s)
    requires s.past.grantOf.Keys <= s.past.born && s.past.bodies.Keys <= s.past.grantOf.Keys
    ensures SealsOk(t)
  {
    hide FlightOk, CopyOk, BoxesInPlace;
    forall key, body, until | CopyOk(s, key, body, until) ensures CopyOk(t, key, body, until) { CopyStill(s, t, key, body, until); }
    assert fl.grantId in Private(fl) && fl.grantId !in s.tables.grants;
    if fl.issued.refreshToken.Some? { assert fl.issued.refreshToken.value in Private(fl); }
  }

  lemma CopyStill(s: State, t: State, key: Key, body: Issued, until: Time)
    requires CopyOk(s, key, body, until) && t.sealed == s.sealed && t.now == s.now
    ensures CopyOk(t, key, body, until)
  {
  }

  /** The grant and its refresh token are new to everybody. */
  lemma FoundedAreNew(s: State, f: FlightId, fl: Flight)
    requires Founding(s, f, fl) && SupplyOk(s) && HistoryOk(s)
    ensures fl.grantId !in s.tables.grants && fl.grantId !in s.past.lines
    ensures fl.issued.refreshToken.Some? ==>
      fl.issued.refreshToken.value !in s.tables.refresh && fl.issued.refreshToken.value !in s.past.grantOf
  {
    hide FlightOk, Indexed;
    assert fl.grantId in Private(fl);
    if fl.issued.refreshToken.Some? { assert fl.issued.refreshToken.value in Private(fl); }
  }

  lemma FoundedGrows(s: State, t: State, f: FlightId, fl: Flight)
    requires Founding(s, f, fl) && Founded(s, t, f, fl) && SupplyOk(s) && HistoryOk(s)
    ensures Grows(s, t)
  {
    hide FlightOk, SupplyOk, HistoryOk;
    FoundedAreNew(s, f, fl);
  }

  lemma FoundedUndisturbed(s: State, t: State, f: FlightId, fl: Flight, h: FlightId)
    requires Founding(s, f, fl) && Founded(s, t, f, fl) && h in s.flights && h != f && FlightOk(s, s.flights[h])
    requires s.past.grantOf.Keys <= s.past.born
    ensures Undisturbed(s, t, s.flights[h])
  {
    if fl.issued.refreshToken.Some? { assert fl.issued.refreshToken.value in Private(s.flights[f]); }
    match s.flights[h]
    case Pruning(_) =>
    case _ =>
  }

  lemma FoundedFlight(s: State, t: State, f: FlightId, fl: Flight, h: FlightId)
    requires Founding(s, f, fl) && Founded(s, t, f, fl) && h in s.flights && h != f && FlightOk(s, s.flights[h])
    requires SupplyOk(s) && HistoryOk(s) && HistoryOk(t)
    ensures FlightOk(t, s.flights[h])
  {
    hide FlightOk, Founded, Founding;
    FoundedGrows(s, t, f, fl);
    FoundedUndisturbed(s, t, f, fl, h);
    FlightStays(s, t, s.flights[h]);
  }

  lemma FoundedPrivate(s: State, t: State, f: FlightId, fl: Flight)
    requires Founding(s, f, fl) && Founded(s, t, f, fl) && PrivateOk(s)
    ensures PrivateOk(t)
  {
    forall h, x {:trigger x in Private(t.flights[h])} | h in t.flights && x in Private(t.flights[h])
      ensures h != f && x in Private(s.flights[h]) && x !in Private(s.flights[f])
    {
    }
  }

  lemma CommitEstablishHolds(s: State, f: FlightId)
    requires Inv(s) && Enabled(s, CommitEstablish(f))
    ensures Inv(Next(s, CommitEstablish(f)))
  {
    var t := Next(s, CommitEstablish(f));
    var fl := s.flights[f];
    assert FlightOk(s, s.flights[f]);
    FoundingShape(s, f);
    hide RowsOk, LinesOk, PrivateOk, SealsOk, EndedOk, Next, Indexed;
    FoundedTables(s, t, f, fl);
    FoundedHistory(s, t, f, fl);
    FoundedLines(s, t, f, fl);
    FoundedSeals(s, t, f, fl);
    FoundedPrivate(s, t, f, fl);
    LocksStay(s, t, f);
    forall h | h in t.flights ensures FlightOk(t, t.flights[h]) { FoundedFlight(s, t, f, fl, h); }
  }
}
