/** What holds of refresh tokens in every run, under every interleaving. */
module RefreshTheorems {
  import opened Basics
  import opened OAuthTables
  import opened SealedStore
  import opened RefreshMachine
  import opened RefreshInvariant
  import opened RefreshSteps
  import opened RefreshCommits

  lemma StepHolds(s: State, a: Action)
    requires Inv(s) && Enabled(s, a)
    ensures Inv(Next(s, a))
  {
    hide Inv, Next;
    match a
    case Tick(elapsed) => TickHolds(s, elapsed);
    case BeginRefresh(token, req) => BeginRefreshHolds(s, token, req);
    case TakeSnapshot(f) => TakeSnapshotHolds(s, f);
    case TakeLock(f) => TakeLockHolds(s, f);
    case Issue(f) => IssueHolds(s, f);
    case Seal(f) => SealHolds(s, f);
    case CommitRotation(f) => CommitRotationHolds(s, f);
    case Answer(f) => AnswerHolds(s, f);
    case Unseal(f) => UnsealHolds(s, f);
    case Lose(f) => LoseHolds(s, f);
    case BeginRevoke(grants) => BeginRevokeHolds(s, grants);
    case RevokeStatement(f) => RevokeStatementHolds(s, f);
    case CommitRevoke(f) => CommitRevokeHolds(s, f);
    case PruneAccess => PruneAccessHolds(s);
    case BeginPrune => BeginPruneHolds(s);
    case FinishPrune(f) => FinishPruneHolds(s, f);
    case BeginEstablish(_, _, _, _, _, _) => BeginEstablishHolds(s, a);
    case CommitEstablish(f) => CommitEstablishHolds(s, f);
  }

  lemma {:induction false} RunHolds(s: State, actions: seq<Action>, end: State)
    requires Inv(s) && Runs(s, actions, end)
    ensures Inv(end)
    decreases |actions|
  {
    hide Inv, Next, Enabled;
    if actions != [] {
      StepHolds(s, actions[0]);
      RunHolds(Next(s, actions[0]), actions[1..], end);
    }
  }

  lemma ReachableHolds(end: State)
    requires Reachable(end)
    ensures Inv(end)
  {
    var s :| Start(s) && Reaches(s, end);
    StartHolds(s);
    var actions :| Runs(s, actions, end);
    RunHolds(s, actions, end);
  }

  /* --------------------------------------------------------------- one line */

  /** `chain` is exactly grant g's refresh rows, each replaced by the next, the last by nothing. */
  ghost predicate ChainOf(refresh: map<Secret, RefreshRow>, g: GrantId, chain: seq<Secret>) {
    && NoDuplicates(chain)
    && (forall r :: r in chain <==> r in refresh && refresh[r].grantId == g)
    && (forall i :: 0 <= i < |chain| ==> Linked(chain, refresh, i))
  }

  /** The surviving part of a line is a suffix of it. */
  lemma {:induction false} SurvivorsAreSuffix(line: seq<Secret>, refresh: map<Secret, RefreshRow>) returns (k: nat)
    requires LineOk(line, refresh)
    ensures k <= |line|
    ensures forall i :: 0 <= i < k ==> line[i] !in refresh
    ensures forall i :: k <= i < |line| ==> line[i] in refresh
  {
    k := 0;
    while k < |line| && line[k] !in refresh
      invariant k <= |line| && forall i :: 0 <= i < k ==> line[i] !in refresh
    {
      k := k + 1;
    }
    var n := k;
    while n < |line|
      invariant k <= n <= |line| && forall i :: k <= i < n ==> line[i] in refresh
      invariant n < |line| ==> line[n] in refresh
    {
      assert Linked(line, refresh, n);
      n := n + 1;
    }
  }

  lemma SuffixIsChain(s: State, g: GrantId, k: nat)
    requires HistoryOk(s) && LinesOk(s) && g in s.past.lines && k <= |s.past.lines[g]|
    requires forall i :: 0 <= i < k ==> s.past.lines[g][i] !in s.tables.refresh
    requires forall i :: k <= i < |s.past.lines[g]| ==> s.past.lines[g][i] in s.tables.refresh
    ensures ChainOf(s.tables.refresh, g, s.past.lines[g][k..])
  {
    var line := s.past.lines[g];
    var chain := line[k..];
    forall r | r in s.tables.refresh && s.tables.refresh[r].grantId == g ensures r in chain {
      var i :| 0 <= i < |line| && line[i] == r;
      assert chain[i - k] == r;
    }
    forall i | 0 <= i < |chain| ensures Linked(chain, s.tables.refresh, i) {
      assert Linked(line, s.tables.refresh, i + k);
    }
  }

  /**
   * With rotations, revocations and pruning freely interleaved, a grant's surviving
   * refresh tokens are one acyclic line through replaced_by, ending in the one
   * unreplaced token; expiry never shrinks along it and scope never widens.
   */
  lemma SurvivorsFormOneLine(s: State, g: GrantId) returns (chain: seq<Secret>)
    requires Reachable(s) && g in s.tables.grants
    ensures ChainOf(s.tables.refresh, g, chain)
    ensures forall r :: r in s.tables.refresh && s.tables.refresh[r].grantId == g && s.tables.refresh[r].replacedBy.None? ==>
      chain != [] && r == chain[|chain| - 1]
  {
    ReachableHolds(s);
    var k := SurvivorsAreSuffix(s.past.lines[g], s.tables.refresh);
    SuffixIsChain(s, g, k);
    chain := s.past.lines[g][k..];
    forall r | r in s.tables.refresh && s.tables.refresh[r].grantId == g && s.tables.refresh[r].replacedBy.None?
      ensures chain != [] && r == chain[|chain| - 1]
    {
      var i :| 0 <= i < |chain| && chain[i] == r;
      assert Linked(chain, s.tables.refresh, i);
    }
  }

  lemma PrefixLengthens(
    line: seq<Secret>, was: map<Secret, RefreshRow>, now: map<Secret, RefreshRow>, before: nat, after: nat)
    requires now.Keys <= was.Keys && before <= |line| && after <= |line|
    requires forall i :: 0 <= i < before ==> line[i] !in was
    requires forall i :: after <= i < |line| ==> line[i] in now
    ensures before <= after
  {
    if after < |line| { assert line[after] in now && line[after] in was; }
  }

  lemma PruneOnLine(s: State, f: FlightId, g: GrantId)
    requires Inv(s) && g in s.tables.grants && Enabled(s, FinishPrune(f))
    ensures HistoryOk(s) && LinesOk(s) && g in s.past.lines && LineOk(s.past.lines[g], s.tables.refresh)
    ensures var t := Next(s, FinishPrune(f));
            && HistoryOk(t) && LinesOk(t) && t.past.lines == s.past.lines && LineOk(s.past.lines[g], t.tables.refresh)
            && t.tables.refresh.Keys <= s.tables.refresh.Keys
  {
    StepHolds(s, FinishPrune(f));
    hide RowsOk, LineOk, FlightsOk, PrivateOk, LocksOk, SealsOk, EndedOk, SupplyOk, Indexed;
  }

  /** Whenever a prune completes, what it takes from a grant's line is a prefix. */
  lemma PruneTakesPrefix(s: State, f: FlightId, g: GrantId) returns (chain: seq<Secret>, k: nat)
    requires Reachable(s) && g in s.tables.grants && Enabled(s, FinishPrune(f))
    ensures ChainOf(s.tables.refresh, g, chain) && k <= |chain|
    ensures ChainOf(Next(s, FinishPrune(f)).tables.refresh, g, chain[k..])
  {
    hide Reachable, Next, Inv, HistoryOk, LinesOk, LineOk, ChainOf;
    ReachableHolds(s);
    PruneOnLine(s, f, g);
    var t := Next(s, FinishPrune(f));
    var line := s.past.lines[g];
    var before := SurvivorsAreSuffix(line, s.tables.refresh);
    var after := SurvivorsAreSuffix(line, t.tables.refresh);
    SuffixIsChain(s, g, before);
    SuffixIsChain(t, g, after);
    PrefixLengthens(line, s.tables.refresh, t.tables.refresh, before, after);
    chain, k := line[before..], after - before;
    assert chain[k..] == line[after..];
  }

  /* ---------------------------------------------------------- one answer each */

  /** Any two successful answers to one refresh token carry the identical body. */
  lemma SameTokenSameAnswer(s: State, f: FlightId, h: FlightId)
    requires Reachable(s) && f in s.past.ended && h in s.past.ended
    requires s.past.ended[f].Answered? && s.past.ended[h].Answered? && s.past.ended[f].token == s.past.ended[h].token
    ensures s.past.ended[f].body == s.past.ended[h].body
  {
    ReachableHolds(s);
  }

  /** An answered token that survives was retired in favour of exactly the refresh token in the answer. */
  lemma AnswerNamesSuccessor(s: State, f: FlightId)
    requires Reachable(s) && f in s.past.ended && s.past.ended[f].Answered?
    ensures var token := s.past.ended[f].token;
            token in s.tables.refresh ==> s.tables.refresh[token].replacedBy == s.past.ended[f].body.refreshToken
  {
    ReachableHolds(s);
  }

  /**
   * A duplicate is answered for as long as its row is within grace: the sealed copy
   * is there, also after a rotation that had sealed was rolled back. Answering it
   * mints nothing and writes nothing.
   */
  lemma DuplicateIsAnswered(s: State, f: FlightId)
    requires Reachable(s) && Enabled(s, Unseal(f))
    requires var token := s.flights[f].token;
             token in s.tables.refresh && WithinGrace(s.tables.refresh[token], s.now)
    ensures var t := Next(s, Unseal(f));
            && f in t.past.ended
            && s.flights[f].token in s.past.bodies
            && t.past.ended[f] == Answered(s.flights[f].token, s.flights[f].req, s.past.bodies[s.flights[f].token])
            && t.tables == s.tables && t.next == s.next
  {
    hide Reachable, Inv, Entitled, UnsealIn, AfterUnseal, WithinGrace;
    ReachableHolds(s);
    ReplayIsKnown(s, f);
    CopyIsThere(s, s.flights[f].token, s.flights[f].req);
  }

  lemma ReplayIsKnown(s: State, f: FlightId)
    requires Inv(s) && Enabled(s, Unseal(f))
    ensures HistoryOk(s) && SealsOk(s)
    ensures var token := s.flights[f].token;
            token in s.past.bodies && token in s.past.grantOf && Entitled(s, s.past.grantOf[token], s.flights[f].req)
  {
    hide RowsOk, LinesOk, LocksOk, PrivateOk, EndedOk, SupplyOk, HistoryOk, SealsOk, Entitled;
    assert FlightOk(s, s.flights[f]);
  }

  lemma CopyIsThere(s: State, token: Secret, req: Request)
    requires HistoryOk(s) && SealsOk(s) && token in s.past.bodies && token in s.past.grantOf && Entitled(s, s.past.grantOf[token], req)
    requires token in s.tables.refresh && WithinGrace(s.tables.refresh[token], s.now)
    ensures UnsealIn(s.sealed, Key(req.clientId, token), s.now) == Some(s.past.bodies[token])
  {
    hide Indexed;
    assert s.past.grantOf[token] == s.tables.refresh[token].grantId;
    assert CopyOk(s, Key(req.clientId, token), s.past.bodies[token], s.tables.refresh[token].replacedAt.value + REFRESH_GRACE);
  }

  /* ---------------------------------------------------------------- narrowing */

  /** Whatever was committed for a grant carries the grant's audience and key, and at most its scope. */
  lemma TokensStayWithinGrant(s: State, token: Secret)
    requires Reachable(s)
    ensures token in s.tables.refresh ==>
      var row := s.tables.refresh[token];
      && row.grantId in s.tables.grants
      && row.audience == s.tables.grants[row.grantId].resource
      && Covers(s.tables.grants[row.grantId].scope, row.scope)
    ensures token in s.tables.access ==>
      var row := s.tables.access[token];
      && row.grantId in s.tables.grants
      && row.audience == s.tables.grants[row.grantId].resource
      && row.cnfJkt == s.tables.grants[row.grantId].dpopJkt
      && Covers(s.tables.grants[row.grantId].scope, row.scope)
  {
    ReachableHolds(s);
  }

  /* --------------------------------------------------------------- revocation */

  lemma StepKeepsRevoked(s: State, a: Action, g: GrantId)
    requires Inv(s) && Enabled(s, a) && Revoked(s.tables, g)
    ensures Revoked(Next(s, a).tables, g)
  {
    hide Inv, Next, Enabled;
    GrantStays(s, a, g);
  }

  lemma {:induction false} RevokedForever(s: State, actions: seq<Action>, end: State, g: GrantId)
    requires Inv(s) && Runs(s, actions, end) && Revoked(s.tables, g)
    ensures Revoked(end.tables, g) && end.tables.grants[g] == s.tables.grants[g]
    decreases |actions|
  {
    hide Inv, Next, Enabled;
    if actions != [] {
      StepHolds(s, actions[0]);
      GrantStays(s, actions[0], g);
      RevokedForever(Next(s, actions[0]), actions[1..], end, g);
    }
  }

  /** A grant's row never changes but to be revoked, and that once. */
  lemma GrantStays(s: State, a: Action, g: GrantId)
    requires Inv(s) && Enabled(s, a) && g in s.tables.grants
    ensures g in Next(s, a).tables.grants
    ensures Next(s, a).tables.grants[g] == s.tables.grants[g].(revokedAt := Next(s, a).tables.grants[g].revokedAt)
    ensures s.tables.grants[g].revokedAt.Some? ==> Next(s, a).tables.grants[g] == s.tables.grants[g]
  {
    if a.CommitEstablish? {
      hide RowsOk, HistoryOk, LinesOk, FlightsOk;
      hide SealsOk, EndedOk, LocksOk;
      assert s.flights[a.f].grantId in Private(s.flights[a.f]);
    } else {
      hide Inv;
      OtherStepsKeepGrants(s, a, g);
    }
  }

  lemma OtherStepsKeepGrants(s: State, a: Action, g: GrantId)
    requires Enabled(s, a) && g in s.tables.grants && !a.CommitEstablish?
    ensures g in Next(s, a).tables.grants
    ensures Next(s, a).tables.grants[g] == s.tables.grants[g].(revokedAt := Next(s, a).tables.grants[g].revokedAt)
    ensures s.tables.grants[g].revokedAt.Some? ==> Next(s, a).tables.grants[g] == s.tables.grants[g]
  {
  }

  /**
   * Once a grant is revoked, no access token of it verifies in any later state,
   * not even one inserted by a rotation that was in flight at the time.
   */
  lemma NoAccessAfterRevocation(
    s: State, end: State, g: GrantId, token: Secret, required: seq<string>, audience: string, now: Time)
    requires Reachable(s) && Reaches(s, end) && Revoked(s.tables, g)
    requires token in end.tables.access && end.tables.access[token].grantId == g
    ensures VerifyAccess(end.tables, token, required, audience, now) == InvalidToken
  {
    ReachableHolds(s);
    var actions :| Runs(s, actions, end);
    RevokedForever(s, actions, end, g);
  }

  /** A theft found is a grant revoked, for good. */
  lemma TheftRevokesForever(s: State, end: State, f: FlightId)
    requires Reachable(s) && Reaches(s, end) && f in s.past.ended && s.past.ended[f].TheftFound?
    ensures s.past.ended[f].token in s.past.grantOf
    ensures Revoked(end.tables, s.past.grantOf[s.past.ended[f].token])
  {
    ReachableHolds(s);
    var actions :| Runs(s, actions, end);
    RevokedForever(s, actions, end, s.past.grantOf[s.past.ended[f].token]);
  }

  /** On its way to a success. */
  predicate Succeeding(fl: Flight) {
    fl.Chosen? || fl.Minted? || fl.Sealed? || fl.Rotated? || fl.Replaying?
  }

  /** f's SELECT had already taken its snapshot in s0. */
  predicate Earlier(s0: State, f: FlightId) {
    f in s0.flights && !s0.flights[f].Begun?
  }

  predicate IsOf(t: State, token: Secret, g: GrantId) {
    token in t.past.grantOf && t.past.grantOf[token] == g
  }

  ghost predicate BarredFlight(s0: State, t: State, g: GrantId, f: FlightId)
    requires f in t.flights
  {
    var fl := t.flights[f];
    !Earlier(s0, f) ==>
      && (Succeeding(fl) ==> !IsOf(t, fl.token, g))
      && (fl.Waiting? && IsOf(t, fl.token, g) ==> Revoked(fl.seen, g))
  }

  ghost predicate BarredEnd(s0: State, t: State, g: GrantId, f: FlightId)
    requires f in t.past.ended
  {
    !Earlier(s0, f) && f !in s0.past.ended && t.past.ended[f].Answered? ==> !IsOf(t, t.past.ended[f].token, g)
  }

  /** Since s0, where g was revoked, only flights whose SELECT came earlier succeed for g. */
  ghost predicate Barred(s0: State, t: State, g: GrantId) {
    && Revoked(t.tables, g)
    && (forall f :: f in t.flights ==> BarredFlight(s0, t, g, f))
    && (forall f :: f in t.past.ended ==> BarredEnd(s0, t, g, f))
  }

  lemma BarredStart(s: State, g: GrantId)
    requires Inv(s) && Revoked(s.tables, g)
    ensures Barred(s, s, g)
  {
  }

  /** A token's grant, once recorded, never changes. */
  lemma StepKeepsGrantOf(s: State, a: Action, token: Secret)
    requires Inv(s) && Enabled(s, a) && token in s.past.grantOf
    ensures token in Next(s, a).past.grantOf && Next(s, a).past.grantOf[token] == s.past.grantOf[token]
  {
    hide Inv, Next, Enabled;
    match a
    case CommitRotation(f) => RotationGrows(s, f);
    case CommitEstablish(f) => FoundingGrows(s, f);
    case _ => OtherStepsKeepGrantOf(s, a);
  }

  lemma RotationGrows(s: State, f: FlightId)
    requires Inv(s) && Enabled(s, CommitRotation(f))
    ensures Grows(s, Next(s, CommitRotation(f)))
  {
    assert FlightOk(s, s.flights[f]);
    hide FlightOk, Next, RowsOk, LinesOk, SealsOk, LocksOk, EndedOk, Indexed, Grows;
    var g, successor := CommitShape(s, f);
    CommitGrows(s, Next(s, CommitRotation(f)), f, s.flights[f], g, successor);
  }

  lemma FoundingGrows(s: State, f: FlightId)
    requires Inv(s) && Enabled(s, CommitEstablish(f))
    ensures Grows(s, Next(s, CommitEstablish(f)))
  {
    assert FlightOk(s, s.flights[f]);
    hide FlightOk, Next, RowsOk, LinesOk, SealsOk, LocksOk, EndedOk, Indexed, Grows;
    FoundingShape(s, f);
    FoundedGrows(s, Next(s, CommitEstablish(f)), f, s.flights[f]);
  }

  lemma OtherStepsKeepGrantOf(s: State, a: Action)
    requires Enabled(s, a) && !a.CommitRotation? && !a.CommitEstablish?
    ensures Next(s, a).past.grantOf == s.past.grantOf
  {
  }

  /** How one action may change one flight. */
  ghost predicate Moves(s: State, x: Flight, y: Flight) {
    || y == x
    || (x.Begun? && y.Waiting? && y.token == x.token && y.seen == s.tables)
    || (x.Waiting? && Succeeding(y) && y.token == x.token && y.token in s.tables.refresh
        && !Revoked(x.seen, s.tables.refresh[y.token].grantId))
    || (Succeeding(x) && Succeeding(y) && y.token == x.token)
    || y.Revoking?
  }

  lemma StepMoves(s: State, a: Action, f: FlightId)
    requires Enabled(s, a) && f in Next(s, a).flights
    ensures var y := Next(s, a).flights[f];
            (f in s.flights && Moves(s, s.flights[f], y)) || (!Succeeding(y) && !y.Waiting?)
  {
  }

  lemma BarredMoves(s0: State, s: State, t: State, g: GrantId, f: FlightId)
    requires f in s.flights && f in t.flights && BarredFlight(s0, s, g, f) && Revoked(s.tables, g)
    requires Moves(s, s.flights[f], t.flights[f])
    requires Succeeding(s.flights[f]) || s.flights[f].Waiting? ==>
      IsOf(t, s.flights[f].token, g) ==> IsOf(s, s.flights[f].token, g)
    requires forall r :: r in s.tables.refresh && IsOf(s, r, g) ==> s.tables.refresh[r].grantId == g
    ensures BarredFlight(s0, t, g, f)
  {
  }

  lemma BarredFromIdle(s0: State, t: State, g: GrantId, f: FlightId)
    requires f in t.flights && !Succeeding(t.flights[f]) && !t.flights[f].Waiting?
    ensures BarredFlight(s0, t, g, f)
  {
  }

  lemma StaysBarredFlight(s0: State, s: State, a: Action, g: GrantId, f: FlightId)
    requires Inv(s) && Enabled(s, a) && Barred(s0, s, g) && f in Next(s, a).flights
    ensures BarredFlight(s0, Next(s, a), g, f)
  {
    var t := Next(s, a);
    StepMoves(s, a, f);
    hide Next, Enabled, Moves, BarredFlight, FlightOk, RowsOk, LinesOk, SealsOk, EndedOk, LocksOk, PrivateOk, Indexed;
    if f in s.flights && Moves(s, s.flights[f], t.flights[f]) {
      if Succeeding(s.flights[f]) || s.flights[f].Waiting? {
        FlightTokenKnown(s, f);
        StepKeepsGrantOf(s, a, s.flights[f].token);
      }
      BarredMoves(s0, s, t, g, f);
    } else {
      BarredFromIdle(s0, t, g, f);
    }
  }

  lemma FlightTokenKnown(s: State, f: FlightId)
    requires HistoryOk(s) && f in s.flights && FlightOk(s, s.flights[f])
    requires Succeeding(s.flights[f]) || s.flights[f].Waiting?
    ensures s.flights[f].token in s.past.grantOf
  {
  }

  /** An answer given in this step was on its way before it. */
  lemma AnswersComeFromFlights(s: State, a: Action, f: FlightId)
    requires Enabled(s, a) && f in Next(s, a).past.ended && (f !in s.past.ended || s.past.ended[f] != Next(s, a).past.ended[f])
    requires Next(s, a).past.ended[f].Answered?
    ensures f in s.flights && Succeeding(s.flights[f]) && Next(s, a).past.ended[f].token == s.flights[f].token
    ensures Next(s, a).past.grantOf == s.past.grantOf
  {
  }

  lemma StaysBarredEnd(s0: State, s: State, a: Action, g: GrantId, f: FlightId)
    requires Inv(s) && Enabled(s, a) && Barred(s0, s, g) && f in Next(s, a).past.ended
    ensures BarredEnd(s0, Next(s, a), g, f)
  {
    var t := Next(s, a);
    if t.past.ended[f].Answered? {
      if f !in s.past.ended || s.past.ended[f] != t.past.ended[f] {
        AnswersComeFromFlights(s, a, f);
        assert BarredFlight(s0, s, g, f);
      } else {
        assert BarredEnd(s0, s, g, f);
        StepKeepsGrantOf(s, a, t.past.ended[f].token);
      }
    }
  }

  lemma {:induction false} RunStaysBarred(s0: State, s: State, actions: seq<Action>, end: State, g: GrantId)
    requires Inv(s) && Runs(s, actions, end) && Barred(s0, s, g)
    ensures Barred(s0, end, g)
    decreases |actions|
  {
    hide Inv, Next, Enabled, BarredFlight, BarredEnd;
    if actions != [] {
      var t := Next(s, actions[0]);
      StepHolds(s, actions[0]);
      StepKeepsRevoked(s, actions[0], g);
      forall f | f in t.flights ensures BarredFlight(s0, t, g, f) { StaysBarredFlight(s0, s, actions[0], g, f); }
      forall f | f in t.past.ended ensures BarredEnd(s0, t, g, f) { StaysBarredEnd(s0, s, actions[0], g, f); }
      RunStaysBarred(s0, t, actions[1..], end, g);
    }
  }

  /**
   * Once a grant is revoked, a refresh of it whose SELECT comes later is never
   * answered with tokens and never gets as far as minting any, in any run.
   */
  lemma NoRefreshAfterRevocation(s: State, end: State, g: GrantId, f: FlightId)
    requires Reachable(s) && Reaches(s, end) && Revoked(s.tables, g) && !Earlier(s, f)
    ensures f in end.flights && Succeeding(end.flights[f]) ==> !IsOf(end, end.flights[f].token, g)
    ensures f in end.past.ended && f !in s.past.ended && IsOf(end, end.past.ended[f].token, g) ==> !end.past.ended[f].Answered?
  {
    ReachableHolds(s);
    var actions :| Runs(s, actions, end);
    BarredStart(s, g);
    RunStaysBarred(s, s, actions, end, g);
    if f in end.flights { assert BarredFlight(s, end, g, f); }
    if f in end.past.ended { assert BarredEnd(s, end, g, f); }
  }

  /* --------------------------------------------------- who may have a rotation */

  /** Tokens are only ever answered to the grant's own client, holding the grant's key. */
  lemma AnswersGoToTheHolder(s: State, f: FlightId)
    requires Reachable(s) && f in s.past.ended && s.past.ended[f].Answered?
    ensures s.past.ended[f].token in s.past.grantOf
    ensures Entitled(s, s.past.grantOf[s.past.ended[f].token], s.past.ended[f].req)
  {
    ReachableHolds(s);
  }

  /**
   * What a rotation about to commit was asked, and will grant: a live token of an
   * entitled client, no resource but the grant's, no scope the token lacks.
   */
  lemma RotationsAreEntitled(s: State, f: FlightId)
    requires Reachable(s) && Enabled(s, CommitRotation(f))
    ensures var fl := s.flights[f];
            && fl.token in s.tables.refresh
            && var row := s.tables.refresh[fl.token];
               && row.replacedBy.None? && row.revokedAt.None? && fl.began < row.expiresAt
               && Entitled(s, row.grantId, fl.req)
               && (fl.req.resource.Some? ==> fl.req.resource.value == s.tables.grants[row.grantId].resource)
               && fl.issued.scope == ScopeAsked(row, fl.req) && Covers(row.scope, fl.issued.scope)
  {
    ReachableHolds(s);
    assert FlightOk(s, s.flights[f]);
  }

  /**
   * A retired token presented by the key's holder while the grant lives, but too
   * late, or by another client, or after its successor was used: the transaction
   * can only end by revoking the grant.
   */
  lemma ReuseIsTheft(s: State, f: FlightId, g: GrantId)
    requires Reachable(s) && Enabled(s, TakeLock(f)) && s.flights[f].token in s.tables.refresh
    requires s.tables.refresh[s.flights[f].token].grantId == g && g in s.tables.grants && !Revoked(s.tables, g)
    requires s.tables.grants[g].dpopJkt.Some? ==> s.tables.grants[g].dpopJkt == s.flights[f].req.jkt
    requires var fl, row := s.flights[f], s.tables.refresh[s.flights[f].token];
             && row.replacedBy.Some?
             && (fl.req.clientId != s.tables.grants[g].clientId
                 || !WithinGrace(row, fl.began)
                 || SuccessorUsed(fl.seen.refresh, row))
    ensures var t := Next(s, TakeLock(f));
            && f in t.flights && t.flights[f].Revoking?
            && t.flights[f].theft == Some(s.flights[f].token) && t.flights[f].todo == [g]
  {
    ReachableHolds(s);
    assert FlightOk(s, s.flights[f]);
  }

  /** Flight f is the transaction that found this token stolen, or that is over, with the theft found, or rolled back. */
  ghost predicate FoundBy(s: State, f: FlightId, token: Secret) {
    && f < s.nextFlight
    && (f in s.flights ==> s.flights[f].Revoking? && s.flights[f].theft == Some(token))
    && (f in s.past.ended ==> s.past.ended[f] == TheftFound(token))
  }

  lemma FoundStep(s: State, a: Action, f: FlightId, token: Secret)
    requires Enabled(s, a) && FoundBy(s, f, token)
    ensures FoundBy(Next(s, a), f, token)
  {
  }

  lemma {:induction false} FoundRun(s: State, actions: seq<Action>, end: State, f: FlightId, token: Secret, g: GrantId)
    requires Inv(s) && Runs(s, actions, end) && FoundBy(s, f, token) && IsOf(s, token, g)
    ensures Inv(end) && FoundBy(end, f, token) && IsOf(end, token, g)
    decreases |actions|
  {
    hide Inv, Next, Enabled, FoundBy;
    if actions != [] {
      StepHolds(s, actions[0]);
      FoundStep(s, actions[0], f, token);
      StepKeepsGrantOf(s, actions[0], token);
      FoundRun(Next(s, actions[0]), actions[1..], end, f, token, g);
    }
  }

  /** Whatever else happens, a transaction that found a theft never ends but by answering so, with the grant revoked. */
  lemma TheftEndsOnlyInRevocation(s: State, actions: seq<Action>, end: State, f: FlightId, token: Secret, g: GrantId)
    requires Reachable(s) && Runs(s, actions, end) && IsOf(s, token, g)
    requires f in s.flights && s.flights[f].Revoking? && s.flights[f].theft == Some(token) && f !in s.past.ended
    ensures f in end.flights ==> end.flights[f].Revoking? && end.flights[f].theft == Some(token)
    ensures f in end.past.ended ==> end.past.ended[f] == TheftFound(token) && Revoked(end.tables, g)
  {
    hide RowsOk, LinesOk, FlightsOk, PrivateOk, LocksOk, SealsOk, HistoryOk;
    ReachableHolds(s);
    FoundRun(s, actions, end, f, token, g);
  }

  /** Nobody else's transaction holds a row of the grant. */
  ghost predicate RowsFree(s: State, f: FlightId, g: GrantId) {
    forall k :: k in s.flights && k != f && Held(s.flights[k]).Some? ==> !IsOf(s, Held(s.flights[k]).value, g)
  }

  /** From the decision that it is theft: the three statements, and the COMMIT, which reports it and leaves the grant revoked. */
  lemma TheftRunsToRevocation(s: State, f: FlightId, token: Secret, g: GrantId) returns (actions: seq<Action>, end: State)
    requires Inv(s) && f in s.flights && s.flights[f].Revoking?
    requires s.flights[f] == Revoking(Some(token), s.flights[f].began, [g], 0, {}, {}, {})
    requires IsOf(s, token, g) && RowsFree(s, f, g)
    ensures actions == [RevokeStatement(f), RevokeStatement(f), RevokeStatement(f), CommitRevoke(f)] && Runs(s, actions, end)
    ensures f in end.past.ended && end.past.ended[f] == TheftFound(token) && Revoked(end.tables, g)
  {
    hide Inv, Runs, ApplyRevocation, RowsFree;
    RunNothing(s);
    var began := s.flights[f].began;
    actions, end := RunAlso(s, [], s, RevokeStatement(f));
    StepHolds(s, RevokeStatement(f));
    var b := end;
    actions, end := RunAlso(s, actions, b, RevokeStatement(f));
    StepHolds(b, RevokeStatement(f));
    var c := end;
    actions, end := RunAlso(s, actions, c, RevokeStatement(f));
    StepHolds(c, RevokeStatement(f));
    var d := end;
    assert d.flights[f].todo == [] && d.flights[f].marked == UnrevokedRefreshOf(s.tables, g);
    MarkedAreFree(s, d, f, g);
    actions, end := RunAlso(s, actions, d, CommitRevoke(f));
    StepHolds(d, CommitRevoke(f));
    TheftCommits(d, f, token, g);
  }

  lemma MarkedAreFree(s: State, d: State, f: FlightId, g: GrantId)
    requires Inv(d) && RowsFree(s, f, g) && d.tables == s.tables && d.past == s.past
    requires f in d.flights && d.flights.Keys == s.flights.Keys && forall k :: k in s.flights && k != f ==> d.flights[k] == s.flights[k]
    ensures Unlocked(d, f, UnrevokedRefreshOf(s.tables, g))
  {
    hide RowsOk, LinesOk, FlightsOk, PrivateOk, LocksOk, SealsOk, EndedOk, SupplyOk, Indexed;
  }

  lemma TheftCommits(s: State, f: FlightId, token: Secret, g: GrantId)
    requires Inv(s) && f in s.flights && s.flights[f].Revoking? && s.flights[f].theft == Some(token)
    requires s.flights[f].todo == [] && Enabled(s, CommitRevoke(f)) && IsOf(s, token, g)
    ensures var t := Next(s, CommitRevoke(f)); f in t.past.ended && t.past.ended[f] == TheftFound(token) && Revoked(t.tables, g)
  {
    hide RowsOk, LinesOk, HistoryOk, PrivateOk, LocksOk, SealsOk, EndedOk, SupplyOk;
    assert FlightOk(s, s.flights[f]);
  }
}
