/**
 * Refresh, revocation and pruning as interleaved database statements.
 *
 * A state is the committed tables, the sealed responses, and every request in
 * flight. One action is one statement (or one COMMIT, or one effect outside the
 * database) of one flight, or time passing; any enabled action may come next.
 *
 * The isolation is PostgreSQL's READ COMMITTED. now() is the instant the
 * transaction began. A statement sees the tables as committed when it started;
 * SELECT ... FOR UPDATE OF r then waits for r and re-reads r alone, so what it
 * saw of the grant and of the successor may be stale by the time it holds r.
 * Writes become visible together at COMMIT. Row locks taken by a revocation are
 * not modelled, only that it cannot commit over a row a rotation holds: this
 * admits every real schedule and some more.
 */
module RefreshMachine {
  import opened Basics
  import opened OAuthTables
  import opened SealedStore

  type FlightId = nat

  datatype Flight =
    /** BEGIN done: the transaction's clock is fixed. */
    | Begun(token: Secret, req: Request, began: Time)
    /** The SELECT's snapshot is taken; waiting for the row lock. */
    | Waiting(token: Secret, req: Request, began: Time, seen: Tables)
    /** The row is locked and the decision is to rotate. */
    | Chosen(token: Secret, req: Request, began: Time, scope: seq<string>)
    /** Both INSERTs and the UPDATE are done, visible to this transaction only. */
    | Minted(token: Secret, req: Request, began: Time, issued: Issued)
    /** The response is sealed; COMMIT is next. */
    | Sealed(token: Secret, req: Request, began: Time, issued: Issued)
    /** Committed; the answer is on its way. */
    | Rotated(token: Secret, req: Request, issued: Issued)
    /** The transaction answered `replay`; the sealed copy is read next. */
    | Replaying(token: Secret, req: Request)
    /** revokeGrant over `todo`, alone or inside the rotation that found a theft. */
    | Revoking(theft: Option<Secret>, began: Time, todo: seq<GrantId>, statement: nat,
               hit: set<GrantId>, doomed: set<Secret>, marked: set<Secret>)
    /** DELETE of expired refresh rows, waiting for locked ones. */
    | Pruning(doomed: set<Secret>)
    | Establishing(began: Time, grantId: GrantId, grant: Grant, issued: Issued)

  datatype Ended =
    | Refused(token: Secret, why: Refusal)
    | CopyGone(token: Secret)
    | TheftFound(token: Secret)
    | Answered(token: Secret, req: Request, body: Issued)

  /** Record of the past; no action reads it. */
  datatype History = History(
    /** Every secret and grant id ever committed. */
    born: set<Secret>,
    /** Each grant's refresh tokens, in the order they were committed. */
    lines: map<GrantId, seq<Secret>>,
    grantOf: map<Secret, GrantId>,
    /** The response each retired token was exchanged for. */
    bodies: map<Secret, Issued>,
    ended: map<FlightId, Ended>)

  datatype State = State(
    now: Time, tables: Tables, sealed: Entries, next: Secret,
    flights: map<FlightId, Flight>, nextFlight: FlightId, past: History)

  datatype Action =
    | Tick(elapsed: nat)
    | BeginRefresh(token: Secret, req: Request)
    | TakeSnapshot(f: FlightId)
    | TakeLock(f: FlightId)
    | Issue(f: FlightId)
    | Seal(f: FlightId)
    | CommitRotation(f: FlightId)
    | Answer(f: FlightId)
    | Unseal(f: FlightId)
    /** A rollback before COMMIT; a lost response after it. */
    | Lose(f: FlightId)
    | BeginRevoke(grants: seq<GrantId>)
    | RevokeStatement(f: FlightId)
    | CommitRevoke(f: FlightId)
    | PruneAccess
    | BeginPrune
    | FinishPrune(f: FlightId)
    | BeginEstablish(accountId: string, clientId: string, resource: string, scope: seq<string>,
                     dpopJkt: Option<string>, withRefresh: bool)
    | CommitEstablish(f: FlightId)

  /** The refresh row this flight has locked. */
  function Held(flight: Flight): Option<Secret> {
    match flight
    case Chosen(token, _, _, _) => Some(token)
    case Minted(token, _, _, _) => Some(token)
    case Sealed(token, _, _, _) => Some(token)
    case Revoking(theft, _, _, _, _, _, _) => theft
    case _ => None
  }

  function SecretsOf(issued: Issued): set<Secret> {
    {issued.accessToken} + if issued.refreshToken.Some? then {issued.refreshToken.value} else {}
  }

  /** What this flight has minted and not yet committed: nobody else can know it. */
  function Private(flight: Flight): set<Secret> {
    match flight
    case Minted(_, _, _, issued) => SecretsOf(issued)
    case Sealed(_, _, _, issued) => SecretsOf(issued)
    case Establishing(_, g, _, issued) => {g} + SecretsOf(issued)
    case _ => {}
  }

  ghost predicate Unlocked(s: State, f: FlightId, rows: set<Secret>) {
    forall h :: h in s.flights && h != f ==>
      Held(s.flights[h]).None? || Held(s.flights[h]).value !in rows
  }

  ghost predicate Enabled(s: State, a: Action) {
    match a
    case Tick(_) => true
    case BeginRefresh(token, _) =>
      token < s.next && forall h :: h in s.flights ==> token !in Private(s.flights[h])
    case TakeSnapshot(f) => f in s.flights && s.flights[f].Begun?
    case TakeLock(f) => f in s.flights && s.flights[f].Waiting? && Unlocked(s, f, {s.flights[f].token})
    case Issue(f) => f in s.flights && s.flights[f].Chosen?
    case Seal(f) => f in s.flights && s.flights[f].Minted?
    case CommitRotation(f) => f in s.flights && s.flights[f].Sealed?
    case Answer(f) => f in s.flights && s.flights[f].Rotated?
    case Unseal(f) => f in s.flights && s.flights[f].Replaying?
    case Lose(f) => f in s.flights
    case BeginRevoke(_) => true
    case RevokeStatement(f) => f in s.flights && s.flights[f].Revoking? && s.flights[f].todo != []
    case CommitRevoke(f) =>
      f in s.flights && s.flights[f].Revoking? && s.flights[f].todo == [] && Unlocked(s, f, s.flights[f].marked)
    case PruneAccess => true
    case BeginPrune => true
    case FinishPrune(f) => f in s.flights && s.flights[f].Pruning? && Unlocked(s, f, s.flights[f].doomed)
    case BeginEstablish(_, _, _, _, _, _) => true
    case CommitEstablish(f) => f in s.flights && s.flights[f].Establishing?
  }

  function Launch(s: State, flight: Flight): State {
    s.(flights := s.flights[s.nextFlight := flight], nextFlight := s.nextFlight + 1)
  }

  function Advance(s: State, f: FlightId, flight: Flight): State {
    s.(flights := s.flights[f := flight])
  }

  function Finish(s: State, f: FlightId): State {
    s.(flights := s.flights - {f})
  }

  function End(s: State, f: FlightId, how: Ended): State {
    Finish(s, f).(past := s.past.(ended := s.past.ended[f := how]))
  }

  /** The SELECT, once it holds the row: the row is current, the rest is the snapshot's. */
  function Locked(s: State, f: FlightId, token: Secret, req: Request, began: Time, seen: Tables): State {
    if token !in s.tables.refresh || s.tables.refresh[token].grantId !in seen.grants then
      End(s, f, Refused(token, Unknown))
    else
      var row := s.tables.refresh[token];
      match Decide(row, seen.grants[row.grantId], SuccessorUsed(seen.refresh, row), began, req)
      case Refuse(why) => End(s, f, Refused(token, why))
      case Replay => Advance(s, f, Replaying(token, req))
      case Theft => Advance(s, f, Revoking(Some(token), began, [row.grantId], 0, {}, {}, {}))
      case Rotate(scope) => Advance(s, f, Chosen(token, req, began, scope))
  }

  /** One of revokeGrant's three statements for the grant at the head of the list. */
  function Revoke(s: State, fl: Flight): Flight
    requires fl.Revoking? && fl.todo != []
  {
    var g := fl.todo[0];
    if fl.statement == 0 then fl.(hit := fl.hit + LiveGrants(s.tables, g), statement := 1)
    else if fl.statement == 1 then fl.(doomed := fl.doomed + AccessOf(s.tables, g), statement := 2)
    else fl.(marked := fl.marked + UnrevokedRefreshOf(s.tables, g), statement := 0, todo := fl.todo[1..])
  }

  /** COMMIT of a rotation. */
  function Rotation(s: State, f: FlightId, fl: Flight): State
    requires fl.Sealed?
  {
    if fl.token in s.tables.refresh && s.tables.refresh[fl.token].grantId in s.tables.grants && fl.issued.refreshToken.Some? then
      var g := s.tables.refresh[fl.token].grantId;
      var successor := fl.issued.refreshToken.value;
      Advance(s, f, Rotated(fl.token, fl.req, fl.issued)).(
        tables := ApplyRotation(s.tables, fl.token, fl.issued, fl.began),
        past := s.past.(
          born := s.past.born + SecretsOf(fl.issued),
          lines := if g in s.past.lines then s.past.lines[g := s.past.lines[g] + [successor]] else s.past.lines,
          grantOf := s.past.grantOf[successor := g],
          bodies := s.past.bodies[fl.token := fl.issued]))
    else Finish(s, f)
  }

  /** COMMIT of establishGrant. */
  function Establishment(s: State, f: FlightId, fl: Flight): State
    requires fl.Establishing?
  {
    var refresh := if fl.issued.refreshToken.Some? then [fl.issued.refreshToken.value] else [];
    Finish(s, f).(
      tables := ApplyGrant(s.tables, fl.grantId, fl.grant, fl.issued, fl.began),
      past := s.past.(
        born := s.past.born + {fl.grantId} + SecretsOf(fl.issued),
        lines := s.past.lines[fl.grantId := refresh],
        grantOf := if refresh == [] then s.past.grantOf else s.past.grantOf[refresh[0] := fl.grantId]))
  }

  ghost function Next(s: State, a: Action): State
    requires Enabled(s, a)
  {
    match a
    case Tick(elapsed) => s.(now := s.now + elapsed)
    case BeginRefresh(token, req) => Launch(s, Begun(token, req, s.now))
    case TakeSnapshot(f) =>
      var fl := s.flights[f];
      if fl.token !in s.tables.refresh then End(s, f, Refused(fl.token, Unknown))
      else Advance(s, f, Waiting(fl.token, fl.req, fl.began, s.tables))
    case TakeLock(f) =>
      var fl := s.flights[f];
      Locked(s, f, fl.token, fl.req, fl.began, fl.seen)
    case Issue(f) =>
      var fl := s.flights[f];
      if fl.token !in s.tables.refresh || s.tables.refresh[fl.token].grantId !in s.tables.grants then Finish(s, f)
      else
        var row := s.tables.refresh[fl.token];
        var issued := MakeIssued(s.next, Some(s.next + 1), row.audience, fl.scope, s.tables.grants[row.grantId].dpopJkt);
        Advance(s, f, Minted(fl.token, fl.req, fl.began, issued)).(next := s.next + 2)
    case Seal(f) =>
      var fl := s.flights[f];
      Advance(s, f, Sealed(fl.token, fl.req, fl.began, fl.issued)).(
        sealed := SealIn(s.sealed, Key(fl.req.clientId, fl.token), fl.issued, REFRESH_GRACE, s.now))
    case CommitRotation(f) => Rotation(s, f, s.flights[f])
    case Answer(f) => End(s, f, Answered(s.flights[f].token, s.flights[f].req, s.flights[f].issued))
    case Unseal(f) =>
      var fl := s.flights[f];
      var key := Key(fl.req.clientId, fl.token);
      var after := s.(sealed := AfterUnseal(s.sealed, key, s.now));
      (match UnsealIn(s.sealed, key, s.now)
       case None => End(after, f, CopyGone(fl.token))
       case Some(body) => End(after, f, Answered(fl.token, fl.req, body)))
    case Lose(f) => Finish(s, f)
    case BeginRevoke(grants) => Launch(s, Revoking(None, s.now, grants, 0, {}, {}, {}))
    case RevokeStatement(f) => Advance(s, f, Revoke(s, s.flights[f]))
    case CommitRevoke(f) =>
      var fl := s.flights[f];
      var after := s.(tables := ApplyRevocation(s.tables, fl.hit, fl.doomed, fl.marked, fl.began));
      if fl.theft.Some? then End(after, f, TheftFound(fl.theft.value)) else Finish(after, f)
    case PruneAccess => s.(tables := s.tables.(access := s.tables.access - ExpiredAccess(s.tables, s.now)))
    case BeginPrune => Launch(s, Pruning(ExpiredRefresh(s.tables, s.now)))
    case FinishPrune(f) =>
      Finish(s, f).(tables := s.tables.(refresh := s.tables.refresh - s.flights[f].doomed))
    case BeginEstablish(accountId, clientId, resource, scope, dpopJkt, withRefresh) =>
      var grant := Grant(accountId, clientId, resource, scope, dpopJkt, None);
      var issued := MakeIssued(s.next + 1, if withRefresh then Some(s.next + 2) else None, resource, scope, dpopJkt);
      Launch(s, Establishing(s.now, s.next, grant, issued)).(next := s.next + 3)
    case CommitEstablish(f) => Establishment(s, f, s.flights[f])
  }

  ghost predicate Start(s: State) {
    s == State(s.now, Tables(map[], map[], map[]), map[], 0, map[], 0, History({}, map[], map[], map[], map[]))
  }

  /** The states a list of actions leads through, if each is enabled in turn. */
  ghost predicate Runs(s: State, actions: seq<Action>, end: State)
    decreases |actions|
  {
    if actions == [] then end == s
    else Enabled(s, actions[0]) && Runs(Next(s, actions[0]), actions[1..], end)
  }

  ghost predicate Reaches(s: State, end: State) {
    exists actions :: Runs(s, actions, end)
  }

  ghost predicate Reachable(end: State) {
    exists s :: Start(s) && Reaches(s, end)
  }

  /* ------------------------------------------------------------------- runs */

  lemma RunNothing(s: State)
    ensures Runs(s, [], s)
  {
  }

  lemma {:induction false} RunThen(s: State, actions: seq<Action>, mid: State, more: seq<Action>, end: State)
    requires Runs(s, actions, mid) && Runs(mid, more, end)
    ensures Runs(s, actions + more, end)
    decreases |actions|
  {
    hide Next, Enabled;
    if actions == [] {
      assert actions + more == more;
    } else {
      RunThen(Next(s, actions[0]), actions[1..], mid, more, end);
      assert (actions + more)[1..] == actions[1..] + more;
    }
  }

  lemma RunAlso(s: State, actions: seq<Action>, mid: State, a: Action) returns (more: seq<Action>, end: State)
    requires Runs(s, actions, mid) && Enabled(mid, a)
    ensures more == actions + [a] && end == Next(mid, a) && Runs(s, more, end)
  {
    hide Next, Enabled;
    end := Next(mid, a);
    assert Runs(end, [a][1..], end);
    RunThen(s, actions, mid, [a], end);
    more := actions + [a];
  }
}
