/**
 * From a pending authorization to a code, and from a code to a grant, as
 * interleaved database statements (server/src/oauth/store.ts and token.ts).
 *
 * One action is one statement, one COMMIT, or time passing. Consuming a code and
 * establishing its grant are separate transactions, so anything may fall between
 * them. PKCE's digest is injective: a challenge stands for its only verifier.
 */
module CodeMachine {
  import opened Basics

  type Id = nat
  type FlightId = nat

  const CODE_TTL: Time := 60 * SECOND
  const PENDING_TTL: Time := 15 * 60 * SECOND
  const FIRST_PARTY_CLIENT_ID: string := "iot-switch-ios"

  /** What the client was validated to ask for, before any row existed. */
  datatype Terms = Terms(
    clientId: string, redirectUri: string, verifier: string, resource: string, scope: seq<string>, dpopJkt: Option<string>)

  datatype PendingRow = PendingRow(terms: Terms, expiresAt: Time)

  datatype CodeRow = CodeRow(
    accountId: string, terms: Terms, consumedAt: Option<Time>, grantId: Option<Id>, expiresAt: Time)

  datatype GrantRow = GrantRow(accountId: string, terms: Terms, dpopJkt: Option<string>, revoked: bool)

  /** A redemption: exchangeCode's parameters, and the thumbprint of its proof's key. */
  datatype Redemption = Redemption(
    clientId: string, redirectUri: Option<string>, verifier: string, resource: Option<string>, jkt: Option<string>)

  datatype Flight =
    | Claiming(pending: Id, accountId: string, began: Time)
    /** The DELETE hit the row, which stays locked; the code is inserted, privately. */
    | Claimed(pending: Id, accountId: string, began: Time, code: Id)
    | Redeeming(code: Id, req: Redemption)
    /** The consuming UPDATE matched nothing; a SELECT will say why. */
    | Missed(code: Id, req: Redemption)
    /** Consumed, and every check passed. */
    | Checked(code: Id, req: Redemption, row: CodeRow)
    | Establishing(code: Id, req: Redemption, row: CodeRow, grantId: Id)
    /** The SELECT found the code spent and a grant recorded on it. */
    | Replayed(code: Id, grantId: Id)

  /** What became visible, in order. No action reads it. */
  datatype Event =
    | CodeIssued(pending: Id, code: Id)
    | GrantMade(code: Id, grantId: Id)
    | ReplayRevoked(code: Id, grantId: Id)
    | ReplayIgnored(code: Id)

  datatype State = State(
    now: Time, pending: map<Id, PendingRow>, codes: map<Id, CodeRow>, grants: map<Id, GrantRow>,
    next: Id, flights: map<FlightId, Flight>, nextFlight: FlightId, log: seq<Event>)

  datatype Action =
    | Tick(elapsed: nat)
    | StartAuthorization(terms: Terms)
    | Deny(pending: Id)
    | BeginClaim(pending: Id, accountId: string)
    | ClaimRow(f: FlightId)
    | CommitClaim(f: FlightId)
    | BeginRedeem(code: Id, req: Redemption)
    | Consume(f: FlightId)
    | Look(f: FlightId)
    | BeginEstablish(f: FlightId)
    | CommitEstablish(f: FlightId)
    | RevokeReplayed(f: FlightId)
    /** A revocation from anywhere else. */
    | RevokeOther(grantId: Id)
    | PruneCodes
    | PrunePending
    /** A rollback, a crash, or an answer lost. */
    | Lose(f: FlightId)

  function Private(fl: Flight): set<Id> {
    match fl
    case Claimed(_, _, _, code) => {code}
    case Establishing(_, _, _, g) => {g}
    case _ => {}
  }

  predicate Holds(fl: Flight, pending: Id) { fl.Claimed? && fl.pending == pending }

  ghost predicate Free(s: State, pending: Id) {
    forall h :: h in s.flights ==> !Holds(s.flights[h], pending)
  }

  ghost predicate Known(s: State, id: Id) {
    id < s.next && forall h :: h in s.flights ==> id !in Private(s.flights[h])
  }

  ghost predicate Enabled(s: State, a: Action) {
    match a
    case Tick(_) => true
    case StartAuthorization(_) => true
    case Deny(p) => Free(s, p)
    case BeginClaim(p, _) => Known(s, p)
    case ClaimRow(f) => f in s.flights && s.flights[f].Claiming? && Free(s, s.flights[f].pending)
    case CommitClaim(f) => f in s.flights && s.flights[f].Claimed?
    case BeginRedeem(code, _) => Known(s, code)
    case Consume(f) => f in s.flights && s.flights[f].Redeeming?
    case Look(f) => f in s.flights && s.flights[f].Missed?
    case BeginEstablish(f) => f in s.flights && s.flights[f].Checked?
    case CommitEstablish(f) => f in s.flights && s.flights[f].Establishing?
    case RevokeReplayed(f) => f in s.flights && s.flights[f].Replayed?
    case RevokeOther(_) => true
    case PruneCodes => true
    case PrunePending => forall p :: p in s.pending && s.pending[p].expiresAt <= s.now ==> Free(s, p)
    case Lose(f) => f in s.flights
  }

  /** The checks exchangeCode makes on a freshly consumed code, all of which must pass. */
  predicate ChecksPass(row: CodeRow, req: Redemption) {
    && req.clientId == row.terms.clientId
    && (req.redirectUri.Some? ==> req.redirectUri.value == row.terms.redirectUri)
    && req.verifier == row.terms.verifier
    && (req.resource.Some? ==> req.resource.value == row.terms.resource)
    && (row.terms.dpopJkt.Some? ==> req.jkt == row.terms.dpopJkt)
  }

  function Launch(s: State, fl: Flight): State {
    s.(flights := s.flights[s.nextFlight := fl], nextFlight := s.nextFlight + 1)
  }

  function Advance(s: State, f: FlightId, fl: Flight): State { s.(flights := s.flights[f := fl]) }

  function Finish(s: State, f: FlightId): State { s.(flights := s.flights - {f}) }

  function Emit(s: State, e: Event): State { s.(log := s.log + [e]) }

  function AfterChecks(s: State, f: FlightId, code: Id, row: CodeRow, req: Redemption): State {
    if ChecksPass(row, req) then Advance(s, f, Checked(code, req, row)) else Finish(s, f)
  }

  function RevokeIn(grants: map<Id, GrantRow>, g: Id): map<Id, GrantRow> {
    if g in grants then grants[g := grants[g].(revoked := true)] else grants
  }

  ghost function Next(s: State, a: Action): State
    requires Enabled(s, a)
  {
    match a
    case Tick(elapsed) => s.(now := s.now + elapsed)
    case StartAuthorization(terms) =>
      s.(pending := s.pending[s.next := PendingRow(terms, s.now + PENDING_TTL)], next := s.next + 1)
    case Deny(p) => s.(pending := s.pending - {p})
    case BeginClaim(p, accountId) => Launch(s, Claiming(p, accountId, s.now))
    case ClaimRow(f) =>
      var fl := s.flights[f];
      if fl.pending !in s.pending then Finish(s, f)
      else Advance(s, f, Claimed(fl.pending, fl.accountId, fl.began, s.next)).(next := s.next + 1)
    case CommitClaim(f) =>
      var fl := s.flights[f];
      if fl.pending !in s.pending then Finish(s, f)
      else
        var row := CodeRow(fl.accountId, s.pending[fl.pending].terms, None, None, fl.began + CODE_TTL);
        Emit(Finish(s, f), CodeIssued(fl.pending, fl.code)).(
          pending := s.pending - {fl.pending}, codes := s.codes[fl.code := row])
    case BeginRedeem(code, req) =>
      // A request that may not proceed without a proof is refused before the code is touched.
      if req.clientId == FIRST_PARTY_CLIENT_ID && req.jkt.None? then s else Launch(s, Redeeming(code, req))
    case Consume(f) =>
      var fl := s.flights[f];
      if fl.code in s.codes && s.codes[fl.code].consumedAt.None? && s.codes[fl.code].expiresAt > s.now then
        var row := s.codes[fl.code].(consumedAt := Some(s.now));
        AfterChecks(s.(codes := s.codes[fl.code := row]), f, fl.code, row, fl.req)
      else Advance(s, f, Missed(fl.code, fl.req))
    case Look(f) =>
      var fl := s.flights[f];
      if fl.code !in s.codes then Finish(s, f)
      else
        var row := s.codes[fl.code];
        if row.consumedAt.Some? then
          (match row.grantId
           case None => Emit(Finish(s, f), ReplayIgnored(fl.code))
           case Some(g) => Advance(s, f, Replayed(fl.code, g)))
        else if row.expiresAt <= s.now then Finish(s, f)
        else AfterChecks(s, f, fl.code, row, fl.req)
    case BeginEstablish(f) =>
      var fl := s.flights[f];
      Advance(s, f, Establishing(fl.code, fl.req, fl.row, s.next)).(next := s.next + 1)
    case CommitEstablish(f) =>
      var fl := s.flights[f];
      Emit(Finish(s, f), GrantMade(fl.code, fl.grantId)).(
        grants := s.grants[fl.grantId := GrantRow(fl.row.accountId, fl.row.terms, fl.req.jkt, false)],
        codes := if fl.code in s.codes then s.codes[fl.code := s.codes[fl.code].(grantId := Some(fl.grantId))] else s.codes)
    case RevokeReplayed(f) =>
      var fl := s.flights[f];
      Emit(Finish(s, f), ReplayRevoked(fl.code, fl.grantId)).(grants := RevokeIn(s.grants, fl.grantId))
    case RevokeOther(g) => s.(grants := RevokeIn(s.grants, g))
    case PruneCodes => s.(codes := map c | c in s.codes && s.codes[c].expiresAt > s.now :: s.codes[c])
    case PrunePending => s.(pending := map p | p in s.pending && s.pending[p].expiresAt > s.now :: s.pending[p])
    case Lose(f) => Finish(s, f)
  }

  ghost predicate Start(s: State) {
    s == State(s.now, map[], map[], map[], 0, map[], 0, [])
  }

  ghost predicate Runs(s: State, actions: seq<Action>, end: State)
    decreases |actions|
  {
    if actions == [] then end == s
    else Enabled(s, actions[0]) && Runs(Next(s, actions[0]), actions[1..], end)
  }

  ghost predicate Reachable(end: State) {
    exists s, actions :: Start(s) && Runs(s, actions, end)
  }

  /* ------------------------------------------------------------------- runs */

  lemma RunNothing(s: State)
    ensures Runs(s, [], s)
  {
  }

  lemma {:induction false} RunAlso(was: State, so: seq<Action>, s: State, a: Action) returns (more: seq<Action>, t: State)
    requires Runs(was, so, s) && Enabled(s, a)
    ensures t == Next(s, a) && more == so + [a] && Runs(was, more, t)
    decreases |so|
  {
    hide Next, Enabled;
    t := Next(s, a);
    more := so + [a];
    if so == [] {
      assert Runs(t, [a][1..], t);
    } else {
      var rest, _ := RunAlso(Next(was, so[0]), so[1..], s, a);
      assert more[1..] == rest;
    }
  }
}
