/** What every reachable state of the refresh machine satisfies. */
module RefreshInvariant {
  import opened Basics
  import opened OAuthTables
  import opened SealedStore
  import opened RefreshMachine

  /** The supply is fresh: nothing committed or private has yet to be minted. */
  ghost predicate SupplyOk(s: State) {
    && (forall x :: x in s.past.born ==> x < s.next)
    && s.tables.refresh.Keys <= s.past.born
    && s.tables.access.Keys <= s.past.born
    && s.tables.grants.Keys <= s.past.born
    && (forall f :: f in s.flights ==> f < s.nextFlight)
    && (forall f :: f in s.past.ended ==> f < s.nextFlight)
  }

  /** Rows point at grants, and carry no more than their grant does. */
  ghost predicate RowsOk(s: State) {
    && (forall r :: r in s.tables.refresh ==>
          var row := s.tables.refresh[r];
          && row.grantId in s.tables.grants
          && row.audience == s.tables.grants[row.grantId].resource
          && Covers(s.tables.grants[row.grantId].scope, row.scope)
          && row.expiresAt <= s.now + REFRESH_TTL
          && (row.replacedBy.Some? <==> row.replacedAt.Some?))
    && (forall a :: a in s.tables.access ==>
          var row := s.tables.access[a];
          && row.grantId in s.tables.grants
          && row.audience == s.tables.grants[row.grantId].resource
          && Covers(s.tables.grants[row.grantId].scope, row.scope)
          && row.cnfJkt == s.tables.grants[row.grantId].dpopJkt)
  }

  /** The lines name every refresh token once, under its own grant. */
  ghost predicate Indexed(lines: map<GrantId, seq<Secret>>, grantOf: map<Secret, GrantId>) {
    && (forall r :: r in grantOf ==> grantOf[r] in lines && r in lines[grantOf[r]])
    && (forall g, r :: g in lines && r in lines[g] ==> r in grantOf && grantOf[r] == g)
    && (forall g :: g in lines ==> NoDuplicates(lines[g]))
  }

  ghost predicate HistoryOk(s: State) {
    && s.past.lines.Keys == s.tables.grants.Keys
    && s.past.grantOf.Keys <= s.past.born
    && s.past.bodies.Keys <= s.past.grantOf.Keys
    && Indexed(s.past.lines, s.past.grantOf)
    && (forall r :: r in s.tables.refresh ==> r in s.past.grantOf && s.past.grantOf[r] == s.tables.refresh[r].grantId)
  }

  /** A surviving token is followed in its line by its surviving successor, which lasts at least as long and may do no more. */
  ghost predicate Linked(line: seq<Secret>, refresh: map<Secret, RefreshRow>, i: nat)
    requires i < |line|
  {
    line[i] in refresh ==>
      var row := refresh[line[i]];
      if i + 1 == |line| then row.replacedBy == None
      else
        && row.replacedBy == Some(line[i + 1])
        && line[i + 1] in refresh
        && row.expiresAt <= refresh[line[i + 1]].expiresAt
        && Covers(row.scope, refresh[line[i + 1]].scope)
  }

  ghost predicate LineOk(line: seq<Secret>, refresh: map<Secret, RefreshRow>) {
    forall i :: 0 <= i < |line| ==> Linked(line, refresh, i)
  }

  ghost predicate LinesOk(s: State) {
    forall g :: g in s.past.lines ==> LineOk(s.past.lines[g], s.tables.refresh)
  }

  /** The token a client sent was committed before the request began. */
  ghost predicate PresentedOk(s: State, token: Secret, began: Time) {
    && began <= s.now
    && token < s.next
    && (forall h :: h in s.flights ==> token !in Private(s.flights[h]))
    && (token in s.tables.refresh ==> s.tables.refresh[token].expiresAt <= began + REFRESH_TTL)
  }

  /** What a snapshot saw of a grant is still so, except that the grant may since have been revoked. */
  ghost predicate SeenOk(s: State, seen: Tables) {
    forall g :: g in seen.grants ==>
      && g in s.tables.grants
      && s.tables.grants[g].clientId == seen.grants[g].clientId
      && s.tables.grants[g].dpopJkt == seen.grants[g].dpopJkt
      && (Revoked(seen, g) ==> Revoked(s.tables, g))
  }

  /** The request comes from the grant's own client and, if the grant is bound to a key, with that key. */
  ghost predicate Entitled(s: State, g: GrantId, req: Request) {
    && g in s.tables.grants
    && s.tables.grants[g].clientId == req.clientId
    && (s.tables.grants[g].dpopJkt.Some? ==> s.tables.grants[g].dpopJkt == req.jkt)
  }

  /** The scope a rotation grants: what was asked for, or else all the token has. */
  function ScopeAsked(row: RefreshRow, req: Request): seq<string> {
    if req.scope.Some? && req.scope.value != [] then req.scope.value else row.scope
  }

  /** The row a rotation holds: live, unspent, and presented by someone entitled to it for its own resource. */
  ghost predicate HoldingOk(s: State, token: Secret, req: Request, began: Time, scope: seq<string>) {
    && token in s.tables.refresh
    && token !in s.past.bodies
    && var row := s.tables.refresh[token];
       && row.replacedBy.None? && row.revokedAt.None? && began < row.expiresAt
       && Entitled(s, row.grantId, req)
       && (req.resource.Some? ==> req.resource.value == row.audience)
       && scope == ScopeAsked(row, req)
       && Covers(row.scope, scope)
  }

  ghost predicate MintedOk(s: State, token: Secret, issued: Issued) {
    && token in s.tables.refresh
    && var row := s.tables.refresh[token];
       && row.grantId in s.tables.grants
       && issued.refreshToken.Some?
       && issued.refreshToken.value != issued.accessToken
       && issued == MakeIssued(issued.accessToken, issued.refreshToken, row.audience, issued.scope,
                               s.tables.grants[row.grantId].dpopJkt)
  }

  ghost predicate CopyOk(s: State, key: Key, body: Issued, until: Time) {
    && (key in s.sealed ==> s.sealed[key].sealed.body == body)
    && (s.now < until ==> key in s.sealed && s.sealed[key].expiresAt >= until)
  }

  /** A prune that takes a token takes every surviving one before it. */
  ghost predicate TakesPrefix(line: seq<Secret>, refresh: map<Secret, RefreshRow>, doomed: set<Secret>) {
    forall i :: 0 <= i < |line| && line[i] in refresh && line[i] !in doomed ==> i + 1 == |line| || line[i + 1] !in doomed
  }

  ghost predicate FlightOk(s: State, fl: Flight) {
    match fl
    case Begun(token, req, began) => PresentedOk(s, token, began)
    case Waiting(token, req, began, seen) =>
      && PresentedOk(s, token, began) && SeenOk(s, seen)
      && token in s.past.grantOf && s.past.grantOf[token] in seen.grants
    case Chosen(token, req, began, scope) => PresentedOk(s, token, began) && HoldingOk(s, token, req, began, scope)
    case Minted(token, req, began, issued) =>
      PresentedOk(s, token, began) && HoldingOk(s, token, req, began, issued.scope) && MintedOk(s, token, issued)
    case Sealed(token, req, began, issued) =>
      && PresentedOk(s, token, began) && HoldingOk(s, token, req, began, issued.scope) && MintedOk(s, token, issued)
      && CopyOk(s, Key(req.clientId, token), issued, began + REFRESH_GRACE)
    case Rotated(token, req, issued) =>
      && token in s.past.bodies && s.past.bodies[token] == issued
      && token in s.past.grantOf && Entitled(s, s.past.grantOf[token], req)
    case Replaying(token, req) =>
      token in s.past.bodies && token in s.past.grantOf && Entitled(s, s.past.grantOf[token], req)
    case Revoking(theft, began, todo, statement, hit, doomed, marked) =>
      && statement < 3
      && (theft.Some? ==>
            && theft.value in s.past.grantOf
            && var g := s.past.grantOf[theft.value];
               && g in s.tables.grants
               && (g in hit || Revoked(s.tables, g) || (statement == 0 && todo != [] && todo[0] == g)))
    case Pruning(doomed) =>
      && doomed <= s.past.born
      && (forall g :: g in s.past.lines ==> TakesPrefix(s.past.lines[g], s.tables.refresh, doomed))
    case Establishing(began, g, grant, issued) =>
      && began <= s.now
      && grant.revokedAt.None?
      && issued == MakeIssued(issued.accessToken, issued.refreshToken, grant.resource, grant.scope, grant.dpopJkt)
      && g != issued.accessToken
      && (issued.refreshToken.Some? ==> issued.refreshToken.value !in {g, issued.accessToken})
  }

  ghost predicate FlightsOk(s: State) {
    forall f :: f in s.flights ==> FlightOk(s, s.flights[f])
  }

  ghost predicate PrivateOk(s: State) {
    && (forall f, x {:trigger x in Private(s.flights[f])} :: f in s.flights && x in Private(s.flights[f]) ==> x < s.next && x !in s.past.born)
    && (forall f, h, x :: f in s.flights && h in s.flights && x in Private(s.flights[f]) && x in Private(s.flights[h]) ==> f == h)
  }

  ghost predicate LocksOk(s: State) {
    forall f, h :: f in s.flights && h in s.flights && f != h && Held(s.flights[f]).Some? ==>
      Held(s.flights[f]) != Held(s.flights[h])
  }

  /** A retired token's response is on record, and its sealed copy is there for the whole grace window. */
  ghost predicate SealsOk(s: State) {
    && BoxesInPlace(s.sealed)
    && (forall key :: key in s.sealed ==>
          && key.token in s.past.grantOf
          && s.past.grantOf[key.token] in s.tables.grants
          && s.tables.grants[s.past.grantOf[key.token]].clientId == key.clientId
          && (key.token in s.past.bodies ==> s.sealed[key].sealed.body == s.past.bodies[key.token]))
    && (forall r :: r in s.tables.refresh ==>
          var row := s.tables.refresh[r];
          && (row.replacedBy.Some? <==> r in s.past.bodies)
          && (row.replacedBy.Some? ==>
                && row.replacedBy == s.past.bodies[r].refreshToken
                && row.replacedAt.Some?
                && row.grantId in s.tables.grants
                && CopyOk(s, Key(s.tables.grants[row.grantId].clientId, r), s.past.bodies[r], row.replacedAt.value + REFRESH_GRACE)))
  }

  /** Requests that are over: what they were answered, and what a theft did. */
  ghost predicate EndedOk(s: State) {
    forall f :: f in s.past.ended ==>
      match s.past.ended[f]
      case Answered(token, req, body) =>
        && token in s.past.bodies && s.past.bodies[token] == body
        && token in s.past.grantOf && Entitled(s, s.past.grantOf[token], req)
      case TheftFound(token) => token in s.past.grantOf && Revoked(s.tables, s.past.grantOf[token])
      case _ => true
  }

  ghost predicate Inv(s: State) {
    && SupplyOk(s) && RowsOk(s) && HistoryOk(s) && LinesOk(s)
    && FlightsOk(s) && PrivateOk(s) && LocksOk(s) && SealsOk(s) && EndedOk(s)
  }

  /** Steps that touch neither the tables nor the history of tokens. */
  ghost predicate Quiet(s: State, t: State) {
    && t.tables == s.tables && t.past == s.past.(ended := t.past.ended)
    && s.now <= t.now && s.next <= t.next && s.nextFlight <= t.nextFlight
  }

  lemma QuietKeepsTables(s: State, t: State)
    requires RowsOk(s) && HistoryOk(s) && LinesOk(s) && Quiet(s, t)
    ensures RowsOk(t) && HistoryOk(t) && LinesOk(t)
  {
  }

  lemma StartHolds(s: State)
    requires Start(s)
    ensures Inv(s)
  {
  }
}
