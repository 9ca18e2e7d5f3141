/**
 * Who gets which answer, in the fields of the stored rows and of the request: the
 * refresh grant (server/src/oauth/store.ts, token.ts), the verifier (verify.ts), and what
 * the tokens handed out are good for, and how long.
 */
module OAuthAnswers {
  import opened Basics
  import opened OAuthTables
  import opened SealedStore
  import opened OAuthStores
  import M = RefreshMachine
  import I = RefreshInvariant
  import T = RefreshTheorems

  /* ---------------------------------------------------------- the refresh grant */

  /**
   * A token not yet exchanged is exchanged if and only if it and its grant are unrevoked,
   * it is in time, and the request comes from the grant's client, with the grant's key if
   * it has one, for the token's own resource if it names one, and for no scope the token
   * lacks. The answer carries what was asked for, or all the token has.
   */
  lemma EntitledRefreshIsAnswered(w: World, token: Secret, req: Request, now: Time)
    requires token in w.tables.refresh && w.tables.refresh[token].grantId in w.tables.grants
    requires w.tables.refresh[token].replacedBy.None?
    ensures var row := w.tables.refresh[token];
            var grant := w.tables.grants[row.grantId];
            var answer := ExchangeAlone(w, token, req, now).1;
            && (answer.Tokens? <==>
                  && row.revokedAt.None? && grant.revokedAt.None? && now < row.expiresAt
                  && req.clientId == grant.clientId
                  && (grant.dpopJkt.Some? ==> req.jkt == grant.dpopJkt)
                  && (req.resource.Some? ==> req.resource.value == row.audience)
                  && (req.scope.Some? ==> forall entry :: entry in req.scope.value ==> entry in row.scope))
            && (answer.Tokens? ==>
                  && answer.body.scope == (if req.scope.Some? && req.scope.value != [] then req.scope.value else row.scope)
                  && answer.body.accessToken == w.supply && answer.body.refreshToken == Some(w.supply + 1)
                  && answer.body.expiresIn == (if row.audience == "http://localhost:4000" then 600 else 3600)
                  && answer.body.dpop == grant.dpopJkt.Some?)
  {
  }

  /** The refusals of such a token, each on its own condition, the first that applies; and a refusal changes nothing. */
  lemma RefusedRefreshIsToldWhy(w: World, token: Secret, req: Request, now: Time)
    requires token in w.tables.refresh && w.tables.refresh[token].grantId in w.tables.grants
    requires w.tables.refresh[token].replacedBy.None?
    ensures var row := w.tables.refresh[token];
            var grant := w.tables.grants[row.grantId];
            var (after, answer) := ExchangeAlone(w, token, req, now);
            var keyed := grant.dpopJkt.None? || req.jkt == grant.dpopJkt;
            var live := row.revokedAt.None? && grant.revokedAt.None? && now < row.expiresAt;
            var own := keyed && live && req.clientId == grant.clientId;
            var here := req.resource.None? || req.resource.value == row.audience;
            && (answer == Refused(InvalidDpop) <==> !keyed)
            && (answer == Refused(Dead) <==> keyed && !live)
            && (answer == Refused(WrongClient) <==> keyed && live && req.clientId != grant.clientId)
            && (answer == Refused(InvalidTarget) <==> own && !here)
            && (answer == Refused(InvalidScope) <==>
                  own && here && req.scope.Some? && exists entry :: entry in req.scope.value && entry !in row.scope)
            && (answer.Tokens? || after == w)
            && !answer.TheftFound? && !answer.CopyGone? && answer != Refused(Unknown)
  {
  }

  /**
   * A token already exchanged: theft, or a duplicate, or refused for its key or because
   * its grant is gone. Theft revokes the grant; a duplicate gets the sealed answer if it
   * is still kept, and the tables stay as they are.
   */
  lemma ReusedRefreshIsTheftOrDuplicate(w: World, token: Secret, req: Request, now: Time)
    requires token in w.tables.refresh && w.tables.refresh[token].grantId in w.tables.grants && BoxesInPlace(w.sealed)
    requires w.tables.refresh[token].replacedBy.Some?
    ensures var row := w.tables.refresh[token];
            var grant := w.tables.grants[row.grantId];
            var (after, answer) := ExchangeAlone(w, token, req, now);
            var keyed := grant.dpopJkt.None? || req.jkt == grant.dpopJkt;
            var used := row.replacedBy.value in w.tables.refresh &&
                        (w.tables.refresh[row.replacedBy.value].replacedBy.Some? || w.tables.refresh[row.replacedBy.value].revokedAt.Some?);
            var retried := row.replacedAt.Some? && now < row.replacedAt.value + 30 * SECOND && !used && req.clientId == grant.clientId;
            var key := Key(req.clientId, token);
            && (answer == Refused(InvalidDpop) <==> !keyed)
            && (answer == Refused(Dead) <==> keyed && grant.revokedAt.Some?)
            && (answer == TheftFound <==> keyed && grant.revokedAt.None? && !retried)
            && (answer.Tokens? <==> keyed && grant.revokedAt.None? && retried && key in w.sealed && now < w.sealed[key].expiresAt)
            && (answer.Tokens? ==> answer.body == w.sealed[key].sealed.body)
            && (answer.CopyGone? <==> keyed && grant.revokedAt.None? && retried && (key !in w.sealed || w.sealed[key].expiresAt <= now))
            && (answer == TheftFound ==>
                  && row.grantId in after.tables.grants && after.tables.grants[row.grantId].revokedAt == Some(now)
                  && forall a :: a in after.tables.access ==> after.tables.access[a].grantId != row.grantId)
            && (answer != TheftFound ==> after.tables == w.tables && after.supply == w.supply)
  {
  }

  /** A token the table does not hold, or whose grant is gone, is unknown, and only such a token is. */
  lemma UnknownRefreshIsRefused(w: World, token: Secret, req: Request, now: Time)
    ensures ExchangeAlone(w, token, req, now).1 == Refused(Unknown) <==>
      token !in w.tables.refresh || w.tables.refresh[token].grantId !in w.tables.grants
    ensures ExchangeAlone(w, token, req, now).1 == Refused(Unknown) ==> ExchangeAlone(w, token, req, now).0 == w
  {
  }

  /* -------------------------------------- the same, among interleaved statements */

  /**
   * What the SELECT decides once it holds a row not yet exchanged: the row is the
   * current one, the grant is as the snapshot saw it, and the clock is the
   * transaction's own.
   */
  lemma LockDecidesExactly(s: M.State, f: M.FlightId)
    requires M.Enabled(s, M.TakeLock(f))
    requires s.flights[f].token in s.tables.refresh && s.tables.refresh[s.flights[f].token].grantId in s.flights[f].seen.grants
    requires s.tables.refresh[s.flights[f].token].replacedBy.None?
    ensures var fl, t := s.flights[f], M.Next(s, M.TakeLock(f));
            var row := s.tables.refresh[fl.token];
            var grant := fl.seen.grants[row.grantId];
            var keyed := grant.dpopJkt.None? || fl.req.jkt == grant.dpopJkt;
            var live := row.revokedAt.None? && grant.revokedAt.None? && fl.began < row.expiresAt;
            var own := keyed && live && fl.req.clientId == grant.clientId;
            var here := fl.req.resource.None? || fl.req.resource.value == row.audience;
            var within := fl.req.scope.None? || forall entry :: entry in fl.req.scope.value ==> entry in row.scope;
            && (f in t.flights <==> own && here && within)
            && (f in t.flights ==> t.flights[f] == M.Chosen(fl.token, fl.req, fl.began,
                  if fl.req.scope.Some? && fl.req.scope.value != [] then fl.req.scope.value else row.scope))
            && (f !in t.flights ==> f in t.past.ended && t.past.ended[f] == M.Refused(fl.token,
                  if !keyed then InvalidDpop else if !live then Dead else if !own then WrongClient else if !here then InvalidTarget
                  else InvalidScope))
            && t.tables == s.tables
  {
  }

  /** And once it holds a row already exchanged. */
  lemma LockJudgesReuseExactly(s: M.State, f: M.FlightId)
    requires M.Enabled(s, M.TakeLock(f))
    requires s.flights[f].token in s.tables.refresh && s.tables.refresh[s.flights[f].token].grantId in s.flights[f].seen.grants
    requires s.tables.refresh[s.flights[f].token].replacedBy.Some?
    ensures var fl, t := s.flights[f], M.Next(s, M.TakeLock(f));
            var row := s.tables.refresh[fl.token];
            var grant, heir := fl.seen.grants[row.grantId], row.replacedBy.value;
            var keyed := grant.dpopJkt.None? || fl.req.jkt == grant.dpopJkt;
            var used := heir in fl.seen.refresh && (fl.seen.refresh[heir].replacedBy.Some? || fl.seen.refresh[heir].revokedAt.Some?);
            var retried := row.replacedAt.Some? && fl.began < row.replacedAt.value + 30 * SECOND && !used && fl.req.clientId == grant.clientId;
            && (f !in t.flights <==> !keyed || grant.revokedAt.Some?)
            && (f !in t.flights ==> f in t.past.ended && t.past.ended[f] == M.Refused(fl.token, if !keyed then InvalidDpop else Dead))
            && (f in t.flights ==>
                  t.flights[f] == if retried then M.Replaying(fl.token, fl.req) else M.Revoking(Some(fl.token), fl.began, [row.grantId], 0, {}, {}, {}))
            && t.tables == s.tables
  {
  }

  /* ------------------------------------------------------------ what tokens do */

  /** A token verifies if and only if it is in time, its grant lives, it is for this audience, and it has every scope asked for. */
  lemma VerifiesExactly(t: Tables, token: Secret, required: seq<string>, audience: string, now: Time)
    requires token in t.access && t.access[token].grantId in t.grants
    ensures var row := t.access[token];
            var grant, verified := t.grants[row.grantId], VerifyAccess(t, token, required, audience, now);
            var live := now < row.expiresAt && grant.revokedAt.None? && row.audience == audience;
            && (verified.Valid? <==> live && forall scope :: scope in required ==> scope in row.scope)
            && (verified.Valid? ==>
                  && verified.accountId == grant.accountId && verified.clientId == grant.clientId && verified.grantId == row.grantId
                  && verified.scopes == row.scope && verified.cnfJkt == row.cnfJkt
                  && -500 <= verified.expiresIn * 1000 - (row.expiresAt - now) <= 500)
            && (verified.InsufficientScope? <==> live && exists scope :: scope in required && scope !in row.scope)
            && (verified.InsufficientScope? ==> verified == Verified.InsufficientScope(row.grantId, row.scope, required))
  {
  }

  /** What a fresh pair of tokens is worth: the row of each, and every other token's row untouched. */
  ghost predicate Handed(t: Tables, u: Tables, g: GrantId, audience: string, jkt: Option<string>, body: Issued, now: Time) {
    && body.accessToken in u.access
    && u.access[body.accessToken] == AccessRow(g, audience, body.scope, jkt, now + (if audience == "http://localhost:4000" then 600000 else 3600000))
    && u.access == t.access[body.accessToken := u.access[body.accessToken]]
    && (body.refreshToken.Some? ==>
          body.refreshToken.value in u.refresh
          && u.refresh[body.refreshToken.value] == RefreshRow(g, audience, body.scope, None, None, None, now + 2592000000))
    && body.dpop == jkt.Some? && body.expiresIn == if audience == "http://localhost:4000" then 600 else 3600
  }

  /**
   * What a rotation hands out works, and for how long: the access token verifies for the
   * scopes it was given until 10 minutes, or for another audience than the API an hour,
   * have passed, and the refresh token is exchanged for the same client and key until 30
   * days have.
   */
  lemma RotatedTokensWork(w: World, token: Secret, req: Request, now: Time, required: seq<string>, again: Request, later: Time)
    requires Consistent(w.tables, w.supply) && now <= later
    requires token in w.tables.refresh && w.tables.refresh[token].replacedBy.None? && ExchangeAlone(w, token, req, now).1.Tokens?
    requires again == req.(resource := None, scope := None)
    ensures var row := w.tables.refresh[token];
            var (after, answer) := ExchangeAlone(w, token, req, now);
            && Handed(w.tables, after.tables, row.grantId, row.audience, w.tables.grants[row.grantId].dpopJkt, answer.body, now)
            && (VerifyAccess(after.tables, answer.body.accessToken, required, row.audience, later).Valid? <==>
                  later < now + answer.body.expiresIn * 1000 && forall scope :: scope in required ==> scope in answer.body.scope)
            && (ExchangeAlone(after, answer.body.refreshToken.value, again, later).1.Tokens? <==> later < now + 2592000000)
            && after.tables.grants == w.tables.grants
            && (forall r :: r in w.tables.refresh && r != token ==> r in after.tables.refresh && after.tables.refresh[r] == w.tables.refresh[r])
            && token in after.tables.refresh
            && after.tables.refresh[token] == row.(replacedBy := answer.body.refreshToken, replacedAt := Some(now))
  {
    var row := w.tables.refresh[token];
    var (after, answer) := ExchangeAlone(w, token, req, now);
    EntitledRefreshIsAnswered(w, token, req, now);
    RotationHands(w, token, answer.body, now);
    VerifiesExactly(after.tables, answer.body.accessToken, required, row.audience, later);
    EntitledRefreshIsAnswered(after, answer.body.refreshToken.value, again, later);
  }

  lemma RotationHands(w: World, token: Secret, body: Issued, now: Time)
    requires Consistent(w.tables, w.supply) && token in w.tables.refresh && w.tables.refresh[token].replacedBy.None?
    requires w.tables.refresh[token].grantId in w.tables.grants && body == RotationIssues(w, token, body.scope)
    ensures var row, u := w.tables.refresh[token], ApplyRotation(w.tables, token, body, now);
            && Handed(w.tables, u, row.grantId, row.audience, w.tables.grants[row.grantId].dpopJkt, body, now)
            && u.refresh == w.tables.refresh[w.supply + 1 := u.refresh[w.supply + 1]][token := row.(replacedBy := Some(w.supply + 1), replacedAt := Some(now))]
  {
  }

  /** So do the first tokens of a new grant. */
  lemma FirstTokensWork(
    w: World, g: GrantId, grant: Grant, withRefresh: bool, now: Time, required: seq<string>, req: Request, later: Time)
    requires Consistent(w.tables, w.supply) && g == w.supply && grant.revokedAt.None? && now <= later
    requires req == Request(grant.clientId, None, None, grant.dpopJkt)
    ensures var body := MakeIssued(g + 1, if withRefresh then Some(g + 2) else None, grant.resource, grant.scope, grant.dpopJkt);
            var after := ApplyGrant(w.tables, g, grant, body, now);
            && Handed(w.tables, after, g, grant.resource, grant.dpopJkt, body, now)
            && after.grants == w.tables.grants[g := grant] && body.scope == grant.scope
            && (VerifyAccess(after, body.accessToken, required, grant.resource, later).Valid? <==>
                  later < now + body.expiresIn * 1000 && forall scope :: scope in required ==> scope in grant.scope)
            && (withRefresh ==>
                  (ExchangeAlone(World(after, w.sealed, g + 3), g + 2, req, later).1.Tokens? <==> later < now + 2592000000))
  {
    var body := MakeIssued(g + 1, if withRefresh then Some(g + 2) else None, grant.resource, grant.scope, grant.dpopJkt);
    var after := ApplyGrant(w.tables, g, grant, body, now);
    VerifiesExactly(after, body.accessToken, required, grant.resource, later);
    if withRefresh { EntitledRefreshIsAnswered(World(after, w.sealed, g + 3), g + 2, req, later); }
  }

  /* ------------------------------------------------- revocation and pruning */

  /** Revoking a grant, row by row: nothing but the grant and what it issued changes, and what was revoked before keeps its time. */
  lemma RevokedRowByRow(t: Tables, g: GrantId, now: Time, grant: GrantId, token: Secret)
    ensures var u := RevokedAlone(t, g, now);
            && u.grants.Keys == t.grants.Keys && u.refresh.Keys == t.refresh.Keys
            && (grant in t.grants ==>
                  u.grants[grant] == if grant == g && t.grants[g].revokedAt.None? then t.grants[g].(revokedAt := Some(now)) else t.grants[grant])
            && (token in u.access <==> token in t.access && t.access[token].grantId != g)
            && (token in u.access ==> u.access[token] == t.access[token])
            && (token in t.refresh ==>
                  u.refresh[token] ==
                    if t.refresh[token].grantId == g && t.refresh[token].revokedAt.None? then t.refresh[token].(revokedAt := Some(now))
                    else t.refresh[token])
  {
  }

  function Pruned(t: Tables, now: Time): Tables {
    t.(access := t.access - ExpiredAccess(t, now), refresh := t.refresh - ExpiredRefresh(t, now))
  }

  /**
   * Pruning expired tokens is unobservable to everybody whose token is not pruned: in any
   * reachable state every access token verifies as before, and every refresh token still
   * there is answered as before, a reuse still being found.
   */
  lemma PruningIsUnobservable(
    s: M.State, token: Secret, required: seq<string>, audience: string, req: Request, sealed: Entries, supply: Secret, later: Time)
    requires M.Reachable(s) && s.now <= later
    ensures var t, u := s.tables, Pruned(s.tables, s.now);
            && u.grants == t.grants
            && VerifyAccess(u, token, required, audience, later) == VerifyAccess(t, token, required, audience, later)
            && (token in u.access <==> token in t.access && s.now < t.access[token].expiresAt)
            && (token in u.refresh <==> token in t.refresh && s.now < t.refresh[token].expiresAt)
            && (token in u.refresh ==>
                  ExchangeAlone(World(u, sealed, supply), token, req, later).1 == ExchangeAlone(World(t, sealed, supply), token, req, later).1)
  {
    hide M.Reachable, ExchangeAlone;
    var u := Pruned(s.tables, s.now);
    if token in u.refresh {
      if s.tables.refresh[token].replacedBy.Some? { HeirOutlives(s, token); }
      SameRowSameAnswer(World(s.tables, sealed, supply), u, token, req, later);
    }
  }

  /** The row that replaced a token is pruned no earlier than the token's own. */
  lemma HeirOutlives(s: M.State, token: Secret)
    requires M.Reachable(s) && token in s.tables.refresh && s.tables.refresh[token].replacedBy.Some?
    ensures var heir := s.tables.refresh[token].replacedBy.value;
            heir in s.tables.refresh ==> s.tables.refresh[token].expiresAt <= s.tables.refresh[heir].expiresAt
  {
    T.ReachableHolds(s);
    hide M.Reachable, I.FlightsOk, I.PrivateOk, I.LocksOk, I.SealsOk, I.EndedOk, I.RowsOk;
    var line := s.past.lines[s.tables.refresh[token].grantId];
    var i :| 0 <= i < |line| && line[i] == token;
    assert I.Linked(line, s.tables.refresh, i);
  }

  lemma SameRowSameAnswer(w: World, u: Tables, token: Secret, req: Request, now: Time)
    requires token in w.tables.refresh && token in u.refresh && u.refresh[token] == w.tables.refresh[token] && u.grants == w.tables.grants
    requires w.tables.refresh[token].replacedBy.Some? ==>
      var heir := w.tables.refresh[token].replacedBy.value;
      (heir in u.refresh <==> heir in w.tables.refresh) && (heir in u.refresh ==> u.refresh[heir] == w.tables.refresh[heir])
    ensures ExchangeAlone(World(u, w.sealed, w.supply), token, req, now).1 == ExchangeAlone(w, token, req, now).1
  {
    hide RevokedAlone, ApplyRotation, SealIn, UnsealIn, AfterUnseal, Decide;
  }

  /* ------------------------- the other operations are runs of the statements too */

  /** Establishing a grant alone, revoking one alone, and pruning alone leave what the store's methods leave. */
  lemma EstablishIsARun(s: M.State, grant: Grant, withRefresh: bool) returns (actions: seq<M.Action>, end: M.State)
    requires s.flights == map[] && grant.revokedAt.None?
    ensures M.Runs(s, actions, end) && end.flights == map[] && end.now == s.now && end.sealed == s.sealed && end.next >= s.next
    ensures var body := MakeIssued(s.next + 1, if withRefresh then Some(s.next + 2) else None, grant.resource, grant.scope, grant.dpopJkt);
            end.tables == ApplyGrant(s.tables, s.next, grant, body, s.now)
  {
    hide M.Runs, ApplyGrant;
    var f := s.nextFlight;
    M.RunNothing(s);
    actions, end := M.RunAlso(s, [], s, M.BeginEstablish(grant.accountId, grant.clientId, grant.resource, grant.scope, grant.dpopJkt, withRefresh));
    actions, end := M.RunAlso(s, actions, end, M.CommitEstablish(f));
  }

  lemma RevokeIsARun(s: M.State, g: GrantId) returns (actions: seq<M.Action>, end: M.State)
    requires s.flights == map[]
    ensures M.Runs(s, actions, end) && end.flights == map[] && end.now == s.now && end.sealed == s.sealed && end.next == s.next
    ensures end.tables == RevokedAlone(s.tables, g, s.now)
  {
    hide M.Runs, ApplyRevocation, LiveGrants, AccessOf, UnrevokedRefreshOf;
    actions, end := StatementsRun(s, g);
    actions, end := M.RunAlso(s, actions, end, M.CommitRevoke(s.nextFlight));
  }

  lemma StatementsRun(s: M.State, g: GrantId) returns (actions: seq<M.Action>, end: M.State)
    requires s.flights == map[]
    ensures M.Runs(s, actions, end)
    ensures end == M.Launch(s, M.Revoking(None, s.now, [], 0, LiveGrants(s.tables, g), AccessOf(s.tables, g), UnrevokedRefreshOf(s.tables, g)))
  {
    hide M.Runs, ApplyRevocation, LiveGrants, AccessOf, UnrevokedRefreshOf;
    var f, none := s.nextFlight, {};
    assert [g][1..] == [];
    assert none + LiveGrants(s.tables, g) == LiveGrants(s.tables, g);
    assert none + AccessOf(s.tables, g) == AccessOf(s.tables, g);
    assert none + UnrevokedRefreshOf(s.tables, g) == UnrevokedRefreshOf(s.tables, g);
    M.RunNothing(s);
    actions, end := M.RunAlso(s, [], s, M.BeginRevoke([g]));
    actions, end := M.RunAlso(s, actions, end, M.RevokeStatement(f));
    actions, end := M.RunAlso(s, actions, end, M.RevokeStatement(f));
    actions, end := M.RunAlso(s, actions, end, M.RevokeStatement(f));
  }

  lemma PruneIsARun(s: M.State) returns (actions: seq<M.Action>, end: M.State)
    requires s.flights == map[]
    ensures M.Runs(s, actions, end) && end.flights == map[] && end.now == s.now && end.sealed == s.sealed && end.next == s.next
    ensures end.tables == Pruned(s.tables, s.now)
  {
    hide M.Runs;
    var f := s.nextFlight;
    M.RunNothing(s);
    actions, end := M.RunAlso(s, [], s, M.PruneAccess);
    actions, end := M.RunAlso(s, actions, end, M.BeginPrune);
    assert end.flights[f].doomed == ExpiredRefresh(s.tables, s.now);
    actions, end := M.RunAlso(s, actions, end, M.FinishPrune(f));
  }
}
