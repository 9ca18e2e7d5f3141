/**
 * An edge credential in, a one-minute internal token out (server/src/oauth/exchange.ts),
 * and what the Device Service checks of it (server/src/device-service/verify.ts).
 *
 * A signed token is its claims: what nobody signed, nobody can present.
 */
module TokenExchange {
  import opened Basics
  import opened OAuthTables

  const INTERNAL_TOKEN_TTL_SECONDS: nat := 60
  const CLOCK_TOLERANCE_SECONDS: nat := 30

  datatype WorkloadName = McpResourceServer | ApiGateway

  /** What a workload's tokens are bound to: a value of its process, or its certificate. */
  datatype Confirmation = Jkt(value: string) | Certificate(thumbprint: string)

  datatype Workload = Workload(name: WorkloadName, cnf: Confirmation)

  datatype Channel = Mcp | Native

  datatype Claims = Claims(
    sub: string, iat: int, exp: int, clientId: string, grantId: GrantId, scope: string,
    channel: Channel, authMethod: string, act: WorkloadName, cnf: Confirmation)

  datatype ExchangeError = Unauthenticated | InsufficientScope

  datatype Exchanged = Exchanged(claims: Claims, expiresIn: nat) | Failed(error: ExchangeError)

  function AudienceOf(name: WorkloadName): string {
    if name.McpResourceServer? then RESOURCE_URI else API_RESOURCE
  }

  function AuthMethod(name: WorkloadName, cnfJkt: Option<string>): string {
    if name.ApiGateway? && cnfJkt.Some? then "oauth-dpop" else "oauth"
  }

  /** resolveSubject and exchangeToken, on one reading of the clock. */
  function Exchange(t: Tables, workload: Workload, credential: Secret, scope: string, now: Time): Exchanged {
    match VerifyAccess(t, credential, [scope], AudienceOf(workload.name), now)
    case InvalidToken => Failed(Unauthenticated)
    case InsufficientScope(_, _, _) => Failed(ExchangeError.InsufficientScope)
    case Valid(accountId, clientId, grantId, _, remaining, cnfJkt) =>
      var expiresIn := Min(INTERNAL_TOKEN_TTL_SECONDS, remaining);
      if expiresIn <= 0 then Failed(Unauthenticated)
      else
        var iat := FloorSeconds(now);
        var channel := if workload.name.McpResourceServer? then Mcp else Native;
        Exchanged(
          Claims(accountId, iat, iat + expiresIn, clientId, grantId, scope, channel,
                 AuthMethod(workload.name, cnfJkt), workload.name, workload.cnf),
          expiresIn)
  }

  datatype Operation = List | Get | Add | Control

  function ScopeOf(operation: Operation): string {
    match operation
    case List => "devices:read"
    case Get => "devices:read"
    case Add => "devices:create"
    case Control => "devices:control"
  }

  datatype Identity = Identity(accountId: string, clientId: string, grantId: GrantId, channel: Channel, via: WorkloadName)

  /** verifyInternalToken: the clock, then the caller, then the scope. */
  function VerifyInternal(claims: Claims, peer: Workload, required: string, now: Time): Option<Identity> {
    if claims.exp <= FloorSeconds(now) - CLOCK_TOLERANCE_SECONDS then None
    else if claims.act != peer.name then None
    else if claims.cnf != peer.cnf then None
    else if claims.scope != required then None
    else Some(Identity(claims.sub, claims.clientId, claims.grantId, claims.channel, claims.act))
  }

  /**
   * When an exchange is granted, exactly, and what it signs: the credential has half a
   * second left, its grant lives, it is for the adapter's own resource, and it has the
   * scope. The token is for that scope and grant, for at most a minute.
   */
  lemma ExchangedExactly(t: Tables, workload: Workload, credential: Secret, scope: string, now: Time)
    requires credential in t.access && t.access[credential].grantId in t.grants
    ensures var row, exchanged := t.access[credential], Exchange(t, workload, credential, scope, now);
            var grant, mcp := t.grants[row.grantId], workload.name.McpResourceServer?;
            var live := now < row.expiresAt && grant.revokedAt.None?
                        && row.audience == if mcp then "http://localhost:4000/mcp" else "http://localhost:4000";
            && (exchanged.Exchanged? <==> live && scope in row.scope && now + 500 <= row.expiresAt)
            && (exchanged == Failed(ExchangeError.InsufficientScope) <==> live && scope !in row.scope)
            && (exchanged.Exchanged? ==>
                  var c := exchanged.claims;
                  && c.sub == grant.accountId && c.clientId == grant.clientId && c.grantId == row.grantId && c.scope == scope
                  && c.act == workload.name && c.cnf == workload.cnf && c.channel == (if mcp then Mcp else Native)
                  && c.authMethod == (if !mcp && row.cnfJkt.Some? then "oauth-dpop" else "oauth")
                  && c.iat * 1000 <= now < (c.iat + 1) * 1000 && c.exp == c.iat + exchanged.expiresIn
                  && 1 <= exchanged.expiresIn <= 60
                  && (now + 59500 <= row.expiresAt ==> exchanged.expiresIn == 60)
                  && (row.expiresAt < now + 59500 ==> -500 <= exchanged.expiresIn * 1000 - (row.expiresAt - now) <= 500))
  {
    if scope in t.access[credential].scope { assert Covers(t.access[credential].scope, [scope]); } else { assert scope in [scope]; }
  }

  /** An internal token outlives the credential it was exchanged from by at most the half-second rounding. */
  lemma NeverOutlivesTheCredential(t: Tables, workload: Workload, credential: Secret, scope: string, now: Time)
    requires Exchange(t, workload, credential, scope, now).Exchanged?
    ensures credential in t.access
    ensures Exchange(t, workload, credential, scope, now).claims.exp * SECOND <= t.access[credential].expiresAt + 500
  {
  }

  /**
   * The exact life of an internal token: it is accepted from its own workload, for its
   * own scope, until 30 seconds past its expiry, and from nobody else, for nothing else.
   */
  lemma AcceptedExactly(t: Tables, workload: Workload, credential: Secret, scope: string, now: Time,
                        peer: Workload, required: string, later: Time)
    requires Exchange(t, workload, credential, scope, now).Exchanged?
    ensures var exchanged := Exchange(t, workload, credential, scope, now);
            VerifyInternal(exchanged.claims, peer, required, later).Some? <==>
              peer == workload && required == scope
              && later < (FloorSeconds(now) + exchanged.expiresIn + 30) * 1000
    ensures var exchanged := Exchange(t, workload, credential, scope, now);
            VerifyInternal(exchanged.claims, peer, required, later).Some? ==>
              var grant := t.grants[t.access[credential].grantId];
              VerifyInternal(exchanged.claims, peer, required, later).value ==
                Identity(grant.accountId, grant.clientId, t.access[credential].grantId,
                         if workload.name.McpResourceServer? then Mcp else Native, workload.name)
  {
  }

  /** No token is accepted 90 seconds after its exchange; one exchanged on the second, for a credential with a minute left, is until then. */
  lemma NinetySecondsAtMost(t: Tables, workload: Workload, credential: Secret, scope: string, now: Time, later: Time)
    requires Exchange(t, workload, credential, scope, now).Exchanged?
    ensures VerifyInternal(Exchange(t, workload, credential, scope, now).claims, workload, scope, later).Some? ==> later < now + 90 * SECOND
    ensures now % SECOND == 0 && t.access[credential].expiresAt >= now + 60 * SECOND && later < now + 90 * SECOND ==>
      VerifyInternal(Exchange(t, workload, credential, scope, now).claims, workload, scope, later).Some?
  {
  }

  /** The scope in a token is one the credential holds, at the adapter's own resource, while its grant lives. */
  lemma ExchangeIsEntitled(t: Tables, workload: Workload, credential: Secret, scope: string, now: Time)
    ensures Exchange(t, workload, credential, scope, now).Exchanged? ==>
      var claims := Exchange(t, workload, credential, scope, now).claims;
      && credential in t.access && t.access[credential].grantId == claims.grantId && claims.grantId in t.grants
      && !Revoked(t, claims.grantId) && scope in t.access[credential].scope && claims.scope == scope
      && t.access[credential].audience == AudienceOf(workload.name)
      && claims.sub == t.grants[claims.grantId].accountId && claims.clientId == t.grants[claims.grantId].clientId
      && claims.act == workload.name && claims.cnf == workload.cnf && claims.exp <= FloorSeconds(now) + 60
  {
    var verified := VerifyAccess(t, credential, [scope], AudienceOf(workload.name), now);
    if verified.Valid? {
      assert Covers(t.access[credential].scope, [scope]);
      assert scope in [scope];
    }
  }
}
