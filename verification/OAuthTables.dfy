/**
 * The authorization server's grant and token tables, and what each database
 * statement of server/src/oauth/store.ts and verify.ts does to them.
 *
 * A secret and its stored digest are one value here: with a single pepper the
 * digest is injective, so a lookup by digest is a lookup by secret.
 */
module OAuthTables {
  import opened Basics

  /** Tokens, codes and grant ids all come from one supply of fresh values. */
  type Secret = nat
  type GrantId = Secret

  const REFRESH_GRACE: Time := 30 * SECOND
  const REFRESH_TTL: Time := 30 * 24 * 3600 * SECOND
  const ACCESS_TTL_SECONDS: nat := 3600
  const NATIVE_ACCESS_TTL_SECONDS: nat := 600
  const RESOURCE_URI: string := "http://localhost:4000/mcp"
  const API_RESOURCE: string := "http://localhost:4000"

  datatype Grant = Grant(
    accountId: string, clientId: string, resource: string, scope: seq<string>,
    dpopJkt: Option<string>, revokedAt: Option<Time>)

  datatype AccessRow = AccessRow(
    grantId: GrantId, audience: string, scope: seq<string>, cnfJkt: Option<string>, expiresAt: Time)

  datatype RefreshRow = RefreshRow(
    grantId: GrantId, audience: string, scope: seq<string>,
    replacedBy: Option<Secret>, replacedAt: Option<Time>, revokedAt: Option<Time>, expiresAt: Time)

  datatype Tables = Tables(
    grants: map<GrantId, Grant>, access: map<Secret, AccessRow>, refresh: map<Secret, RefreshRow>)

  /** What the token endpoint answers with; the sealed copy holds the same value. */
  datatype Issued = Issued(
    accessToken: Secret, refreshToken: Option<Secret>, dpop: bool, expiresIn: nat, scope: seq<string>)

  function AccessLifetime(audience: string): nat {
    if audience == API_RESOURCE then NATIVE_ACCESS_TTL_SECONDS else ACCESS_TTL_SECONDS
  }

  function MakeIssued(
    accessToken: Secret, refreshToken: Option<Secret>, audience: string, scope: seq<string>, cnfJkt: Option<string>
  ): Issued
  {
    Issued(accessToken, refreshToken, cnfJkt.Some?, AccessLifetime(audience), scope)
  }

  /** The two INSERTs of issueTokens, as of the transaction's clock. */
  function InsertIssued(t: Tables, g: GrantId, audience: string, cnfJkt: Option<string>, issued: Issued, began: Time): Tables {
    var access := t.access[issued.accessToken :=
      AccessRow(g, audience, issued.scope, cnfJkt, began + issued.expiresIn * SECOND)];
    var refresh := match issued.refreshToken
      case None => t.refresh
      case Some(r) => t.refresh[r := RefreshRow(g, audience, issued.scope, None, None, None, began + REFRESH_TTL)];
    t.(access := access, refresh := refresh)
  }

  /* ---------------------------------------------------------------- refresh */

  datatype Request = Request(
    clientId: string, resource: Option<string>,
    /** The scope parameter split at whitespace; None when absent or blank. */
    scope: Option<seq<string>>,
    /** Thumbprint of the key whose proof accompanied the request. */
    jkt: Option<string>)

  datatype Refusal = Unknown | Dead | WrongClient | InvalidTarget | InvalidScope | InvalidDpop

  datatype Decision = Refuse(why: Refusal) | Replay | Theft | Rotate(scope: seq<string>)

  predicate WithinGrace(row: RefreshRow, now: Time) {
    row.replacedAt.Some? && row.replacedAt.value > now - REFRESH_GRACE
  }

  /** The EXISTS subquery of rotateRefresh's SELECT. */
  predicate SuccessorUsed(refresh: map<Secret, RefreshRow>, row: RefreshRow) {
    && row.replacedBy.Some?
    && row.replacedBy.value in refresh
    && var s := refresh[row.replacedBy.value];
       s.replacedBy.Some? || s.revokedAt.Some?
  }

  /** Everything rotateRefresh decides between its SELECT and its first write. */
  function Decide(row: RefreshRow, grant: Grant, successorUsed: bool, now: Time, req: Request): Decision {
    if grant.dpopJkt.Some? && grant.dpopJkt != req.jkt then Refuse(InvalidDpop)
    else if row.replacedBy.Some? then
      if grant.revokedAt.Some? then Refuse(Dead)
      else if WithinGrace(row, now) && !successorUsed && grant.clientId == req.clientId then Replay
      else Theft
    else if row.revokedAt.Some? || grant.revokedAt.Some? || row.expiresAt <= now then Refuse(Dead)
    else if grant.clientId != req.clientId then Refuse(WrongClient)
    else if req.resource.Some? && req.resource.value != row.audience then Refuse(InvalidTarget)
    else
      match req.scope
      case None => Rotate(row.scope)
      case Some(requested) =>
        if requested == [] then Rotate(row.scope)
        else if !Covers(row.scope, requested) then Refuse(InvalidScope)
        else Rotate(requested)
  }

  /** The guarded UPDATE that retires the presented token. */
  function Retire(refresh: map<Secret, RefreshRow>, token: Secret, successor: Secret, now: Time): map<Secret, RefreshRow> {
    if token in refresh && refresh[token].replacedBy.None? then
      refresh[token := refresh[token].(replacedBy := Some(successor), replacedAt := Some(now))]
    else refresh
  }

  /** A rotation's writes, as they appear when its transaction commits. */
  function ApplyRotation(t: Tables, token: Secret, issued: Issued, began: Time): Tables
    requires token in t.refresh && t.refresh[token].grantId in t.grants && issued.refreshToken.Some?
  {
    var row := t.refresh[token];
    var inserted := InsertIssued(t, row.grantId, row.audience, t.grants[row.grantId].dpopJkt, issued, began);
    inserted.(refresh := Retire(inserted.refresh, token, issued.refreshToken.value, began))
  }

  /* ------------------------------------------------------------- revocation */

  function Mark(at: Option<Time>, now: Time): Option<Time> { if at.Some? then at else Some(now) }

  /** revokeGrant's three statements: the grants they hit, the access rows they delete, the refresh rows they mark. */
  function ApplyRevocation(t: Tables, hit: set<GrantId>, doomed: set<Secret>, marked: set<Secret>, began: Time): Tables {
    Tables(
      map g | g in t.grants :: if g in hit then t.grants[g].(revokedAt := Mark(t.grants[g].revokedAt, began)) else t.grants[g],
      t.access - doomed,
      map r | r in t.refresh :: if r in marked then t.refresh[r].(revokedAt := Mark(t.refresh[r].revokedAt, began)) else t.refresh[r])
  }

  /** The WHERE clauses of those three statements, as one statement's snapshot selects them. */
  function LiveGrants(t: Tables, g: GrantId): set<GrantId> {
    if g in t.grants && t.grants[g].revokedAt.None? then {g} else {}
  }

  function AccessOf(t: Tables, g: GrantId): set<Secret> {
    set a | a in t.access && t.access[a].grantId == g
  }

  function UnrevokedRefreshOf(t: Tables, g: GrantId): set<Secret> {
    set r | r in t.refresh && t.refresh[r].grantId == g && t.refresh[r].revokedAt.None?
  }

  predicate Revoked(t: Tables, g: GrantId) { g in t.grants && t.grants[g].revokedAt.Some? }

  /* ------------------------------------------------------ grants and pruning */

  /** establishGrant's writes to these tables. */
  function ApplyGrant(t: Tables, g: GrantId, grant: Grant, issued: Issued, began: Time): Tables {
    InsertIssued(t.(grants := t.grants[g := grant]), g, grant.resource, grant.dpopJkt, issued, began)
  }

  function ExpiredRefresh(t: Tables, now: Time): set<Secret> {
    set r | r in t.refresh && t.refresh[r].expiresAt <= now
  }

  function ExpiredAccess(t: Tables, now: Time): set<Secret> {
    set a | a in t.access && t.access[a].expiresAt <= now
  }

  /* ----------------------------------------------------------- verification */

  datatype Verified =
    | Valid(accountId: string, clientId: string, grantId: GrantId, scopes: seq<string>, expiresIn: nat, cnfJkt: Option<string>)
    | InvalidToken
    | InsufficientScope(grantId: GrantId, granted: seq<string>, required: seq<string>)

  /** SQL's cast of fractional seconds to int: to nearest, halves upward, never below zero. */
  function RoundSeconds(ms: Time): (s: nat)
    ensures ms >= 0 ==> -500 <= s * SECOND - ms <= 500
  {
    if ms <= 0 then 0 else (ms + 500) / SECOND
  }

  /** verifyOAuthAccessToken: one SELECT joining token and grant, then the audience and scope checks. */
  function VerifyAccess(t: Tables, token: Secret, required: seq<string>, audience: string, now: Time): Verified {
    if token !in t.access || t.access[token].grantId !in t.grants then InvalidToken
    else
      var row := t.access[token];
      var grant := t.grants[row.grantId];
      if row.expiresAt <= now || grant.revokedAt.Some? then InvalidToken
      else if row.audience != audience then InvalidToken
      else if !Covers(row.scope, required) then InsufficientScope(row.grantId, row.scope, required)
      else Valid(grant.accountId, grant.clientId, row.grantId, row.scope, RoundSeconds(row.expiresAt - now), row.cnfJkt)
  }
}
