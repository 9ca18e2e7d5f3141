/**
 * The token tables as the object the server updates, and /token's refresh grant
 * run with nobody else about (server/src/oauth/store.ts, token.ts, account.ts).
 *
 * Each method is proved against a function on table values; those functions are
 * what the theorems are about, and ExchangeIsARun ties the refresh exchange to
 * the interleaved statements of RefreshMachine.
 */
module OAuthStores {
  import opened Basics
  import opened OAuthTables
  import opened SealedStore

  datatype World = World(tables: Tables, sealed: Entries, supply: Secret)

  datatype Answer = Refused(why: Refusal) | CopyGone | TheftFound | Tokens(body: Issued)

  /** Ids and tokens handed out so far are all below the supply, and every token's grant exists. */
  ghost predicate Consistent(t: Tables, supply: Secret) {
    && (forall g :: g in t.grants ==> g < supply)
    && (forall a :: a in t.access ==> a < supply && t.access[a].grantId in t.grants)
    && (forall r :: r in t.refresh ==> r < supply && t.refresh[r].grantId in t.grants)
  }

  /** revokeGrant with nothing in between its statements. */
  function RevokedAlone(t: Tables, g: GrantId, now: Time): Tables {
    ApplyRevocation(t, LiveGrants(t, g), AccessOf(t, g), UnrevokedRefreshOf(t, g), now)
  }

  /** What rotateRefresh answers. */
  datatype Outcome = Invalid(why: Refusal) | Duplicate | Stolen | Rotated(issued: Issued)

  /** rotateRefresh with nothing in between. */
  function RotateAlone(w: World, token: Secret, req: Request, now: Time): (World, Outcome) {
    if token !in w.tables.refresh || w.tables.refresh[token].grantId !in w.tables.grants then (w, Invalid(Unknown))
    else
      var row := w.tables.refresh[token];
      match Decide(row, w.tables.grants[row.grantId], SuccessorUsed(w.tables.refresh, row), now, req)
      case Refuse(why) => (w, Invalid(why))
      case Replay => (w, Duplicate)
      case Theft => (w.(tables := RevokedAlone(w.tables, row.grantId, now)), Stolen)
      case Rotate(scope) =>
        var issued := RotationIssues(w, token, scope);
        var sealed := SealIn(w.sealed, Key(req.clientId, token), issued, REFRESH_GRACE, now);
        (World(ApplyRotation(w.tables, token, issued, now), sealed, w.supply + 2), Rotated(issued))
  }

  /** exchangeRefreshToken with nothing in between. */
  function ExchangeAlone(w: World, token: Secret, req: Request, now: Time): (World, Answer) {
    var (after, outcome) := RotateAlone(w, token, req, now);
    match outcome
    case Invalid(why) => (after, Refused(why))
    case Stolen => (after, TheftFound)
    case Rotated(issued) => (after, Tokens(issued))
    case Duplicate =>
      var key := Key(req.clientId, token);
      var answer := match UnsealIn(after.sealed, key, now) case None => CopyGone case Some(body) => Tokens(body);
      (after.(sealed := AfterUnseal(after.sealed, key, now)), answer)
  }

  function RotationIssues(w: World, token: Secret, scope: seq<string>): Issued
    requires token in w.tables.refresh && w.tables.refresh[token].grantId in w.tables.grants
  {
    var row := w.tables.refresh[token];
    MakeIssued(w.supply, Some(w.supply + 1), row.audience, scope, w.tables.grants[row.grantId].dpopJkt)
  }

  /** signOutEverywhere: every live grant of the account, and all they issued. */
  function LiveGrantsOf(t: Tables, accountId: string): set<GrantId> {
    set g | g in t.grants && t.grants[g].accountId == accountId && t.grants[g].revokedAt.None?
  }

  function RevokedAll(t: Tables, victims: set<GrantId>, now: Time): Tables {
    ApplyRevocation(t, victims,
      (set a | a in t.access && t.access[a].grantId in victims),
      (set r | r in t.refresh && t.refresh[r].grantId in victims && t.refresh[r].revokedAt.None?),
      now)
  }

  lemma RevokedOneMore(t: Tables, done: set<GrantId>, g: GrantId, now: Time)
    requires g !in done && g in t.grants && t.grants[g].revokedAt.None?
    ensures RevokedAlone(RevokedAll(t, done, now), g, now) == RevokedAll(t, done + {g}, now)
  {
    var u := RevokedAll(t, done, now);
    var v, w := RevokedAlone(u, g, now), RevokedAll(t, done + {g}, now);
    assert v.grants == w.grants;
    assert v.access == w.access;
    assert v.refresh == w.refresh;
  }

  lemma RevokedNone(t: Tables, now: Time)
    ensures RevokedAll(t, {}, now) == t
  {
    var u := RevokedAll(t, {}, now);
    assert u.grants == t.grants && u.access == t.access && u.refresh == t.refresh;
  }

  /** What revokeGrant's three statements do, row by row. */
  lemma RevokedRows(t: Tables, g: GrantId, now: Time, u: Tables)
    requires u.grants == if g in t.grants && t.grants[g].revokedAt.None? then t.grants[g := t.grants[g].(revokedAt := Some(now))] else t.grants
    requires u.access == map a | a in t.access && t.access[a].grantId != g :: t.access[a]
    requires u.refresh == map r | r in t.refresh ::
      if t.refresh[r].grantId == g && t.refresh[r].revokedAt.None? then t.refresh[r].(revokedAt := Some(now)) else t.refresh[r]
    ensures u == RevokedAlone(t, g, now)
  {
    var v := RevokedAlone(t, g, now);
    assert u.grants == v.grants;
    assert u.access == v.access;
    assert u.refresh == v.refresh;
  }

  class OAuthStore {
    var grants: map<GrantId, Grant>
    var access: map<Secret, AccessRow>
    var refresh: map<Secret, RefreshRow>
    var supply: Secret

    ghost function Contents(): Tables reads this { Tables(grants, access, refresh) }

    ghost predicate Valid() reads this { Consistent(Contents(), supply) }

    constructor ()
      ensures Valid() && Contents() == Tables(map[], map[], map[])
    {
      grants, access, refresh, supply := map[], map[], map[], 0;
    }

    method IssueTokens(
      g: GrantId, audience: string, scope: seq<string>, withRefresh: bool, cnfJkt: Option<string>, now: Time
    ) returns (issued: Issued)
      requires Valid() && g in grants
      modifies this
      ensures Valid()
      ensures issued == MakeIssued(old(supply), if withRefresh then Some(old(supply) + 1) else None, audience, scope, cnfJkt)
      ensures supply == old(supply) + if withRefresh then 2 else 1
      ensures Contents() == InsertIssued(old(Contents()), g, audience, cnfJkt, issued, now)
    {
      var accessToken := supply;
      supply := supply + 1;
      var refreshToken := None;
      if withRefresh {
        refreshToken := Some(supply);
        supply := supply + 1;
      }
      var lifetime := AccessLifetime(audience);
      access := access[accessToken := AccessRow(g, audience, scope, cnfJkt, now + lifetime * SECOND)];
      if refreshToken.Some? {
        refresh := refresh[refreshToken.value := RefreshRow(g, audience, scope, None, None, None, now + REFRESH_TTL)];
      }
      issued := Issued(accessToken, refreshToken, cnfJkt.Some?, lifetime, scope);
    }

    method EstablishGrant(grant: Grant, withRefresh: bool, now: Time) returns (g: GrantId, issued: Issued)
      requires Valid() && grant.revokedAt.None?
      modifies this
      ensures Valid() && g == old(supply)
      ensures Contents() == ApplyGrant(old(Contents()), g, grant, issued, now)
      ensures issued == MakeIssued(g + 1, if withRefresh then Some(g + 2) else None, grant.resource, grant.scope, grant.dpopJkt)
    {
      g := supply;
      supply := supply + 1;
      grants := grants[g := grant];
      issued := IssueTokens(g, grant.resource, grant.scope, withRefresh, grant.dpopJkt, now);
    }

    method RevokeGrant(g: GrantId, now: Time)
      requires Valid()
      modifies this
      ensures Valid() && supply == old(supply)
      ensures Contents() == RevokedAlone(old(Contents()), g, now)
    {
      if g in grants && grants[g].revokedAt.None? {
        grants := grants[g := grants[g].(revokedAt := Some(now))];
      }
      access := map a | a in access && access[a].grantId != g :: access[a];
      refresh := map r | r in refresh ::
        if refresh[r].grantId == g && refresh[r].revokedAt.None? then refresh[r].(revokedAt := Some(now)) else refresh[r];
      RevokedRows(old(Contents()), g, now, Contents());
    }

    method RevokeConnectedApp(accountId: string, g: GrantId, now: Time) returns (found: bool)
      requires Valid()
      modifies this
      ensures Valid()
      ensures found <==> g in old(grants) && old(grants)[g].accountId == accountId && !Revoked(old(Contents()), g)
      ensures Contents() == if found then RevokedAlone(old(Contents()), g, now) else old(Contents())
    {
      if g !in grants || grants[g].accountId != accountId || grants[g].revokedAt.Some? { return false; }
      RevokeGrant(g, now);
      return true;
    }

    method SignOutEverywhere(accountId: string, now: Time)
      requires Valid()
      modifies this
      ensures Valid() && supply == old(supply)
      ensures Contents() == RevokedAll(old(Contents()), LiveGrantsOf(old(Contents()), accountId), now)
    {
      ghost var t := Contents();
      ghost var victims := LiveGrantsOf(t, accountId);
      ghost var done := {};
      var rows := set g | g in grants && grants[g].accountId == accountId && grants[g].revokedAt.None?;
      RevokedNone(t, now);
      while rows != {}
        invariant Valid() && supply == old(supply)
        invariant done + rows == victims && done !! rows
        invariant Contents() == RevokedAll(t, done, now)
        decreases rows
      {
        var g :| g in rows;
        RevokedOneMore(t, done, g, now);
        RevokeGrant(g, now);
        rows := rows - {g};
        done := done + {g};
      }
      assert done == victims;
    }

    method PruneExpired(now: Time)
      requires Valid()
      modifies this
      ensures Valid() && supply == old(supply) && grants == old(grants)
      ensures access == old(access) - ExpiredAccess(old(Contents()), now)
      ensures refresh == old(refresh) - ExpiredRefresh(old(Contents()), now)
    {
      access := map a | a in access && access[a].expiresAt > now :: access[a];
      refresh := map r | r in refresh && refresh[r].expiresAt > now :: refresh[r];
    }

    method RotateRefresh(token: Secret, req: Request, sealed: MemorySealedResponses, now: Time) returns (outcome: Outcome)
      requires Valid() && sealed.Valid()
      modifies this, sealed
      ensures Valid() && sealed.Valid()
      ensures (World(Contents(), sealed.entries, supply), outcome)
           == RotateAlone(World(old(Contents()), old(sealed.entries), old(supply)), token, req, now)
    {
      if token !in refresh || refresh[token].grantId !in grants { return Invalid(Unknown); }
      var row := refresh[token];
      match Decide(row, grants[row.grantId], SuccessorUsed(refresh, row), now, req) {
        case Refuse(why) =>
          return Invalid(why);
        case Replay =>
          return Duplicate;
        case Theft =>
          RevokeGrant(row.grantId, now);
          return Stolen;
        case Rotate(scope) =>
          var issued := IssueTokens(row.grantId, row.audience, scope, true, grants[row.grantId].dpopJkt, now);
          if refresh[token].replacedBy.None? {
            refresh := refresh[token := refresh[token].(replacedBy := issued.refreshToken, replacedAt := Some(now))];
          }
          sealed.Seal(Key(req.clientId, token), issued, REFRESH_GRACE, now);
          return Rotated(issued);
      }
    }

    method ExchangeRefreshToken(token: Secret, req: Request, sealed: MemorySealedResponses, now: Time) returns (answer: Answer)
      requires Valid() && sealed.Valid()
      modifies this, sealed
      ensures Valid() && sealed.Valid()
      ensures (World(Contents(), sealed.entries, supply), answer)
           == ExchangeAlone(World(old(Contents()), old(sealed.entries), old(supply)), token, req, now)
    {
      var outcome := RotateRefresh(token, req, sealed, now);
      match outcome {
        case Invalid(why) => return Refused(why);
        case Stolen => return TheftFound;
        case Rotated(issued) => return Tokens(issued);
        case Duplicate =>
          var body := sealed.Unseal(Key(req.clientId, token), now);
          return if body.Some? then Tokens(body.value) else CopyGone;
      }
    }

    method VerifyAccessToken(token: Secret, required: seq<string>, audience: string, now: Time) returns (verified: Verified)
      ensures verified == VerifyAccess(Contents(), token, required, audience, now)
      ensures verified.Valid? ==> verified.grantId in grants && !Revoked(Contents(), verified.grantId) && Covers(verified.scopes, required)
    {
      if token !in access || access[token].grantId !in grants { return InvalidToken; }
      var row := access[token];
      var grant := grants[row.grantId];
      if row.expiresAt <= now || grant.revokedAt.Some? { return InvalidToken; }
      if row.audience != audience { return InvalidToken; }
      if !Covers(row.scope, required) { return InsufficientScope(row.grantId, row.scope, required); }
      return Verified.Valid(grant.accountId, grant.clientId, row.grantId, row.scope, RoundSeconds(row.expiresAt - now), row.cnfJkt);
    }
  }
}
