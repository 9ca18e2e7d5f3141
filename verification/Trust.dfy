/**
 * How long a revoked grant can still act. The authorization server's tables evolve
 * under every interleaving of RefreshMachine; adapters exchange credentials and hold
 * on to what they get for as long as they like; the Device Service checks the token
 * and nothing else. Exchange and check are one step each.
 */
module Trust {
  import opened Basics
  import opened OAuthTables
  import opened TokenExchange
  import M = RefreshMachine
  import RefreshInvariant
  import RefreshTheorems

  datatype Token = Token(claims: Claims, at: Time)

  datatype State = State(
    db: M.State,
    /** Every internal token ever signed. */
    signed: seq<Token>,
    /** When each grant was last seen live. No action reads it. */
    lastLive: map<GrantId, Time>)

  datatype Action =
    | Database(step: M.Action)
    | Exchange(workload: Workload, credential: Secret, scope: string)

  ghost predicate Enabled(s: State, a: Action) {
    a.Database? ==> M.Enabled(s.db, a.step)
  }

  function Live(t: Tables, g: GrantId): bool { g in t.grants && t.grants[g].revokedAt.None? }

  function Witness(lastLive: map<GrantId, Time>, db: M.State): map<GrantId, Time> {
    map g | g in lastLive.Keys + db.tables.grants.Keys && (g in lastLive || Live(db.tables, g)) ::
      if Live(db.tables, g) then db.now else lastLive[g]
  }

  ghost function Next(s: State, a: Action): State
    requires Enabled(s, a)
  {
    match a
    case Database(step) =>
      var db := M.Next(s.db, step);
      State(db, s.signed, Witness(s.lastLive, db))
    case Exchange(workload, credential, scope) =>
      match TokenExchange.Exchange(s.db.tables, workload, credential, scope, s.db.now)
      case Failed(_) => s
      case Exchanged(claims, _) => s.(signed := s.signed + [Token(claims, s.db.now)])
  }

  ghost predicate Start(s: State) {
    M.Start(s.db) && s.signed == [] && s.lastLive == map[]
  }

  ghost predicate Runs(s: State, actions: seq<Action>, end: State)
    decreases |actions|
  {
    if actions == [] then end == s
    else Enabled(s, actions[0]) && Runs(Next(s, actions[0]), actions[1..], end)
  }

  ghost predicate Reachable(end: State) {
    exists s, actions :: Start(s) && Runs(s, actions, end)
  }

  /* -------------------------------------------------------------- invariant */

  ghost predicate TokenOk(s: State, token: Token) {
    var claims := token.claims;
    && claims.grantId in s.db.tables.grants && claims.grantId in s.lastLive
    && token.at <= s.lastLive[claims.grantId] && claims.exp <= FloorSeconds(token.at) + 60
    && claims.scope in s.db.tables.grants[claims.grantId].scope
    && claims.sub == s.db.tables.grants[claims.grantId].accountId
    && s.db.tables.grants[claims.grantId].resource == AudienceOf(claims.act)
  }

  ghost predicate WitnessOk(s: State) {
    && (forall g :: Live(s.db.tables, g) ==> g in s.lastLive && s.lastLive[g] == s.db.now)
    && (forall g :: g in s.lastLive ==> s.lastLive[g] <= s.db.now)
  }

  ghost predicate Inv(s: State) {
    && RefreshInvariant.Inv(s.db) && WitnessOk(s)
    && (forall i :: 0 <= i < |s.signed| ==> TokenOk(s, s.signed[i]))
  }

  lemma ClockForward(s: M.State, a: M.Action)
    requires M.Enabled(s, a)
    ensures s.now <= M.Next(s, a).now
  {
  }

  lemma TokenStays(s: State, a: Action, token: Token)
    requires RefreshInvariant.Inv(s.db) && WitnessOk(s) && Enabled(s, a) && TokenOk(s, token)
    ensures TokenOk(Next(s, a), token)
  {
    if a.Database? {
      RefreshTheorems.GrantStays(s.db, a.step, token.claims.grantId);
      ClockForward(s.db, a.step);
      hide RefreshInvariant.Inv, M.Next, M.Enabled;
    }
  }

  lemma NewToken(s: State, a: Action)
    requires RefreshInvariant.Inv(s.db) && WitnessOk(s) && a.Exchange?
    requires Next(s, a).signed != s.signed
    ensures |Next(s, a).signed| == |s.signed| + 1 && s.signed <= Next(s, a).signed
    ensures TokenOk(Next(s, a), Next(s, a).signed[|s.signed|])
  {
    ExchangeIsEntitled(s.db.tables, a.workload, a.credential, a.scope, s.db.now);
    assert RefreshInvariant.RowsOk(s.db);
    hide RefreshInvariant.Inv, TokenExchange.Exchange;
  }

  lemma DatabaseStep(s: State, a: Action)
    requires Inv(s) && Enabled(s, a)
    ensures RefreshInvariant.Inv(Next(s, a).db) && WitnessOk(Next(s, a))
  {
    hide RefreshInvariant.Inv, M.Next, M.Enabled, TokenOk, TokenExchange.Exchange;
    if a.Database? {
      RefreshTheorems.StepHolds(s.db, a.step);
      ClockForward(s.db, a.step);
    }
  }

  lemma StepHolds(s: State, a: Action)
    requires Inv(s) && Enabled(s, a)
    ensures Inv(Next(s, a))
  {
    var t := Next(s, a);
    DatabaseStep(s, a);
    hide RefreshInvariant.Inv, M.Next, M.Enabled, TokenOk, WitnessOk, TokenExchange.Exchange;
    forall i | 0 <= i < |t.signed| ensures TokenOk(t, t.signed[i]) {
      if i < |s.signed| {
        TokenStays(s, a, s.signed[i]);
      } else {
        NewToken(s, a);
      }
    }
  }

  lemma {:induction false} RunHolds(s: State, actions: seq<Action>, end: State)
    requires Inv(s) && Runs(s, actions, end)
    ensures Inv(end)
    decreases |actions|
  {
    hide Inv, Next, Enabled;
    if actions != [] {
      StepHolds(s, actions[0]);
      RunHolds(Next(s, actions[0]), actions[1..], end);
    }
  }

  lemma ReachableHolds(end: State)
    requires Reachable(end)
    ensures Inv(end)
  {
    var s, actions :| Start(s) && Runs(s, actions, end);
    RefreshInvariant.StartHolds(s.db);
    RunHolds(s, actions, end);
  }

  /* --------------------------------------------------------------- theorems */

  /**
   * Whatever an adapter kept and whichever revocation it missed, a device operation is
   * accepted only within 90 seconds of an instant at which its grant was live.
   */
  lemma AcceptedSoonAfterLive(s: State, i: nat, peer: Workload, operation: Operation)
    requires Reachable(s) && i < |s.signed|
    requires VerifyInternal(s.signed[i].claims, peer, ScopeOf(operation), s.db.now).Some?
    ensures var g := s.signed[i].claims.grantId;
            g in s.lastLive && s.lastLive[g] <= s.db.now < s.lastLive[g] + 90 * SECOND
  {
    ReachableHolds(s);
    assert TokenOk(s, s.signed[i]);
  }

  /** It runs on the one scope of the operation, which its grant holds, for the grant's account, through the workload that exchanged it. */
  lemma AcceptedWithinTheGrant(s: State, i: nat, peer: Workload, operation: Operation)
    requires Reachable(s) && i < |s.signed|
    requires VerifyInternal(s.signed[i].claims, peer, ScopeOf(operation), s.db.now).Some?
    ensures var claims := s.signed[i].claims;
            var identity := VerifyInternal(claims, peer, ScopeOf(operation), s.db.now).value;
            && claims.grantId in s.db.tables.grants
            && var grant := s.db.tables.grants[claims.grantId];
               && ScopeOf(operation) in grant.scope && identity.accountId == grant.accountId
               && grant.resource == AudienceOf(peer.name) && claims.cnf == peer.cnf
  {
    ReachableHolds(s);
    assert TokenOk(s, s.signed[i]);
  }

  lemma {:induction false} LastLiveFrozen(s: State, actions: seq<Action>, end: State, g: GrantId)
    requires Inv(s) && Runs(s, actions, end) && Revoked(s.db.tables, g)
    ensures Revoked(end.db.tables, g)
    ensures g in end.lastLive ==> g in s.lastLive && end.lastLive[g] == s.lastLive[g]
    ensures Inv(end)
    decreases |actions|
  {
    hide Inv, Next, Enabled;
    if actions != [] {
      var t := Next(s, actions[0]);
      StepHolds(s, actions[0]);
      RevokedStep(s, actions[0], g);
      LastLiveFrozen(t, actions[1..], end, g);
    }
  }

  lemma RevokedStep(s: State, a: Action, g: GrantId)
    requires Inv(s) && Enabled(s, a) && Revoked(s.db.tables, g)
    ensures Revoked(Next(s, a).db.tables, g)
    ensures g in Next(s, a).lastLive ==> g in s.lastLive && Next(s, a).lastLive[g] == s.lastLive[g]
  {
    if a.Database? {
      RefreshTheorems.StepKeepsRevoked(s.db, a.step, g);
      hide RefreshInvariant.Inv, M.Next, M.Enabled;
    }
  }

  /** 90 seconds after a grant is revoked, nothing signed for it is accepted, in any run. */
  lemma RevocationReachesDevices(s: State, actions: seq<Action>, end: State, g: GrantId, i: nat, peer: Workload, operation: Operation)
    requires Reachable(s) && Runs(s, actions, end) && Revoked(s.db.tables, g)
    requires i < |end.signed| && end.signed[i].claims.grantId == g && end.db.now >= s.db.now + 90 * SECOND
    ensures VerifyInternal(end.signed[i].claims, peer, ScopeOf(operation), end.db.now).None?
  {
    ReachableHolds(s);
    LastLiveFrozen(s, actions, end, g);
    assert TokenOk(end, end.signed[i]);
    assert WitnessOk(s);
  }

  /**
   * A live grant does act: whatever else happened, a credential with half a second left is
   * exchanged for any scope it has, at its own adapter, and the Device Service accepts
   * what was signed, there and then, for the operations of that scope and no other.
   */
  lemma LiveCredentialsAct(s: State, workload: Workload, credential: Secret, scope: string, operation: Operation)
    requires Reachable(s) && credential in s.db.tables.access && Live(s.db.tables, s.db.tables.access[credential].grantId)
    requires s.db.tables.access[credential].audience == (if workload.name.McpResourceServer? then "http://localhost:4000/mcp" else "http://localhost:4000")
    requires scope in s.db.tables.access[credential].scope && s.db.now + 500 <= s.db.tables.access[credential].expiresAt
    ensures var t := Next(s, Exchange(workload, credential, scope));
            && |t.signed| == |s.signed| + 1 && t.signed[..|s.signed|] == s.signed
            && (VerifyInternal(t.signed[|s.signed|].claims, workload, ScopeOf(operation), t.db.now).Some? <==> scope == ScopeOf(operation))
  {
    ExchangedExactly(s.db.tables, workload, credential, scope, s.db.now);
  }
}
