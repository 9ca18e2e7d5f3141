/**
 * When a token is cached although its grant was heard to be revoked
 * (server/src/exchange-client.ts, server/src/oauth/store.ts, server/src/revocation.ts).
 *
 * An adapter's cache, as ExchangeClients has it, beside the authorization server's
 * database, as RefreshMachine has it: between any two actions of the adapter the
 * database does any run, and an exchange is served against its tables of that moment.
 */
module RevocationRace {
  import opened Basics
  import opened OAuthTables
  import opened TokenExchange
  import opened ExchangeClients
  import G = GrantLife
  import M = RefreshMachine
  import T = RefreshTheorems

  /* ------------------------------------------------------- states along a run */

  function At(s: State, actions: seq<Action>, i: nat): State
    decreases i
  {
    if i == 0 || actions == [] || !Enabled(s, actions[0]) then s else At(Next(s, actions[0]), actions[1..], i - 1)
  }

  lemma {:induction false} AtNext(s: State, actions: seq<Action>, end: State, i: nat)
    requires Runs(s, actions, end) && i < |actions|
    ensures Enabled(At(s, actions, i), actions[i]) && At(s, actions, i + 1) == Next(At(s, actions, i), actions[i])
    decreases i
  {
    hide Next, Enabled;
    if i > 0 {
      AtNext(Next(s, actions[0]), actions[1..], end, i - 1);
      assert actions[1..][i - 1] == actions[i];
    } else {
      assert At(Next(s, actions[0]), actions[1..], 0) == Next(s, actions[0]);
    }
  }

  lemma {:induction false} AtEnd(s: State, actions: seq<Action>, end: State)
    requires Runs(s, actions, end)
    ensures At(s, actions, |actions|) == end
    decreases |actions|
  {
    hide Next, Enabled;
    if actions != [] { AtEnd(Next(s, actions[0]), actions[1..], end); }
  }

  lemma {:induction false} InvAt(s: State, actions: seq<Action>, end: State, i: nat)
    requires Inv(s) && Runs(s, actions, end) && i <= |actions|
    ensures Inv(At(s, actions, i)) && At(s, actions, i).workload == s.workload
    decreases i
  {
    hide Inv, Next, Enabled;
    if i > 0 {
      InvAt(s, actions, end, i - 1);
      AtNext(s, actions, end, i - 1);
      StepHolds(At(s, actions, i - 1), actions[i - 1]);
    }
  }

  /* ------------------------------------------------------ what fills an entry */

  /** The answer to a successful exchange for this key arrives, and is cached. */
  predicate Fills(s: State, a: Action, key: CacheKey) {
    a.Arrive? && Enabled(s, a) && s.asks[a.ask].claims.value.Exchanged?
    && CacheKey(s.asks[a.ask].caller.grantId, s.asks[a.ask].scope) == key
  }

  /** The entry this arrival leaves. */
  function Filled(s: State, a: Action, key: CacheKey): Entry
    requires Fills(s, a, key)
  {
    Next(s, a).cache[key]
  }

  /** This action replaces, forgets or revokes the key's entry. */
  predicate Touches(s: State, a: Action, key: CacheKey) {
    || Fills(s, a, key)
    || (a.Forget? && CacheKey(a.caller.grantId, a.scope) == key)
    || (a.Hear? && key in s.cache && Revokes(a.event, s.cache[key]))
  }

  lemma TouchedEntry(s: State, a: Action, key: CacheKey)
    requires Enabled(s, a)
    ensures !Touches(s, a, key) ==> (key in Next(s, a).cache <==> key in s.cache) && (key in s.cache ==> Next(s, a).cache[key] == s.cache[key])
    ensures Touches(s, a, key) ==> (key in Next(s, a).cache <==> Fills(s, a, key))
  {
  }

  /** Action i fills the key's entry, and nothing after it touches it. */
  ghost predicate LastFill(s: State, actions: seq<Action>, i: nat, key: CacheKey) {
    && i < |actions| && Fills(At(s, actions, i), actions[i], key)
    && forall j :: i < j < |actions| ==> !Touches(At(s, actions, j), actions[j], key)
  }

  /** An entry that was not there and now is was left by the last fill in between. */
  lemma {:induction false} FilledSince(s: State, actions: seq<Action>, end: State, key: CacheKey, from: nat, n: nat) returns (i: nat)
    requires Runs(s, actions, end) && from <= n <= |actions|
    requires key !in At(s, actions, from).cache && key in At(s, actions, n).cache
    ensures from <= i < n && Fills(At(s, actions, i), actions[i], key)
    ensures forall j :: i < j < n ==> !Touches(At(s, actions, j), actions[j], key)
    decreases n
  {
    hide Runs, Next, Enabled, Touches, Fills;
    AtNext(s, actions, end, n - 1);
    TouchedEntry(At(s, actions, n - 1), actions[n - 1], key);
    if Touches(At(s, actions, n - 1), actions[n - 1], key) {
      i := n - 1;
    } else {
      i := FilledSince(s, actions, end, key, from, n - 1);
    }
  }

  /** What the last fill left is there as long as nothing touches it. */
  lemma {:induction false} StaysFilled(s: State, actions: seq<Action>, end: State, key: CacheKey, i: nat, n: nat)
    requires Runs(s, actions, end) && i < n <= |actions| && Fills(At(s, actions, i), actions[i], key)
    requires forall j :: i < j < n ==> !Touches(At(s, actions, j), actions[j], key)
    ensures key in At(s, actions, n).cache && At(s, actions, n).cache[key] == Filled(At(s, actions, i), actions[i], key)
    decreases n
  {
    hide Runs, Next, Enabled, Touches, Fills;
    AtNext(s, actions, end, n - 1);
    TouchedEntry(At(s, actions, n - 1), actions[n - 1], key);
    if n - 1 > i {
      StaysFilled(s, actions, end, key, i, n - 1);
    } else {
      FillTouches(At(s, actions, i), actions[i], key);
    }
  }

  lemma FillTouches(s: State, a: Action, key: CacheKey)
    requires Fills(s, a, key)
    ensures Touches(s, a, key)
  {
  }

  /** The k-th action hears that the grant is revoked. */
  predicate Hears(actions: seq<Action>, k: nat, g: GrantId) {
    k < |actions| && actions[k] == Hear(GrantRevoked(g))
  }

  lemma HearingEmpties(s: State, a: Action, key: CacheKey)
    requires Inv(s) && Enabled(s, a) && a == Hear(GrantRevoked(key.grantId))
    ensures key !in Next(s, a).cache
  {
  }

  /**
   * After a grant's revocation is heard, a token of it is cached for a scope if and only
   * if the answer to a successful exchange for that scope has arrived since, and was not
   * dropped again.
   */
  lemma CachedIffArrivedSince(s: State, actions: seq<Action>, end: State, k: nat, key: CacheKey)
    requires Start(s) && Runs(s, actions, end) && Hears(actions, k, key.grantId)
    ensures key in end.cache <==> exists i :: k < i && LastFill(s, actions, i, key)
    ensures forall i :: k < i && LastFill(s, actions, i, key) ==> end.cache[key] == Filled(At(s, actions, i), actions[i], key)
  {
    hide Next, Enabled, Touches, Fills, Filled;
    AtEnd(s, actions, end);
    StartInv(s);
    InvAt(s, actions, end, k);
    AtNext(s, actions, end, k);
    HearingEmpties(At(s, actions, k), actions[k], key);
    if key in end.cache {
      var i := FilledSince(s, actions, end, key, k + 1, |actions|);
      assert LastFill(s, actions, i, key);
    }
    forall i | k < i && LastFill(s, actions, i, key) ensures key in end.cache && end.cache[key] == Filled(At(s, actions, i), actions[i], key) {
      StaysFilled(s, actions, end, key, i, |actions|);
    }
  }

  /** And a lookup then finds it exactly while more than ten seconds of what it was given are left. */
  lemma HitsIffArrivedSince(s: State, actions: seq<Action>, end: State, k: nat, caller: Caller, scope: string)
    requires Start(s) && Runs(s, actions, end) && Hears(actions, k, caller.grantId)
    ensures var key := CacheKey(caller.grantId, scope);
            Lookup(end.cache, caller, scope, end.now).Some? <==>
              exists i :: k < i && LastFill(s, actions, i, key) && end.now < Filled(At(s, actions, i), actions[i], key).expiresAt - REUSE_MARGIN
  {
    hide LastFill, Filled, Next, Enabled;
    var key := CacheKey(caller.grantId, scope);
    CachedIffArrivedSince(s, actions, end, k, key);
    if key in end.cache {
      var i :| k < i && LastFill(s, actions, i, key);
      LastIsAFill(s, actions, i, key);
      assert end.cache[key] == Filled(At(s, actions, i), actions[i], key);
    }
    forall i | k < i && LastFill(s, actions, i, key)
      ensures i < |actions| && Fills(At(s, actions, i), actions[i], key)
    {
      LastIsAFill(s, actions, i, key);
    }
  }

  lemma LastIsAFill(s: State, actions: seq<Action>, i: nat, key: CacheKey)
    requires LastFill(s, actions, i, key)
    ensures i < |actions| && Fills(At(s, actions, i), actions[i], key)
  {
  }

  /* ------------------------------------------------ beside the database */

  /**
   * The database goes from dbs[i] to dbs[i + 1] around the adapter's i-th action, and an
   * exchange is served against the tables it finds.
   */
  ghost predicate Beside(actions: seq<Action>, dbs: seq<M.State>) {
    && |dbs| == |actions| + 1 && M.Reachable(dbs[0])
    && (forall i :: 0 <= i < |actions| ==> M.Reaches(dbs[i], dbs[i + 1]))
    && (forall i :: 0 <= i < |actions| && actions[i].Serve? ==> actions[i].tables == dbs[i].tables)
  }

  /** The exchange whose answer arrives was served, for its own caller and scope, by an earlier action. */
  lemma {:induction false} ServedBefore(s: State, actions: seq<Action>, end: State, n: nat, ask: nat) returns (j: nat)
    requires Start(s) && Runs(s, actions, end) && n <= |actions|
    requires ask in At(s, actions, n).asks && At(s, actions, n).asks[ask].claims.Some?
    ensures j < n && actions[j].Serve? && actions[j].ask == ask
    ensures ask in At(s, actions, j).asks
    ensures var made, was := At(s, actions, n).asks[ask], At(s, actions, j);
            && made == was.asks[ask].(claims := made.claims)
            && made.claims.value == Exchange(actions[j].tables, was.workload, made.caller.credential, made.scope, was.now)
            && (made.caller.credential in actions[j].tables.access ==>
                  actions[j].tables.access[made.caller.credential].grantId == made.caller.grantId)
    ensures forall m :: j < m <= n ==> ask in At(s, actions, m).asks && At(s, actions, m).asks[ask] == At(s, actions, n).asks[ask]
    decreases n
  {
    hide Runs, Next, Enabled, Exchange, Inv;
    assert n > 0;
    StartInv(s);
    AtNext(s, actions, end, n - 1);
    InvAt(s, actions, end, n - 1);
    AskComesFrom(At(s, actions, n - 1), actions[n - 1], ask);
    if actions[n - 1].Serve? && actions[n - 1].ask == ask {
      j := n - 1;
    } else {
      j := ServedBefore(s, actions, end, n - 1, ask);
    }
  }

  lemma StartInv(s: State)
    requires Start(s)
    ensures Inv(s)
  {
  }

  lemma AskComesFrom(s: State, a: Action, ask: nat)
    requires Inv(s) && Enabled(s, a) && ask in Next(s, a).asks && Next(s, a).asks[ask].claims.Some?
    ensures ask in s.asks
    ensures var made, now := s.asks[ask], Next(s, a).asks[ask];
            if a.Serve? && a.ask == ask then
              now == made.(claims := Some(Exchange(a.tables, s.workload, made.caller.credential, made.scope, s.now)))
              && (made.caller.credential in a.tables.access ==> a.tables.access[made.caller.credential].grantId == made.caller.grantId)
            else now == made
  {
    hide Exchange, Kept;
  }

  /** Action j serves the exchange that action i lets in, while the grant is not revoked. */
  ghost predicate ServedLive(actions: seq<Action>, dbs: seq<M.State>, j: nat, i: nat, g: GrantId) {
    && j < i < |actions| && i < |dbs| && actions[i].Arrive? && actions[j].Serve? && actions[j].ask == actions[i].ask
    && !Revoked(dbs[j].tables, g)
  }

  lemma FillWasServedLive(s: State, actions: seq<Action>, end: State, dbs: seq<M.State>, i: nat, key: CacheKey) returns (j: nat)
    requires Start(s) && Runs(s, actions, end) && Beside(actions, dbs) && LastFill(s, actions, i, key)
    ensures ServedLive(actions, dbs, j, i, key.grantId)
  {
    hide Runs, Next, Exchange;
    j := ServedBefore(s, actions, end, i, actions[i].ask);
    var was, made := At(s, actions, j), At(s, actions, i).asks[actions[i].ask];
    ExchangeIsEntitled(actions[j].tables, was.workload, made.caller.credential, made.scope, was.now);
  }

  /**
   * A revoked grant's token is cached, although the revocation was heard, if and only if
   * an exchange answered before the COMMIT arrived after the hearing, and was not dropped
   * again.
   */
  lemma RevokedButCachedIff(s: State, actions: seq<Action>, end: State, dbs: seq<M.State>, k: nat, key: CacheKey)
    requires Start(s) && Runs(s, actions, end) && Beside(actions, dbs) && Hears(actions, k, key.grantId)
    requires Revoked(dbs[|actions|].tables, key.grantId)
    ensures key in end.cache <==>
      exists i, j :: k < i && LastFill(s, actions, i, key) && ServedLive(actions, dbs, j, i, key.grantId)
  {
    hide Runs, LastFill, Beside, ServedLive;
    CachedIffArrivedSince(s, actions, end, k, key);
    if key in end.cache {
      var i :| k < i && LastFill(s, actions, i, key);
      var j := FillWasServedLive(s, actions, end, dbs, i, key);
    }
  }

  lemma {:induction false} RevokedLater(actions: seq<Action>, dbs: seq<M.State>, i: nat, j: nat, g: GrantId)
    requires Beside(actions, dbs) && i <= j <= |actions| && Revoked(dbs[i].tables, g)
    ensures Revoked(dbs[j].tables, g)
    decreases j
  {
    if i < j {
      RevokedLater(actions, dbs, i, j - 1, g);
      DatabaseReachable(actions, dbs, j - 1);
      var steps :| M.Runs(dbs[j - 1], steps, dbs[j]);
      T.ReachableHolds(dbs[j - 1]);
      hide M.Runs, M.Reaches, M.Reachable, M.Next;
      T.RevokedForever(dbs[j - 1], steps, dbs[j], g);
    }
  }

  lemma {:induction false} DatabaseReachable(actions: seq<Action>, dbs: seq<M.State>, i: nat)
    requires Beside(actions, dbs) && i <= |actions|
    ensures M.Reachable(dbs[i])
    decreases i
  {
    if i > 0 {
      DatabaseReachable(actions, dbs, i - 1);
      assert M.Reaches(dbs[i - 1], dbs[i]);
      ReachesFurther(dbs[i - 1], dbs[i]);
    }
  }

  lemma ReachesFurther(mid: M.State, end: M.State)
    requires M.Reachable(mid) && M.Reaches(mid, end)
    ensures M.Reachable(end)
  {
    hide M.Runs;
    var s :| M.Start(s) && M.Reaches(s, mid);
    var so :| M.Runs(s, so, mid);
    var more :| M.Runs(mid, more, end);
    M.RunThen(s, so, mid, more, end);
  }

  /**
   * So a hearing that comes after the COMMIT is final, unless an exchange answered before
   * it is still on its way; and then it is not, for that may yet arrive. The adapter's
   * own state decides.
   */
  lemma HearingIsFinalUnlessAnswered(s: State, actions: seq<Action>, end: State, dbs: seq<M.State>, k: nat, key: CacheKey)
    requires Start(s) && Runs(s, actions, end) && Beside(actions, dbs) && Hears(actions, k, key.grantId)
    requires Revoked(dbs[k].tables, key.grantId)
    requires forall ask :: ask in At(s, actions, k).asks ==> !Answered(At(s, actions, k).asks[ask], key)
    ensures key !in end.cache
  {
    hide Runs, Next, Exchange, Beside, Inv;
    CachedIffArrivedSince(s, actions, end, k, key);
    if i :| k < i && LastFill(s, actions, i, key) { FillWasAnsweredBefore(s, actions, end, dbs, k, i, key); }
  }

  lemma FillWasAnsweredBefore(s: State, actions: seq<Action>, end: State, dbs: seq<M.State>, k: nat, i: nat, key: CacheKey)
    requires Start(s) && Runs(s, actions, end) && Beside(actions, dbs) && Hears(actions, k, key.grantId)
    requires Revoked(dbs[k].tables, key.grantId) && k < i && LastFill(s, actions, i, key)
    ensures exists ask :: ask in At(s, actions, k).asks && Answered(At(s, actions, k).asks[ask], key)
  {
    hide Runs, Next, Exchange;
    var ask := actions[i].ask;
    var j := ServedBefore(s, actions, end, i, ask);
    var was, made := At(s, actions, j), At(s, actions, i).asks[ask];
    ExchangeIsEntitled(actions[j].tables, was.workload, made.caller.credential, made.scope, was.now);
    if j > k { RevokedLater(actions, dbs, k, j, key.grantId); }
    assert j < k;
    assert Answered(At(s, actions, k).asks[ask], key);
  }

  /** The answer to this ask is a token for the key. */
  predicate Answered(ask: Ask, key: CacheKey) {
    ask.claims.Some? && ask.claims.value.Exchanged? && CacheKey(ask.caller.grantId, ask.scope) == key
  }

  lemma AnsweredArrives(s: State, ask: nat, key: CacheKey)
    requires ask in s.asks && Answered(s.asks[ask], key)
    ensures Enabled(s, Arrive(ask)) && key in Next(s, Arrive(ask)).cache
  {
  }

  /* ----------------------------------------------------------- one such run */

  /** Grant 0's revocation, all three statements done and the event published, but not committed. */
  function Revoking(jkt: string): M.State {
    var s := G.AfterSignIn(jkt);
    s.(flights := map[1 := M.Revoking(None, 0, [], 0, {0}, {1}, {2})], nextFlight := 2)
  }

  lemma RevokingReached(jkt: string)
    ensures M.Reachable(Revoking(jkt))
  {
    G.SignInReached(jkt);
    var s := G.AfterSignIn(jkt);
    RevokingRuns(jkt);
    ReachesFurther(s, Revoking(jkt));
  }

  lemma RevokingRuns(jkt: string)
    ensures M.Reaches(G.AfterSignIn(jkt), Revoking(jkt))
  {
    hide M.Runs;
    var s := G.AfterSignIn(jkt);
    M.RunNothing(s);
    var so, t := M.RunAlso(s, [], s, M.BeginRevoke([0]));
    so, t := M.RunAlso(s, so, t, M.RevokeStatement(1));
    assert t.flights[1].hit == {0};
    so, t := M.RunAlso(s, so, t, M.RevokeStatement(1));
    assert t.flights[1].doomed == {1};
    so, t := M.RunAlso(s, so, t, M.RevokeStatement(1));
    assert t.flights[1].marked == {2} && t.flights[1].todo == [];
    assert t.flights == Revoking(jkt).flights;
  }

  lemma CommitReaches(s: M.State, f: M.FlightId)
    requires M.Enabled(s, M.CommitRevoke(f))
    ensures M.Reaches(s, M.Next(s, M.CommitRevoke(f)))
  {
    hide M.Runs, M.Next;
    M.RunNothing(s);
    var so, t := M.RunAlso(s, [], s, M.CommitRevoke(f));
  }

  lemma StandsStill(s: M.State)
    ensures M.Reaches(s, s)
  {
    M.RunNothing(s);
  }

  /** The adapter's four actions: it hears of the revocation, asks, is answered, and caches. */
  function Race(jkt: string, caller: Caller, scope: string): seq<Action> {
    [Hear(GrantRevoked(0)), Send(caller, scope), Serve(0, Revoking(jkt).tables), Arrive(0)]
  }

  lemma RaceExchange(jkt: string, workload: Workload, caller: Caller, scope: string)
    requires workload.name.ApiGateway? && caller.credential == 1 && caller.grantId == 0 && scope in G.SCOPES
    ensures var e := Exchange(Revoking(jkt).tables, workload, 1, scope, 0); e.Exchanged? && e.expiresIn == 60
  {
    var t := Revoking(jkt).tables;
    assert Covers(G.SCOPES, [scope]);
    assert VerifyAccess(t, 1, [scope], API_RESOURCE, 0) == Valid("account", G.CLIENT_ID, 0, G.SCOPES, 600, Some(jkt));
  }

  lemma RaceRuns(jkt: string, workload: Workload, caller: Caller, scope: string) returns (end: State)
    requires workload.name.ApiGateway? && caller.credential == 1 && caller.grantId == 0 && scope in G.SCOPES
    ensures Runs(State(workload, 0, map[], map[], 0), Race(jkt, caller, scope), end)
    ensures Lookup(end.cache, caller, scope, end.now).Some?
  {
    RaceExchange(jkt, workload, caller, scope);
    hide Exchange;
    var actions := Race(jkt, caller, scope);
    var s := State(workload, 0, map[], map[], 0);
    var a := Next(s, actions[0]);
    var b := Next(a, actions[1]);
    var c := Next(b, actions[2]);
    end := Next(c, actions[3]);
    assert Runs(end, actions[4..], end);
    assert actions[3..] == [actions[3]] + actions[4..] && Runs(c, actions[3..], end);
    assert actions[2..] == [actions[2]] + actions[3..] && Runs(b, actions[2..], end);
    assert actions[1..] == [actions[1]] + actions[2..] && Runs(a, actions[1..], end);
  }

  /**
   * A run, from the server's start, in which a token is reused although its grant is
   * revoked and the adapter heard so: the event is published before the COMMIT, and the
   * exchange falls between the two.
   */
  lemma ExchangeBeforeCommitIsKept(jkt: string, workload: Workload, scope: string)
    returns (caller: Caller, s: State, actions: seq<Action>, end: State, dbs: seq<M.State>)
    requires workload.name.ApiGateway? && scope in G.SCOPES
    ensures Start(s) && Runs(s, actions, end) && Beside(actions, dbs) && Hears(actions, 0, caller.grantId)
    ensures Revoked(dbs[|actions|].tables, caller.grantId)
    ensures Lookup(end.cache, caller, scope, end.now).Some?
  {
    caller := Caller("account", G.CLIENT_ID, 0, 1);
    s := State(workload, 0, map[], map[], 0);
    actions := Race(jkt, caller, scope);
    end := RaceRuns(jkt, workload, caller, scope);
    var before := Revoking(jkt);
    var after := M.Next(before, M.CommitRevoke(1));
    RevokingReached(jkt);
    StandsStill(before);
    CommitReaches(before, 1);
    dbs := [before, before, before, before, after];
    hide Runs, M.Reachable, M.Reaches;
  }
}
