/**
 * signOutEverywhere among everybody else's statements (server/src/oauth/account.ts):
 * the SELECT of the account's live grants, the revocation of each, and the COMMIT.
 */
module SignOut {
  import opened Basics
  import opened OAuthTables
  import opened RefreshMachine
  import opened RefreshInvariant
  import opened RefreshTheorems
  import OAuthStores

  /** What the SELECT answers: every live grant of the account, in some order. */
  ghost predicate Selects(t: Tables, accountId: string, rows: seq<GrantId>) {
    forall g :: g in rows <==> g in OAuthStores.LiveGrantsOf(t, accountId)
  }

  /** Flight f revokes these grants: each is yet to come, or its UPDATE has hit it or found it revoked. */
  ghost predicate Revokes(s: State, f: FlightId, rows: seq<GrantId>) {
    && f < s.nextFlight && (forall g :: g in rows ==> g in s.tables.grants)
    && (f in s.flights ==>
          var fl := s.flights[f];
          && fl.Revoking? && (forall g :: g in fl.todo ==> g in rows) && (forall g :: g in fl.hit ==> g in rows)
          && (fl.statement != 0 ==> fl.todo != [])
          && (forall g :: g in rows ==>
                g in fl.hit || Revoked(s.tables, g) || g in if fl.statement == 0 then fl.todo else fl.todo[1..]))
  }

  lemma StatementRevokes(s: State, f: FlightId, rows: seq<GrantId>)
    requires Revokes(s, f, rows) && Enabled(s, RevokeStatement(f))
    ensures Revokes(Next(s, RevokeStatement(f)), f, rows)
  {
    var fl := s.flights[f];
    assert fl.todo == [fl.todo[0]] + fl.todo[1..];
  }

  /** A step of anybody else leaves the flight as it is. */
  lemma OthersLeaveIt(s: State, a: Action, f: FlightId)
    requires Enabled(s, a) && a != RevokeStatement(f) && f in s.flights && s.flights[f].Revoking? && f < s.nextFlight
    ensures f in Next(s, a).flights ==> Next(s, a).flights[f] == s.flights[f]
  {
  }

  lemma StaysGone(s: State, a: Action, f: FlightId)
    requires Enabled(s, a) && f !in s.flights && f < s.nextFlight
    ensures f !in Next(s, a).flights
  {
  }

  lemma SupplyGrows(s: State, a: Action)
    requires Enabled(s, a)
    ensures s.nextFlight <= Next(s, a).nextFlight
  {
  }

  lemma RevokesStep(s: State, a: Action, f: FlightId, rows: seq<GrantId>)
    requires Inv(s) && Enabled(s, a) && Revokes(s, f, rows)
    ensures Revokes(Next(s, a), f, rows)
  {
    hide Inv, Next, Enabled;
    if a == RevokeStatement(f) {
      StatementRevokes(s, f, rows);
    } else {
      SupplyGrows(s, a);
      if f in s.flights { OthersLeaveIt(s, a, f); } else { StaysGone(s, a, f); }
      forall g | g in s.tables.grants { GrantStays(s, a, g); }
      forall g | Revoked(s.tables, g) { StepKeepsRevoked(s, a, g); }
    }
  }

  lemma {:induction false} RevokesRun(s: State, actions: seq<Action>, end: State, f: FlightId, rows: seq<GrantId>)
    requires Inv(s) && Runs(s, actions, end) && Revokes(s, f, rows)
    ensures Inv(end) && Revokes(end, f, rows)
    decreases |actions|
  {
    hide Inv, Next, Enabled, Revokes;
    if actions != [] {
      StepHolds(s, actions[0]);
      RevokesStep(s, actions[0], f, rows);
      RevokesRun(Next(s, actions[0]), actions[1..], end, f, rows);
    }
  }

  lemma {:induction false} RowRun(s: State, actions: seq<Action>, end: State, g: GrantId)
    requires Inv(s) && Runs(s, actions, end) && g in s.tables.grants
    ensures g in end.tables.grants && end.tables.grants[g] == s.tables.grants[g].(revokedAt := end.tables.grants[g].revokedAt)
    ensures Revoked(s.tables, g) ==> Revoked(end.tables, g)
    decreases |actions|
  {
    hide Inv, Next, Enabled;
    if actions != [] {
      StepHolds(s, actions[0]);
      GrantStays(s, actions[0], g);
      if Revoked(s.tables, g) { StepKeepsRevoked(s, actions[0], g); }
      RowRun(Next(s, actions[0]), actions[1..], end, g);
    }
  }

  lemma CommitHits(s: State, f: FlightId, g: GrantId)
    requires Enabled(s, CommitRevoke(f)) && g in s.tables.grants
    ensures g in Next(s, CommitRevoke(f)).tables.grants
    ensures Next(s, CommitRevoke(f)).tables.grants[g].accountId == s.tables.grants[g].accountId
    ensures Revoked(Next(s, CommitRevoke(f)).tables, g) <==> g in s.flights[f].hit || Revoked(s.tables, g)
    ensures Next(s, CommitRevoke(f)).tables.grants.Keys == s.tables.grants.Keys
  {
  }

  lemma BegunRevokes(s: State, accountId: string, rows: seq<GrantId>)
    requires SupplyOk(s) && Selects(s.tables, accountId, rows)
    ensures Revokes(Next(s, BeginRevoke(rows)), s.nextFlight, rows)
  {
  }

  /**
   * Which grants of the account survive signing out everywhere, exactly: when the
   * transaction commits, those are live that were not there when its SELECT ran and that
   * nobody has revoked since. Every grant the SELECT saw is revoked.
   */
  lemma SurvivorsAreNewer(s: State, accountId: string, rows: seq<GrantId>, actions: seq<Action>, t: State, g: GrantId)
    requires Reachable(s) && Selects(s.tables, accountId, rows)
    requires Runs(Next(s, BeginRevoke(rows)), actions, t) && Enabled(t, CommitRevoke(s.nextFlight))
    ensures g in OAuthStores.LiveGrantsOf(Next(t, CommitRevoke(s.nextFlight)).tables, accountId) <==>
      g in OAuthStores.LiveGrantsOf(t.tables, accountId) && g !in s.tables.grants
    ensures g in rows ==> Revoked(Next(t, CommitRevoke(s.nextFlight)).tables, g)
  {
    hide Inv, Next, Runs, RowsOk, Reachable;
    var f := s.nextFlight;
    ReachableHolds(s);
    InvSupply(s);
    StepHolds(s, BeginRevoke(rows));
    BegunRevokes(s, accountId, rows);
    BegunTables(s, rows);
    RevokesRun(Next(s, BeginRevoke(rows)), actions, t, f, rows);
    if g in s.tables.grants { RowRun(Next(s, BeginRevoke(rows)), actions, t, g); }
    if g in t.tables.grants { CommitHits(t, f, g); } else { CommitAddsNone(t, f, g); }
  }

  lemma CommitAddsNone(s: State, f: FlightId, g: GrantId)
    requires Enabled(s, CommitRevoke(f)) && g !in s.tables.grants
    ensures g !in Next(s, CommitRevoke(f)).tables.grants
  {
  }

  lemma BegunTables(s: State, rows: seq<GrantId>)
    ensures Next(s, BeginRevoke(rows)).tables == s.tables
  {
  }

  lemma InvSupply(s: State)
    requires Inv(s)
    ensures SupplyOk(s)
  {
  }
}
