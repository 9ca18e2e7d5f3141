/** What the store's operations mean, and that they are runs of the interleaved machine. */
module OAuthStoreTheorems {
  import opened Basics
  import opened OAuthTables
  import opened SealedStore
  import opened OAuthStores
  import M = RefreshMachine
  import RefreshInvariant
  import RefreshTheorems

  /* ------------------------------------------------------------ retried refresh */

  /**
   * A refresh sent again: within the grace window of the rotation it gets the very
   * same answer, and neither mints nor changes a row; from the end of the window on
   * it is theft, and the grant is revoked.
   */
  lemma RetryIsDuplicateOrTheft(w: World, token: Secret, req: Request, now: Time, later: Time)
    requires Consistent(w.tables, w.supply) && BoxesInPlace(w.sealed) && now <= later
    requires ExchangeAlone(w, token, req, now).1.Tokens? && w.tables.refresh[token].replacedBy.None?
    ensures var (first, answer) := ExchangeAlone(w, token, req, now);
            var (second, again) := ExchangeAlone(first, token, req, later);
            var g := w.tables.refresh[token].grantId;
            && (later < now + REFRESH_GRACE ==> again == answer && second.tables == first.tables && second.supply == first.supply)
            && (later >= now + REFRESH_GRACE ==> again == TheftFound && Revoked(second.tables, g))
  {
    var (first, answer) := ExchangeAlone(w, token, req, now);
    var key := Key(req.clientId, token);
    SealThenUnseal(w.sealed, key, key, answer.body, REFRESH_GRACE, now, later);
    assert first.tables.refresh[answer.body.refreshToken.value].replacedBy.None?;
  }

  /* ------------------------------------------------------------------- sign-out */

  /** replaced_by never leaves its grant. */
  ghost predicate LinesApart(t: Tables) {
    forall r :: r in t.refresh && t.refresh[r].replacedBy.Some? && t.refresh[r].replacedBy.value in t.refresh ==>
      t.refresh[t.refresh[r].replacedBy.value].grantId == t.refresh[r].grantId
  }

  lemma LinesStayApart(s: M.State)
    requires M.Reachable(s)
    ensures LinesApart(s.tables)
  {
    RefreshTheorems.ReachableHolds(s);
    forall r | r in s.tables.refresh && s.tables.refresh[r].replacedBy.Some? && s.tables.refresh[r].replacedBy.value in s.tables.refresh
      ensures s.tables.refresh[s.tables.refresh[r].replacedBy.value].grantId == s.tables.refresh[r].grantId
    {
      var g := s.tables.refresh[r].grantId;
      var line := s.past.lines[g];
      var i :| 0 <= i < |line| && line[i] == r;
      assert RefreshInvariant.Linked(line, s.tables.refresh, i);
    }
  }

  function SignedOut(t: Tables, accountId: string, now: Time): Tables {
    RevokedAll(t, LiveGrantsOf(t, accountId), now)
  }

  /** Signing out everywhere ends every grant of the account: no access token verifies, no refresh is answered with tokens. */
  lemma SignOutEndsTheAccount(w: World, accountId: string, now: Time, token: Secret, g: GrantId)
    requires Consistent(w.tables, w.supply) && g in w.tables.grants && w.tables.grants[g].accountId == accountId
    ensures var after := SignedOut(w.tables, accountId, now);
            && Revoked(after, g)
            && (token in w.tables.access && w.tables.access[token].grantId == g ==>
                  forall required, audience, later :: VerifyAccess(after, token, required, audience, later) == InvalidToken)
            && (token in w.tables.refresh && w.tables.refresh[token].grantId == g ==>
                  forall req, later :: !ExchangeAlone(w.(tables := after), token, req, later).1.Tokens?)
  {
    assert g in LiveGrantsOf(w.tables, accountId) || w.tables.grants[g].revokedAt.Some?;
  }

  lemma RowsSpared(t: Tables, accountId: string, now: Time, g: GrantId)
    requires g in t.grants && t.grants[g].accountId != accountId
    ensures var after := SignedOut(t, accountId, now);
            && g in after.grants && after.grants[g] == t.grants[g]
            && after.refresh.Keys == t.refresh.Keys
            && (forall r :: r in t.refresh && t.refresh[r].grantId == g ==> after.refresh[r] == t.refresh[r])
            && (forall a :: a in t.access && t.access[a].grantId == g ==> a in after.access && after.access[a] == t.access[a])
  {
  }

  /** And touches nobody else: every token of another account verifies, and refreshes, as it did before. */
  lemma SignOutSparesOthers(w: World, accountId: string, now: Time, token: Secret, g: GrantId)
    requires Consistent(w.tables, w.supply) && LinesApart(w.tables)
    requires g in w.tables.grants && w.tables.grants[g].accountId != accountId
    ensures var after := SignedOut(w.tables, accountId, now);
            && g in after.grants && after.grants[g] == w.tables.grants[g]
            && (token in w.tables.access && w.tables.access[token].grantId == g ==>
                  forall required, audience, later ::
                    VerifyAccess(after, token, required, audience, later) == VerifyAccess(w.tables, token, required, audience, later))
            && (token in w.tables.refresh && w.tables.refresh[token].grantId == g ==>
                  forall req, later ::
                    ExchangeAlone(w.(tables := after), token, req, later).1 == ExchangeAlone(w, token, req, later).1)
  {
    hide SignedOut, VerifyAccess, ExchangeAlone, LinesApart, Consistent;
    RowsSpared(w.tables, accountId, now, g);
    var after := SignedOut(w.tables, accountId, now);
    if token in w.tables.access && w.tables.access[token].grantId == g {
      forall required, audience, later
        ensures VerifyAccess(after, token, required, audience, later) == VerifyAccess(w.tables, token, required, audience, later)
      {
        SameRowVerifies(w.tables, after, token, required, audience, later);
      }
    }
    if token in w.tables.refresh && w.tables.refresh[token].grantId == g {
      SameSuccessor(w.tables, after, token, g);
      forall req, later
        ensures ExchangeAlone(w.(tables := after), token, req, later).1 == ExchangeAlone(w, token, req, later).1
      {
        SameRowExchanges(w, after, token, req, later);
      }
    }
  }

  lemma SameRowVerifies(t: Tables, u: Tables, token: Secret, required: seq<string>, audience: string, now: Time)
    requires token in t.access && token in u.access && u.access[token] == t.access[token]
    requires t.access[token].grantId in t.grants && t.access[token].grantId in u.grants
    requires u.grants[t.access[token].grantId] == t.grants[t.access[token].grantId]
    ensures VerifyAccess(u, token, required, audience, now) == VerifyAccess(t, token, required, audience, now)
  {
  }

  lemma SameSuccessor(t: Tables, u: Tables, token: Secret, g: GrantId)
    requires LinesApart(t) && token in t.refresh && t.refresh[token].grantId == g && u.refresh.Keys == t.refresh.Keys
    requires forall r :: r in t.refresh && t.refresh[r].grantId == g ==> u.refresh[r] == t.refresh[r]
    ensures SuccessorUsed(u.refresh, t.refresh[token]) == SuccessorUsed(t.refresh, t.refresh[token])
  {
  }

  lemma SameRowExchanges(w: World, u: Tables, token: Secret, req: Request, now: Time)
    requires token in w.tables.refresh && token in u.refresh && u.refresh[token] == w.tables.refresh[token]
    requires w.tables.refresh[token].grantId in w.tables.grants && w.tables.refresh[token].grantId in u.grants
    requires u.grants[w.tables.refresh[token].grantId] == w.tables.grants[w.tables.refresh[token].grantId]
    requires SuccessorUsed(u.refresh, u.refresh[token]) == SuccessorUsed(w.tables.refresh, w.tables.refresh[token])
    ensures ExchangeAlone(w.(tables := u), token, req, now).1 == ExchangeAlone(w, token, req, now).1
  {
    hide SuccessorUsed, RevokedAlone, ApplyRotation, SealIn, UnsealIn, AfterUnseal, Decide;
  }

  lemma ReachableIsConsistent(s: M.State)
    requires M.Reachable(s)
    ensures Consistent(s.tables, s.next)
  {
    RefreshTheorems.ReachableHolds(s);
  }

  /** So in every reachable state, whatever rotations, revocations and prunings came before. */
  lemma SignOutSparesOthersAnytime(s: M.State, accountId: string, token: Secret, g: GrantId, req: Request, later: Time)
    requires M.Reachable(s) && g in s.tables.grants && s.tables.grants[g].accountId != accountId
    ensures var after := SignedOut(s.tables, accountId, s.now);
            token in s.tables.refresh && s.tables.refresh[token].grantId == g ==>
              ExchangeAlone(WorldOf(s).(tables := after), token, req, later).1 == ExchangeAlone(WorldOf(s), token, req, later).1
  {
    hide M.Reachable, SignedOut, ExchangeAlone, LinesApart, Consistent;
    ReachableIsConsistent(s);
    LinesStayApart(s);
    SignOutSparesOthers(WorldOf(s), accountId, s.now, token, g);
  }

  /* --------------------------------------------------------- other grants */

  /** What everybody else leaves as it is: the grant, its rows, and the sealed answers to them. */
  ghost predicate Undisturbed(w: World, u: World, g: GrantId, now: Time) {
    && Consistent(u.tables, u.supply) && BoxesInPlace(u.sealed) && w.supply <= u.supply
    && (g in w.tables.grants ==> g in u.tables.grants && u.tables.grants[g] == w.tables.grants[g])
    && (forall r :: r in w.tables.refresh && w.tables.refresh[r].grantId == g ==> r in u.tables.refresh && u.tables.refresh[r] == w.tables.refresh[r])
    && (forall r :: r in u.tables.refresh && u.tables.refresh[r].grantId == g ==> r in w.tables.refresh && w.tables.refresh[r].grantId == g)
    && (forall r :: r in u.tables.refresh && r !in w.tables.refresh ==> r >= w.supply)
    && (forall k: Key, at :: k.token in w.tables.refresh && w.tables.refresh[k.token].grantId == g && at >= now ==>
          UnsealIn(u.sealed, k, at) == UnsealIn(w.sealed, k, at))
  }

  /** A token presented by its holder after its successor was used is theft, however soon. */
  lemma UsedSuccessorIsTheft(w: World, token: Secret, req: Request, now: Time)
    requires token in w.tables.refresh && w.tables.refresh[token].grantId in w.tables.grants
    requires var grant := w.tables.grants[w.tables.refresh[token].grantId];
             grant.revokedAt.None? && (grant.dpopJkt.Some? ==> grant.dpopJkt == req.jkt)
    requires SuccessorUsed(w.tables.refresh, w.tables.refresh[token])
    ensures var (after, answer) := ExchangeAlone(w, token, req, now);
            answer == TheftFound && Revoked(after.tables, w.tables.refresh[token].grantId)
  {
  }

  /** Whatever a request for another grant's token does, it leaves this grant undisturbed. */
  lemma OtherGrantsDoNotDisturb(w: World, g: GrantId, token: Secret, req: Request, now: Time)
    requires Consistent(w.tables, w.supply) && BoxesInPlace(w.sealed) && g in w.tables.grants
    requires token in w.tables.refresh ==> w.tables.refresh[token].grantId != g
    ensures Undisturbed(w, ExchangeAlone(w, token, req, now).0, g, now)
  {
    var u := ExchangeAlone(w, token, req, now).0;
    OtherGrantsTables(w, g, token, req, now);
    hide ExchangeAlone, Consistent;
    forall k: Key, at | k.token in w.tables.refresh && w.tables.refresh[k.token].grantId == g && at >= now
      ensures UnsealIn(u.sealed, k, at) == UnsealIn(w.sealed, k, at)
    {
      OtherKeysUnseal(w, token, req, now, k, at);
    }
  }

  lemma OtherGrantsTables(w: World, g: GrantId, token: Secret, req: Request, now: Time)
    requires Consistent(w.tables, w.supply) && BoxesInPlace(w.sealed) && g in w.tables.grants
    requires token in w.tables.refresh ==> w.tables.refresh[token].grantId != g
    ensures var u := ExchangeAlone(w, token, req, now).0;
            && Consistent(u.tables, u.supply) && BoxesInPlace(u.sealed) && w.supply <= u.supply
            && g in u.tables.grants && u.tables.grants[g] == w.tables.grants[g]
            && (forall r :: r in w.tables.refresh && w.tables.refresh[r].grantId == g ==> r in u.tables.refresh && u.tables.refresh[r] == w.tables.refresh[r])
            && (forall r :: r in u.tables.refresh && u.tables.refresh[r].grantId == g ==> r in w.tables.refresh && w.tables.refresh[r].grantId == g)
            && (forall r :: r in u.tables.refresh && r !in w.tables.refresh ==> r >= w.supply)
  {
    hide UnsealIn, RevokedAlone, ApplyRotation, SealIn, Consistent;
    if token in w.tables.refresh && w.tables.refresh[token].grantId in w.tables.grants {
      var mine := w.tables.refresh[token].grantId;
      OtherRevocation(w, g, mine, now);
      forall scope | RotateAlone(w, token, req, now).1 == Rotated(RotationIssues(w, token, scope)) { OtherRotation(w, g, token, req, scope, now); }
    }
  }

  lemma OtherRevocation(w: World, g: GrantId, other: GrantId, now: Time)
    requires Consistent(w.tables, w.supply) && g in w.tables.grants && g != other
    ensures var u := RevokedAlone(w.tables, other, now);
            && Consistent(u, w.supply) && g in u.grants && u.grants[g] == w.tables.grants[g]
            && u.refresh.Keys == w.tables.refresh.Keys
            && (forall r :: r in w.tables.refresh ==> u.refresh[r].grantId == w.tables.refresh[r].grantId)
            && (forall r :: r in w.tables.refresh && w.tables.refresh[r].grantId == g ==> u.refresh[r] == w.tables.refresh[r])
  {
  }

  lemma OtherRotation(w: World, g: GrantId, token: Secret, req: Request, scope: seq<string>, now: Time)
    requires Consistent(w.tables, w.supply) && BoxesInPlace(w.sealed) && g in w.tables.grants
    requires token in w.tables.refresh && w.tables.refresh[token].grantId in w.tables.grants && w.tables.refresh[token].grantId != g
    ensures var issued := RotationIssues(w, token, scope);
            var u := ApplyRotation(w.tables, token, issued, now);
            && Consistent(u, w.supply + 2) && u.grants == w.tables.grants
            && BoxesInPlace(SealIn(w.sealed, Key(req.clientId, token), issued, REFRESH_GRACE, now))
            && (forall r :: r in w.tables.refresh && w.tables.refresh[r].grantId == g ==> r in u.refresh && u.refresh[r] == w.tables.refresh[r])
            && (forall r :: r in u.refresh && u.refresh[r].grantId == g ==> r in w.tables.refresh && w.tables.refresh[r].grantId == g)
            && (forall r :: r in u.refresh && r !in w.tables.refresh ==> r >= w.supply)
  {
  }

  lemma OtherKeysUnseal(w: World, token: Secret, req: Request, now: Time, key: Key, at: Time)
    requires key.token != token && at >= now
    ensures UnsealIn(ExchangeAlone(w, token, req, now).0.sealed, key, at) == UnsealIn(w.sealed, key, at)
  {
    UnsealForgetsNothing(w.sealed, Key(req.clientId, token), key, now, at);
    hide RevokedAlone, ApplyRotation, RotationIssues, Decide;
  }

  /* ------------------------------------------- the store runs the statements */

  function WorldOf(s: M.State): World { World(s.tables, s.sealed, s.next) }

  function EndOf(token: Secret, req: Request, answer: Answer): M.Ended {
    match answer
    case Refused(why) => M.Refused(token, why)
    case CopyGone => M.CopyGone(token)
    case TheftFound => M.TheftFound(token)
    case Tokens(body) => M.Answered(token, req, body)
  }

  /** Through the SELECT ... FOR UPDATE, with nobody else in flight. */
  lemma LockedAlone(s: M.State, token: Secret, req: Request) returns (actions: seq<M.Action>, locked: M.State)
    requires s.flights == map[] && token < s.next && token in s.tables.refresh
    ensures M.Runs(s, actions, locked)
    ensures var f := s.nextFlight;
            var launched := M.Launch(s, M.Waiting(token, req, s.now, s.tables));
            locked == M.Locked(launched, f, token, req, s.now, s.tables)
  {
    hide M.Locked;
    var f := s.nextFlight;
    var here := s;
    actions := [];
    actions, here := M.RunAlso(s, actions, here, M.BeginRefresh(token, req));
    actions, here := M.RunAlso(s, actions, here, M.TakeSnapshot(f));
    assert here == M.Launch(s, M.Waiting(token, req, s.now, s.tables));
    actions, locked := M.RunAlso(s, actions, here, M.TakeLock(f));
  }

  lemma RotationRuns(s: M.State, was: seq<M.Action>, at: M.State, token: Secret, req: Request, scope: seq<string>)
    returns (actions: seq<M.Action>, end: M.State)
    requires M.Runs(s, was, at) && s.flights == map[] && token in s.tables.refresh && s.tables.refresh[token].grantId in s.tables.grants
    requires at == M.Launch(s, M.Chosen(token, req, s.now, scope))
    ensures M.Runs(s, actions, end)
    ensures var issued := RotationIssues(WorldOf(s), token, scope);
            && end.tables == ApplyRotation(s.tables, token, issued, s.now)
            && end.sealed == SealIn(s.sealed, Key(req.clientId, token), issued, REFRESH_GRACE, s.now)
            && end.next == s.next + 2 && end.flights == map[] && end.now == s.now
            && end.past.ended == s.past.ended[s.nextFlight := M.Answered(token, req, issued)]
  {
    hide M.Runs, ApplyRotation, SealIn;
    var f := s.nextFlight;
    var here := at;
    actions := was;
    actions, here := M.RunAlso(s, actions, here, M.Issue(f));
    actions, here := M.RunAlso(s, actions, here, M.Seal(f));
    actions, here := M.RunAlso(s, actions, here, M.CommitRotation(f));
    actions, end := M.RunAlso(s, actions, here, M.Answer(f));
  }

  lemma TheftRuns(s: M.State, was: seq<M.Action>, at: M.State, token: Secret, g: GrantId)
    returns (actions: seq<M.Action>, end: M.State)
    requires M.Runs(s, was, at) && s.flights == map[]
    requires at == M.Launch(s, M.Revoking(Some(token), s.now, [g], 0, {}, {}, {}))
    ensures M.Runs(s, actions, end)
    ensures end.tables == RevokedAlone(s.tables, g, s.now) && end.sealed == s.sealed && end.next == s.next
    ensures end.flights == map[] && end.now == s.now
    ensures end.past.ended == s.past.ended[s.nextFlight := M.TheftFound(token)]
  {
    hide M.Runs, ApplyRevocation;
    var f := s.nextFlight;
    var here := at;
    actions := was;
    actions, here := M.RunAlso(s, actions, here, M.RevokeStatement(f));
    actions, here := M.RunAlso(s, actions, here, M.RevokeStatement(f));
    actions, here := M.RunAlso(s, actions, here, M.RevokeStatement(f));
    var fl := here.flights[f];
    assert fl.hit == LiveGrants(s.tables, g) && fl.doomed == AccessOf(s.tables, g) && fl.marked == UnrevokedRefreshOf(s.tables, g);
    actions, end := M.RunAlso(s, actions, here, M.CommitRevoke(f));
  }

  /**
   * The exchange the store performs is one of the machine's runs: alone, the
   * interleaved statements leave the same tables, sealed copies and supply, and give
   * the same answer.
   */
  lemma ExchangeIsARun(s: M.State, token: Secret, req: Request) returns (actions: seq<M.Action>, end: M.State)
    requires s.flights == map[] && token < s.next
    ensures M.Runs(s, actions, end) && end.flights == map[] && end.now == s.now
    ensures var (after, answer) := ExchangeAlone(WorldOf(s), token, req, s.now);
            && WorldOf(end) == after
            && end.past.ended == s.past.ended[s.nextFlight := EndOf(token, req, answer)]
  {
    hide M.Runs;
    var f := s.nextFlight;
    if token !in s.tables.refresh {
      M.RunNothing(s);
      var here;
      actions, here := M.RunAlso(s, [], s, M.BeginRefresh(token, req));
      actions, end := M.RunAlso(s, actions, here, M.TakeSnapshot(f));
    } else {
      var locked;
      actions, locked := LockedAlone(s, token, req);
      var row := s.tables.refresh[token];
      if row.grantId !in s.tables.grants {
        end := locked;
      } else {
        match Decide(row, s.tables.grants[row.grantId], SuccessorUsed(s.tables.refresh, row), s.now, req)
        case Refuse(_) => end := locked;
        case Replay => actions, end := M.RunAlso(s, actions, locked, M.Unseal(f));
        case Theft => actions, end := TheftRuns(s, actions, locked, token, row.grantId);
        case Rotate(scope) => actions, end := RotationRuns(s, actions, locked, token, req, scope);
      }
    }
  }
}
