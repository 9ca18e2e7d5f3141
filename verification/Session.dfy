/**
 * The app's session (ios/IoTSwitch/Session/SessionController.swift).
 *
 * Everything runs on one actor, so only an `await` lets another call in. Each
 * stretch of code between two awaits is one function on the controller's fields,
 * one method of the class, and one action of the machine below; any caller may
 * start such a stretch at any time, and a refresh's answer may arrive at any time.
 */
module Session {
  import opened Basics

  type Token = nat
  type TaskId = nat

  datatype Account = Account(id: string, username: string)

  datatype Access = Access(token: Token, issuedAt: Time, expiresAt: Time)

  datatype Stored = Stored(refreshToken: Token, account: Account)

  datatype TokenResponse = TokenResponse(accessToken: Token, refreshToken: Option<Token>, expiresIn: nat)

  datatype Fields = Fields(
    refreshToken: Option<Token>, access: Option<Access>, refreshTask: Option<TaskId>,
    account: Option<Account>, isSignedIn: bool, stored: Option<Stored>)

  function AccessFrom(tokens: TokenResponse, now: Time): Access {
    Access(tokens.accessToken, now, now + tokens.expiresIn * SECOND)
  }

  function Restored(stored: Option<Stored>): Fields {
    match stored
    case None => Fields(None, None, None, None, false, None)
    case Some(session) => Fields(Some(session.refreshToken), None, None, Some(session.account), true, stored)
  }

  function Adopted(f: Fields, tokens: TokenResponse, refresh: Token, account: Account, now: Time): Fields {
    Fields(Some(refresh), Some(AccessFrom(tokens, now)), f.refreshTask, Some(account), true, Some(Stored(refresh, account)))
  }

  function StoredIn(f: Fields, tokens: TokenResponse, now: Time): Fields {
    if f.account.None? then f
    else
      var rotated := match tokens.refreshToken
        case None => f
        case Some(refresh) => f.(refreshToken := Some(refresh), stored := Some(Stored(refresh, f.account.value)));
      rotated.(access := Some(AccessFrom(tokens, now)))
  }

  function Cleared(f: Fields): Fields { Fields(None, None, None, None, false, None) }

  /** The access token in memory, while it has more than a quarter of its life left. */
  function Usable(f: Fields, now: Time): Option<Token> {
    if f.access.Some? && 4 * (f.access.value.expiresAt - now) > f.access.value.expiresAt - f.access.value.issuedAt then
      Some(f.access.value.token)
    else None
  }

  /** refreshOnce up to its await: join the refresh under way, refuse, or start one. */
  datatype Begun = Join(task: TaskId) | NoSession | Start(token: Token)

  function Beginning(f: Fields): Begun {
    if f.refreshTask.Some? then Join(f.refreshTask.value)
    else if f.refreshToken.None? then NoSession
    else Start(f.refreshToken.value)
  }

  /** The owner of a refresh resumes: a rejection ends the session, and the refresh is forgotten either way. */
  function Resumed(f: Fields, rejected: bool): Fields {
    (if rejected then Cleared(f) else f).(refreshTask := None)
  }

  /**
   * What a session is worth after each change, to whoever asks next: tokens just adopted or
   * stored are used for three quarters of their life, and a refresh presents the newest
   * refresh token; a store without an account changes nothing; nothing is left of a
   * cleared session; and a restored one has only its refresh token.
   */
  lemma HeldTokensAreUsed(f: Fields, tokens: TokenResponse, refresh: Token, account: Account, now: Time, later: Time, restored: Option<Stored>)
    ensures var adopted, stored := Adopted(f, tokens, refresh, account, now), StoredIn(f, tokens, now);
            var young := 4 * (later - now) < 3 * (tokens.expiresIn * 1000);
            && Usable(adopted, later) == (if young then Some(tokens.accessToken) else None)
            && adopted.stored == Some(Stored(refresh, account)) && adopted.account == Some(account) && adopted.isSignedIn
            && Beginning(adopted) == (if f.refreshTask.Some? then Join(f.refreshTask.value) else Start(refresh))
            && (f.account.None? ==> stored == f)
            && (f.account.Some? ==>
                  && Usable(stored, later) == (if young then Some(tokens.accessToken) else None)
                  && stored.account == f.account && stored.isSignedIn == f.isSignedIn
                  && (tokens.refreshToken.None? ==> Beginning(stored) == Beginning(f) && stored.stored == f.stored)
                  && (tokens.refreshToken.Some? && f.refreshTask.None? ==> Beginning(stored) == Start(tokens.refreshToken.value))
                  && (tokens.refreshToken.Some? ==> stored.stored == Some(Stored(tokens.refreshToken.value, f.account.value))))
    ensures Usable(Cleared(f), later).None? && Beginning(Cleared(f)) == NoSession && Cleared(f).stored.None? && !Cleared(f).isSignedIn
    ensures Usable(Restored(restored), later).None?
    ensures Beginning(Restored(restored)) == if restored.Some? then Start(restored.value.refreshToken) else NoSession
    ensures Resumed(f, true) == Cleared(f) && Resumed(f, false) == f.(refreshTask := None)
  {
  }

  class SessionController {
    var refreshToken: Option<Token>
    var access: Option<Access>
    var refreshTask: Option<TaskId>
    var account: Option<Account>
    var isSignedIn: bool
    var storage: Option<Stored>

    ghost function State(): Fields reads this { Fields(refreshToken, access, refreshTask, account, isSignedIn, storage) }

    constructor (restored: Option<Stored>)
      ensures State() == Restored(restored)
    {
      refreshToken, access, refreshTask, account, isSignedIn, storage := None, None, None, None, false, restored;
      if restored.Some? {
        refreshToken := Some(restored.value.refreshToken);
        account := Some(restored.value.account);
        isSignedIn := true;
      }
    }

    method Adopt(tokens: TokenResponse, refresh: Token, who: Account, now: Time)
      modifies this
      ensures State() == Adopted(old(State()), tokens, refresh, who, now)
    {
      refreshToken := Some(refresh);
      access := Some(AccessFrom(tokens, now));
      storage := Some(Stored(refresh, who));
      account := Some(who);
      isSignedIn := true;
    }

    method Store(tokens: TokenResponse, now: Time)
      modifies this
      ensures State() == StoredIn(old(State()), tokens, now)
    {
      if account.None? { return; }
      if tokens.refreshToken.Some? {
        refreshToken := tokens.refreshToken;
        storage := Some(Stored(tokens.refreshToken.value, account.value));
      }
      access := Some(AccessFrom(tokens, now));
    }

    method ClearSession()
      modifies this
      ensures State() == Cleared(old(State()))
    {
      refreshTask := None;
      refreshToken := None;
      access := None;
      storage := None;
      account := None;
      isSignedIn := false;
    }

    method CurrentAccessToken(now: Time) returns (token: Option<Token>)
      ensures token == Usable(State(), now)
      ensures token.Some? ==> access.Some? && access.value.token == token.value && (access.value.issuedAt <= access.value.expiresAt ==> now < access.value.expiresAt)
    {
      if access.Some? {
        var lifetime := access.value.expiresAt - access.value.issuedAt;
        if 4 * (access.value.expiresAt - now) > lifetime { return Some(access.value.token); }
      }
      return None;
    }

    method BeginRefresh(task: TaskId) returns (begun: Begun)
      modifies this`refreshTask
      ensures begun == Beginning(old(State()))
      ensures State() == old(State()).(refreshTask := if begun.Start? then Some(task) else old(refreshTask))
    {
      if refreshTask.Some? { return Join(refreshTask.value); }
      if refreshToken.None? { return NoSession; }
      begun := Start(refreshToken.value);
      refreshTask := Some(task);
    }

    method EndRefresh(rejected: bool)
      modifies this
      ensures State() == Resumed(old(State()), rejected)
    {
      if rejected { ClearSession(); }
      refreshTask := None;
    }
  }

  /* ---------------------------------------------------------------- machine */

  datatype Progress = Running | Renewed | Rejected | Broken

  datatype Refresh = Refresh(token: Token, progress: Progress)

  datatype Outcome = Answer(tokens: TokenResponse) | Refusal | Failure

  datatype State = State(
    app: Fields,
    /** Refreshes begun whose owner has not resumed. */
    tasks: map<TaskId, Refresh>, nextTask: TaskId,
    /** Refresh tokens the app ever held, those a refresh succeeded with, and what each was answered with. */
    known: set<Token>, spent: set<Token>, answers: map<Token, Token>)

  datatype Action =
    /** signIn's last stretch, or a relaunch: tokens never seen before. */
    | Adopt(tokens: TokenResponse, refresh: Token, account: Account, now: Time)
    /** Any caller reaches refreshOnce. */
    | RefreshOnce
    /** The network call of a refresh task returns, and its body stores the answer. */
    | Return(t: TaskId, outcome: Outcome, now: Time)
    /** The caller that began the refresh resumes. */
    | Resume(t: TaskId)
    /** logOut, sessionExpired, or a second 401. */
    | Expire

  predicate Enabled(s: State, a: Action) {
    match a
    case Adopt(_, refresh, _, _) => refresh !in s.known
    case RefreshOnce => true
    case Return(t, _, _) => t in s.tasks && s.tasks[t].progress.Running?
    case Resume(t) => t in s.tasks && !s.tasks[t].progress.Running?
    case Expire => true
  }

  function Next(s: State, a: Action): State
    requires Enabled(s, a)
  {
    match a
    case Adopt(tokens, refresh, account, now) =>
      s.(app := Adopted(s.app, tokens, refresh, account, now), known := s.known + {refresh})
    case RefreshOnce =>
      (match Beginning(s.app)
       case Start(token) =>
         s.(app := s.app.(refreshTask := Some(s.nextTask)),
            tasks := s.tasks[s.nextTask := Refresh(token, Running)], nextTask := s.nextTask + 1)
       case _ => s)
    case Return(t, outcome, now) =>
      var token := s.tasks[t].token;
      (match outcome
       case Refusal => s.(tasks := s.tasks[t := Refresh(token, Rejected)])
       case Failure => s.(tasks := s.tasks[t := Refresh(token, Broken)])
       case Answer(tokens) =>
         var after := s.(app := StoredIn(s.app, tokens, now), tasks := s.tasks[t := Refresh(token, Renewed)]);
         if tokens.refreshToken.None? then after
         else
           after.(known := s.known + {tokens.refreshToken.value}, spent := s.spent + {token},
                  answers := s.answers[token := tokens.refreshToken.value]))
    case Resume(t) =>
      s.(app := Resumed(s.app, s.tasks[t].progress.Rejected?), tasks := s.tasks - {t})
    case Expire => s.(app := Cleared(s.app))
  }

  predicate Launched(s: State) {
    && (s.app.stored.None? || s.app.stored.value.refreshToken in s.known)
    && s == State(Restored(s.app.stored), map[], 0, s.known, {}, map[])
  }

  predicate Runs(s: State, actions: seq<Action>, end: State)
    decreases |actions|
  {
    if actions == [] then end == s
    else Enabled(s, actions[0]) && Runs(Next(s, actions[0]), actions[1..], end)
  }

  ghost predicate Reachable(end: State) {
    exists s, actions :: Launched(s) && Runs(s, actions, end)
  }

  /* --------------------------------------------------------------- coherence */

  /** Signed in, an account, a refresh token and a stored copy of both: all present or all absent. */
  predicate Coherent(f: Fields) {
    && (f.isSignedIn <==> f.account.Some?)
    && (f.isSignedIn <==> f.refreshToken.Some?)
    && (f.isSignedIn <==> f.stored.Some?)
    && (f.stored.Some? ==> f.refreshToken == Some(f.stored.value.refreshToken) && f.account == Some(f.stored.value.account))
    && (f.access.Some? ==> f.isSignedIn)
  }

  ghost predicate Inv(s: State) {
    && Coherent(s.app)
    && (forall t :: t in s.tasks ==> t < s.nextTask && s.tasks[t].token in s.known)
    && (s.app.refreshTask.Some? ==> s.app.refreshTask.value in s.tasks && s.app.isSignedIn)
    && (s.app.refreshToken.Some? ==> s.app.refreshToken.value in s.known)
    && s.spent <= s.known && s.answers.Keys == s.spent
    && (forall x :: x in s.answers ==> s.answers[x] in s.known)
  }

  lemma StepHolds(s: State, a: Action)
    requires Inv(s) && Enabled(s, a)
    ensures Inv(Next(s, a))
  {
  }

  lemma {:induction false} RunHolds(s: State, actions: seq<Action>, end: State)
    requires Inv(s) && Runs(s, actions, end)
    ensures Inv(end)
    decreases |actions|
  {
    hide Inv, Next, Enabled;
    if actions != [] {
      StepHolds(s, actions[0]);
      RunHolds(Next(s, actions[0]), actions[1..], end);
    }
  }

  /**
   * Whatever refreshes are under way, and whenever they return: the held and the
   * stored refresh token are the same, and signed-in, account and token come and go
   * together.
   */
  lemma AlwaysCoherent(s: State)
    requires Reachable(s)
    ensures Inv(s) && Coherent(s.app)
  {
    var start, actions :| Launched(start) && Runs(start, actions, s);
    RunHolds(start, actions, s);
  }

  predicate SignedOut(s: State) { s.app == Fields(None, None, None, None, false, None) }

  predicate Adopts(actions: seq<Action>) {
    exists a :: a in actions && a.Adopt?
  }

  /** Once signed out, nothing comes back until the next sign-in, whatever old refresh still finishes. */
  lemma {:induction false} SignedOutStays(s: State, actions: seq<Action>, end: State)
    requires SignedOut(s) && Runs(s, actions, end) && !Adopts(actions)
    ensures SignedOut(end) && end.tasks.Keys <= s.tasks.Keys
    decreases |actions|
  {
    if actions != [] {
      assert actions[0] in actions;
      SignedOutStays(Next(s, actions[0]), actions[1..], end);
    }
  }

  /* ------------------------------------------------------------ single flight */

  /**
   * At most one refresh is outstanding; while signed in it is the one others join,
   * it carries the held token, and the held token was never spent.
   */
  ghost predicate InEpoch(s: State) {
    && (forall t, u :: t in s.tasks && u in s.tasks ==> t == u)
    && (s.app.isSignedIn ==>
          && (forall t :: t in s.tasks ==> s.app.refreshTask == Some(t))
          && (forall t :: t in s.tasks && !s.tasks[t].progress.Renewed? ==> s.app.refreshToken == Some(s.tasks[t].token))
          && (s.app.refreshToken.Some? ==> s.app.refreshToken.value !in s.spent))
  }

  /** The token endpoint answers one token always alike, and otherwise with tokens never seen before. */
  predicate Plausible(s: State, token: Token, tokens: TokenResponse) {
    && tokens.refreshToken.Some?
    && if token in s.answers then tokens.refreshToken.value == s.answers[token] else tokens.refreshToken.value !in s.known
  }

  /** A sign-in finds no refresh outstanding; an answer is one the token endpoint would give. */
  predicate Orderly(s: State, a: Action)
    requires Enabled(s, a)
  {
    && (a.Adopt? ==> s.tasks == map[])
    && (a.Return? && a.outcome.Answer? ==> Plausible(s, s.tasks[a.t].token, a.outcome.tokens))
  }

  predicate OrderlyRun(s: State, actions: seq<Action>)
    decreases |actions|
  {
    actions == [] || (Enabled(s, actions[0]) && Orderly(s, actions[0]) && OrderlyRun(Next(s, actions[0]), actions[1..]))
  }

  lemma EpochStep(s: State, a: Action)
    requires Inv(s) && InEpoch(s) && Enabled(s, a) && Orderly(s, a)
    ensures InEpoch(Next(s, a))
  {
  }

  lemma {:induction false} EpochRun(s: State, actions: seq<Action>, end: State)
    requires Inv(s) && InEpoch(s) && Runs(s, actions, end) && OrderlyRun(s, actions)
    ensures Inv(end) && InEpoch(end)
    decreases |actions|
  {
    hide Inv, InEpoch, Next, Enabled, Orderly;
    if actions != [] {
      StepHolds(s, actions[0]);
      EpochStep(s, actions[0]);
      EpochRun(Next(s, actions[0]), actions[1..], end);
    }
  }

  /**
   * If no sign-in ever overtakes an outstanding refresh, two refreshes are never in
   * flight, and none ever presents a token with which a refresh already succeeded.
   */
  lemma SingleFlight(start: State, actions: seq<Action>, s: State)
    requires Launched(start) && Runs(start, actions, s) && OrderlyRun(start, actions)
    ensures forall t, u :: t in s.tasks && u in s.tasks ==> t == u
    ensures Beginning(s.app).Start? ==> Beginning(s.app).token !in s.spent && s.tasks == map[]
  {
    EpochRun(start, actions, s);
  }

  lemma Take(s: State, a: Action) returns (t: State)
    requires Enabled(s, a)
    ensures t == Next(s, a) && Runs(s, [a], t)
  {
    t := Next(s, a);
    assert Runs(t, [a][1..], t);
  }

  lemma {:induction false} RunThen(s: State, actions: seq<Action>, mid: State, more: seq<Action>, end: State)
    requires Runs(s, actions, mid) && Runs(mid, more, end)
    ensures Runs(s, actions + more, end)
    decreases |actions|
  {
    hide Next, Enabled;
    if actions == [] {
      assert actions + more == more;
    } else {
      RunThen(Next(s, actions[0]), actions[1..], mid, more, end);
      assert (actions + more)[1..] == actions[1..] + more;
    }
  }

  /**
   * The condition is needed: whenever a sign-in has left an older refresh outstanding
   * that was not refused, its owner's cleanup can let two refreshes run at once with
   * the same token.
   */
  lemma OvertakenRefreshBreaksSingleFlight(s: State, stale: TaskId) returns (actions: seq<Action>, end: State)
    requires Inv(s) && s.app.isSignedIn && s.app.refreshTask.None?
    requires stale in s.tasks && !s.tasks[stale].progress.Rejected?
    ensures Runs(s, actions, end) && !Adopts(actions)
    ensures var t, u := s.nextTask, s.nextTask + 1;
            && t in end.tasks && u in end.tasks
            && end.tasks[t] == end.tasks[u] == Refresh(s.app.refreshToken.value, Running)
  {
    var a := Take(s, RefreshOnce);
    var b, ending := a, [];
    if s.tasks[stale].progress.Running? {
      ending := [Return(stale, Failure, 0)];
      b := Take(a, ending[0]);
    }
    RunThen(s, [RefreshOnce], a, ending, b);
    var c := Take(b, Resume(stale));
    RunThen(s, [RefreshOnce] + ending, b, [Resume(stale)], c);
    end := Take(c, RefreshOnce);
    RunThen(s, [RefreshOnce] + ending + [Resume(stale)], c, [RefreshOnce], end);
    actions := [RefreshOnce] + ending + [Resume(stale)] + [RefreshOnce];
  }

  /** And an older refresh that was refused signs the newer session out. */
  lemma OvertakenRefusalSignsOut(s: State, stale: TaskId)
    requires Inv(s) && stale in s.tasks && s.tasks[stale].progress.Rejected?
    ensures SignedOut(Next(s, Resume(stale)))
  {
  }

  /**
   * The condition is exact. A sign-in with no refresh outstanding begins an epoch that
   * every run without another sign-in keeps, while the token endpoint answers as it does;
   * a sign-in with one outstanding can be followed, without another, by two refreshes of
   * one token at once, or, if the old one was refused, by the new session's end.
   */
  lemma SignInIsCleanIffNothingIsOutstanding(
    s: State, tokens: TokenResponse, refresh: Token, account: Account, now: Time)
    returns (actions: seq<Action>, end: State)
    requires Reachable(s) && SignedOut(s) && refresh !in s.known
    ensures var n := Next(s, Adopt(tokens, refresh, account, now));
            && Inv(n) && n.app.isSignedIn
            && (s.tasks == map[] ==> InEpoch(n))
            && (s.tasks != map[] ==> Runs(n, actions, end) && !Adopts(actions) && (SignedOut(end) || TwoAtOnce(end, refresh)))
  {
    AlwaysCoherent(s);
    var n := Next(s, Adopt(tokens, refresh, account, now));
    StepHolds(s, Adopt(tokens, refresh, account, now));
    actions, end := [], n;
    if stale :| stale in s.tasks {
      if s.tasks[stale].progress.Rejected? {
        end := Take(n, Resume(stale));
        actions := [Resume(stale)];
      } else {
        actions, end := OvertakenRefreshBreaksSingleFlight(n, stale);
      }
    }
  }

  /** Two refreshes of this token are in flight. */
  ghost predicate TwoAtOnce(s: State, token: Token) {
    exists t, u :: t in s.tasks && u in s.tasks && t != u && s.tasks[t] == s.tasks[u] == Refresh(token, Running)
  }

  /** A run from launch to such a sign-in: a refresh begins, the session is dropped, and the person signs in again before it ends. */
  lemma RefreshOutlivesItsSession(first: Token, second: Token, account: Account, tokens: TokenResponse)
    returns (s: State, actions: seq<Action>, end: State)
    requires first != second
    ensures Reachable(s) && SignedOut(s) && s.tasks == map[0 := Refresh(first, Running)] && second !in s.known
    ensures var n := Next(s, Adopt(tokens, second, account, 0));
            Runs(n, actions, end) && !Adopts(actions) && TwoAtOnce(end, second)
  {
    var launched := State(Restored(Some(Stored(first, account))), map[], 0, {first}, {}, map[]);
    var a := Take(launched, RefreshOnce);
    s := Take(a, Expire);
    RunThen(launched, [RefreshOnce], a, [Expire], s);
    assert Launched(launched) && Runs(launched, [RefreshOnce] + [Expire], s);
    AlwaysCoherent(s);
    var n := Next(s, Adopt(tokens, second, account, 0));
    StepHolds(s, Adopt(tokens, second, account, 0));
    actions, end := OvertakenRefreshBreaksSingleFlight(n, 0);
  }
}
