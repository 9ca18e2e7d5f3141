/** How an adapter obtains and reuses internal tokens (server/src/exchange-client.ts). */
module ExchangeClients {
  import opened Basics
  import opened OAuthTables
  import opened TokenExchange
  
  const REUSE_MARGIN: Time := 10 * SECOND

  /** A caller the edge has verified: who, and the credential that proved it. */
  datatype Caller = Caller(accountId: string, clientId: string, grantId: GrantId, credential: Secret)

  datatype CacheKey = CacheKey(grantId: GrantId, scope: string)

  datatype Entry = Entry(token: Claims, expiresAt: Time, grantId: GrantId, accountId: string, clientId: string)

  datatype Event = GrantRevoked(grantId: GrantId) | AccountRevoked(accountId: string) | ClientBlocked(clientId: string)

  type Cache = map<CacheKey, Entry>

  predicate Revokes(event: Event, entry: Entry) {
    match event
    case GrantRevoked(grantId) => entry.grantId == grantId
    case AccountRevoked(accountId) => entry.accountId == accountId
    case ClientBlocked(clientId) => entry.clientId == clientId
  }

  function Without(cache: Cache, event: Event): Cache {
    map k | k in cache && !Revokes(event, cache[k]) :: cache[k]
  }

  function Lookup(cache: Cache, caller: Caller, scope: string, now: Time): Option<Claims> {
    var key := CacheKey(caller.grantId, scope);
    if key in cache && cache[key].expiresAt - now > REUSE_MARGIN then Some(cache[key].token) else None
  }

  function Kept(cache: Cache, caller: Caller, scope: string, token: Claims, expiresIn: nat, now: Time): Cache {
    cache[CacheKey(caller.grantId, scope) :=
      Entry(token, now + expiresIn * SECOND, caller.grantId, caller.accountId, caller.clientId)]
  }

  /** What the Device Service says to one call. */
  datatype Reply = Done | TokenRefused | OtherError

  datatype RunResult = Completed | CallFailed | InternalError | NoToken

  class ExchangeClient {
    const workload: Workload
    var cache: Cache

    constructor (workload: Workload)
      ensures this.workload == workload && cache == map[]
    {
      this.workload := workload;
      cache := map[];
    }

    /** The revocation listener. */
    method Hear(event: Event)
      modifies this
      ensures cache == Without(old(cache), event)
    {
      var pending := cache.Keys;
      ghost var was := cache;
      while pending != {}
        invariant pending <= was.Keys
        invariant cache == map k | k in was && (k in pending || !Revokes(event, was[k])) :: was[k]
        decreases pending
      {
        var key :| key in pending;
        if Revokes(event, cache[key]) { cache := cache - {key}; }
        pending := pending - {key};
      }
    }

    /** tokenFor; `exchanged` is what the exchange answers at time `later`, if it comes to one. */
    method TokenFor(caller: Caller, scope: string, now: Time, exchanged: Exchanged, later: Time) returns (token: Option<Claims>)
      modifies this
      ensures var hit := Lookup(old(cache), caller, scope, now);
              if hit.Some? then token == hit && cache == old(cache)
              else if exchanged.Failed? then token == None && cache == old(cache)
              else token == Some(exchanged.claims) && cache == Kept(old(cache), caller, scope, exchanged.claims, exchanged.expiresIn, later)
    {
      var key := CacheKey(caller.grantId, scope);
      if key in cache && cache[key].expiresAt - now > REUSE_MARGIN { return Some(cache[key].token); }
      if exchanged.Failed? { return None; }
      cache := cache[key := Entry(exchanged.claims, later + exchanged.expiresIn * SECOND, caller.grantId, caller.accountId, caller.clientId)];
      return Some(exchanged.claims);
    }

    method Forget(caller: Caller, scope: string)
      modifies this
      ensures cache == old(cache) - {CacheKey(caller.grantId, scope)}
    {
      cache := cache - {CacheKey(caller.grantId, scope)};
    }

    /**
     * run, with the exchanges and the Device Service's replies as they turn out: the
     * call is made at most twice, again only after a refused token, and then with a
     * token exchanged afresh.
     */
    method Run(caller: Caller, scope: string, now: Time, first: Exchanged, reply: Reply, second: Exchanged, retried: Reply)
      returns (result: RunResult, sent: seq<Claims>)
      modifies this
      ensures |sent| <= 2
      ensures |sent| == 0 <==> Lookup(old(cache), caller, scope, now).None? && first.Failed?
      ensures |sent| >= 1 ==> Some(sent[0]) == if Lookup(old(cache), caller, scope, now).Some? then Lookup(old(cache), caller, scope, now) else Some(first.claims)
      ensures |sent| == 2 <==> |sent| >= 1 && reply.TokenRefused? && second.Exchanged?
      ensures |sent| == 2 ==> sent[1] == second.claims
      ensures result.Completed? <==> |sent| >= 1 && (reply.Done? || (|sent| == 2 && retried.Done?))
      ensures result.InternalError? <==> |sent| == 2 && retried.TokenRefused?
    {
      sent := [];
      var token := TokenFor(caller, scope, now, first, now);
      if token.None? { return NoToken, sent; }
      sent := [token.value];
      if reply.Done? { return Completed, sent; }
      if reply.OtherError? { return CallFailed, sent; }
      Forget(caller, scope);
      var renewed := TokenFor(caller, scope, now, second, now);
      if renewed.None? { return NoToken, sent; }
      sent := sent + [renewed.value];
      match retried {
        case Done => return Completed, sent;
        case TokenRefused => return InternalError, sent;
        case OtherError => return CallFailed, sent;
      }
    }
  }

  /* -------------------------------------------------- the cache over any run */

  datatype Ask = Ask(caller: Caller, scope: string, claims: Option<Exchanged>)

  datatype State = State(workload: Workload, now: Time, cache: Cache, asks: map<nat, Ask>, next: nat)

  datatype Action =
    | Tick(elapsed: nat)
    /** A miss sends an exchange. */
    | Send(caller: Caller, scope: string)
    /** The authorization server answers it against its tables. */
    | Serve(ask: nat, tables: Tables)
    /** The answer arrives and is cached. */
    | Arrive(ask: nat)
    | Hear(event: Event)
    | Forget(caller: Caller, scope: string)

  predicate Enabled(s: State, a: Action) {
    match a
    case Serve(ask, t) =>
      && ask in s.asks && s.asks[ask].claims.None?
      // The caller was verified with this very credential, whose grant never changes.
      && (s.asks[ask].caller.credential in t.access ==> t.access[s.asks[ask].caller.credential].grantId == s.asks[ask].caller.grantId)
    case Arrive(ask) => ask in s.asks && s.asks[ask].claims.Some?
    case _ => true
  }

  function Next(s: State, a: Action): State
    requires Enabled(s, a)
  {
    match a
    case Tick(elapsed) => s.(now := s.now + elapsed)
    case Send(caller, scope) => s.(asks := s.asks[s.next := Ask(caller, scope, None)], next := s.next + 1)
    case Serve(ask, t) =>
      var made := s.asks[ask];
      s.(asks := s.asks[ask := made.(claims := Some(Exchange(t, s.workload, made.caller.credential, made.scope, s.now)))])
    case Arrive(ask) =>
      var made := s.asks[ask];
      (match made.claims.value
       case Failed(_) => s.(asks := s.asks - {ask})
       case Exchanged(claims, expiresIn) =>
         s.(asks := s.asks - {ask}, cache := Kept(s.cache, made.caller, made.scope, claims, expiresIn, s.now)))
    case Hear(event) => s.(cache := Without(s.cache, event))
    case Forget(caller, scope) => s.(cache := s.cache - {CacheKey(caller.grantId, scope)})
  }

  predicate Runs(s: State, actions: seq<Action>, end: State)
    decreases |actions|
  {
    if actions == [] then end == s
    else Enabled(s, actions[0]) && Runs(Next(s, actions[0]), actions[1..], end)
  }

  predicate Start(s: State) { s.cache == map[] && s.asks == map[] }

  lemma RunNothing(s: State)
    ensures Runs(s, [], s)
  {
  }

  predicate For(claims: Claims, grantId: GrantId, scope: string, workload: Workload) {
    claims.grantId == grantId && claims.scope == scope && claims.act == workload.name && claims.cnf == workload.cnf
  }

  ghost predicate Inv(s: State) {
    && (forall i :: i in s.asks ==> i < s.next)
    && (forall k :: k in s.cache ==> s.cache[k].grantId == k.grantId && For(s.cache[k].token, k.grantId, k.scope, s.workload))
    && (forall i :: i in s.asks && s.asks[i].claims.Some? && s.asks[i].claims.value.Exchanged? ==>
          For(s.asks[i].claims.value.claims, s.asks[i].caller.grantId, s.asks[i].scope, s.workload))
  }

  lemma StepHolds(s: State, a: Action)
    requires Inv(s) && Enabled(s, a)
    ensures Inv(Next(s, a)) && Next(s, a).workload == s.workload
  {
    if a.Serve? {
      var made := s.asks[a.ask];
      ExchangeIsEntitled(a.tables, s.workload, made.caller.credential, made.scope, s.now);
    }
  }

  lemma {:induction false} RunHolds(s: State, actions: seq<Action>, end: State)
    requires Inv(s) && Runs(s, actions, end)
    ensures Inv(end) && end.workload == s.workload
    decreases |actions|
  {
    hide Inv, Next, Enabled;
    if actions != [] {
      StepHolds(s, actions[0]);
      RunHolds(Next(s, actions[0]), actions[1..], end);
    }
  }

  /** However asks, answers and revocations interleave, a reused token is the caller's own grant's, for exactly this scope and workload. */
  lemma ReusedTokensAreTheCallers(start: State, actions: seq<Action>, s: State, caller: Caller, scope: string)
    requires Start(start) && Runs(start, actions, s) && Lookup(s.cache, caller, scope, s.now).Some?
    ensures For(Lookup(s.cache, caller, scope, s.now).value, caller.grantId, scope, start.workload)
  {
    RunHolds(start, actions, s);
  }

  /** A revocation heard leaves nothing of the grant, account or client cached, and touches nobody else's. */
  lemma HearingForgets(cache: Cache, event: Event, caller: Caller, scope: string, now: Time)
    ensures var key, after := CacheKey(caller.grantId, scope), Without(cache, event);
            var named := key in cache && match event
              case GrantRevoked(grantId) => cache[key].grantId == grantId
              case AccountRevoked(accountId) => cache[key].accountId == accountId
              case ClientBlocked(clientId) => cache[key].clientId == clientId;
            Lookup(after, caller, scope, now) == if named then None else Lookup(cache, caller, scope, now)
  {
  }

  /**
   * A token obtained for a caller and a scope is reused for that caller's grant and that
   * scope alone, until ten seconds before what it was given is over, and not after a
   * revocation of the caller's grant, account or client is heard.
   */
  lemma ObtainedIsReusedExactly(
    cache: Cache, caller: Caller, scope: string, token: Claims, expiresIn: nat, at: Time, other: Caller, asked: string, event: Event, now: Time)
    ensures var after := Kept(cache, caller, scope, token, expiresIn, at);
            && Lookup(after, caller, scope, now) == (if now + 10000 < at + expiresIn * 1000 then Some(token) else None)
            && (other.grantId != caller.grantId || asked != scope ==> Lookup(after, other, asked, now) == Lookup(cache, other, asked, now))
            && (match event
                case GrantRevoked(grantId) => grantId == caller.grantId ==> Lookup(Without(after, event), caller, scope, now).None?
                case AccountRevoked(accountId) => accountId == caller.accountId ==> Lookup(Without(after, event), caller, scope, now).None?
                case ClientBlocked(clientId) => clientId == caller.clientId ==> Lookup(Without(after, event), caller, scope, now).None?)
  {
  }

  /** A reused token is still accepted, if its exchange took no more than 39 seconds to be answered. */
  lemma ReusedTokensAreAccepted(t: Tables, workload: Workload, caller: Caller, scope: string, cache: Cache, served: Time, arrived: Time, now: Time)
    requires Exchange(t, workload, caller.credential, scope, served).Exchanged? && served <= arrived <= served + 39 * SECOND
    requires var e := Exchange(t, workload, caller.credential, scope, served);
             Lookup(Kept(cache, caller, scope, e.claims, e.expiresIn, arrived), caller, scope, now).Some?
    ensures VerifyInternal(Exchange(t, workload, caller.credential, scope, served).claims, workload, scope, now).Some?
  {
    ExchangeIsEntitled(t, workload, caller.credential, scope, served);
  }
}
