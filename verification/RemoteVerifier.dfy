/** An edge's cache of introspection answers (server/src/split/remote.ts). */
module RemoteVerifiers {
  import opened Basics
  import opened OAuthTables
  import E = ExchangeClients

  const CACHE_SECONDS: nat := 30
  const CACHE_LIMIT: nat := 50000

  /** The authorization server's answer about an active token. */
  datatype Active = Active(accountId: string, clientId: string, grantId: GrantId, scopes: seq<string>, expiresIn: nat, cnfJkt: Option<string>)

  datatype Known = Known(body: Active, expiresAt: Time, cachedUntil: Time)

  type Answers = map<Secret, Known>

  function Lookup(cache: Answers, token: Secret, now: Time): Option<Known> {
    if token in cache && cache[token].cachedUntil > now && cache[token].expiresAt > now then Some(cache[token]) else None
  }

  function KnownFrom(body: Active, asked: Time): Known {
    Known(body, asked + body.expiresIn * SECOND, asked + Min(CACHE_SECONDS, body.expiresIn) * SECOND)
  }

  function Swept(cache: Answers, now: Time): Answers {
    map k | k in cache && cache[k].cachedUntil > now :: cache[k]
  }

  function Learned(cache: Answers, token: Secret, body: Option<Active>, asked: Time): Answers {
    if body.None? then cache - {token}
    else
      var grown := cache[token := KnownFrom(body.value, asked)];
      if |grown| > CACHE_LIMIT then Swept(grown, asked) else grown
  }

  predicate Concerns(event: E.Event, body: Active) {
    match event
    case GrantRevoked(grantId) => body.grantId == grantId
    case AccountRevoked(accountId) => body.accountId == accountId
    case ClientBlocked(clientId) => body.clientId == clientId
  }

  function Unless(cache: Answers, event: E.Event): Answers {
    map k | k in cache && !Concerns(event, cache[k].body) :: cache[k]
  }

  class RemoteVerifier {
    var cache: Answers

    constructor ()
      ensures cache == map[]
    {
      cache := map[];
    }

    method Hear(event: E.Event)
      modifies this
      ensures cache == Unless(old(cache), event)
    {
      var pending := cache.Keys;
      ghost var was := cache;
      while pending != {}
        invariant pending <= was.Keys
        invariant cache == map k | k in was && (k in pending || !Concerns(event, was[k].body)) :: was[k]
        decreases pending
      {
        var key :| key in pending;
        if Concerns(event, cache[key].body) { cache := cache - {key}; }
        pending := pending - {key};
      }
    }

    /** introspect, up to its call: a cached answer, or None and the call is made. */
    method Cached(token: Secret, now: Time) returns (known: Option<Known>)
      ensures known == Lookup(cache, token, now)
      ensures known.Some? ==> now < known.value.cachedUntil && now < known.value.expiresAt
    {
      if token !in cache { return None; }
      var entry := cache[token];
      if entry.cachedUntil > now && entry.expiresAt > now { return Some(entry); }
      return None;
    }

    /** introspect, after its call: `asked` is the clock read before it. */
    method Learn(token: Secret, body: Option<Active>, asked: Time)
      modifies this
      ensures cache == Learned(old(cache), token, body, asked)
    {
      if body.None? {
        cache := cache - {token};
        return;
      }
      cache := cache[token := KnownFrom(body.value, asked)];
      if |cache| > CACHE_LIMIT { Sweep(asked); }
    }

    method Sweep(now: Time)
      modifies this
      ensures cache == Swept(old(cache), now)
    {
      var pending := cache.Keys;
      ghost var was := cache;
      while pending != {}
        invariant pending <= was.Keys
        invariant cache == map k | k in was && (k in pending || was[k].cachedUntil > now) :: was[k]
        decreases pending
      {
        var key :| key in pending;
        if cache[key].cachedUntil <= now { cache := cache - {key}; }
        pending := pending - {key};
      }
    }
  }

  /** What a caller is told: the token's scopes must cover what the call needs. */
  function Told(known: Known, required: seq<string>, now: Time): Verified {
    if !Covers(known.body.scopes, required) then InsufficientScope(known.body.grantId, known.body.scopes, required)
    else
      Valid(known.body.accountId, known.body.clientId, known.body.grantId, known.body.scopes,
            Max(0, FloorSeconds(known.expiresAt - now)), known.body.cnfJkt)
  }

  /**
   * A revocation heard at the edge leaves nothing cached of the grant, account or client it
   * names, in the answer's own fields, and every other answer as it was.
   */
  lemma HearingForgets(cache: Answers, event: E.Event, token: Secret, now: Time)
    ensures var after := Unless(cache, event);
            var named := token in cache && match event
              case GrantRevoked(grantId) => cache[token].body.grantId == grantId
              case AccountRevoked(accountId) => cache[token].body.accountId == accountId
              case ClientBlocked(clientId) => cache[token].body.clientId == clientId;
            Lookup(after, token, now) == if named then None else Lookup(cache, token, now)
  {
  }

  /**
   * An answer learned is found for 30 seconds from when it was asked for, or for as long
   * as the token was given if that is less; an inactive answer forgets the token; and no
   * other token's answer changes.
   */
  lemma LearnedIsKnown(cache: Answers, token: Secret, body: Option<Active>, asked: Time, other: Secret, now: Time)
    requires asked <= now
    ensures var after := Learned(cache, token, body, asked);
            && (Lookup(after, token, now).Some? <==>
                  body.Some? && now < asked + 30000 && now < asked + body.value.expiresIn * 1000)
            && (Lookup(after, token, now).Some? ==> Lookup(after, token, now).value.body == body.value)
            && (other != token ==> Lookup(after, other, now) == Lookup(cache, other, now))
  {
  }

  /**
   * What the edge tells a caller from its cache is what the authorization server said of
   * that token for the scopes the call needs, when it was introspected, but for the time
   * left.
   */
  lemma ToldAsTheServerWould(
    t: Tables, token: Secret, audience: string, at: Time, asked: Time, required: seq<string>, now: Time)
    requires asked <= at && Introspect(t, token, audience, at).Some?
    ensures var known := KnownFrom(Introspect(t, token, audience, at).value, asked);
            var told, verified := Told(known, required, now), VerifyAccess(t, token, required, audience, at);
            && !verified.InvalidToken?
            && (told.Valid? <==> forall scope :: scope in required ==> scope in t.access[token].scope)
            && (told.Valid? ==> verified.Valid? && told == verified.(expiresIn := told.expiresIn))
            && (!told.Valid? ==> told == verified)
            && (told.Valid? && now >= asked ==> told.expiresIn * 1000 <= Max(0, t.access[token].expiresAt - (now - asked) - at + 500))
  {
  }

  /** Sweeping a full cache drops nothing a later lookup could have found. */
  lemma SweepIsUnobservable(cache: Answers, swept: Time, token: Secret, now: Time)
    requires swept <= now
    ensures Lookup(Swept(cache, swept), token, now) == Lookup(cache, token, now)
  {
  }

  /* -------------------------------------------------- the cache over any run */

  datatype Ask = Ask(token: Secret, asked: Time, body: Option<Option<Active>>)

  /** One introspection the authorization server answered. */
  datatype Check = Check(token: Secret, asked: Time, at: Time, tables: Tables, body: Active)

  datatype State = State(
    audience: string, now: Time, cache: Answers, asks: map<nat, Ask>, next: nat,
    /** Every introspection that found the token active. No action reads it. */
    checks: set<Check>)

  datatype Action =
    | Tick(elapsed: nat)
    | Send(token: Secret)
    | Serve(ask: nat, tables: Tables)
    | Arrive(ask: nat)
    | Hear(event: E.Event)

  /** /introspect: the token verified for the edge's own audience, with no scope asked of it. */
  function Introspect(t: Tables, token: Secret, audience: string, now: Time): Option<Active> {
    match VerifyAccess(t, token, [], audience, now)
    case Valid(accountId, clientId, grantId, scopes, expiresIn, cnfJkt) =>
      Some(Active(accountId, clientId, grantId, scopes, expiresIn, cnfJkt))
    case _ => None
  }

  predicate Enabled(s: State, a: Action) {
    match a
    case Serve(ask, _) => ask in s.asks && s.asks[ask].body.None?
    case Arrive(ask) => ask in s.asks && s.asks[ask].body.Some?
    case _ => true
  }

  function Next(s: State, a: Action): State
    requires Enabled(s, a)
  {
    match a
    case Tick(elapsed) => s.(now := s.now + elapsed)
    case Send(token) => s.(asks := s.asks[s.next := Ask(token, s.now, None)], next := s.next + 1)
    case Serve(ask, t) =>
      var made := s.asks[ask];
      var body := Introspect(t, made.token, s.audience, s.now);
      s.(asks := s.asks[ask := made.(body := Some(body))],
         checks := if body.None? then s.checks else s.checks + {Check(made.token, made.asked, s.now, t, body.value)})
    case Arrive(ask) =>
      var made := s.asks[ask];
      s.(cache := Learned(s.cache, made.token, made.body.value, made.asked), asks := s.asks - {ask})
    case Hear(event) => s.(cache := Unless(s.cache, event))
  }

  predicate Runs(s: State, actions: seq<Action>, end: State)
    decreases |actions|
  {
    if actions == [] then end == s
    else Enabled(s, actions[0]) && Runs(Next(s, actions[0]), actions[1..], end)
  }

  predicate Start(s: State) { s.cache == map[] && s.asks == map[] && s.checks == {} }

  ghost predicate Genuine(s: State, c: Check) {
    c.asked <= c.at <= s.now && Introspect(c.tables, c.token, s.audience, c.at) == Some(c.body)
  }

  /** Some introspection on record gave this body, and was asked then. */
  ghost predicate Backed(checks: set<Check>, token: Secret, known: Known) {
    exists c :: c in checks && c.token == token && known == KnownFrom(c.body, c.asked)
  }

  ghost predicate AskOk(s: State, ask: Ask) {
    ask.asked <= s.now && (ask.body.Some? && ask.body.value.Some? ==> Backed(s.checks, ask.token, KnownFrom(ask.body.value.value, ask.asked)))
  }

  ghost predicate Inv(s: State) {
    && (forall c :: c in s.checks ==> Genuine(s, c))
    && (forall i :: i in s.asks ==> AskOk(s, s.asks[i]))
    && (forall k :: k in s.cache ==> Backed(s.checks, k, s.cache[k]))
  }

  lemma StaysBacked(checks: set<Check>, more: set<Check>, token: Secret, known: Known)
    requires Backed(checks, token, known) && checks <= more
    ensures Backed(more, token, known)
  {
    var c :| c in checks && c.token == token && known == KnownFrom(c.body, c.asked);
    assert c in more;
  }

  lemma ServeHolds(s: State, ask: nat, t: Tables)
    requires Inv(s) && Enabled(s, Serve(ask, t))
    ensures Inv(Next(s, Serve(ask, t)))
  {
    var n := Next(s, Serve(ask, t));
    var made := s.asks[ask];
    var body := Introspect(t, made.token, s.audience, s.now);
    assert AskOk(s, made);
    hide Introspect, KnownFrom;
    if body.Some? {
      var c := Check(made.token, made.asked, s.now, t, body.value);
      assert c in n.checks && KnownFrom(body.value, made.asked) == KnownFrom(c.body, c.asked);
      assert Backed(n.checks, made.token, KnownFrom(body.value, made.asked));
    }
    hide Backed;
    forall k | k in n.cache ensures Backed(n.checks, k, n.cache[k]) { StaysBacked(s.checks, n.checks, k, n.cache[k]); }
    forall i | i in n.asks ensures AskOk(n, n.asks[i]) {
      if i != ask {
        assert AskOk(s, s.asks[i]);
        if s.asks[i].body.Some? && s.asks[i].body.value.Some? {
          StaysBacked(s.checks, n.checks, s.asks[i].token, KnownFrom(s.asks[i].body.value.value, s.asks[i].asked));
        }
      }
    }
  }

  lemma StepHolds(s: State, a: Action)
    requires Inv(s) && Enabled(s, a)
    ensures Inv(Next(s, a)) && Next(s, a).audience == s.audience
  {
    if a.Serve? {
      hide Inv;
      ServeHolds(s, a.ask, a.tables);
    } else {
      hide Introspect, KnownFrom, Backed;
      var t := Next(s, a);
      if a.Arrive? {
        ArriveHolds(s, a.ask);
      } else {
        forall i | i in t.asks ensures AskOk(t, t.asks[i]) {
          if i in s.asks { assert AskOk(s, s.asks[i]); }
        }
        forall c | c in t.checks ensures Genuine(t, c) { assert Genuine(s, c); }
      }
    }
  }

  lemma ArriveHolds(s: State, ask: nat)
    requires Inv(s) && Enabled(s, Arrive(ask))
    ensures Inv(Next(s, Arrive(ask)))
  {
    var t := Next(s, Arrive(ask));
    var made := s.asks[ask];
    assert AskOk(s, made);
    LearnedIsBacked(s.cache, s.checks, made.token, made.body.value, made.asked);
    hide Introspect, KnownFrom, Backed, Learned;
    forall c | c in t.checks ensures Genuine(t, c) { assert Genuine(s, c); }
  }

  lemma LearnedIsBacked(cache: Answers, checks: set<Check>, token: Secret, body: Option<Active>, asked: Time)
    requires forall k :: k in cache ==> Backed(checks, k, cache[k])
    requires body.Some? ==> Backed(checks, token, KnownFrom(body.value, asked))
    ensures forall k :: k in Learned(cache, token, body, asked) ==> Backed(checks, k, Learned(cache, token, body, asked)[k])
  {
    hide Backed, KnownFrom;
  }

  lemma {:induction false} RunHolds(s: State, actions: seq<Action>, end: State)
    requires Inv(s) && Runs(s, actions, end)
    ensures Inv(end) && end.audience == s.audience
    decreases |actions|
  {
    hide Inv, Next, Enabled;
    if actions != [] {
      StepHolds(s, actions[0]);
      RunHolds(Next(s, actions[0]), actions[1..], end);
    }
  }

  /**
   * Whatever arrives late and whichever revocation is missed, a cached answer rests on
   * an introspection less than 30 seconds old, made while the grant was live, and is
   * used no later than half a second past the token's own expiry.
   */
  lemma CachedAnswersAreRecent(start: State, actions: seq<Action>, s: State, token: Secret) returns (c: Check)
    requires Start(start) && Runs(start, actions, s) && Lookup(s.cache, token, s.now).Some?
    ensures c.token == token && Lookup(s.cache, token, s.now).value.body == c.body
    ensures c.at <= s.now < c.at + 30 * SECOND
    ensures token in c.tables.access && c.tables.access[token].audience == start.audience
    ensures s.now < c.tables.access[token].expiresAt + 500
    ensures c.body.grantId == c.tables.access[token].grantId && c.body.grantId in c.tables.grants && !Revoked(c.tables, c.body.grantId)
    ensures c.body.scopes == c.tables.access[token].scope && c.body.cnfJkt == c.tables.access[token].cnfJkt
  {
    RunHolds(start, actions, s);
    c :| c in s.checks && c.token == token && s.cache[token] == KnownFrom(c.body, c.asked);
    assert Genuine(s, c);
  }

  /** An introspection asked, served and answered without delay is found by the next lookup, if the token is active and has a second left. */
  lemma ActiveTokensAreCached(s: State, token: Secret, t: Tables)
    requires forall i :: i in s.asks ==> i < s.next
    ensures var sent := Next(s, Send(token));
            && Enabled(sent, Serve(s.next, t))
            && var served := Next(sent, Serve(s.next, t));
               && Enabled(served, Arrive(s.next))
               && var end := Next(served, Arrive(s.next));
                  && (Lookup(end.cache, token, s.now).Some? <==>
                        && token in t.access && t.access[token].grantId in t.grants && !Revoked(t, t.access[token].grantId)
                        && t.access[token].audience == s.audience && s.now + 500 <= t.access[token].expiresAt)
                  && (Lookup(end.cache, token, s.now).Some? ==> Lookup(end.cache, token, s.now).value.body.scopes == t.access[token].scope)
  {
    hide Learned, Introspect, Lookup;
    LearnedIsKnown(s.cache, token, Introspect(t, token, s.audience, s.now), s.now, token, s.now);
    IntrospectedExactly(t, token, s.audience, s.now);
  }

  /** A token is active, and has a second left as that is rounded, exactly if it is a live grant's, for this audience, with half a second left. */
  lemma IntrospectedExactly(t: Tables, token: Secret, audience: string, now: Time)
    ensures var body := Introspect(t, token, audience, now);
            && (body.Some? && body.value.expiresIn >= 1 <==>
                  && token in t.access && t.access[token].grantId in t.grants && !Revoked(t, t.access[token].grantId)
                  && t.access[token].audience == audience && now + 500 <= t.access[token].expiresAt)
            && (body.Some? ==> token in t.access && body.value.scopes == t.access[token].scope)
  {
  }
}
