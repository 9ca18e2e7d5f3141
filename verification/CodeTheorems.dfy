/** At most one code per authorization, at most one grant per code, and what a replay revokes. */
module CodeTheorems {
  import opened Basics
  import opened CodeMachine

  /** Two events that may not both be in one log. */
  predicate Clash(d: Event, e: Event) {
    || (d.CodeIssued? && e.CodeIssued? && (d.pending == e.pending || d.code == e.code))
    || (d.GrantMade? && e.GrantMade? && (d.code == e.code || d.grantId == e.grantId))
  }

  /** No authorization gives two codes and no code two grants; a replay revokes once the grant is recorded, never before. */
  ghost predicate LogOk(log: seq<Event>) {
    && (forall i, j :: 0 <= i < j < |log| ==> !Clash(log[i], log[j]))
    && (forall j :: 0 <= j < |log| && log[j].ReplayRevoked? ==> GrantMade(log[j].code, log[j].grantId) in log[..j])
    && (forall i, j :: 0 <= i < j < |log| && log[i].GrantMade? && log[j].ReplayIgnored? ==> log[i].code != log[j].code)
  }

  ghost predicate SupplyOk(s: State) {
    && (forall p :: p in s.pending ==> p < s.next)
    && (forall c :: c in s.codes ==> c < s.next)
    && (forall g :: g in s.grants ==> g < s.next)
    && (forall f :: f in s.flights ==> f < s.nextFlight)
  }

  /** What is private to a flight is nowhere else. */
  ghost predicate PrivateOk(s: State) {
    && (forall f, x {:trigger x in Private(s.flights[f])} :: f in s.flights && x in Private(s.flights[f]) ==>
          x < s.next && x !in s.codes && x !in s.grants && x !in s.pending)
    && (forall f, h, x :: f in s.flights && h in s.flights && x in Private(s.flights[f]) && x in Private(s.flights[h]) ==> f == h)
  }

  /** The row lock: one claimant at a time, and its row stays. */
  ghost predicate LocksOk(s: State) {
    && (forall f, h :: f in s.flights && h in s.flights && s.flights[f].Claimed? ==> Holds(s.flights[h], s.flights[f].pending) ==> f == h)
    && (forall f :: f in s.flights && s.flights[f].Claimed? ==> s.flights[f].pending in s.pending)
  }

  /** Past consuming, before the grant is visible. */
  predicate Redeems(fl: Flight, code: Id) { (fl.Checked? || fl.Establishing?) && fl.code == code }

  /** Consumed by a flight that has not made its grant yet. */
  ghost predicate SpentOk(s: State, code: Id) {
    && Known(s, code)
    && (code in s.codes ==> s.codes[code].consumedAt.Some? && s.codes[code].grantId.None?)
  }

  /** While the code's row exists, these are its account and terms. */
  ghost predicate SameTerms(s: State, code: Id, accountId: string, terms: Terms) {
    code in s.codes ==> s.codes[code].accountId == accountId && s.codes[code].terms == terms
  }

  /** The app always proves a key. */
  predicate ProofShown(req: Redemption) { req.clientId == FIRST_PARTY_CLIENT_ID ==> req.jkt.Some? }

  ghost predicate FlightOk(s: State, fl: Flight) {
    match fl
    case Claiming(_, _, _) => true
    case Claimed(_, _, _, _) => true
    case Redeeming(code, req) => Known(s, code) && ProofShown(req)
    case Missed(code, req) =>
      Known(s, code) && ProofShown(req) && (code in s.codes ==> s.codes[code].consumedAt.Some? || s.codes[code].expiresAt <= s.now)
    case Checked(code, req, row) => SpentOk(s, code) && ChecksPass(row, req) && ProofShown(req) && SameTerms(s, code, row.accountId, row.terms)
    case Establishing(code, req, row, _) => SpentOk(s, code) && ChecksPass(row, req) && ProofShown(req) && SameTerms(s, code, row.accountId, row.terms)
    case Replayed(code, g) => GrantMade(code, g) in s.log
  }

  ghost predicate FlightsOk(s: State) {
    forall f :: f in s.flights ==> FlightOk(s, s.flights[f])
  }

  ghost predicate OneRedeemer(s: State) {
    forall f, h :: f in s.flights && h in s.flights && (s.flights[f].Checked? || s.flights[f].Establishing?) ==>
      Redeems(s.flights[h], s.flights[f].code) ==> f == h
  }

  ghost predicate EventOk(s: State, e: Event) {
    match e
    case CodeIssued(p, c) => p < s.next && p !in s.pending && Known(s, c)
    case GrantMade(c, g) =>
      && g in s.grants && Known(s, c)
      && SameTerms(s, c, s.grants[g].accountId, s.grants[g].terms)
      && (s.grants[g].terms.dpopJkt.Some? ==> s.grants[g].dpopJkt == s.grants[g].terms.dpopJkt)
      && (c in s.codes ==> s.codes[c].grantId.Some?)
      && (forall h :: h in s.flights ==> !Redeems(s.flights[h], c))
    case _ => true
  }

  ghost predicate EventsOk(s: State) {
    forall e :: e in s.log ==> EventOk(s, e)
  }

  ghost predicate CodesOk(s: State) {
    forall c :: c in s.codes && s.codes[c].grantId.Some? ==>
      s.codes[c].consumedAt.Some? && GrantMade(c, s.codes[c].grantId.value) in s.log
  }

  ghost predicate Inv(s: State) {
    SupplyOk(s) && PrivateOk(s) && LocksOk(s) && FlightsOk(s) && OneRedeemer(s) && EventsOk(s) && CodesOk(s) && LogOk(s.log)
  }

  lemma LogExtends(log: seq<Event>, e: Event)
    requires LogOk(log)
    requires forall d :: d in log ==> !Clash(d, e)
    requires e.ReplayRevoked? ==> GrantMade(e.code, e.grantId) in log
    requires e.ReplayIgnored? ==> forall d :: d in log && d.GrantMade? ==> d.code != e.code
    ensures LogOk(log + [e])
  {
    var longer := log + [e];
    forall j | 0 <= j < |longer| && longer[j].ReplayRevoked?
      ensures GrantMade(longer[j].code, longer[j].grantId) in longer[..j]
    {
      if j < |log| { assert longer[..j] == log[..j]; } else { assert longer[..j] == log; }
    }
  }

  lemma KnownStays(s: State, a: Action, id: Id)
    requires Known(s, id) && Enabled(s, a)
    ensures Known(Next(s, a), id)
  {
  }

  lemma LogGrows(s: State, a: Action)
    requires Enabled(s, a)
    ensures s.log <= Next(s, a).log && s.now <= Next(s, a).now
  {
  }

  lemma SupplyStep(s: State, a: Action)
    requires SupplyOk(s) && PrivateOk(s) && Enabled(s, a)
    ensures SupplyOk(Next(s, a))
  {
    if a.CommitClaim? {
      assert s.flights[a.f].code in Private(s.flights[a.f]);
    } else if a.CommitEstablish? {
      assert s.flights[a.f].grantId in Private(s.flights[a.f]);
    }
  }

  lemma PrivateComesFrom(s: State, a: Action, f: FlightId, x: Id)
    requires SupplyOk(s) && Enabled(s, a) && f in Next(s, a).flights && x in Private(Next(s, a).flights[f])
    ensures (x == s.next && a in {ClaimRow(f), BeginEstablish(f)} && Next(s, a).next == s.next + 1)
         || (f in s.flights && x in Private(s.flights[f]))
    ensures s.next <= Next(s, a).next
  {
  }

  lemma PublishedIsPrivate(s: State, a: Action, x: Id)
    requires Enabled(s, a) && (x in Next(s, a).codes || x in Next(s, a).grants || x in Next(s, a).pending)
    requires x !in s.codes && x !in s.grants && x !in s.pending
    ensures (x == s.next && a.StartAuthorization?)
         || (exists f :: f in s.flights && x in Private(s.flights[f]) && f !in Next(s, a).flights)
  {
  }

  lemma PrivateStep(s: State, a: Action)
    requires SupplyOk(s) && PrivateOk(s) && Enabled(s, a)
    ensures PrivateOk(Next(s, a))
  {
    var t := Next(s, a);
    hide Next, Enabled;
    forall f, x {:trigger x in Private(t.flights[f])} | f in t.flights && x in Private(t.flights[f])
      ensures x < t.next && x !in t.codes && x !in t.grants && x !in t.pending
    {
      PrivateComesFrom(s, a, f, x);
      if x in t.codes || x in t.grants || x in t.pending {
        if x !in s.codes && x !in s.grants && x !in s.pending { PublishedIsPrivate(s, a, x); }
      }
    }
    forall f, h, x | f in t.flights && h in t.flights && x in Private(t.flights[f]) && x in Private(t.flights[h])
      ensures f == h
    {
      PrivateComesFrom(s, a, f, x);
      PrivateComesFrom(s, a, h, x);
    }
  }

  /** A pending row is claimed while nobody holds it, and its holder keeps it until the claim commits. */
  lemma ClaimShape(s: State, a: Action, f: FlightId)
    requires Enabled(s, a) && f in Next(s, a).flights && Next(s, a).flights[f].Claimed?
    ensures var t := Next(s, a);
            || (f in s.flights && s.flights[f] == t.flights[f])
            || (a == ClaimRow(f) && t.pending == s.pending && t.flights[f].pending in s.pending && Free(s, t.flights[f].pending))
  {
  }

  /** Rows others hold stay where they are. */
  lemma PendingShape(s: State, a: Action, f: FlightId)
    requires LocksOk(s) && SupplyOk(s) && Enabled(s, a) && f in s.flights && f in Next(s, a).flights
    requires s.flights[f].Claimed? && Next(s, a).flights[f] == s.flights[f]
    ensures s.flights[f].pending in Next(s, a).pending
  {
  }

  lemma LocksStep(s: State, a: Action)
    requires LocksOk(s) && SupplyOk(s) && Enabled(s, a)
    ensures LocksOk(Next(s, a))
  {
    hide Next, Enabled, SupplyOk;
    var t := Next(s, a);
    forall f | f in t.flights && t.flights[f].Claimed? ensures t.flights[f].pending in t.pending {
      ClaimShape(s, a, f);
      if f in s.flights && s.flights[f] == t.flights[f] { PendingShape(s, a, f); }
    }
    forall f, h | f in t.flights && h in t.flights && t.flights[f].Claimed? && Holds(t.flights[h], t.flights[f].pending) ensures f == h {
      ClaimShape(s, a, f);
      ClaimShape(s, a, h);
    }
  }

  /** What one flight relies on: its code's row changes only as far as the log says. */
  lemma CodeRowStep(s: State, a: Action, code: Id)
    requires Known(s, code) && Enabled(s, a) && code in Next(s, a).codes
    ensures code in s.codes
    ensures s.codes[code].consumedAt.Some? ==> Next(s, a).codes[code].consumedAt.Some?
    ensures Next(s, a).codes[code].expiresAt == s.codes[code].expiresAt
    ensures Next(s, a).codes[code].accountId == s.codes[code].accountId && Next(s, a).codes[code].terms == s.codes[code].terms
    ensures !a.CommitEstablish? || s.flights[a.f].code != code ==> Next(s, a).codes[code].grantId == s.codes[code].grantId
  {
    if a.CommitClaim? { assert s.flights[a.f].code in Private(s.flights[a.f]); }
  }

  lemma FlightStays(s: State, a: Action, f: FlightId)
    requires SupplyOk(s) && FlightsOk(s) && OneRedeemer(s) && Enabled(s, a)
    requires f in s.flights && f in Next(s, a).flights && Next(s, a).flights[f] == s.flights[f]
    requires a.CommitEstablish? ==> a.f != f
    ensures FlightOk(Next(s, a), s.flights[f])
  {
    var t := Next(s, a);
    var fl := s.flights[f];
    assert FlightOk(s, fl);
    LogGrows(s, a);
    if fl.Redeeming? || fl.Missed? || fl.Checked? || fl.Establishing? {
      KnownStays(s, a, fl.code);
      if fl.code in t.codes { CodeRowStep(s, a, fl.code); }
      if (fl.Checked? || fl.Establishing?) && a.CommitEstablish? {
        assert Redeems(s.flights[a.f], s.flights[a.f].code);
      }
    }
  }

  lemma ConsumeMoves(s: State, f: FlightId)
    requires SupplyOk(s) && CodesOk(s) && Enabled(s, Consume(f)) && FlightOk(s, s.flights[f])
    ensures var t := Next(s, Consume(f)); f in t.flights ==> FlightOk(t, t.flights[f])
  {
    KnownStays(s, Consume(f), s.flights[f].code);
  }

  /** A code the UPDATE missed is spent or expired, so the SELECT never lets it through. */
  lemma LookMoves(s: State, f: FlightId)
    requires CodesOk(s) && Enabled(s, Look(f)) && FlightOk(s, s.flights[f])
    ensures var t := Next(s, Look(f)); f in t.flights ==> t.flights[f].Replayed? && FlightOk(t, t.flights[f])
  {
  }

  lemma BeginEstablishMoves(s: State, f: FlightId)
    requires SupplyOk(s) && Enabled(s, BeginEstablish(f)) && FlightOk(s, s.flights[f])
    ensures var t := Next(s, BeginEstablish(f)); f in t.flights && FlightOk(t, t.flights[f])
  {
    KnownStays(s, BeginEstablish(f), s.flights[f].code);
  }

  lemma OtherMoves(s: State, a: Action, f: FlightId)
    requires Enabled(s, a) && !a.Consume? && !a.Look? && !a.BeginEstablish?
    requires f in Next(s, a).flights && (f !in s.flights || Next(s, a).flights[f] != s.flights[f])
    ensures FlightOk(Next(s, a), Next(s, a).flights[f])
  {
    if a.BeginRedeem? { KnownStays(s, a, a.code); }
  }

  /** The flight that moves. */
  lemma FlightMoves(s: State, a: Action, f: FlightId)
    requires SupplyOk(s) && FlightsOk(s) && CodesOk(s) && Enabled(s, a)
    requires f in Next(s, a).flights && (f !in s.flights || Next(s, a).flights[f] != s.flights[f])
    ensures FlightOk(Next(s, a), Next(s, a).flights[f])
  {
    MoverIs(s, a, f);
    hide Next, FlightOk, CodesOk;
    match a
    case Consume(h) => ConsumeMoves(s, h);
    case Look(h) => LookMoves(s, h);
    case BeginEstablish(h) => BeginEstablishMoves(s, h);
    case _ => OtherMoves(s, a, f);
  }

  lemma MoverIs(s: State, a: Action, f: FlightId)
    requires Enabled(s, a) && f in Next(s, a).flights && (f !in s.flights || Next(s, a).flights[f] != s.flights[f])
    ensures a.Consume? || a.Look? || a.BeginEstablish? ==> a.f == f
  {
  }

  lemma FlightsStep(s: State, a: Action)
    requires Inv(s) && Enabled(s, a)
    ensures FlightsOk(Next(s, a))
  {
    var t := Next(s, a);
    hide Next, Enabled, LogOk, EventsOk, LocksOk, FlightOk;
    forall f | f in t.flights ensures FlightOk(t, t.flights[f]) {
      if f in s.flights && t.flights[f] == s.flights[f] {
        CommittedFlightLeaves(s, a, f);
        FlightStays(s, a, f);
      } else {
        FlightMoves(s, a, f);
      }
    }
  }

  lemma CommittedFlightLeaves(s: State, a: Action, f: FlightId)
    requires Enabled(s, a) && f in Next(s, a).flights
    ensures a.CommitEstablish? ==> a.f != f
  {
  }

  /** Only consuming makes a redeemer, and only of a code nobody had consumed. */
  lemma RedeemerIs(s: State, a: Action, f: FlightId, code: Id)
    requires Enabled(s, a) && FlightsOk(s) && f in Next(s, a).flights && Redeems(Next(s, a).flights[f], code)
    ensures (f in s.flights && Redeems(s.flights[f], code))
         || (a == Consume(f) && code in s.codes && s.codes[code].consumedAt.None?)
  {
    if a.Look? { assert FlightOk(s, s.flights[a.f]); }
  }

  lemma RedeemerStep(s: State, a: Action)
    requires FlightsOk(s) && OneRedeemer(s) && Enabled(s, a)
    ensures OneRedeemer(Next(s, a))
  {
    var t := Next(s, a);
    hide Next, Enabled, FlightsOk;
    forall f, h | f in t.flights && h in t.flights && (t.flights[f].Checked? || t.flights[f].Establishing?)
      && Redeems(t.flights[h], t.flights[f].code)
      ensures f == h
    {
      var code := t.flights[f].code;
      RedeemerIs(s, a, f, code);
      RedeemerIs(s, a, h, code);
      if f != h {
        if f in s.flights && Redeems(s.flights[f], code) { RedeemerSpent(s, f, code); }
        if h in s.flights && Redeems(s.flights[h], code) { RedeemerSpent(s, h, code); }
      }
    }
  }

  lemma RedeemerSpent(s: State, f: FlightId, code: Id)
    requires FlightsOk(s) && f in s.flights && Redeems(s.flights[f], code)
    ensures SpentOk(s, code)
  {
    assert FlightOk(s, s.flights[f]);
  }

  lemma GrantStays(s: State, a: Action, g: Id)
    requires PrivateOk(s) && Enabled(s, a) && g in s.grants
    ensures g in Next(s, a).grants && Next(s, a).grants[g] == s.grants[g].(revoked := Next(s, a).grants[g].revoked)
  {
    if a.CommitEstablish? { assert s.flights[a.f].grantId in Private(s.flights[a.f]); }
  }

  lemma EventStays(s: State, a: Action, e: Event)
    requires SupplyOk(s) && PrivateOk(s) && FlightsOk(s) && CodesOk(s) && EventOk(s, e) && Enabled(s, a)
    ensures EventOk(Next(s, a), e)
  {
    var t := Next(s, a);
    match e
    case CodeIssued(p, c) => KnownStays(s, a, c);
    case GrantMade(c, g) =>
      KnownStays(s, a, c);
      GrantStays(s, a, g);
      if c in t.codes { CodeRowStep(s, a, c); }
      hide PrivateOk;
      forall h | h in t.flights ensures !Redeems(t.flights[h], c) {
        if Redeems(t.flights[h], c) { RedeemerIs(s, a, h, c); }
      }
    case _ =>
  }

  predicate Emits(a: Action) { a.CommitClaim? || a.CommitEstablish? || a.Look? || a.RevokeReplayed? }

  lemma NewEvent(s: State, a: Action) returns (e: Event)
    requires Inv(s) && Enabled(s, a) && Next(s, a).log != s.log
    ensures Next(s, a).log == s.log + [e] && EventOk(Next(s, a), e)
    ensures forall d :: d in s.log ==> !Clash(d, e)
    ensures e.ReplayRevoked? ==> GrantMade(e.code, e.grantId) in s.log
    ensures e.ReplayIgnored? ==> forall d :: d in s.log && d.GrantMade? ==> d.code != e.code
  {
    match a
    case CommitClaim(f) => e := ClaimEvent(s, f);
    case CommitEstablish(f) => e := GrantEvent(s, f);
    case Look(f) => e := IgnoredEvent(s, f);
    case RevokeReplayed(f) =>
      hide LogOk, LocksOk, PrivateOk, OneRedeemer;
      e := ReplayRevoked(s.flights[f].code, s.flights[f].grantId);
      assert FlightOk(s, s.flights[f]);
    case _ => assert false;
  }

  lemma IgnoredEvent(s: State, f: FlightId) returns (e: Event)
    requires Inv(s) && Enabled(s, Look(f)) && Next(s, Look(f)).log != s.log
    ensures var t := Next(s, Look(f)); t.log == s.log + [e] && EventOk(t, e)
    ensures forall d :: d in s.log ==> !Clash(d, e)
    ensures e.ReplayIgnored? && forall d :: d in s.log && d.GrantMade? ==> d.code != e.code
  {
    hide LogOk, LocksOk, PrivateOk, OneRedeemer;
    e := ReplayIgnored(s.flights[f].code);
    forall d | d in s.log && d.GrantMade? ensures d.code != e.code { assert EventOk(s, d); }
  }

  lemma ClaimEvent(s: State, f: FlightId) returns (e: Event)
    requires SupplyOk(s) && PrivateOk(s) && LocksOk(s) && EventsOk(s) && Enabled(s, CommitClaim(f))
    ensures var t := Next(s, CommitClaim(f)); t.log == s.log + [e] && EventOk(t, e)
    ensures e.CodeIssued? && forall d :: d in s.log ==> !Clash(d, e)
  {
    var fl := s.flights[f];
    var t := Next(s, CommitClaim(f));
    e := CodeIssued(fl.pending, fl.code);
    assert fl.code in Private(s.flights[f]);
    forall d | d in s.log ensures !Clash(d, e) { assert EventOk(s, d); }
    forall h | h in t.flights ensures fl.code !in Private(t.flights[h]) {
      assert h != f && t.flights[h] == s.flights[h];
    }
  }

  lemma GrantEvent(s: State, f: FlightId) returns (e: Event)
    requires SupplyOk(s) && PrivateOk(s) && FlightsOk(s) && OneRedeemer(s) && EventsOk(s) && Enabled(s, CommitEstablish(f))
    ensures var t := Next(s, CommitEstablish(f)); t.log == s.log + [e] && EventOk(t, e)
    ensures e.GrantMade? && forall d :: d in s.log ==> !Clash(d, e)
  {
    var fl := s.flights[f];
    var t := Next(s, CommitEstablish(f));
    e := GrantMade(fl.code, fl.grantId);
    assert FlightOk(s, fl) && fl.grantId in Private(s.flights[f]) && Redeems(s.flights[f], fl.code);
    KnownStays(s, CommitEstablish(f), fl.code);
    forall d | d in s.log ensures !Clash(d, e) { assert EventOk(s, d); }
    forall h | h in t.flights ensures !Redeems(t.flights[h], fl.code) {
      assert h != f && t.flights[h] == s.flights[h];
    }
  }

  lemma CodesStep(s: State, a: Action)
    requires CodesOk(s) && FlightsOk(s) && Enabled(s, a)
    ensures CodesOk(Next(s, a))
  {
    LogGrows(s, a);
    if a.CommitEstablish? { assert FlightOk(s, s.flights[a.f]); }
  }

  lemma StepHolds(s: State, a: Action)
    requires Inv(s) && Enabled(s, a)
    ensures Inv(Next(s, a))
  {
    var t := Next(s, a);
    FlightsStep(s, a);
    hide Next, Enabled, FlightsOk, LocksOk, PrivateOk, SupplyOk, OneRedeemer, CodesOk, LogOk, EventOk;
    SupplyStep(s, a);
    PrivateStep(s, a);
    LocksStep(s, a);
    RedeemerStep(s, a);
    CodesStep(s, a);
    if t.log != s.log {
      var e := NewEvent(s, a);
      LogExtends(s.log, e);
    }
    forall e | e in t.log ensures EventOk(t, e) {
      if e in s.log { EventStays(s, a, e); }
    }
  }

  lemma {:induction false} RunHolds(s: State, actions: seq<Action>, end: State)
    requires Inv(s) && Runs(s, actions, end)
    ensures Inv(end)
    decreases |actions|
  {
    hide Inv, Next, Enabled;
    if actions != [] {
      StepHolds(s, actions[0]);
      RunHolds(Next(s, actions[0]), actions[1..], end);
    }
  }

  lemma ReachableHolds(end: State)
    requires Reachable(end)
    ensures Inv(end)
  {
    var s, actions :| Start(s) && Runs(s, actions, end);
    RunHolds(s, actions, end);
  }

  /* --------------------------------------------------------------- theorems */

  /** However many submissions race, one pending authorization yields at most one code. */
  lemma OneCodePerAuthorization(s: State, i: nat, j: nat)
    requires Reachable(s) && i < |s.log| && j < |s.log| && s.log[i].CodeIssued? && s.log[j].CodeIssued?
    requires s.log[i].pending == s.log[j].pending
    ensures i == j
  {
    ReachableHolds(s);
    assert !Clash(s.log[i], s.log[j]) || i >= j;
    assert !Clash(s.log[j], s.log[i]) || j >= i;
  }

  /** However many redemptions race, one code yields at most one grant. */
  lemma OneGrantPerCode(s: State, i: nat, j: nat)
    requires Reachable(s) && i < |s.log| && j < |s.log| && s.log[i].GrantMade? && s.log[j].GrantMade?
    requires s.log[i].code == s.log[j].code
    ensures i == j
  {
    ReachableHolds(s);
    assert !Clash(s.log[i], s.log[j]) || i >= j;
    assert !Clash(s.log[j], s.log[i]) || j >= i;
  }

  /** A replay revokes only the grant its own code made, and only after it was made. */
  lemma ReplayRevokesOnlyItsGrant(s: State, j: nat, code: Id, g: Id)
    requires Reachable(s) && j < |s.log| && s.log[j] == ReplayRevoked(code, g)
    ensures GrantMade(code, g) in s.log[..j]
    ensures forall h :: GrantMade(code, h) in s.log ==> h == g
  {
    ReachableHolds(s);
    var i :| 0 <= i < j && s.log[i] == GrantMade(code, g);
    forall h | GrantMade(code, h) in s.log ensures h == g {
      var k :| 0 <= k < |s.log| && s.log[k] == GrantMade(code, h);
      OneGrantPerCode(s, i, k);
    }
  }

  /** A replay that revokes nothing comes before its code's grant, if there ever is one. */
  lemma IgnoredReplaysComeFirst(s: State, i: nat, j: nat)
    requires Reachable(s) && i < |s.log| && j < |s.log| && s.log[i].GrantMade? && s.log[j].ReplayIgnored?
    requires s.log[i].code == s.log[j].code
    ensures j < i
  {
    ReachableHolds(s);
  }

  /**
   * What presenting a code the consuming UPDATE missed does, exactly: it goes on to
   * revoke if and only if the code's row is still there and a grant is recorded on it;
   * and then that grant. A code already pruned revokes nothing, although its grant lives.
   */
  lemma ReplayRevokesIffRecorded(s: State, f: FlightId)
    requires Reachable(s) && Enabled(s, Look(f))
    ensures var t, code := Next(s, Look(f)), s.flights[f].code;
            && ((f in t.flights && t.flights[f].Replayed?) <==> code in s.codes && exists g :: GrantMade(code, g) in s.log)
            && (f in t.flights && t.flights[f].Replayed? ==> GrantMade(code, t.flights[f].grantId) in s.log)
            && t.grants == s.grants
            && (code !in s.codes ==> f !in t.flights)
  {
    hide LogOk, LocksOk, PrivateOk, OneRedeemer, FlightsOk, SupplyOk;
    ReachableHolds(s);
    var code := s.flights[f].code;
    if code in s.codes {
      if s.codes[code].grantId.Some? { assert GrantMade(code, s.codes[code].grantId.value) in s.log; }
      forall g | GrantMade(code, g) in s.log ensures s.codes[code].grantId.Some? && s.codes[code].consumedAt.Some? {
        assert EventOk(s, GrantMade(code, g));
      }
    }
  }

  /** A grant is only ever made for a redemption that passed every check on its code's row. */
  lemma GrantsAreChecked(s: State, f: FlightId)
    requires Reachable(s) && Enabled(s, CommitEstablish(f))
    ensures var fl := s.flights[f];
            && fl.req.clientId == fl.row.terms.clientId && fl.req.verifier == fl.row.terms.verifier
            && (fl.req.redirectUri.Some? ==> fl.req.redirectUri.value == fl.row.terms.redirectUri)
            && (fl.req.resource.Some? ==> fl.req.resource.value == fl.row.terms.resource)
            && (fl.row.terms.dpopJkt.Some? ==> fl.req.jkt == fl.row.terms.dpopJkt)
            && (fl.req.clientId == "iot-switch-ios" ==> fl.req.jkt.Some?)
            && SameTerms(s, fl.code, fl.row.accountId, fl.row.terms)
            && (fl.code in s.codes ==> s.codes[fl.code].consumedAt.Some?)
            && forall g :: GrantMade(fl.code, g) !in s.log
  {
    ReachableHolds(s);
    assert FlightOk(s, s.flights[f]);
    var code := s.flights[f].code;
    forall g | GrantMade(code, g) in s.log ensures false {
      assert EventOk(s, GrantMade(code, g)) && Redeems(s.flights[f], code);
    }
  }

  /**
   * An authorization waits 15 minutes, exactly, before pruning takes it, and pruning codes
   * takes exactly those no longer in time, spent or not.
   */
  lemma PruningSparesTheTimely(s: State, terms: Terms, id: Id)
    requires Enabled(s, PrunePending)
    ensures id in Next(s, PrunePending).pending <==> id in s.pending && s.now < s.pending[id].expiresAt
    ensures id in Next(s, PrunePending).pending ==> Next(s, PrunePending).pending[id] == s.pending[id]
    ensures id in Next(s, PruneCodes).codes <==> id in s.codes && s.now < s.codes[id].expiresAt
    ensures id in Next(s, PruneCodes).codes ==> Next(s, PruneCodes).codes[id] == s.codes[id]
    ensures var t := Next(s, StartAuthorization(terms));
            t.pending == s.pending[s.next := PendingRow(terms, s.now + 900000)] && t.codes == s.codes && t.grants == s.grants
  {
  }

  /**
   * What the consuming UPDATE lets through, exactly: a code in the table, unspent and in
   * time goes on to its grant if and only if every term of the redemption is the code's
   * own, and is spent whether it does or not; any other presentation changes nothing, and
   * goes on to the SELECT.
   */
  lemma ConsumeLetsThroughExactly(s: State, f: FlightId)
    requires Enabled(s, Consume(f))
    ensures var fl, t := s.flights[f], Next(s, Consume(f));
            var open := fl.code in s.codes && s.codes[fl.code].consumedAt.None? && s.now < s.codes[fl.code].expiresAt;
            && (!open ==> t == s.(flights := s.flights[f := Missed(fl.code, fl.req)]))
            && (open ==>
                  var row := s.codes[fl.code];
                  && t.codes == s.codes[fl.code := row.(consumedAt := Some(s.now))] && t.grants == s.grants && t.log == s.log
                  && (f in t.flights <==>
                        && fl.req.clientId == row.terms.clientId && fl.req.verifier == row.terms.verifier
                        && (fl.req.redirectUri.Some? ==> fl.req.redirectUri.value == row.terms.redirectUri)
                        && (fl.req.resource.Some? ==> fl.req.resource.value == row.terms.resource)
                        && (row.terms.dpopJkt.Some? ==> fl.req.jkt == row.terms.dpopJkt))
                  && (f in t.flights ==> t.flights[f] == Checked(fl.code, fl.req, row.(consumedAt := Some(s.now)))))
  {
  }

  /** A grant carries its code's account and terms, and the key the code was bound to. */
  lemma GrantCarriesItsCode(s: State, code: Id, g: Id)
    requires Reachable(s) && GrantMade(code, g) in s.log
    ensures g in s.grants && SameTerms(s, code, s.grants[g].accountId, s.grants[g].terms)
    ensures s.grants[g].terms.dpopJkt.Some? ==> s.grants[g].dpopJkt == s.grants[g].terms.dpopJkt
  {
    ReachableHolds(s);
    assert EventOk(s, GrantMade(code, g));
  }

  /* ------------------------------------------------------------------ the gap */

  lemma ReachableStep(s: State, a: Action)
    requires Reachable(s) && Enabled(s, a)
    ensures Reachable(Next(s, a))
  {
    var s0, actions :| Start(s0) && Runs(s0, actions, s);
    var _, _ := RunAlso(s0, actions, s, a);
  }

  /**
   * The code's stated intent, that a replayed code takes its grant with it, fails
   * when the replay falls between consuming the code and recording the grant:
   * a run in which a code is presented twice, and its grant is made and lives.
   */
  lemma ReplayInTheGapIsMissed() returns (s: State, code: Id, g: Id)
    ensures Reachable(s) && ReplayIgnored(code) in s.log && GrantMade(code, g) in s.log
    ensures g in s.grants && !s.grants[g].revoked && s.flights == map[]
  {
    var terms := Terms("client", "app:/cb", "verifier", "resource", ["devices:read"], None);
    var req := Redemption("client", None, "verifier", None, None);
    s := CodeInHand(terms);
    s := Consumed(s, terms, req);
    s := ReplayedInTheGap(s, CodeRow("account", terms, Some(0), None, CODE_TTL), req);
    s := Take(s, BeginEstablish(1));
    s := Take(s, CommitEstablish(1));
    code, g := 1, 2;
    assert s.log[1] == ReplayIgnored(1) && s.log[2] == GrantMade(1, 2);
  }

  /** One authorization, approved: its code is 1. */
  lemma CodeInHand(terms: Terms) returns (s: State)
    ensures Reachable(s)
    ensures s == State(0, map[], map[1 := CodeRow("account", terms, None, None, CODE_TTL)], map[], 2, map[], 1, [CodeIssued(0, 1)])
  {
    s := ClaimUnderWay(terms);
    s := Take(s, CommitClaim(0));
  }

  lemma ClaimUnderWay(terms: Terms) returns (s: State)
    ensures Reachable(s)
    ensures s == State(0, map[0 := PendingRow(terms, PENDING_TTL)], map[], map[], 2, map[0 := Claimed(0, "account", 0, 1)], 1, [])
  {
    s := AuthorizationWaits(terms);
    s := Take(s, BeginClaim(0, "account"));
    s := Take(s, ClaimRow(0));
  }

  lemma AuthorizationWaits(terms: Terms) returns (s: State)
    ensures Reachable(s) && s == State(0, map[0 := PendingRow(terms, PENDING_TTL)], map[], map[], 1, map[], 0, [])
  {
    var s0 := State(0, map[], map[], map[], 0, map[], 0, []);
    assert Start(s0) && Runs(s0, [], s0);
    s := Take(s0, StartAuthorization(terms));
  }

  /** Flight 1 consumes code 1. */
  lemma Consumed(was: State, terms: Terms, req: Redemption) returns (s: State)
    requires Reachable(was) && req.clientId != FIRST_PARTY_CLIENT_ID
    requires was == State(0, map[], map[1 := CodeRow("account", terms, None, None, CODE_TTL)], map[], 2, map[], 1, [CodeIssued(0, 1)])
    requires ChecksPass(CodeRow("account", terms, Some(0), None, CODE_TTL), req)
    ensures Reachable(s)
    ensures var row := CodeRow("account", terms, Some(0), None, CODE_TTL);
            s == State(0, map[], map[1 := row], map[], 2, map[1 := Checked(1, req, row)], 2, [CodeIssued(0, 1)])
  {
    s := Take(was, BeginRedeem(1, req));
    s := Take(s, Consume(1));
  }

  /** Flight 2 presents the code again, and looks, before flight 1 records a grant. */
  lemma ReplayedInTheGap(was: State, row: CodeRow, req: Redemption) returns (s: State)
    requires Reachable(was) && req.clientId != FIRST_PARTY_CLIENT_ID && row.consumedAt == Some(0) && row.grantId.None?
    requires was == State(0, map[], map[1 := row], map[], 2, map[1 := Checked(1, req, row)], 2, [CodeIssued(0, 1)])
    ensures Reachable(s)
    ensures s == State(0, map[], map[1 := row], map[], 2, map[1 := Checked(1, req, row)], 3, [CodeIssued(0, 1), ReplayIgnored(1)])
  {
    s := MissedInTheGap(was, row, req);
    s := Take(s, Look(2));
    assert s.flights == map[1 := Checked(1, req, row)];
  }

  lemma MissedInTheGap(was: State, row: CodeRow, req: Redemption) returns (s: State)
    requires Reachable(was) && req.clientId != FIRST_PARTY_CLIENT_ID && row.consumedAt == Some(0) && row.grantId.None?
    requires was == State(0, map[], map[1 := row], map[], 2, map[1 := Checked(1, req, row)], 2, [CodeIssued(0, 1)])
    ensures Reachable(s)
    ensures s == State(0, map[], map[1 := row], map[], 2, map[1 := Checked(1, req, row), 2 := Missed(1, req)], 3, [CodeIssued(0, 1)])
  {
    s := Take(was, BeginRedeem(1, req));
    s := Take(s, Consume(2));
  }

  lemma Take(s: State, a: Action) returns (t: State)
    requires Reachable(s) && Enabled(s, a)
    ensures t == Next(s, a) && Reachable(t)
  {
    ReachableStep(s, a);
    t := Next(s, a);
  }
}
