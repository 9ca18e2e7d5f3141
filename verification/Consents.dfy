/**
 * Remembered consent (server/src/oauth/consents.ts). Recording an approval is a read
 * and then an upsert, so two approvals may interleave.
 */
module Consents {
  import opened Basics

  const DAY: Time := 24 * 3600 * SECOND
  const UNVERIFIED_DAYS: nat := 30
  const VERIFIED_DAYS: nat := 365

  datatype ClientKind = Dcr | MetadataDocument | Preregistered

  /** What the person is asked to approve; the host is that of the redirect URI. */
  datatype Pending = Pending(
    clientId: string, kind: ClientKind, verified: bool, documentDigest: Option<string>, host: string, scopes: set<string>)

  datatype ConsentKey = ConsentKey(accountId: string, clientId: string, host: string)

  datatype ConsentRow = ConsentRow(scopes: set<string>, documentDigest: Option<string>, grantedAt: Time)

  type Rows = map<ConsentKey, ConsentRow>

  function KeyOf(accountId: string, p: Pending): ConsentKey { ConsentKey(accountId, p.clientId, p.host) }

  predicate Rememberable(p: Pending) { !p.kind.Dcr? }

  function Lifetime(p: Pending): Time { (if p.verified then VERIFIED_DAYS else UNVERIFIED_DAYS) * DAY }

  /** findRememberedConsent: whether the screen is skipped. */
  predicate Remembered(rows: Rows, accountId: string, p: Pending, now: Time) {
    && Rememberable(p)
    && KeyOf(accountId, p) in rows
    && var row := rows[KeyOf(accountId, p)];
       && row.grantedAt > now - Lifetime(p)
       && row.documentDigest == p.documentDigest
       && p.scopes <= row.scopes
  }

  /** What an approval adds to, having read `previous`. */
  function Union(p: Pending, previous: Option<ConsentRow>): set<string> {
    p.scopes + if previous.Some? && previous.value.documentDigest == p.documentDigest then previous.value.scopes else {}
  }

  class ConsentStore {
    var rows: Rows

    constructor ()
      ensures rows == map[]
    {
      rows := map[];
    }

    method Find(accountId: string, p: Pending, now: Time) returns (skip: bool)
      ensures skip == Remembered(rows, accountId, p, now)
    {
      if p.kind.Dcr? { return false; }
      var days := if p.verified then VERIFIED_DAYS else UNVERIFIED_DAYS;
      var key := KeyOf(accountId, p);
      if key !in rows || rows[key].grantedAt <= now - days * DAY { return false; }
      if rows[key].documentDigest != p.documentDigest { return false; }
      return p.scopes <= rows[key].scopes;
    }

    method Record(accountId: string, p: Pending, now: Time)
      modifies this
      ensures Rememberable(p) ==>
        var key := KeyOf(accountId, p);
        rows == old(rows)[key := ConsentRow(Union(p, if key in old(rows) then Some(old(rows)[key]) else None), p.documentDigest, now)]
      ensures !Rememberable(p) ==> rows == old(rows)
    {
      if p.kind.Dcr? { return; }
      var key := KeyOf(accountId, p);
      var union := p.scopes;
      if key in rows && rows[key].documentDigest == p.documentDigest {
        var rest := rows[key].scopes;
        while rest != {}
          invariant rest <= rows[key].scopes
          invariant union == p.scopes + (rows[key].scopes - rest)
          decreases rest
        {
          var scope :| scope in rest;
          union := union + {scope};
          rest := rest - {scope};
        }
      }
      assert union == Union(p, if key in rows then Some(rows[key]) else None);
      rows := rows[key := ConsentRow(union, p.documentDigest, now)];
    }
  }

  /* -------------------------------------------------- approvals interleaved */

  datatype Flight = Approving(accountId: string, p: Pending) | HasRead(accountId: string, p: Pending, previous: Option<ConsentRow>)

  datatype Approval = Approval(accountId: string, p: Pending, at: Time)

  datatype State = State(
    now: Time, rows: Rows, flights: map<nat, Flight>, next: nat,
    /** Every approval given, when it was recorded. No action reads it. */
    approvals: set<Approval>)

  datatype Action = Tick(elapsed: nat) | Approve(accountId: string, p: Pending) | Read(f: nat) | Upsert(f: nat) | Lose(f: nat)

  predicate Enabled(s: State, a: Action) {
    match a
    case Read(f) => f in s.flights && s.flights[f].Approving?
    case Upsert(f) => f in s.flights && s.flights[f].HasRead?
    case _ => true
  }

  function Next(s: State, a: Action): State
    requires Enabled(s, a)
  {
    match a
    case Tick(elapsed) => s.(now := s.now + elapsed)
    case Approve(accountId, p) =>
      if !Rememberable(p) then s else s.(flights := s.flights[s.next := Approving(accountId, p)], next := s.next + 1)
    case Read(f) =>
      var fl := s.flights[f];
      var key := KeyOf(fl.accountId, fl.p);
      s.(flights := s.flights[f := HasRead(fl.accountId, fl.p, if key in s.rows then Some(s.rows[key]) else None)])
    case Upsert(f) =>
      var fl := s.flights[f];
      s.(flights := s.flights - {f},
         rows := s.rows[KeyOf(fl.accountId, fl.p) := ConsentRow(Union(fl.p, fl.previous), fl.p.documentDigest, s.now)],
         approvals := s.approvals + {Approval(fl.accountId, fl.p, s.now)})
    case Lose(f) => s.(flights := s.flights - {f})
  }

  predicate Start(s: State) { s.rows == map[] && s.flights == map[] && s.approvals == {} }

  predicate Runs(s: State, actions: seq<Action>, end: State)
    decreases |actions|
  {
    if actions == [] then end == s
    else Enabled(s, actions[0]) && Runs(Next(s, actions[0]), actions[1..], end)
  }

  ghost predicate Reachable(end: State) {
    exists s, actions :: Start(s) && Runs(s, actions, end)
  }

  predicate About(a: Approval, key: ConsentKey, digest: Option<string>) {
    KeyOf(a.accountId, a.p) == key && a.p.documentDigest == digest && Rememberable(a.p)
  }

  ghost predicate Approved(approvals: set<Approval>, key: ConsentKey, digest: Option<string>, scope: string) {
    exists a :: a in approvals && About(a, key, digest) && scope in a.p.scopes
  }

  /** Every scope of the row was approved under its digest, and the row is as old as one such approval. */
  ghost predicate RowOk(approvals: set<Approval>, key: ConsentKey, row: ConsentRow) {
    && (forall scope :: scope in row.scopes ==> Approved(approvals, key, row.documentDigest, scope))
    && (exists a :: a in approvals && About(a, key, row.documentDigest) && a.at == row.grantedAt)
  }

  ghost predicate FlightOk(approvals: set<Approval>, fl: Flight) {
    && Rememberable(fl.p)
    && (fl.HasRead? && fl.previous.Some? ==> RowOk(approvals, KeyOf(fl.accountId, fl.p), fl.previous.value))
  }

  ghost predicate Inv(s: State) {
    && (forall k :: k in s.rows ==> RowOk(s.approvals, k, s.rows[k]))
    && (forall f :: f in s.flights ==> FlightOk(s.approvals, s.flights[f]))
    && (forall a :: a in s.approvals ==> a.at <= s.now && Rememberable(a.p))
  }

  lemma RowStays(was: set<Approval>, now: set<Approval>, key: ConsentKey, row: ConsentRow)
    requires RowOk(was, key, row) && was <= now
    ensures RowOk(now, key, row)
  {
    forall scope | scope in row.scopes ensures Approved(now, key, row.documentDigest, scope) {
      var a :| a in was && About(a, key, row.documentDigest) && scope in a.p.scopes;
      assert a in now;
    }
    var a :| a in was && About(a, key, row.documentDigest) && a.at == row.grantedAt;
    assert a in now;
  }

  lemma NewRow(s: State, f: nat)
    requires Inv(s) && Enabled(s, Upsert(f))
    ensures var fl, t := s.flights[f], Next(s, Upsert(f)); RowOk(t.approvals, KeyOf(fl.accountId, fl.p), t.rows[KeyOf(fl.accountId, fl.p)])
  {
    var fl, t := s.flights[f], Next(s, Upsert(f));
    var key := KeyOf(fl.accountId, fl.p);
    var given := Approval(fl.accountId, fl.p, s.now);
    assert FlightOk(s.approvals, fl);
    assert given in t.approvals && About(given, key, fl.p.documentDigest);
    forall scope | scope in Union(fl.p, fl.previous) ensures Approved(t.approvals, key, fl.p.documentDigest, scope) {
      if scope !in fl.p.scopes { RowStays(s.approvals, t.approvals, key, fl.previous.value); }
    }
  }

  lemma StepHolds(s: State, a: Action)
    requires Inv(s) && Enabled(s, a)
    ensures Inv(Next(s, a))
  {
    var t := Next(s, a);
    if a.Upsert? { NewRow(s, a.f); }
    hide RowOk;
    forall k | k in t.rows ensures RowOk(t.approvals, k, t.rows[k]) {
      if k in s.rows && t.rows[k] == s.rows[k] { RowStays(s.approvals, t.approvals, k, s.rows[k]); }
    }
    forall f | f in t.flights ensures FlightOk(t.approvals, t.flights[f]) {
      if f in s.flights {
        assert FlightOk(s.approvals, s.flights[f]);
        if s.flights[f].HasRead? && s.flights[f].previous.Some? {
          RowStays(s.approvals, t.approvals, KeyOf(s.flights[f].accountId, s.flights[f].p), s.flights[f].previous.value);
        }
      }
    }
  }

  lemma {:induction false} RunHolds(s: State, actions: seq<Action>, end: State)
    requires Inv(s) && Runs(s, actions, end)
    ensures Inv(end)
    decreases |actions|
  {
    hide Inv, Next, Enabled;
    if actions != [] {
      StepHolds(s, actions[0]);
      RunHolds(Next(s, actions[0]), actions[1..], end);
    }
  }

  /**
   * However approvals interleave, the screen is skipped only if each scope asked for was
   * once approved for this account, client, redirect host and document, the latest such
   * approval is within its lifetime, and the client was not registered dynamically.
   */
  lemma SkippedOnlyIfApproved(s: State, accountId: string, p: Pending)
    requires Reachable(s) && Remembered(s.rows, accountId, p, s.now)
    ensures !p.kind.Dcr?
    ensures forall scope :: scope in p.scopes ==>
      exists a :: a in s.approvals && scope in a.p.scopes
                  && a.accountId == accountId && a.p.clientId == p.clientId && a.p.host == p.host && a.p.documentDigest == p.documentDigest
    ensures exists a :: a in s.approvals && s.now < a.at + (if p.verified then 31536000000 else 2592000000) && a.at <= s.now
                  && a.accountId == accountId && a.p.clientId == p.clientId && a.p.host == p.host && a.p.documentDigest == p.documentDigest
  {
    var start, actions :| Start(start) && Runs(start, actions, s);
    RunHolds(start, actions, s);
    var key := KeyOf(accountId, p);
    assert RowOk(s.approvals, key, s.rows[key]);
    var a :| a in s.approvals && About(a, key, p.documentDigest) && a.at == s.rows[key].grantedAt;
    forall scope | scope in p.scopes
      ensures exists a :: a in s.approvals && scope in a.p.scopes
                && a.accountId == accountId && a.p.clientId == p.clientId && a.p.host == p.host && a.p.documentDigest == p.documentDigest
    {
      assert Approved(s.approvals, key, p.documentDigest, scope);
    }
  }

  /**
   * Approved alone, what was approved is remembered for exactly 365 days if the client is
   * verified and 30 if not, under the same document; what the row covered under that
   * document stays covered, what it covered under another does not; and no other
   * account's, client's or host's row changes.
   */
  lemma ApprovalIsRemembered(
    rows: Rows, accountId: string, p: Pending, at: Time, again: Pending, now: Time, elsewhere: string, q: Pending)
    requires !p.kind.Dcr? && at <= now
    requires again == p.(scopes := again.scopes) && again.scopes <= p.scopes
    ensures var key := KeyOf(accountId, p);
            var after := rows[key := ConsentRow(Union(p, if key in rows then Some(rows[key]) else None), p.documentDigest, at)];
            && (Remembered(after, accountId, again, now) <==> now < at + if p.verified then 31536000000 else 2592000000)
            && after[key].scopes == p.scopes + (if key in rows && rows[key].documentDigest == p.documentDigest then rows[key].scopes else {})
            && (q.documentDigest != p.documentDigest && q.clientId == p.clientId && q.host == p.host ==> !Remembered(after, accountId, q, now))
            && (elsewhere != accountId || q.clientId != p.clientId || q.host != p.host ==>
                  (Remembered(after, elsewhere, q, now) <==> Remembered(rows, elsewhere, q, now)))
            && (q.kind.Dcr? ==> !Remembered(after, elsewhere, q, now))
  {
  }

  lemma Take(was: State, so: seq<Action>, s: State, a: Action) returns (more: seq<Action>, t: State)
    requires Runs(was, so, s) && Enabled(s, a)
    ensures t == Next(s, a) && more == so + [a] && Runs(was, more, t)
    decreases |so|
  {
    hide Next, Enabled;
    t := Next(s, a);
    more := so + [a];
    if so == [] {
      assert Runs(t, [a][1..], t);
    } else {
      var rest, _ := Take(Next(was, so[0]), so[1..], s, a);
      assert more[1..] == rest;
    }
  }

  lemma ApprovedOnce(was: State, so: seq<Action>, s: State, accountId: string, p: Pending) returns (more: seq<Action>, t: State)
    requires Runs(was, so, s) && Rememberable(p) && s.next !in s.flights
    ensures Runs(was, more, t)
    ensures var key := KeyOf(accountId, p);
            t == State(s.now, s.rows[key := ConsentRow(Union(p, if key in s.rows then Some(s.rows[key]) else None), p.documentDigest, s.now)],
                       s.flights, s.next + 1, s.approvals + {Approval(accountId, p, s.now)})
  {
    hide Runs, Union;
    more, t := Take(was, so, s, Approve(accountId, p));
    more, t := Take(was, more, t, Read(s.next));
    more, t := Take(was, more, t, Upsert(s.next));
    assert t.flights == s.flights;
  }

  /* ------------------------------ a scope reused past its own approval's lifetime */

  /** Approvals of a key under any document are no later than its row, which the last of them wrote. */
  ghost predicate Stamped(s: State) {
    forall a :: a in s.approvals ==>
      KeyOf(a.accountId, a.p) in s.rows && a.at <= s.rows[KeyOf(a.accountId, a.p)].grantedAt
  }

  ghost predicate NotAhead(s: State) { forall k :: k in s.rows ==> s.rows[k].grantedAt <= s.now }

  lemma StampedStep(s: State, a: Action)
    requires Stamped(s) && NotAhead(s) && Enabled(s, a)
    ensures Stamped(Next(s, a)) && NotAhead(Next(s, a))
  {
    hide Union;
  }

  lemma {:induction false} StampedRun(s: State, actions: seq<Action>, end: State)
    requires Stamped(s) && NotAhead(s) && Runs(s, actions, end)
    ensures Stamped(end) && NotAhead(end)
    decreases |actions|
  {
    hide Stamped, NotAhead, Next, Enabled;
    if actions != [] {
      StampedStep(s, actions[0]);
      StampedRun(Next(s, actions[0]), actions[1..], end);
    }
  }

  /** Whether an approval of this scope is recorded as given at the very instant the row is stamped with. */
  ghost predicate ReapprovedLast(s: State, key: ConsentKey, scope: string)
    requires key in s.rows
  {
    exists a :: a in s.approvals && About(a, key, s.rows[key].documentDigest) && scope in a.p.scopes && a.at == s.rows[key].grantedAt
  }

  /** At `now` the screen is skipped for this one scope, and every approval of it is older than the lifetime. */
  ghost predicate SkipsOnExpired(s: State, accountId: string, p: Pending, scope: string, now: Time) {
    && Remembered(s.rows, accountId, p.(scopes := {scope}), now)
    && forall a :: a in s.approvals && About(a, KeyOf(accountId, p), p.documentDigest) && scope in a.p.scopes ==> a.at <= now - Lifetime(p)
  }

  /**
   * When a remembered scope can outlive its own approval, exactly: for a row still
   * remembered now, there is a later moment, nothing else happening, at which the screen
   * is skipped for one of its scopes although every approval of that scope has expired,
   * if and only if the approvals the row is stamped with did not cover the scope.
   */
  lemma ScopeOutlivesItsApprovalIff(s: State, accountId: string, p: Pending, scope: string)
    requires Reachable(s) && Remembered(s.rows, accountId, p.(scopes := {scope}), s.now)
    ensures (exists later :: later >= s.now && SkipsOnExpired(s, accountId, p, scope, later))
       <==> !ReapprovedLast(s, KeyOf(accountId, p), scope)
  {
    var start, actions :| Start(start) && Runs(start, actions, s);
    StampedRun(start, actions, s);
    var key := KeyOf(accountId, p);
    var row := s.rows[key];
    if ReapprovedLast(s, key, scope) {
      var a :| a in s.approvals && About(a, key, row.documentDigest) && scope in a.p.scopes && a.at == row.grantedAt;
      forall later | later >= s.now ensures !SkipsOnExpired(s, accountId, p, scope, later) {}
    } else {
      var later := row.grantedAt + Lifetime(p) - 1;
      assert SkipsOnExpired(s, accountId, p, scope, later);
    }
  }

  /** The lifetime is the latest approval's, not each scope's: approving another scope renews one approved long before. */
  lemma LaterApprovalRenewsEarlierScopes(accountId: string, p: Pending, scope: string, other: string) returns (s: State)
    requires Rememberable(p) && p.scopes == {scope} && scope != other
    ensures Reachable(s) && Remembered(s.rows, accountId, p, s.now)
    ensures forall a :: a in s.approvals && scope in a.p.scopes ==> a.at <= s.now - Lifetime(p)
  {
    var start := State(0, map[], map[], 0, {});
    var so: seq<Action> := [];
    assert Runs(start, so, start);
    so, s := ApprovedOnce(start, so, start, accountId, p);
    so, s := Take(start, so, s, Tick(Lifetime(p)));
    so, s := ApprovedOnce(start, so, s, accountId, p.(scopes := {other}));
    assert Start(start);
  }
}
