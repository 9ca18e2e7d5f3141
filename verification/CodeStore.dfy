/**
 * Pending authorizations, codes and grants as the object the server updates, and
 * /token's code grant run with nobody else about (server/src/oauth/store.ts, token.ts).
 */
module CodeStores {
  import opened Basics
  import M = CodeMachine

  type Id = M.Id

  datatype World = World(pending: map<Id, M.PendingRow>, codes: map<Id, M.CodeRow>, grants: map<Id, M.GrantRow>, supply: Id)

  /** consumeAuthorizationCode's record: a spent code is still returned, flagged. */
  datatype Record = Record(row: M.CodeRow, alreadyConsumed: bool, expired: bool)

  datatype Refusal = ProofRequired | UnknownCode | AlreadyUsed | Expired | WrongClient | WrongRedirect | PkceFailed | InvalidTarget | WrongKey

  datatype Answer = Refused(why: Refusal) | Granted(grantId: Id)

  function ClaimAlone(w: World, pending: Id, accountId: string, now: Time): (World, Option<Id>) {
    if pending !in w.pending then (w, None)
    else
      var row := M.CodeRow(accountId, w.pending[pending].terms, None, None, now + M.CODE_TTL);
      (World(w.pending - {pending}, w.codes[w.supply := row], w.grants, w.supply + 1), Some(w.supply))
  }

  predicate Redeemable(codes: map<Id, M.CodeRow>, code: Id, now: Time) {
    code in codes && codes[code].consumedAt.None? && codes[code].expiresAt > now
  }

  function ConsumeAlone(codes: map<Id, M.CodeRow>, code: Id, now: Time): (map<Id, M.CodeRow>, Option<Record>) {
    if Redeemable(codes, code, now) then
      var row := codes[code].(consumedAt := Some(now));
      (codes[code := row], Some(Record(row, false, false)))
    else if code !in codes then (codes, None)
    else (codes, Some(Record(codes[code], codes[code].consumedAt.Some?, codes[code].expiresAt <= now)))
  }

  /** exchangeCode's checks of a code just consumed: the first that fails. */
  function Mismatch(row: M.CodeRow, req: M.Redemption): Option<Refusal> {
    if req.clientId != row.terms.clientId then Some(WrongClient)
    else if req.redirectUri.Some? && req.redirectUri.value != row.terms.redirectUri then Some(WrongRedirect)
    else if req.verifier != row.terms.verifier then Some(PkceFailed)
    else if req.resource.Some? && req.resource.value != row.terms.resource then Some(InvalidTarget)
    else if row.terms.dpopJkt.Some? && req.jkt != row.terms.dpopJkt then Some(WrongKey)
    else None
  }

  predicate LacksProof(req: M.Redemption) { req.clientId == M.FIRST_PARTY_CLIENT_ID && req.jkt.None? }

  /** exchangeCode with nothing in between. */
  function ExchangeAlone(w: World, code: Id, req: M.Redemption, now: Time): (World, Answer) {
    if LacksProof(req) then (w, Refused(ProofRequired))
    else
      var (codes, record) := ConsumeAlone(w.codes, code, now);
      var consumed := w.(codes := codes);
      if record.None? then (w, Refused(UnknownCode))
      else if record.value.alreadyConsumed then
        var g := record.value.row.grantId;
        (if g.Some? then w.(grants := M.RevokeIn(w.grants, g.value)) else w, Refused(AlreadyUsed))
      else if record.value.expired then (w, Refused(Expired))
      else if Mismatch(record.value.row, req).Some? then (consumed, Refused(Mismatch(record.value.row, req).value))
      else
        var row := record.value.row;
        (World(w.pending, codes[code := row.(grantId := Some(w.supply))],
               w.grants[w.supply := M.GrantRow(row.accountId, row.terms, req.jkt, false)], w.supply + 1),
         Granted(w.supply))
  }

  class AuthorizationStore {
    var pending: map<Id, M.PendingRow>
    var codes: map<Id, M.CodeRow>
    var grants: map<Id, M.GrantRow>
    var supply: Id

    ghost function Contents(): World reads this { World(pending, codes, grants, supply) }

    constructor ()
      ensures Contents() == World(map[], map[], map[], 0)
    {
      pending, codes, grants, supply := map[], map[], map[], 0;
    }

    method ClaimAndIssueCode(id: Id, accountId: string, now: Time) returns (code: Option<Id>)
      modifies this
      ensures (Contents(), code) == ClaimAlone(old(Contents()), id, accountId, now)
      ensures code.Some? <==> id in old(pending)
      ensures id !in pending
    {
      if id !in pending { return None; }
      var claimed := pending[id];
      pending := pending - {id};
      code := Some(supply);
      supply := supply + 1;
      codes := codes[code.value := M.CodeRow(accountId, claimed.terms, None, None, now + M.CODE_TTL)];
    }

    method ConsumeAuthorizationCode(code: Id, now: Time) returns (record: Option<Record>)
      modifies this`codes
      ensures (codes, record) == ConsumeAlone(old(codes), code, now)
      ensures record.Some? && !record.value.alreadyConsumed && !record.value.expired <==> Redeemable(old(codes), code, now)
    {
      if code in codes && codes[code].consumedAt.None? && codes[code].expiresAt > now {
        codes := codes[code := codes[code].(consumedAt := Some(now))];
        return Some(Record(codes[code], false, false));
      }
      if code !in codes { return None; }
      return Some(Record(codes[code], codes[code].consumedAt.Some?, codes[code].expiresAt <= now));
    }

    method RevokeGrant(g: Id)
      modifies this`grants
      ensures grants == M.RevokeIn(old(grants), g)
    {
      if g in grants { grants := grants[g := grants[g].(revoked := true)]; }
    }

    method EstablishGrant(code: Id, row: M.CodeRow, jkt: Option<string>) returns (g: Id)
      modifies this
      ensures g == old(supply) && supply == g + 1 && pending == old(pending)
      ensures grants == old(grants)[g := M.GrantRow(row.accountId, row.terms, jkt, false)]
      ensures codes == if code in old(codes) then old(codes)[code := old(codes)[code].(grantId := Some(g))] else old(codes)
    {
      g := supply;
      supply := supply + 1;
      grants := grants[g := M.GrantRow(row.accountId, row.terms, jkt, false)];
      if code in codes { codes := codes[code := codes[code].(grantId := Some(g))]; }
    }

    method ExchangeCode(code: Id, req: M.Redemption, now: Time) returns (answer: Answer)
      modifies this
      ensures (Contents(), answer) == ExchangeAlone(old(Contents()), code, req, now)
    {
      if req.clientId == M.FIRST_PARTY_CLIENT_ID && req.jkt.None? { return Refused(ProofRequired); }
      var record := ConsumeAuthorizationCode(code, now);
      if record.None? { return Refused(UnknownCode); }
      if record.value.alreadyConsumed {
        if record.value.row.grantId.Some? { RevokeGrant(record.value.row.grantId.value); }
        return Refused(AlreadyUsed);
      }
      if record.value.expired { return Refused(Expired); }
      var row := record.value.row;
      if req.clientId != row.terms.clientId { return Refused(WrongClient); }
      if req.redirectUri.Some? && req.redirectUri.value != row.terms.redirectUri { return Refused(WrongRedirect); }
      if req.verifier != row.terms.verifier { return Refused(PkceFailed); }
      if req.resource.Some? && req.resource.value != row.terms.resource { return Refused(InvalidTarget); }
      if row.terms.dpopJkt.Some? && req.jkt != row.terms.dpopJkt { return Refused(WrongKey); }
      var g := EstablishGrant(code, row, req.jkt);
      return Granted(g);
    }
  }

  /**
   * A code becomes a grant if and only if it is unspent and in time, and the client, the
   * verifier, the redirect URI and the resource if given, and the key if the code is bound
   * to one, are each the code's own; and the app proves a key. The grant has the code's
   * account and terms, and the key proved.
   */
  lemma GrantedExactly(w: World, code: Id, req: M.Redemption, now: Time)
    requires code in w.codes
    ensures var row, (after, answer) := w.codes[code], ExchangeAlone(w, code, req, now);
            && (answer.Granted? <==>
                  && row.consumedAt.None? && now < row.expiresAt
                  && req.clientId == row.terms.clientId && req.verifier == row.terms.verifier
                  && (req.redirectUri.Some? ==> req.redirectUri.value == row.terms.redirectUri)
                  && (req.resource.Some? ==> req.resource.value == row.terms.resource)
                  && (row.terms.dpopJkt.Some? ==> req.jkt == row.terms.dpopJkt)
                  && (req.clientId == "iot-switch-ios" ==> req.jkt.Some?))
            && (answer.Granted? ==>
                  && answer.grantId == w.supply && after.supply == w.supply + 1 && after.pending == w.pending
                  && after.grants == w.grants[w.supply := M.GrantRow(row.accountId, row.terms, req.jkt, false)]
                  && after.codes == w.codes[code := row.(consumedAt := Some(now), grantId := Some(w.supply))])
  {
  }

  /** Each refusal on its own condition, in the order the checks are made, and what it costs. */
  lemma RefusedExactly(w: World, code: Id, req: M.Redemption, now: Time)
    requires code in w.codes
    ensures var row, (after, answer) := w.codes[code], ExchangeAlone(w, code, req, now);
            var proved := req.clientId == "iot-switch-ios" ==> req.jkt.Some?;
            var intact := proved && row.consumedAt.None? && now < row.expiresAt;
            var own := intact && req.clientId == row.terms.clientId;
            var back := own && (req.redirectUri.None? || req.redirectUri.value == row.terms.redirectUri);
            var kept := back && req.verifier == row.terms.verifier;
            var here := kept && (req.resource.None? || req.resource.value == row.terms.resource);
            && (answer == Refused(ProofRequired) <==> !proved)
            && (answer == Refused(AlreadyUsed) <==> proved && row.consumedAt.Some?)
            && (answer == Refused(Expired) <==> proved && row.consumedAt.None? && row.expiresAt <= now)
            && (answer == Refused(WrongClient) <==> intact && req.clientId != row.terms.clientId)
            && (answer == Refused(WrongRedirect) <==> own && req.redirectUri.Some? && req.redirectUri.value != row.terms.redirectUri)
            && (answer == Refused(PkceFailed) <==> back && req.verifier != row.terms.verifier)
            && (answer == Refused(InvalidTarget) <==> kept && req.resource.Some? && req.resource.value != row.terms.resource)
            && (answer == Refused(WrongKey) <==> here && row.terms.dpopJkt.Some? && req.jkt != row.terms.dpopJkt)
            && answer != Refused(UnknownCode)
            // A failed check spends the code; a replay revokes what the code made; nothing else changes anything.
            && (answer.Refused? ==>
                  after == w.(codes := if intact then w.codes[code := row.(consumedAt := Some(now))] else w.codes,
                              grants := if answer == Refused(AlreadyUsed) && row.grantId.Some? && row.grantId.value in w.grants
                                        then w.grants[row.grantId.value := w.grants[row.grantId.value].(revoked := true)] else w.grants))
  {
  }

  /** A code nobody issued, or pruned since, is refused as unknown, to whoever may ask. */
  lemma UnknownCodeIsRefused(w: World, code: Id, req: M.Redemption, now: Time)
    requires code !in w.codes
    ensures ExchangeAlone(w, code, req, now) ==
      (w, Refused(if req.clientId == "iot-switch-ios" && req.jkt.None? then ProofRequired else UnknownCode))
  {
  }

  /**
   * From the approved authorization to the grant: the code it is claimed for is exchanged,
   * for 60 seconds and no longer, for whoever meets the authorization's own terms; and a
   * second claim of the same authorization gets no code.
   */
  lemma ClaimedCodeIsExchangeable(w: World, pending: Id, accountId: string, now: Time, req: M.Redemption, later: Time, other: string)
    requires pending in w.pending && now <= later
    ensures var terms := w.pending[pending].terms;
            var (claimed, code) := ClaimAlone(w, pending, accountId, now);
            && code == Some(w.supply) && claimed.pending == w.pending - {pending} && claimed.grants == w.grants
            && claimed.codes.Keys == w.codes.Keys + {w.supply} && (forall c :: c in w.codes && c != w.supply ==> claimed.codes[c] == w.codes[c])
            && (ExchangeAlone(claimed, code.value, req, later).1.Granted? <==>
                  && later < now + 60000
                  && req.clientId == terms.clientId && req.verifier == terms.verifier
                  && (req.redirectUri.Some? ==> req.redirectUri.value == terms.redirectUri)
                  && (req.resource.Some? ==> req.resource.value == terms.resource)
                  && (terms.dpopJkt.Some? ==> req.jkt == terms.dpopJkt)
                  && (req.clientId == "iot-switch-ios" ==> req.jkt.Some?))
            && ClaimAlone(claimed, pending, other, later) == (claimed, None)
  {
    GrantedExactly(ClaimAlone(w, pending, accountId, now).0, w.supply, req, later);
  }

  /**
   * Once a code was exchanged for a grant, whoever presents it after that is refused, and
   * takes the grant it made, and no other, with them.
   */
  lemma SecondExchangeRevokes(w: World, code: Id, req: M.Redemption, now: Time, again: M.Redemption, later: Time)
    requires again.clientId == "iot-switch-ios" ==> again.jkt.Some?
    requires code in w.codes && ExchangeAlone(w, code, req, now).1.Granted?
    ensures var (first, answer) := ExchangeAlone(w, code, req, now);
            var (second, refused) := ExchangeAlone(first, code, again, later);
            && refused == Refused(AlreadyUsed)
            && second == first.(grants := first.grants[answer.grantId := first.grants[answer.grantId].(revoked := true)])
  {
    GrantedExactly(w, code, req, now);
    RefusedExactly(ExchangeAlone(w, code, req, now).0, code, again, later);
  }

  /** A code burned by a failed check is spent: presenting it again revokes nothing. */
  lemma BurnedCodeRevokesNothing(w: World, code: Id, req: M.Redemption, now: Time, again: M.Redemption, later: Time)
    requires code in w.codes && w.codes[code].consumedAt.None? && now < w.codes[code].expiresAt && w.codes[code].grantId.None?
    requires req.clientId == "iot-switch-ios" ==> req.jkt.Some?
    requires again.clientId == "iot-switch-ios" ==> again.jkt.Some?
    requires ExchangeAlone(w, code, req, now).1.Refused?
    ensures var (first, _) := ExchangeAlone(w, code, req, now);
            ExchangeAlone(first, code, again, later) == (first, Refused(AlreadyUsed)) && first.grants == w.grants
  {
    RefusedExactly(w, code, req, now);
    RefusedExactly(ExchangeAlone(w, code, req, now).0, code, again, later);
  }

  /* ------------------------------------------- the store runs the statements */

  function WorldOf(s: M.State): World { World(s.pending, s.codes, s.grants, s.next) }

  /** What an answer leaves in the machine's log: the grant made, or what the replay did. */
  function EventsOf(s: M.State, code: Id, answer: Answer): seq<M.Event> {
    match answer
    case Granted(g) => [M.GrantMade(code, g)]
    case Refused(AlreadyUsed) =>
      if code in s.codes && s.codes[code].grantId.Some? then [M.ReplayRevoked(code, s.codes[code].grantId.value)] else [M.ReplayIgnored(code)]
    case _ => []
  }

  /** The claim the store performs is one of the machine's runs. */
  lemma ClaimIsARun(s: M.State, pending: Id, accountId: string) returns (actions: seq<M.Action>, end: M.State)
    requires s.flights == map[] && pending < s.next
    ensures M.Runs(s, actions, end) && end.flights == map[] && end.now == s.now
    ensures WorldOf(end) == ClaimAlone(WorldOf(s), pending, accountId, s.now).0
    ensures end.log == s.log + match ClaimAlone(WorldOf(s), pending, accountId, s.now).1
      case Some(code) => [M.CodeIssued(pending, code)]
      case None => []
  {
    hide M.Runs;
    var f := s.nextFlight;
    M.RunNothing(s);
    actions, end := M.RunAlso(s, [], s, M.BeginClaim(pending, accountId));
    actions, end := M.RunAlso(s, actions, end, M.ClaimRow(f));
    if pending in s.pending { actions, end := M.RunAlso(s, actions, end, M.CommitClaim(f)); }
  }

  lemma ConsumedRuns(s: M.State, so: seq<M.Action>, at: M.State, code: Id, req: M.Redemption) returns (actions: seq<M.Action>, end: M.State)
    requires M.Runs(s, so, at) && s.flights == map[] && at == M.Launch(s, M.Redeeming(code, req))
    requires !LacksProof(req) && Redeemable(s.codes, code, s.now)
    ensures M.Runs(s, actions, end) && end.flights == map[] && end.now == s.now
    ensures WorldOf(end) == ExchangeAlone(WorldOf(s), code, req, s.now).0
    ensures end.log == s.log + EventsOf(s, code, ExchangeAlone(WorldOf(s), code, req, s.now).1)
  {
    hide M.Runs;
    var f := s.nextFlight;
    actions, end := M.RunAlso(s, so, at, M.Consume(f));
    if Mismatch(s.codes[code], req).None? {
      actions, end := M.RunAlso(s, actions, end, M.BeginEstablish(f));
      actions, end := M.RunAlso(s, actions, end, M.CommitEstablish(f));
    }
  }

  lemma MissedRuns(s: M.State, so: seq<M.Action>, at: M.State, code: Id, req: M.Redemption) returns (actions: seq<M.Action>, end: M.State)
    requires M.Runs(s, so, at) && s.flights == map[] && at == M.Launch(s, M.Redeeming(code, req))
    requires !LacksProof(req) && !Redeemable(s.codes, code, s.now)
    ensures M.Runs(s, actions, end) && end.flights == map[] && end.now == s.now
    ensures WorldOf(end) == ExchangeAlone(WorldOf(s), code, req, s.now).0
    ensures end.log == s.log + EventsOf(s, code, ExchangeAlone(WorldOf(s), code, req, s.now).1)
  {
    hide M.Runs;
    var f := s.nextFlight;
    actions, end := M.RunAlso(s, so, at, M.Consume(f));
    actions, end := M.RunAlso(s, actions, end, M.Look(f));
    if code in s.codes && s.codes[code].consumedAt.Some? && s.codes[code].grantId.Some? {
      actions, end := M.RunAlso(s, actions, end, M.RevokeReplayed(f));
    }
  }

  /** The exchange the store performs is one of the machine's runs: same tables, and its answer is what the log says happened. */
  lemma ExchangeIsARun(s: M.State, code: Id, req: M.Redemption) returns (actions: seq<M.Action>, end: M.State)
    requires s.flights == map[] && code < s.next
    ensures M.Runs(s, actions, end) && end.flights == map[] && end.now == s.now
    ensures WorldOf(end) == ExchangeAlone(WorldOf(s), code, req, s.now).0
    ensures end.log == s.log + EventsOf(s, code, ExchangeAlone(WorldOf(s), code, req, s.now).1)
  {
    M.RunNothing(s);
    actions, end := M.RunAlso(s, [], s, M.BeginRedeem(code, req));
    if !LacksProof(req) {
      if Redeemable(s.codes, code, s.now) {
        actions, end := ConsumedRuns(s, actions, end, code, req);
      } else {
        actions, end := MissedRuns(s, actions, end, code, req);
      }
    }
  }
}
