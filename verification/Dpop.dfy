/**
 * Proofs of possession (server/src/oauth/dpop.ts; sections 4.3, 8 and 11.1 of RFC 9449).
 *
 * A proof is its verified contents; hashes and the nonce's MAC are injective, so a
 * nonce is its window, `ath` the token it hashes, and a thumbprint its key.
 */
module Dpop {
  import opened Basics
  import opened ReplayStores

  const NONCE_WINDOW: Time := 5 * MINUTE
  const JTI_TTL_SECONDS: nat := 120
  const MAX_AGE_SECONDS: nat := 60
  const TOLERANCE_SECONDS: nat := 5

  /** A key's digest in base64url, which has no colon. */
  type Thumbprint = s: string | ':' !in s

  datatype Proof = Proof(
    publicKey: bool, privateKey: bool, signed: bool, iat: int, jti: string, htm: string, htu: Option<string>,
    ath: Option<string>, jkt: Thumbprint, nonce: Option<int>)

  datatype Check = Check(htm: string, htu: Option<string>, accessToken: Option<string>, expectedJkt: Option<string>)

  datatype Reason = PrivateKey | Signature | Jti | Htm | Htu | Ath | KeyMismatch | Nonce | Replay

  /* ----------------------------------------------------------------- nonces */

  /** Math.floor(ms / 300000). */
  function Window(now: Time): int { now / NONCE_WINDOW }

  predicate NonceValid(nonce: Option<int>, now: Time) {
    nonce == Some(Window(now)) || nonce == Some(Window(now) - 1)
  }

  /** A nonce issued now is accepted for at least one whole window, and never for two. */
  lemma NonceLife(issued: Time, now: Time)
    requires issued <= now
    ensures now <= issued + NONCE_WINDOW ==> NonceValid(Some(Window(issued)), now)
    ensures now >= issued + 2 * NONCE_WINDOW ==> !NonceValid(Some(Window(issued)), now)
    ensures NonceValid(Some(Window(issued)), now) <==> now < (Window(issued) + 2) * NONCE_WINDOW
  {
  }

  /* ------------------------------------------------------------- one proof */

  /** jose's maxTokenAge with a clock tolerance. */
  predicate FreshEnough(iat: int, now: Time) {
    -(TOLERANCE_SECONDS as int) <= FloorSeconds(now) - iat <= MAX_AGE_SECONDS + TOLERANCE_SECONDS
  }

  /** Every check before the nonce and the claim, in order: the first that fails. */
  function Inspect(proof: Proof, check: Check, now: Time): Option<Reason> {
    if !proof.publicKey || proof.privateKey then Some(PrivateKey)
    else if !proof.signed || !FreshEnough(proof.iat, now) then Some(Signature)
    else if !(8 <= |proof.jti| <= 256) then Some(Jti)
    else if proof.htm != check.htm then Some(Htm)
    else if proof.htu.None? || proof.htu != check.htu then Some(Htu)
    else if check.accessToken.Some? && proof.ath != check.accessToken then Some(Ath)
    else if check.expectedJkt.Some? && check.expectedJkt.value != "" && proof.jkt != check.expectedJkt.value then Some(KeyMismatch)
    else None
  }

  function ClaimKey(proof: Proof): string { "dpop-jti:" + proof.jkt + ":" + proof.jti }

  /** One claim is the other's exactly when key and jti are. */
  lemma ClaimKeysDiffer(a: Proof, b: Proof)
    ensures ClaimKey(a) == ClaimKey(b) <==> a.jkt == b.jkt && a.jti == b.jti
  {
    if ClaimKey(a) == ClaimKey(b) {
      var head := "dpop-jti:";
      assert ClaimKey(a)[|head|..] == a.jkt + ":" + a.jti && ClaimKey(b)[|head|..] == b.jkt + ":" + b.jti;
      ColonsDivide(a.jkt, a.jti, b.jkt, b.jti);
    }
  }

  lemma ColonsDivide(a: Thumbprint, x: string, b: Thumbprint, y: string)
    requires a + ":" + x == b + ":" + y
    ensures a == b && x == y
  {
    var s := a + ":" + x;
    if |a| < |b| { ColonInside(a, x, b, y); }
    if |b| < |a| { ColonInside(b, y, a, x); }
    assert a == s[..|a|] && b == s[..|b|];
    assert x == s[|a| + 1..] && y == s[|b| + 1..];
  }

  lemma ColonInside(a: string, x: string, b: string, y: string)
    requires a + ":" + x == b + ":" + y && |a| < |b|
    ensures ':' in b
  {
    assert b[|a|] == (a + ":" + x)[|a|];
  }

  /** Claiming one proof leaves every proof of another key, or with another jti, exactly as free as it was. */
  lemma OtherProofsStayFree(seen: Seen, claimed: Proof, other: Proof, now: Time, later: Time)
    requires now <= later && (claimed.jkt != other.jkt || claimed.jti != other.jti)
    ensures Free(Claimed(seen, ClaimKey(claimed), 120 * SECOND, now), ClaimKey(other), later) <==> Free(seen, ClaimKey(other), later)
  {
    ClaimKeysDiffer(claimed, other);
    hide ClaimKey;
    ClaimHolds(seen, ClaimKey(claimed), ClaimKey(other), 120 * SECOND, now, later);
  }

  /**
   * Which proof passes its checks, exactly: signed with the public key it carries and
   * nothing private, from 5 seconds before its iat to the end of the 65th second after,
   * with a jti of 8 to 256 characters, for this method and URL, for this access token if
   * there is one, and with the key expected if one is; and what each failure is called,
   * the first that applies.
   */
  lemma InspectedExactly(proof: Proof, check: Check, now: Time)
    ensures var inspected := Inspect(proof, check, now);
            var keyed := proof.publicKey && !proof.privateKey;
            var timely := keyed && proof.signed && (proof.iat - 5) * 1000 <= now < (proof.iat + 66) * 1000;
            var named := timely && 8 <= |proof.jti| <= 256;
            var called := named && proof.htm == check.htm;
            var placed := called && proof.htu.Some? && proof.htu == check.htu;
            var bound := placed && (check.accessToken.Some? ==> proof.ath == check.accessToken);
            var own := bound && (check.expectedJkt.Some? && check.expectedJkt.value != "" ==> proof.jkt == check.expectedJkt.value);
            && (inspected == None <==> own)
            && (inspected == Some(PrivateKey) <==> !keyed)
            && (inspected == Some(Signature) <==> keyed && !timely)
            && (inspected == Some(Jti) <==> timely && !named)
            && (inspected == Some(Htm) <==> named && !called)
            && (inspected == Some(Htu) <==> called && !placed)
            && (inspected == Some(Ath) <==> placed && !bound)
            && (inspected == Some(KeyMismatch) <==> bound && !own)
  {
  }

  /** verifyProof with nothing in between: None when the proof is accepted. */
  method VerifyProof(proof: Proof, check: Check, replay: MemoryReplayStore, now: Time) returns (refused: Option<Reason>)
    modifies replay
    ensures refused == match Inspect(proof, check, now)
      case Some(reason) => Some(reason)
      case None =>
        if !NonceValid(proof.nonce, now) then Some(Nonce)
        else if !Free(old(replay.seen), ClaimKey(proof), now) then Some(Replay)
        else None
    ensures refused.None? ==> !Free(replay.seen, ClaimKey(proof), now) && replay.seen == Claimed(old(replay.seen), ClaimKey(proof), 120 * SECOND, now)
    ensures refused.Some? && refused.value != Replay ==> replay.seen == old(replay.seen)
  {
    if !proof.publicKey || proof.privateKey { return Some(PrivateKey); }
    if !proof.signed || !FreshEnough(proof.iat, now) { return Some(Signature); }
    if |proof.jti| < 8 || |proof.jti| > 256 { return Some(Jti); }
    if proof.htm != check.htm { return Some(Htm); }
    if proof.htu.None? || proof.htu != check.htu { return Some(Htu); }
    if check.accessToken.Some? && proof.ath != check.accessToken { return Some(Ath); }
    if check.expectedJkt.Some? && check.expectedJkt.value != "" && proof.jkt != check.expectedJkt.value { return Some(KeyMismatch); }
    if !NonceValid(proof.nonce, now) { return Some(Nonce); }
    var first := replay.Claim(ClaimKey(proof), JTI_TTL_SECONDS, now);
    return if first then None else Some(Replay);
  }

  /* ------------------------------------- proofs checked and claimed at once */

  datatype Flight = Flight(proof: Proof, check: Check, checkedAt: Time)

  datatype Acceptance = Acceptance(proof: Proof, check: Check, checkedAt: Time, claimedAt: Time)

  datatype State = State(
    now: Time, seen: Seen, flights: map<nat, Flight>, next: nat,
    /** Every proof accepted, in order. No action reads it. */
    accepted: seq<Acceptance>)

  datatype Action =
    | Tick(elapsed: nat)
    /** The signature, the age and the claims are checked against one reading of the clock. */
    | Begin(proof: Proof, check: Check)
    /** Then, later, the nonce, and the claim. */
    | Claim(f: nat)

  predicate Enabled(s: State, a: Action) { a.Claim? ==> a.f in s.flights }

  function Next(s: State, a: Action): State
    requires Enabled(s, a)
  {
    match a
    case Tick(elapsed) => s.(now := s.now + elapsed)
    case Begin(proof, check) =>
      if Inspect(proof, check, s.now).Some? then s
      else s.(flights := s.flights[s.next := Flight(proof, check, s.now)], next := s.next + 1)
    case Claim(f) =>
      var fl := s.flights[f];
      var key := ClaimKey(fl.proof);
      var done := s.(flights := s.flights - {f});
      if !NonceValid(fl.proof.nonce, s.now) then done
      else
        done.(seen := Claimed(s.seen, key, JTI_TTL_SECONDS * SECOND, s.now),
              accepted := if Free(s.seen, key, s.now) then s.accepted + [Acceptance(fl.proof, fl.check, fl.checkedAt, s.now)] else s.accepted)
  }

  predicate Start(s: State) { s.seen == map[] && s.flights == map[] && s.accepted == [] }

  predicate Runs(s: State, actions: seq<Action>, end: State)
    decreases |actions|
  {
    if actions == [] then end == s
    else Enabled(s, actions[0]) && Runs(Next(s, actions[0]), actions[1..], end)
  }

  ghost predicate Reachable(end: State) {
    exists s, actions :: Start(s) && Runs(s, actions, end)
  }

  /** What RFC 9449 asks of a proof for this request: its own method and URL, its own token, its token's own key. */
  predicate Proves(proof: Proof, check: Check) {
    && proof.publicKey && !proof.privateKey && proof.signed
    && proof.htm == check.htm && proof.htu.Some? && proof.htu == check.htu
    && (check.accessToken.Some? ==> proof.ath == check.accessToken)
    && (check.expectedJkt.Some? && check.expectedJkt.value != "" ==> proof.jkt == check.expectedJkt.value)
  }

  /** An accepted proof's key is held until its time to live is over. */
  ghost predicate HeldOk(s: State, a: Acceptance) {
    && FreshEnough(a.proof.iat, a.checkedAt) && Proves(a.proof, a.check) && NonceValid(a.proof.nonce, a.claimedAt)
    && a.checkedAt <= a.claimedAt <= s.now
    && (s.now < a.claimedAt + 120 * SECOND ==> !Free(s.seen, ClaimKey(a.proof), s.now))
    && (ClaimKey(a.proof) in s.seen ==> s.seen[ClaimKey(a.proof)] >= a.claimedAt + 120 * SECOND)
  }

  predicate Apart(a: Acceptance, b: Acceptance) {
    ClaimKey(a.proof) == ClaimKey(b.proof) ==> b.claimedAt >= a.claimedAt + 120 * SECOND
  }

  predicate FlightOk(fl: Flight, now: Time) {
    fl.checkedAt <= now && FreshEnough(fl.proof.iat, fl.checkedAt) && Proves(fl.proof, fl.check)
  }

  ghost predicate Inv(s: State) {
    && (forall f :: f in s.flights ==> FlightOk(s.flights[f], s.now))
    && (forall i :: 0 <= i < |s.accepted| ==> HeldOk(s, s.accepted[i]))
    && (forall i, j :: 0 <= i < j < |s.accepted| ==> Apart(s.accepted[i], s.accepted[j]))
  }

  lemma HeldStays(s: State, a: Action, held: Acceptance)
    requires Inv(s) && Enabled(s, a) && HeldOk(s, held)
    ensures HeldOk(Next(s, a), held)
  {
    hide ClaimKey, FreshEnough, Apart, Proves, NonceValid;
    if a.Claim? {
      ClaimHolds(s.seen, ClaimKey(s.flights[a.f].proof), ClaimKey(held.proof), 120 * SECOND, s.now, s.now);
    }
  }

  lemma StepHolds(s: State, a: Action)
    requires Inv(s) && Enabled(s, a)
    ensures Inv(Next(s, a))
  {
    hide ClaimKey, FreshEnough, HeldOk, Apart, Claimed, Free, NonceValid, Proves;
    var t := Next(s, a);
    forall i | 0 <= i < |t.accepted| ensures HeldOk(t, t.accepted[i]) {
      if i < |s.accepted| {
        HeldStays(s, a, s.accepted[i]);
      } else {
        NewlyHeld(s, a.f);
      }
    }
    forall i, j | 0 <= i < j < |t.accepted| ensures Apart(t.accepted[i], t.accepted[j]) {
      if j == |s.accepted| { ApartFromNew(s, a.f, s.accepted[i]); }
    }
    forall f | f in t.flights ensures FlightOk(t.flights[f], t.now) {
      if f in s.flights && t.flights[f] == s.flights[f] {
        assert FlightOk(s.flights[f], s.now);
      } else {
        InspectedProves(a.proof, a.check, s.now);
      }
    }
  }

  lemma InspectedProves(proof: Proof, check: Check, now: Time)
    requires Inspect(proof, check, now).None?
    ensures FreshEnough(proof.iat, now) && Proves(proof, check)
  {
  }

  lemma NewlyHeld(s: State, f: nat)
    requires Inv(s) && Enabled(s, Claim(f)) && |Next(s, Claim(f)).accepted| > |s.accepted|
    ensures HeldOk(Next(s, Claim(f)), Next(s, Claim(f)).accepted[|s.accepted|])
  {
    hide ClaimKey, FreshEnough, Proves, NonceValid;
    ClaimHolds(s.seen, ClaimKey(s.flights[f].proof), "", 120 * SECOND, s.now, s.now);
  }

  lemma ApartFromNew(s: State, f: nat, held: Acceptance)
    requires Enabled(s, Claim(f)) && HeldOk(s, held) && |Next(s, Claim(f)).accepted| > |s.accepted|
    ensures Apart(held, Next(s, Claim(f)).accepted[|s.accepted|])
  {
    hide ClaimKey, FreshEnough, NonceValid, Claimed, Proves;
  }

  lemma {:induction false} RunHolds(s: State, actions: seq<Action>, end: State)
    requires Inv(s) && Runs(s, actions, end)
    ensures Inv(end)
    decreases |actions|
  {
    hide Inv, Next, Enabled;
    if actions != [] {
      StepHolds(s, actions[0]);
      RunHolds(Next(s, actions[0]), actions[1..], end);
    }
  }

  /**
   * One jti of one key is accepted at most once in any 120 seconds; and one proof, which
   * passes its checks only within 71 seconds, at most once ever, unless a second
   * request waits more than 49 seconds between its checks and its claim.
   */
  lemma AcceptedOnce(s: State, i: nat, j: nat)
    requires Reachable(s) && i < j < |s.accepted|
    ensures ClaimKey(s.accepted[i].proof) == ClaimKey(s.accepted[j].proof) ==>
      s.accepted[j].claimedAt >= s.accepted[i].claimedAt + 120 * SECOND
    ensures s.accepted[i].proof == s.accepted[j].proof ==> s.accepted[j].claimedAt - s.accepted[j].checkedAt > 49 * SECOND
  {
    var start, actions :| Start(start) && Runs(start, actions, s);
    RunHolds(start, actions, s);
    hide ClaimKey;
    assert HeldOk(s, s.accepted[i]) && HeldOk(s, s.accepted[j]) && Apart(s.accepted[i], s.accepted[j]);
  }

  /** Every claim still held is one that was accepted. */
  ghost predicate Backed(s: State) {
    forall k :: k in s.seen ==> exists i :: 0 <= i < |s.accepted| && ClaimKey(s.accepted[i].proof) == k && s.seen[k] == s.accepted[i].claimedAt + 120 * SECOND
  }

  lemma BackedStep(s: State, a: Action)
    requires Backed(s) && Enabled(s, a)
    ensures Backed(Next(s, a))
  {
    hide ClaimKey, FreshEnough, NonceValid, Inspect;
    var t := Next(s, a);
    forall k | k in t.seen
      ensures exists i :: 0 <= i < |t.accepted| && ClaimKey(t.accepted[i].proof) == k && t.seen[k] == t.accepted[i].claimedAt + 120 * SECOND
    {
      if k in s.seen && t.seen[k] == s.seen[k] {
        var i :| 0 <= i < |s.accepted| && ClaimKey(s.accepted[i].proof) == k && s.seen[k] == s.accepted[i].claimedAt + 120 * SECOND;
        assert t.accepted[i] == s.accepted[i];
      } else {
        assert ClaimKey(t.accepted[|s.accepted|].proof) == k;
      }
    }
  }

  lemma {:induction false} BackedRun(s: State, actions: seq<Action>, end: State)
    requires Backed(s) && Runs(s, actions, end)
    ensures Backed(end)
    decreases |actions|
  {
    hide Backed, Next, Enabled;
    if actions != [] {
      BackedStep(s, actions[0]);
      BackedRun(Next(s, actions[0]), actions[1..], end);
    }
  }

  /**
   * In every run a proof that passed its checks is accepted, when it comes to its claim, if
   * and only if its nonce is of this five-minute window or the last and no proof with the
   * same key and the same jti was accepted less than 120 seconds before.
   */
  lemma ClaimIsAcceptedIff(s: State, f: nat)
    requires Reachable(s) && Enabled(s, Claim(f))
    ensures var fl, t := s.flights[f], Next(s, Claim(f));
            && (t.accepted == s.accepted + [Acceptance(fl.proof, fl.check, fl.checkedAt, s.now)] <==>
                  && (fl.proof.nonce == Some(s.now / 300000) || fl.proof.nonce == Some(s.now / 300000 - 1))
                  && forall i :: 0 <= i < |s.accepted| && s.accepted[i].proof.jkt == fl.proof.jkt && s.accepted[i].proof.jti == fl.proof.jti ==>
                       s.now >= s.accepted[i].claimedAt + 120000)
            && (t.accepted == s.accepted || t.accepted == s.accepted + [Acceptance(fl.proof, fl.check, fl.checkedAt, s.now)])
  {
    var start, actions :| Start(start) && Runs(start, actions, s);
    RunHolds(start, actions, s);
    BackedRun(start, actions, s);
    var proof := s.flights[f].proof;
    forall i | 0 <= i < |s.accepted| ensures HeldOk(s, s.accepted[i]) { }
    forall i | 0 <= i < |s.accepted| ensures ClaimKey(s.accepted[i].proof) == ClaimKey(proof) <==> s.accepted[i].proof.jkt == proof.jkt && s.accepted[i].proof.jti == proof.jti {
      ClaimKeysDiffer(s.accepted[i].proof, proof);
    }
    hide ClaimKey, Runs, Claimed, FreshEnough, Proves, Apart;
    if proof.nonce.Some? && !Free(s.seen, ClaimKey(proof), s.now) {
      var i :| 0 <= i < |s.accepted| && ClaimKey(s.accepted[i].proof) == ClaimKey(proof) && s.seen[ClaimKey(proof)] == s.accepted[i].claimedAt + 120 * SECOND;
    }
  }

  /** Whatever is accepted, in any run, proved its own request: within 71 seconds of its iat, with a nonce of this window or the last. */
  lemma AcceptedProofsAreForTheirRequest(s: State, i: nat)
    requires Reachable(s) && i < |s.accepted|
    ensures var a := s.accepted[i];
            && Proves(a.proof, a.check)
            && (a.proof.iat - 5) * SECOND <= a.checkedAt < (a.proof.iat + 66) * SECOND
            && a.proof.nonce.Some? && Window(a.claimedAt) - 1 <= a.proof.nonce.value <= Window(a.claimedAt)
  {
    var start, actions :| Start(start) && Runs(start, actions, s);
    RunHolds(start, actions, s);
    assert HeldOk(s, s.accepted[i]);
  }

  /* ---------------------------------------------------- the bound is exact */

  lemma Take(was: State, so: seq<Action>, s: State, a: Action) returns (more: seq<Action>, t: State)
    requires Runs(was, so, s) && Enabled(s, a)
    ensures t == Next(s, a) && more == so + [a] && Runs(was, more, t)
    decreases |so|
  {
    hide Next, Enabled;
    t := Next(s, a);
    more := so + [a];
    if so == [] {
      assert Runs(t, [a][1..], t);
    } else {
      var rest, _ := Take(Next(was, so[0]), so[1..], s, a);
      assert more[1..] == rest;
    }
  }

  /** Issued at 300 seconds, within the first five-minute window, whose nonce is still good in the second. */
  function SlowProof(htm: string, htu: string, jti: string): Proof {
    Proof(true, false, true, 300, jti, htm, Some(htu), None, "key", Some(0))
  }

  lemma AcceptedEarly(htm: string, htu: string, jti: string) returns (so: seq<Action>, s: State)
    requires 8 <= |jti| <= 256
    ensures var proof := SlowProof(htm, htu, jti);
            s == State(295000, map[ClaimKey(proof) := 415000], map[], 1, [Acceptance(proof, Check(htm, Some(htu), None, None), 295000, 295000)])
    ensures Runs(State(295000, map[], map[], 0, []), so, s)
  {
    hide Runs, ClaimKey;
    var start := State(295000, map[], map[], 0, []);
    var proof := SlowProof(htm, htu, jti);
    assert Runs(start, [], start) by { Nothing(start); }
    so, s := Take(start, [], start, Begin(proof, Check(htm, Some(htu), None, None)));
    assert s == State(295000, map[], map[0 := Flight(proof, Check(htm, Some(htu), None, None), 295000)], 1, []);
    so, s := Take(start, so, s, Claim(0));
  }

  lemma Nothing(s: State)
    ensures Runs(s, [], s)
  {
  }

  /** One millisecond beyond 49 seconds, a proof can be accepted twice. */
  lemma SlowClaimIsAcceptedTwice(htm: string, htu: string, jti: string) returns (s: State)
    requires 8 <= |jti| <= 256
    ensures Reachable(s) && |s.accepted| == 2 && s.accepted[0].proof == s.accepted[1].proof == SlowProof(htm, htu, jti)
    ensures s.accepted[0].claimedAt == s.accepted[0].checkedAt
    ensures s.accepted[1].claimedAt - s.accepted[1].checkedAt == 49001
  {
    hide Runs, ClaimKey, Inspect, FreshEnough;
    var start := State(295000, map[], map[], 0, []);
    var so;
    so, s := CheckedLate(htm, htu, jti);
    so, s := Take(start, so, s, Tick(49001));
    so, s := Take(start, so, s, Claim(1));
    assert Start(start);
  }

  /** Presented again at the last moment its checks still pass. */
  lemma CheckedLate(htm: string, htu: string, jti: string) returns (so: seq<Action>, s: State)
    requires 8 <= |jti| <= 256
    ensures Runs(State(295000, map[], map[], 0, []), so, s)
    ensures var proof, check := SlowProof(htm, htu, jti), Check(htm, Some(htu), None, None);
            s == State(365999, map[ClaimKey(proof) := 415000], map[1 := Flight(proof, check, 365999)], 2, [Acceptance(proof, check, 295000, 295000)])
  {
    hide Runs, ClaimKey;
    var start := State(295000, map[], map[], 0, []);
    so, s := AcceptedEarly(htm, htu, jti);
    so, s := Take(start, so, s, Tick(70999));
    so, s := Take(start, so, s, Begin(SlowProof(htm, htu, jti), Check(htm, Some(htu), None, None)));
  }
}
