/** What a JSON-RPC body may do, decided before any of it runs (server/src/mcp/gate.ts, policy.ts). */
module Gates {
  import opened Basics
  import opened OAuthTables
  import opened TokenExchange

  /** One message of the body: a call of a named tool, or anything else. */
  datatype Message = Call(tool: string) | Other

  /** A tool of this server, with the scope it needs if it is protected. */
  datatype Policy = Public | Protected(scope: string)

  const TOOL_POLICY: map<string, Policy> := map[
    "list_devices" := Protected("devices:read"),
    "get_device" := Protected("devices:read"),
    "control_device" := Protected("devices:control"),
    "add_device" := Protected("devices:create"),
    "get_auth_status" := Public,
    "show_auth" := Public,
    "show_add_device" := Public]

  /** Protected, or unknown to this server, which is treated alike. */
  predicate Gated(message: Message) {
    message.Call? && (message.tool in TOOL_POLICY ==> TOOL_POLICY[message.tool].Protected?)
  }

  function ScopesOf(message: Message): set<string> {
    if message.Call? && message.tool in TOOL_POLICY && TOOL_POLICY[message.tool].Protected? then {TOOL_POLICY[message.tool].scope} else {}
  }

  /** The protected tools of a body, in order, and every scope they need. */
  function ToolsIn(body: seq<Message>): seq<string> {
    if body == [] then []
    else ToolsIn(body[..|body| - 1]) + if Gated(body[|body| - 1]) then [body[|body| - 1].tool] else []
  }

  ghost predicate NeedsExactly(scopes: set<string>, body: seq<Message>) {
    && (forall message :: message in body ==> ScopesOf(message) <= scopes)
    && (forall scope :: scope in scopes ==> exists message :: message in body && scope in ScopesOf(message))
  }

  method ProtectedCallsIn(body: seq<Message>) returns (tools: seq<string>, scopes: set<string>)
    ensures tools == ToolsIn(body)
    ensures NeedsExactly(scopes, body)
    ensures tools == [] <==> forall message :: message in body ==> !Gated(message)
  {
    tools, scopes := [], {};
    for i := 0 to |body|
      invariant tools == ToolsIn(body[..i])
      invariant NeedsExactly(scopes, body[..i])
      invariant tools == [] <==> forall message :: message in body[..i] ==> !Gated(message)
    {
      assert body[..i + 1] == body[..i] + [body[i]];
      assert body[..i + 1][..i] == body[..i];
      ghost var before := scopes;
      match body[i] {
        case Other =>
        case Call(name) =>
          if name in TOOL_POLICY && TOOL_POLICY[name].Public? {
          } else {
            tools := tools + [name];
            if name in TOOL_POLICY { scopes := scopes + {TOOL_POLICY[name].scope}; }
          }
      }
      assert scopes == before + ScopesOf(body[i]);
      NeedsOneMore(before, body[..i], body[i]);
      hide NeedsExactly, ScopesOf;
    }
    assert body[..|body|] == body;
  }

  lemma NeedsOneMore(scopes: set<string>, body: seq<Message>, message: Message)
    requires NeedsExactly(scopes, body)
    ensures NeedsExactly(scopes + ScopesOf(message), body + [message])
  {
    var more := body + [message];
    forall scope | scope in scopes + ScopesOf(message) ensures exists m :: m in more && scope in ScopesOf(m) {
      if scope in scopes {
        var m :| m in body && scope in ScopesOf(m);
        assert m in more;
      } else {
        assert message in more;
      }
    }
  }

  /* ------------------------------------------------------------------- gate */

  datatype Scheme = Bearer | DPoP

  datatype Credential = Credential(scheme: Scheme, token: Secret)

  datatype Caller =
    | Anonymous
    | VerifiedCaller(accountId: string, clientId: string, grantId: GrantId, scopes: seq<string>, credential: Secret)

  /** The buckets' and the proof's verdicts, and whether a proxy of ours vouches that the host reads tool-result challenges. */
  datatype Conditions = Conditions(grantAllows: bool, addressAllows: bool, proofAccepted: bool, toolChallenge: bool)

  datatype Outcome =
    | Proceed(caller: Caller, challenged: bool)
    | RateLimited
    | ProofRefused
    | Challenge(status: int)

  /** A list of the scopes asked of the verifier, in any order. */
  ghost predicate Lists(required: seq<string>, scopes: set<string>) {
    forall scope :: scope in required <==> scope in scopes
  }

  /** gate, given what the verifier said of the presented token for the scopes this body needs. */
  method Gate(body: seq<Message>, credential: Option<Credential>, verified: Verified, given: Conditions) returns (outcome: Outcome)
    ensures outcome == GateSays(ToolsIn(body) != [], credential, verified, given)
  {
    var tools, _ := ProtectedCallsIn(body);
    var presented := credential.Some?;
    var byGrant := presented && (verified.Valid? || verified.InsufficientScope?);
    var allowed := if byGrant then given.grantAllows else given.addressAllows;
    if !allowed { return RateLimited; }
    if presented && verified.Valid? && verified.cnfJkt.Some? && verified.cnfJkt.value != "" {
      if credential.value.scheme != DPoP || !given.proofAccepted { return ProofRefused; }
    }
    var caller := Anonymous;
    if presented && verified.Valid? {
      caller := VerifiedCaller(verified.accountId, verified.clientId, verified.grantId, verified.scopes, credential.value.token);
    }
    if tools == [] { return Proceed(caller, false); }
    if caller.VerifiedCaller? { return Proceed(caller, false); }
    if given.toolChallenge { return Proceed(Anonymous, true); }
    return Challenge(if presented && verified.InsufficientScope? then 403 else 401);
  }

  /** Whether the presented token needs a proof it did not come with. */
  predicate Unproven(credential: Option<Credential>, verified: Verified, given: Conditions) {
    && credential.Some? && verified.Valid? && verified.cnfJkt.Some? && verified.cnfJkt.value != ""
    && !(credential.value.scheme.DPoP? && given.proofAccepted)
  }

  function Admitted(credential: Option<Credential>, verified: Verified, given: Conditions): bool {
    if credential.Some? && !verified.InvalidToken? then given.grantAllows else given.addressAllows
  }

  function GateSays(protectedBody: bool, credential: Option<Credential>, verified: Verified, given: Conditions): Outcome {
    if !Admitted(credential, verified, given) then RateLimited
    else if Unproven(credential, verified, given) then ProofRefused
    else if credential.Some? && verified.Valid? then
      Proceed(VerifiedCaller(verified.accountId, verified.clientId, verified.grantId, verified.scopes, credential.value.token), false)
    else if !protectedBody then Proceed(Anonymous, false)
    else if given.toolChallenge then Proceed(Anonymous, true)
    else Challenge(if credential.Some? && verified.InsufficientScope? then 403 else 401)
  }

  lemma {:induction false} GatedIsListed(body: seq<Message>)
    ensures ToolsIn(body) == [] <==> forall message :: message in body ==> !Gated(message)
  {
    if body != [] {
      var init, last := body[..|body| - 1], body[|body| - 1];
      GatedIsListed(init);
      assert body == init + [last];
    }
  }

  /**
   * A body of any length goes on with a verified caller only if the token covers every
   * protected call in it and, if bound to a key, came with that key's proof; and, all of
   * that given, always does.
   */
  lemma VerifiedIffEveryCallIsCovered(
    t: Tables, body: seq<Message>, scopes: set<string>, required: seq<string>, credential: Credential, given: Conditions, now: Time)
    requires NeedsExactly(scopes, body) && Lists(required, scopes)
    ensures var verified := VerifyAccess(t, credential.token, required, RESOURCE_URI, now);
            var outcome := GateSays(ToolsIn(body) != [], Some(credential), verified, given);
            && (outcome.Proceed? && outcome.caller.VerifiedCaller? ==>
                  && credential.token in t.access && outcome.caller.grantId == t.access[credential.token].grantId
                  && !Revoked(t, outcome.caller.grantId) && now < t.access[credential.token].expiresAt
                  && (forall message :: message in body ==> forall scope :: scope in ScopesOf(message) ==> scope in outcome.caller.scopes)
                  && (t.access[credential.token].cnfJkt.Some? && t.access[credential.token].cnfJkt.value != "" ==>
                        credential.scheme.DPoP? && given.proofAccepted))
            && (verified.Valid? && given.grantAllows && !Unproven(Some(credential), verified, given) ==>
                  outcome.Proceed? && outcome.caller.VerifiedCaller?)
  {
    forall message, scope | message in body && scope in ScopesOf(message) ensures scope in required {}
  }

  /** A body with a protected or unknown tool never runs without a token that covers it, except anonymously and carrying the challenge. */
  lemma OthersRunAnonymously(body: seq<Message>, credential: Option<Credential>, verified: Verified, given: Conditions)
    requires exists message :: message in body && Gated(message)
    requires credential.None? || !verified.Valid?
    ensures var outcome := GateSays(ToolsIn(body) != [], credential, verified, given);
            || outcome.RateLimited?
            || (given.toolChallenge && outcome == Proceed(Anonymous, true))
            || (!given.toolChallenge && outcome.Challenge?)
  {
    GatedIsListed(body);
  }

  /* ------------------------------------------------------- the policy, spelt out */

  /** The tool that runs an operation. */
  function ToolOf(operation: Operation): string {
    match operation
    case List => "list_devices"
    case Get => "get_device"
    case Add => "add_device"
    case Control => "control_device"
  }

  /** Every operation needs of its token the very scope its tool is protected by. */
  lemma OperationsNeedTheirToolsScope(operation: Operation)
    ensures ToolOf(operation) in TOOL_POLICY && TOOL_POLICY[ToolOf(operation)] == Protected(ScopeOf(operation))
    ensures ScopesOf(Call(ToolOf(operation))) == {ScopeOf(operation)} && Gated(Call(ToolOf(operation)))
    ensures ScopeOf(operation) == match operation
      case List => "devices:read"
      case Get => "devices:read"
      case Add => "devices:create"
      case Control => "devices:control"
  {
  }

  /** A call is free exactly if it is of one of the three public tools; any other name is gated. */
  lemma OnlyPublicToolsAreFree(tool: string)
    ensures !Gated(Call(tool)) <==> tool == "get_auth_status" || tool == "show_auth" || tool == "show_add_device"
    ensures ScopesOf(Call(tool)) ==
      if tool == "list_devices" || tool == "get_device" then {"devices:read"}
      else if tool == "control_device" then {"devices:control"}
      else if tool == "add_device" then {"devices:create"}
      else {}
  {
  }

  /**
   * From a tool to its operation: a live token of the MCP resource with half a second left
   * is exchanged and accepted for an operation if and only if it has that operation's scope.
   */
  lemma TokenRunsItsOperations(t: Tables, workload: Workload, credential: Secret, operation: Operation, now: Time)
    requires workload.name.McpResourceServer? && credential in t.access && t.access[credential].grantId in t.grants
    requires !Revoked(t, t.access[credential].grantId) && t.access[credential].audience == "http://localhost:4000/mcp"
    requires now + 500 <= t.access[credential].expiresAt
    ensures var exchanged := Exchange(t, workload, credential, ScopeOf(operation), now);
            (exchanged.Exchanged? && VerifyInternal(exchanged.claims, workload, ScopeOf(operation), now).Some?) <==>
              match operation
              case List => "devices:read" in t.access[credential].scope
              case Get => "devices:read" in t.access[credential].scope
              case Add => "devices:create" in t.access[credential].scope
              case Control => "devices:control" in t.access[credential].scope
  {
    ExchangedExactly(t, workload, credential, ScopeOf(operation), now);
  }

  /**
   * What the gate answers, exactly. A caller with a token of ours is limited by its grant,
   * anybody else by address; a bound token needs its key's proof; a verified caller goes
   * on; and anybody else goes on alone if the body calls nothing protected, is challenged
   * in the result if the host reads such challenges, and otherwise gets 403 if its token
   * lacks a scope and 401 if not.
   */
  lemma GateAnswersExactly(body: seq<Message>, credential: Option<Credential>, verified: Verified, given: Conditions)
    ensures var outcome := GateSays(ToolsIn(body) != [], credential, verified, given);
            var ours := credential.Some? && (verified.Valid? || verified.InsufficientScope?);
            var admitted := if ours then given.grantAllows else given.addressAllows;
            var good := credential.Some? && verified.Valid?;
            var proven := good && verified.cnfJkt.Some? && verified.cnfJkt.value != "" ==> credential.value.scheme.DPoP? && given.proofAccepted;
            var free := forall message :: message in body ==>
              message.Call? ==> message.tool == "get_auth_status" || message.tool == "show_auth" || message.tool == "show_add_device";
            && (outcome == RateLimited <==> !admitted)
            && (outcome == ProofRefused <==> admitted && !proven)
            && (good && admitted && proven ==>
                  outcome == Proceed(VerifiedCaller(verified.accountId, verified.clientId, verified.grantId, verified.scopes, credential.value.token), false))
            && (!good && admitted ==>
                  outcome == if free then Proceed(Anonymous, false)
                             else if given.toolChallenge then Proceed(Anonymous, true)
                             else Challenge(if ours then 403 else 401))
  {
    GatedIsListed(body);
    forall message | message in body && message.Call? { OnlyPublicToolsAreFree(message.tool); }
  }

  /** From the gate to the device: each protected call of an admitted body is exchanged, unless its token rounds to no time left, for its own scope alone. */
  lemma AdmittedCallsExchange(
    t: Tables, body: seq<Message>, scopes: set<string>, required: seq<string>, credential: Credential, given: Conditions,
    now: Time, workload: Workload, message: Message, scope: string)
    requires NeedsExactly(scopes, body) && Lists(required, scopes) && workload.name.McpResourceServer?
    requires message in body && scope in ScopesOf(message)
    requires var outcome := GateSays(ToolsIn(body) != [], Some(credential), VerifyAccess(t, credential.token, required, RESOURCE_URI, now), given);
             outcome.Proceed? && outcome.caller.VerifiedCaller?
    ensures var exchanged := Exchange(t, workload, credential.token, scope, now);
            && (exchanged.Exchanged? <==> t.access[credential.token].expiresAt - now >= 500)
            && (exchanged.Exchanged? ==>
                  && exchanged.claims.scope == scope && exchanged.claims.grantId == t.access[credential.token].grantId
                  && forall other :: other != scope ==> VerifyInternal(exchanged.claims, workload, other, now).None?)
  {
    VerifiedIffEveryCallIsCovered(t, body, scopes, required, credential, given, now);
    assert Covers(t.access[credential.token].scope, [scope]);
    assert VerifyAccess(t, credential.token, [scope], RESOURCE_URI, now).Valid?;
  }
}
