# IoT Switch: a verified model

IoT Switch lets a person turn devices on and off from an iOS app and from MCP
hosts. One server is both the OAuth authorization server and the device
service; the app and the hosts hold rotating refresh tokens and short access
tokens, and every device operation runs on a one-minute internal token.

This project models the parts of that system whose correctness depends on
interleaving, clocks and several functions together, and proves what they keep
in every run. `dafny verify dfyconfig.toml` checks all of it.

## How it is modelled

Time is in milliseconds, as an integer; `now` in a transaction is the instant it
began. Tokens, codes and ids come from one supply of fresh numbers, so a secret
and its stored digest are one value. Encryption is an ideal box, a signature
means that only what was signed can be presented, and a nonce's MAC is its
window.

*Machines.* Concurrent code is a state machine: one action is one database
statement, one COMMIT, one effect outside the database, one stretch of app code
between two awaits, or time passing. Any enabled action may come next, so a
theorem about reachable states, or about `Runs`, holds for every interleaving.
The isolation is PostgreSQL's READ COMMITTED. Fields called `past`, `log`,
`accepted`, `lastLive` and the like record history; no action reads them.

*Classes.* The objects the source updates in place are classes, and each method is
proved equal to a function on values. For the refresh grant, the code grant and the
device operations, lemmas named `...IsARun` show that what the object does is a run
of the interleaved machine; and lemmas named `...Exactly` say, in the fields of rows
and requests alone, who gets which answer. The window records of the rate limiter are objects
that callers share, as in the source.

| files | part |
|---|---|
| `Basics`, `OAuthTables`, `SealedStore`, `OAuthStore`, `OAuthStoreTheorems`, `OAuthAnswers` | grants, tokens, sealed answers, the refresh grant run alone, and who gets which answer |
| `RefreshMachine`, `RefreshInvariant`, `RefreshSteps`, `RefreshCommits`, `RefreshTheorems` | rotation, revocation and pruning, statement by statement |
| `GrantLife`, `GrantTheft`, `SignOut` | over those statements: when a grant's own requests are theft, and which grants outlive a sign-out |
| `CodeMachine`, `CodeTheorems`, `CodeStore` | authorization to code to grant |
| `DeviceMachine`, `DeviceTheorems`, `DeviceRefusals`, `DeviceStore` | creates, controls and the audit log |
| `TokenExchange`, `Trust`, `ExchangeClient`, `RevocationRace`, `RemoteVerifier` | internal tokens and the caches in front of them |
| `ReplayStore`, `Dpop`, `RateLimit`, `WriteBudgets` | proofs of possession, rate limits, write budgets |
| `Consents`, `Gate` | remembered consent, the JSON-RPC gate |
| `Session`, `AppRefresh`, `DeviceControl`, `DevicesViewModel` | the app, alone and against the server |

## Where the code falls short of its comments

Each is a property the source's documentation suggests, which the code does not
have; the lemmas named give the run, and the exact condition is proved beside it.

- A replayed code is said to take its grant with it. A replay that looks between
  the consuming and the establishing transaction is ignored, and the grant lives
  (`CodeTheorems.ReplayInTheGapIsMissed`), and so is one that comes after its code
  was pruned; it revokes if and only if the code's row is there and a grant is
  recorded on it when it looks (`CodeTheorems.ReplayRevokesIffRecorded`).
- An app that retries in time and refreshes one at a time is not to look like a
  thief. It can: a request it gave up on may still have its SELECT ahead at the
  server when the app presents the successor of that request's token
  (`AppRefresh.GivenUpRequestCanCostTheGrant`). `GrantLife.Ruled` is the exact
  condition on presenting a token: kept, there is never theft (`AppRefresh.NeverTheft`);
  broken once, there can be (`AppRefresh.UnruledDeliveryCanBeTheft`).
- A control answered with success can report the state nobody asked for, if it
  named a version not yet reached whose parity is the other state's
  (`DeviceTheorems.UnsoundCallCanMisreport`), and only then
  (`DeviceTheorems.SoundCallsReportTruly`). The source says its read is consistent
  with what its update missed; at this isolation it is not.
- A refresh left outstanding across a sign-out can break single flight in the next
  session, or end it (`Session.OvertakenRefreshBreaksSingleFlight`,
  `Session.OvertakenRefusalSignsOut`; `Session.RefreshOutlivesItsSession` is a run from
  launch). A sign-in is clean if and only if none is outstanding
  (`Session.SignInIsCleanIffNothingIsOutstanding`).
- Publishing the revocation event before the COMMIT lets an exchange in between be
  cached unheard (`RevocationRace.ExchangeBeforeCommitIsKept`). A revoked grant's token
  is cached after the hearing if and only if its exchange was answered before the COMMIT
  and arrived after the hearing (`RevocationRace.RevokedButCachedIff`), so hearing of it
  after the COMMIT would be final but for answers on their way
  (`RevocationRace.HearingIsFinalUnlessAnswered`); `Trust.AcceptedSoonAfterLive` bounds
  what a cached token can do.
- Signing out everywhere leaves the grants whose establishing committed after its SELECT, and
  no others (`SignOut.SurvivorsAreNewer`).
- A proof is accepted once only if its claim follows its checks within 49 seconds
  (`Dpop.AcceptedOnce`, `Dpop.SlowClaimIsAcceptedTwice`).
- The lifetime of a remembered consent is the latest approval's, not each scope's
  (`Consents.LaterApprovalRenewsEarlierScopes`): a scope can outlive its own if and only
  if the last approval did not cover it (`Consents.ScopeOutlivesItsApprovalIff`).

## Model

| member | source | states |
|---|---|---|
| RefreshTheorems.StepHolds | server/src/oauth/store.ts:283-509 | Every statement, COMMIT, rollback and tick of rotations, revocations, pruning and new grants keeps the invariant of tokens, locks, sealed copies and flights. |
| RefreshTheorems.SurvivorsFormOneLine | server/src/oauth/store.ts:392-453 | In every reachable state a grant's surviving refresh tokens are one acyclic line through replaced_by, ending in the only unreplaced token; expiry never shrinks and scope never widens along it. |
| RefreshTheorems.PruneTakesPrefix | server/src/oauth/store.ts:502-509 | Whenever a prune commits, what it takes from a grant's line is a prefix: the rest is still one line. |
| RefreshTheorems.SameTokenSameAnswer | server/src/oauth/token.ts:157-180 | Any two successful answers to one refresh token, whoever asked and in whatever order, carry the identical body. |
| RefreshTheorems.AnswerNamesSuccessor | server/src/oauth/store.ts:441-451 | An answered token that survives was retired in favour of exactly the refresh token its answer carries. |
| RefreshTheorems.DuplicateIsAnswered | server/src/oauth/token.ts:170-180 | A duplicate inside the grace window finds the sealed copy, also after a rolled-back rotation that had sealed; answering it mints nothing and changes no row. |
| RefreshTheorems.TokensStayWithinGrant | server/src/oauth/store.ts:430-441 | Every committed access or refresh token carries its grant's audience and key, and a scope contained in the grant's. |
| RefreshTheorems.RevokedForever | server/src/oauth/store.ts:283-294 | No run, however it interleaves rotations with the revocation, ever un-revokes a grant, or moves the time it was revoked. |
| RefreshTheorems.NoAccessAfterRevocation | server/src/oauth/verify.ts:33-48 | After a revocation commits no access token of the grant verifies in any later state, not even one inserted by a rotation that was in flight. |
| RefreshTheorems.NoRefreshAfterRevocation | server/src/oauth/store.ts:392-428 | After a revocation commits, a refresh of the grant whose SELECT comes later is never answered with tokens and never mints any. |
| RefreshTheorems.TheftRevokesForever | server/src/oauth/store.ts:416-428 | A refresh answered as theft means its grant is revoked in every later state. |
| RefreshTheorems.ReuseIsTheft | server/src/oauth/store.ts:412-428 | A retired token presented too late, by another client, or after its successor was used leads only into revoking its grant. |
| RefreshTheorems.TheftEndsOnlyInRevocation | server/src/oauth/store.ts:283-294 | In every run, whatever else happens, a transaction that found a theft stays bound to revoke, and can only end by answering theft with its grant revoked. |
| RefreshTheorems.TheftRunsToRevocation | server/src/oauth/store.ts:283-294 | From the decision, the three statements and the COMMIT run through whenever nobody else holds a row of the grant, and leave theft reported and the grant revoked. |
| RefreshTheorems.AnswersGoToTheHolder | server/src/oauth/store.ts:410-428 | Tokens are only ever answered to the grant's own client and, for a bound grant, to the holder of its key. |
| RefreshTheorems.RotationsAreEntitled | server/src/oauth/store.ts:410-441 | A rotation about to commit holds a live, unspent token of an entitled client, asked for no other resource, and grants no scope the token lacks. |
| SealedStore.SealThenUnseal | server/src/oauth/sealed.ts:62-75 | A sealed body is what unseal answers with, for its own key only and for exactly the time it was sealed for. |
| SealedStore.UnsealForgetsNothing | server/src/oauth/sealed.ts:67-75 | Reading deletes only what no later read could have returned. |
| SealedStore.MemorySealedResponses.Seal | server/src/oauth/sealed.ts:62-65 | Sweeps, then holds the box under its key until its time to live is over; nothing else changes. |
| SealedStore.MemorySealedResponses.Unseal | server/src/oauth/sealed.ts:67-75 | Answers with the body if and only if the entry is present and unexpired. |
| SealedStore.MemorySealedResponses.Sweep | server/src/oauth/sealed.ts:77-80 | The loop removes exactly the expired entries. |
| OAuthStores.OAuthStore.IssueTokens | server/src/oauth/store.ts:249-276 | Mints fresh tokens and adds exactly their rows, with the lifetime of their audience. |
| OAuthStores.OAuthStore.RotateRefresh | server/src/oauth/store.ts:380-453 | Leaves the tables, the sealed copies and the supply, and answers, as the specification RotateAlone says. |
| OAuthStores.OAuthStore.ExchangeRefreshToken | server/src/oauth/token.ts:143-198 | The refresh grant end to end: new tables, sealed copies, supply and answer are those of ExchangeAlone. |
| OAuthAnswers.EntitledRefreshIsAnswered | server/src/oauth/store.ts:410-441 | A token not yet exchanged is exchanged if and only if token and grant are unrevoked, it is in time, and client, key, resource and scope are the token's own; the answer has what was asked for, and its lifetime. |
| OAuthAnswers.RefusedRefreshIsToldWhy | server/src/oauth/token.ts:183-198 | Each refusal on its own condition, in the order of the checks; and a refusal changes nothing. |
| OAuthAnswers.ReusedRefreshIsTheftOrDuplicate | server/src/oauth/store.ts:410-426 | A token already exchanged is theft, a duplicate, or refused for its key or a dead grant, each exactly when; theft ends the grant, and nothing else changes a row. |
| OAuthAnswers.UnknownRefreshIsRefused | server/src/oauth/store.ts:406-408 | Exactly a token that is in no row, or whose grant is gone, is unknown. |
| OAuthAnswers.LockDecidesExactly | server/src/oauth/store.ts:392-437 | Among interleaved statements: what the SELECT decides of a row not yet exchanged, and each refusal, in the fields of the locked row, the snapshot's grant and the request. |
| OAuthAnswers.LockJudgesReuseExactly | server/src/oauth/store.ts:410-424 | And of a row already exchanged: refused, replayed, or revoking, each exactly when. |
| OAuthAnswers.RotatedTokensWork | server/src/oauth/store.ts:439-446 | What a rotation hands out verifies for its scopes for ten minutes or an hour and is exchanged again for 30 days, and not after; no other row changes. |
| OAuthAnswers.FirstTokensWork | server/src/oauth/store.ts:463-484 | So do the first tokens of a new grant. |
| OAuthAnswers.EstablishIsARun | server/src/oauth/store.ts:463-484 | Establishing a grant alone is a run of the interleaved machine. |
| OAuthStores.OAuthStore.EstablishGrant | server/src/oauth/store.ts:463-484 | Adds the grant and its first tokens together. |
| OAuthStores.OAuthStore.RevokeGrant | server/src/oauth/store.ts:283-294 | Marks the grant and its unrevoked refresh rows and deletes its access rows; nothing else changes. |
| OAuthAnswers.RevokedRowByRow | server/src/oauth/store.ts:283-294 | Row by row: the grant and what it issued, what was revoked before keeping its time, and nothing else. |
| OAuthAnswers.RevokeIsARun | server/src/oauth/store.ts:283-294 | Revoking alone is a run of the interleaved machine. |
| OAuthStores.OAuthStore.RevokeConnectedApp | server/src/oauth/account.ts:78-88 | Revokes the grant if and only if it is this account's and live; otherwise changes nothing. |
| OAuthStores.OAuthStore.SignOutEverywhere | server/src/oauth/account.ts:95-104 | The loop over the account's live grants comes to revoking all of them, and all they issued, at once. |
| OAuthStores.OAuthStore.PruneExpired | server/src/oauth/store.ts:502-504 | Deletes exactly the expired access and refresh rows. |
| OAuthAnswers.PruningIsUnobservable | server/src/oauth/store.ts:502-509 | In every reachable state pruning takes exactly the expired tokens, every access token verifies as before, and every refresh token left is answered as before, reuse still being found. |
| OAuthAnswers.PruneIsARun | server/src/oauth/store.ts:502-509 | Pruning alone is a run of the interleaved machine. |
| OAuthStores.OAuthStore.VerifyAccessToken | server/src/oauth/verify.ts:23-73 | A valid answer is a live grant's, at the right audience, covering every required scope. |
| OAuthAnswers.VerifiesExactly | server/src/oauth/verify.ts:33-73 | Valid if and only if in time, of a live grant, for this audience and with every scope asked for; short of scope exactly when only a scope is missing; and what the answer says of the caller. |
| OAuthStoreTheorems.ExchangeIsARun | server/src/oauth/store.ts:392-453 | The exchange the store performs is one of the interleaved machine's runs: same tables, copies, supply and answer. |
| OAuthStoreTheorems.RetryIsDuplicateOrTheft | server/src/oauth/store.ts:416-428 | The same refresh sent again gets the same body before 30 seconds are over and changes no row; from then on it is theft and the grant is revoked. |
| OAuthStoreTheorems.SignOutEndsTheAccount | server/src/oauth/account.ts:95-104 | After signing out everywhere no access token of the account verifies and no refresh of it is answered with tokens, whenever and however asked. |
| OAuthStoreTheorems.SignOutSparesOthers | server/src/oauth/account.ts:95-104 | Every token of another account verifies and refreshes exactly as before. |
| OAuthStoreTheorems.SignOutSparesOthersAnytime | server/src/oauth/account.ts:95-104 | So in every reachable state of the interleaved machine: a refresh of another account is answered as if nobody had signed out. |
| SignOut.SurvivorsAreNewer | server/src/oauth/account.ts:95-104 | Among everybody else's statements, exactly those live grants of the account survive the COMMIT that were not there when the SELECT ran; every grant it saw is revoked. |
| OAuthStoreTheorems.UsedSuccessorIsTheft | server/src/oauth/store.ts:416-428 | A token presented after its successor was used is theft, however soon, and its grant is revoked. |
| OAuthStoreTheorems.OtherGrantsDoNotDisturb | server/src/oauth/store.ts:392-453 | Whatever a request for another grant's token does, this grant's rows and sealed answers stay. |
| GrantLife.LockIsTheftIff | server/src/oauth/store.ts:410-428 | The decision on a live grant's token, asked for by its own client and key, is theft if and only if the token was replaced and either its transaction began after the grace window or its snapshot saw the successor used. |
| GrantLife.ForeignStep | server/src/oauth/store.ts:283-509 | No statement of anybody else's, and none of the app's own requests short of a rotation, brings a kept grant nearer to theft or touches a row of it, other than to prune it. |
| GrantLife.RotationKept | server/src/oauth/store.ts:392-453 | The grant's own rotation replaces exactly the tip by a token nobody has asked for, and leaves every request under way in time and the grant kept. |
| GrantTheft.UnruledPresentationCanBeTheft | server/src/oauth/store.ts:392-428 | Whenever a kept grant's token is presented against the rule, some continuation of the requests already under way ends in revoking the grant for theft. |
| CodeTheorems.StepHolds | server/src/oauth/store.ts:127-219 | Every statement of claims, redemptions, replays, pruning and revocations keeps the invariant of codes and grants. |
| CodeTheorems.OneCodePerAuthorization | server/src/oauth/store.ts:127-138 | However many submissions race, one pending authorization yields at most one code. |
| CodeTheorems.OneGrantPerCode | server/src/oauth/store.ts:191-219 | However many redemptions race, one code yields at most one grant. |
| CodeTheorems.ReplayRevokesOnlyItsGrant | server/src/oauth/token.ts:99-108 | A replay revokes only the grant its own code made, and only after it was made. |
| CodeTheorems.ReplayRevokesIffRecorded | server/src/oauth/token.ts:99-108 | A presentation the consuming UPDATE missed goes on to revoke if and only if the code's row is still there and a grant is recorded on it, and then that grant; a pruned code revokes nothing. |
| CodeTheorems.IgnoredReplaysComeFirst | server/src/oauth/token.ts:99-108 | A replay that revokes nothing always precedes the recording of its code's grant. |
| CodeTheorems.ReplayInTheGapIsMissed | server/src/oauth/token.ts:96-139 | A concrete run in which a code is presented twice and its grant is made and lives: the replay fell between consuming and establishing. |
| CodeTheorems.GrantsAreChecked | server/src/oauth/token.ts:110-130 | At its COMMIT a grant's redemption matches its code's client, verifier, redirect URI, resource and key, the app has proved a key, the code is spent, and it has no other grant. |
| CodeTheorems.ConsumeLetsThroughExactly | server/src/oauth/store.ts:191-219 | An unspent code in time is spent, and goes on to its grant if and only if every term is its own; any other presentation changes nothing. |
| CodeTheorems.PruningSparesTheTimely | server/src/oauth/store.ts:502-509 | An authorization waits 15 minutes; pruning takes exactly the authorizations and codes no longer in time. |
| CodeTheorems.GrantCarriesItsCode | server/src/oauth/token.ts:131-139 | A grant carries its code's account and terms, and the key the code was bound to. |
| CodeStores.AuthorizationStore.ClaimAndIssueCode | server/src/oauth/store.ts:127-160 | Claims the authorization and mints its code together, or answers null and changes nothing. |
| CodeStores.AuthorizationStore.ConsumeAuthorizationCode | server/src/oauth/store.ts:191-219 | An unflagged record if and only if the code was unspent and in time; then it is spent. |
| CodeStores.AuthorizationStore.ExchangeCode | server/src/oauth/token.ts:79-141 | The code grant end to end, in the order of its checks. |
| CodeStores.GrantedExactly | server/src/oauth/token.ts:79-141 | A code becomes a grant if and only if it is unspent and in time and the client, the verifier, the redirect URI and resource if given, and the key if bound, are each its own; and what the grant is. |
| CodeStores.RefusedExactly | server/src/oauth/token.ts:86-130 | Each refusal on its own condition, in the order of the checks, and what it costs: a failed check the code, a replay its grant, anything else nothing. |
| CodeStores.UnknownCodeIsRefused | server/src/oauth/token.ts:93-97 | A code nobody issued, or pruned, is unknown, and changes nothing. |
| CodeStores.ClaimedCodeIsExchangeable | server/src/oauth/store.ts:127-219 | The code an approved authorization is claimed for is exchanged for 60 seconds, for whoever meets the authorization's own terms; a second claim gets none. |
| CodeStores.SecondExchangeRevokes | server/src/oauth/token.ts:96-139 | Once a code was exchanged, any later presentation is refused and revokes that grant alone. |
| CodeStores.BurnedCodeRevokesNothing | server/src/oauth/token.ts:99-130 | A code burned by a failed check revokes nothing when presented again. |
| CodeStores.ExchangeIsARun | server/src/oauth/token.ts:96-139 | The exchange the store performs is one of the interleaved machine's runs: same tables, and the log records what it answered. |
| CodeStores.ClaimIsARun | server/src/oauth/store.ts:127-160 | So is the claim. |
| DeviceTheorems.StepHolds | server/src/domain/devices.ts:88-279 | Every statement of interleaved creates and controls keeps the invariant of devices, keys, audit log and locks. |
| DeviceTheorems.DevicesKeepTheRules | server/src/domain/devices.ts:88-150 | In every reachable state no owner has two devices of one folded name or more than 100, and every key row's owner and fingerprint are its device's. |
| DeviceTheorems.SameNameSameDevice | server/src/domain/devices.ts:88-187 | Any two creates answered with success for one account and folded name were answered with the same device. |
| DeviceTheorems.ControlReportsWhatWasAsked | server/src/domain/devices.ts:220-259 | Asked with a version already reached, a success reports the requested state, at the expected version or, if it wrote, the next. |
| DeviceTheorems.UnwrittenReportIsParity | server/src/domain/devices.ts:245-259 | A success that did not write reports the requested state exactly when that is the state of the expected version's parity. |
| DeviceTheorems.SoundCallsReportTruly | server/src/domain/devices.ts:220-259 | A call whose version had been reached, or whose state has its version's parity, is never answered with another state. |
| DeviceTheorems.UnsoundCallCanMisreport | server/src/domain/devices.ts:220-259 | Every other call can be, in some continuation of any reachable state: the UPDATE misses, another write lands, and the SELECT sees the expected version in the other state. |
| DeviceTheorems.OneWritePerVersion | server/src/domain/devices.ts:220-226 | At most one control ever writes for a given device and version. |
| DeviceTheorems.ResendConflicts | server/src/domain/devices.ts:220-255 | Once a change applied, the same change sent again always conflicts. |
| DeviceTheorems.AuditTellsTheDevice | server/src/domain/devices.ts:228-240 | On iff the version is even; the version is one plus the accepted controls; replaying the log, in which every accepted control must toggle, yields state and version. |
| DeviceTheorems.OthersChangeNothing | server/src/domain/devices.ts:255-279 | No-ops, conflicts and every other step leave devices, versions and the audited life as they are. |
| DeviceStores.DeviceStore.AddDevice | server/src/domain/devices.ts:78-150 | Validation, replay, cap and name conflict in order, or the three rows together. |
| DeviceStores.NewDeviceIsAnsweredExactly | server/src/domain/devices.ts:78-150 | Refused for an empty or longer name, for the limit at 100 devices, for a conflict with room and the folded name taken, each exactly when; otherwise one device more, off, at version 1. |
| DeviceStores.KeyedDeviceIsAnsweredExactly | server/src/domain/devices.ts:161-187 | A key in the table changes nothing: it gets its device, or is refused for another name. |
| DeviceRefusals.RefusalsAreTrue | server/src/domain/devices.ts:88-187 | Under every interleaving: whoever was told of the limit has 100 devices ever after, of a conflict a device of that name, of invalid input a bad name or a key used for another. |
| DeviceRefusals.StepsRefuseExactly | server/src/domain/devices.ts:99-133 | When the count, the INSERT and the second lookup refuse, exactly. |
| DeviceStores.DeviceStore.ControlDevice | server/src/domain/devices.ts:197-280 | Run alone, a success is the requested state at the expected version or the next; each refusal and its audit row as the source has them. |
| DeviceStores.ControlIsAnsweredExactly | server/src/domain/devices.ts:205-279 | Each refusal exactly when, and the audit row of a conflict; otherwise done, writing if and only if the state differs. |
| DeviceStores.DeviceStore.GetDevice | server/src/domain/devices.ts:60-68 | The answer is read off the owner's own devices alone, and is one of them or not found. |
| DeviceStores.ForeignDeviceIsAbsent | server/src/domain/devices.ts:60-68 | Somebody else's device is read and controlled exactly as an id that does not exist, and nothing changes. |
| DeviceStores.OthersDevicesAreInvisible | server/src/domain/devices.ts:60-68 | Two worlds that differ only in other people's devices answer every read and every control of this owner alike. |
| DeviceStores.DeviceStore.FindByIdempotencyKey | server/src/domain/devices.ts:161-187 | A replay finds the device its own request made; another request under the key is told apart. |
| DeviceStores.RepeatedCreate | server/src/domain/devices.ts:88-150 | A create sent again with its key gets the device it made and makes no other; another name under that key is refused. |
| DeviceStores.RepeatedControl | server/src/domain/devices.ts:214-259 | A change sent again after it applied conflicts and leaves the device alone. |
| DeviceStores.AddIsARun | server/src/domain/devices.ts:88-150 | The create the store performs is one of the interleaved machine's runs: same tables, and its success or its refusal is what the run records. |
| DeviceStores.ControlIsARun | server/src/domain/devices.ts:214-279 | So is the control, with its success or its refusal. |
| TokenExchange.NeverOutlivesTheCredential | server/src/oauth/exchange.ts:88-106 | An internal token's exp passes its credential's expiry by at most the half-second rounding. |
| TokenExchange.AcceptedExactly | server/src/device-service/verify.ts:68-99 | Accepted if and only if presented by the workload it names and is bound to, for its own scope, before 30 seconds past its expiry; and as whom. |
| TokenExchange.NinetySecondsAtMost | server/src/oauth/exchange.ts:91-106 | Never accepted 90 seconds after its exchange; accepted until then when exchanged on the second for a credential with a minute left. |
| TokenExchange.ExchangeIsEntitled | server/src/oauth/exchange.ts:59-84 | A token is exchanged only while the grant lives, for a scope the credential holds, at the adapter's own resource. |
| TokenExchange.ExchangedExactly | server/src/oauth/exchange.ts:59-120 | Exchanged if and only if the credential has half a second left, its grant lives, the resource is the adapter's and it has the scope; and every claim of what is signed. |
| Gates.OperationsNeedTheirToolsScope | server/src/device-service/service.ts:26-39 | Every operation needs of its token the very scope its tool is protected by. |
| Gates.TokenRunsItsOperations | server/src/device-service/service.ts:26-39 | A live token of the MCP resource is exchanged and accepted for an operation if and only if it has that operation's scope. |
| Trust.StepHolds | server/src/oauth/exchange.ts:88-120 | Database steps and exchanges in any order keep every signed token within its grant and the last instant that grant was live. |
| Trust.AcceptedSoonAfterLive | server/src/device-service/verify.ts:68-75 | Whatever an adapter kept and whichever event it missed, an operation is accepted only within 90 seconds of its grant being live. |
| Trust.AcceptedWithinTheGrant | server/src/device-service/verify.ts:78-99 | It runs on the operation's one scope, which the grant holds, for the grant's account, through the workload that exchanged it. |
| Trust.RevocationReachesDevices | server/src/oauth/exchange.ts:59-120 | 90 seconds after a grant is revoked nothing signed for it is accepted, in any run. |
| Trust.LiveCredentialsAct | server/src/oauth/exchange.ts:59-120 | In every reachable state a live credential is exchanged for any scope it has, and accepted there and then for that scope's operations and no others. |
| ExchangeClients.ExchangeClient.TokenFor | server/src/exchange-client.ts:67-83 | A cached token with more than ten seconds left, or a fresh one, cached under its grant and scope. |
| ExchangeClients.ExchangeClient.Run | server/src/exchange-client.ts:94-109 | At most two calls, the second only after a refused token and then with a token exchanged afresh; two refusals are an internal error. |
| ExchangeClients.ExchangeClient.Hear | server/src/exchange-client.ts:57-59 | The loop drops exactly the entries the event revokes. |
| ExchangeClients.ReusedTokensAreTheCallers | server/src/exchange-client.ts:67-83 | Over any run of asks, answers and revocations a reused token is the caller's own grant's, for this scope and workload. |
| ExchangeClients.HearingForgets | server/src/exchange-client.ts:29-35 | A revocation heard leaves nothing it concerns cached and touches nobody else's. |
| ExchangeClients.ObtainedIsReusedExactly | server/src/exchange-client.ts:67-83 | A token obtained is reused for its caller's grant and its scope alone, until ten seconds before its time is over, and not after its grant's, account's or client's revocation is heard. |
| ExchangeClients.ReusedTokensAreAccepted | server/src/exchange-client.ts:67-83 | A reused token is still accepted if its exchange was answered within 39 seconds. |
| RevocationRace.CachedIffArrivedSince | server/src/exchange-client.ts:57-83 | After a grant's revocation is heard, a token of it is cached for a scope if and only if the answer to a successful exchange for that scope has arrived since and was not dropped again; and it is that answer. |
| RevocationRace.HitsIffArrivedSince | server/src/exchange-client.ts:67-83 | And a lookup finds it exactly while more than ten seconds of what it was given are left. |
| RevocationRace.RevokedButCachedIff | server/src/oauth/store.ts:283-294 | A revoked grant's token is cached after the hearing if and only if an exchange answered before the COMMIT arrived after the hearing. |
| RevocationRace.HearingIsFinalUnlessAnswered | server/src/exchange-client.ts:29-59 | A hearing after the COMMIT is final for a key unless an answered exchange for it is still on its way to the adapter. |
| RevocationRace.ExchangeBeforeCommitIsKept | server/src/oauth/store.ts:290-294 | A run from the server's start: the event is heard, an exchange is served before the COMMIT, and after it the revoked grant's token is reused. |
| RemoteVerifiers.RemoteVerifier.Cached | server/src/split/remote.ts:54-62 | A hit is unexpired both as an answer and as a token. |
| RemoteVerifiers.RemoteVerifier.Learn | server/src/split/remote.ts:63-75 | Keeps an active answer for at most 30 seconds from before the call, forgets an inactive one, sweeps when full. |
| RemoteVerifiers.RemoteVerifier.Hear | server/src/split/remote.ts:46-52 | The loop drops exactly the answers the event concerns. |
| RemoteVerifiers.HearingForgets | server/src/split/remote.ts:46-52 | Nothing stays cached of the grant, account or client a revocation names, and every other answer stays. |
| RemoteVerifiers.LearnedIsKnown | server/src/split/remote.ts:54-75 | An answer is found for 30 seconds from the asking, or the token's own time if less; an inactive one forgets the token; no other token's answer changes. |
| RemoteVerifiers.ToldAsTheServerWould | server/src/split/remote.ts:77-105 | What the edge tells from its cache is what the server said of the token for the scopes the call needs. |
| RemoteVerifiers.ActiveTokensAreCached | server/src/split/remote.ts:54-75 | An introspection answered at once is found if and only if the token is a live grant's, for the edge's audience, with half a second left. |
| RemoteVerifiers.SweepIsUnobservable | server/src/split/remote.ts:74 | Sweeping drops nothing a later lookup could have found. |
| RemoteVerifiers.CachedAnswersAreRecent | server/src/split/remote.ts:54-76 | Over any run a cached answer rests on an introspection less than 30 seconds old, made while the grant was live, and is used at most half a second past the token's expiry. |
| ReplayStores.MemoryReplayStore.Claim | server/src/security/replay.ts:18-25 | True exactly when the key is free; then it is held for its time to live. |
| ReplayStores.ClaimHolds | server/src/security/replay.ts:18-25 | A claim holds its key for exactly its time to live, and sweeping frees nobody's key early. |
| Dpop.NonceLife | server/src/oauth/dpop.ts:48-61 | A nonce is accepted for at least one whole five-minute window after its issue and never for two. |
| Dpop.VerifyProof | server/src/oauth/dpop.ts:101-152 | The first failing check in the source's order, or acceptance with the jti held for 120 seconds; no earlier failure burns the jti. |
| Dpop.InspectedExactly | server/src/oauth/dpop.ts:101-140 | Which proof passes its checks, in its own fields, and which failure is named otherwise, the first that applies. |
| Dpop.ClaimIsAcceptedIff | server/src/oauth/dpop.ts:141-152 | In every run a proof that passed is accepted at its claim if and only if its nonce is of this window or the last and no proof of the same key and jti was accepted less than 120 seconds before. |
| Dpop.OtherProofsStayFree | server/src/oauth/dpop.ts:149 | Claiming a proof leaves every proof of another key or another jti as free as it was. |
| Dpop.AcceptedOnce | server/src/oauth/dpop.ts:116-149 | One proof is accepted at most once in any run unless a second request waits more than 49 seconds between its checks and its claim. |
| Dpop.AcceptedProofsAreForTheirRequest | server/src/oauth/dpop.ts:116-149 | Every accepted proof is for its request's method, URL, token and key, within 71 seconds, on a nonce of this window or the last. |
| Dpop.SlowClaimIsAcceptedTwice | server/src/oauth/dpop.ts:116-149 | One millisecond more than 49 seconds, and a concrete run accepts a proof twice: the bound is exact. |
| RateLimits.MemoryBucketStore.Hit | server/src/security/rate-limit.ts:27-40 | Counts the hit in the key's open window or a new one, and returns that very window, which later hits go on counting. |
| RateLimits.HitCountsItsOwnKey | server/src/security/rate-limit.ts:27-40 | A hit counts one more in its key's open window, or opens one, and costs no other key anything. |
| RateLimits.RefusedUntilTheWindowEnds | server/src/security/rate-limit.ts:46-52 | A refusal says to wait until the window is over, in whole seconds, and never a second longer. |
| RateLimits.HitReadAtOnceIsAllowedIff | server/src/security/rate-limit.ts:27-52 | In the interleaved machine a hit read at once is allowed if and only if fewer than the limit were counted. |
| RateLimits.SweepIsUnobservable | server/src/security/rate-limit.ts:33-36 | After a sweep the next hit on any key counts as it would have. |
| RateLimits.WaitingReachesANewWindow | server/src/security/rate-limit.ts:46-52 | In every run, whoever else hits the key meanwhile, a refused caller that waits retryAfter seconds finds no window open or one started later. |
| RateLimits.FirstHitsAreAllowed | server/src/security/rate-limit.ts:27-52 | Called one at a time, exactly the first limit hits of a window are allowed, whatever other keys are hit or swept meanwhile. |
| RateLimits.AtMostLimitPerWindow | server/src/security/rate-limit.ts:27-52 | At most limit hits are allowed in a window, however late each caller reads the shared record. |
| RateLimits.AtMostTwiceLimitInAnySpan | server/src/security/rate-limit.ts:27-52 | At most twice the limit in any span of windowMs, wherever it starts. |
| WriteBudgetRules.WriteBudgets.Spend | server/src/write-budgets.ts:41-58 | Both budgets are counted even when the first refuses; the answer is the first refusal, or ok when only reporting. |
| WriteBudgetRules.SpendIsJudgedExactly | server/src/write-budgets.ts:26-58 | A grant has 20 controls a minute and 10 creates an hour, a device 6 controls a minute, each from its first write on; every spend costs both. |
| WriteBudgetRules.OthersKeepTheirBudgets | server/src/write-budgets.ts:41-47 | One grant's writes never cost another's budget, creates never controls', one device's never another's. |
| WriteBudgetRules.UninterruptedSpendPassesIff | server/src/write-budgets.ts:41-58 | In the interleaved machine a spend nothing interrupts is let through if and only if both budgets have room. |
| WriteBudgetRules.GrantBudgetHolds | server/src/write-budgets.ts:31-47 | However spends interleave, at most 40 controls a minute and 20 creates an hour of one grant are let through. |
| WriteBudgetRules.DeviceBudgetHolds | server/src/write-budgets.ts:31-47 | At most 12 controls a minute of one device, whichever grants they come from. |
| WriteBudgetRules.PassedWritesAreCounted | server/src/write-budgets.ts:41-47 | Every write let through took a turn in its grant's budget and, if it names a device, one in the device's. |
| Consents.ConsentStore.Find | server/src/oauth/consents.ts:36-52 | The screen is skipped only by a row in its lifetime, of the same document, covering every scope, and never for a dynamic client. |
| Consents.ConsentStore.Record | server/src/oauth/consents.ts:58-86 | The loop's union is what was approved under this document, stamped now. |
| Consents.SkippedOnlyIfApproved | server/src/oauth/consents.ts:36-86 | However approvals interleave, a skipped screen means each scope was approved for this account, client, host and document, the latest within its lifetime, and no dynamic client. |
| Consents.ApprovalIsRemembered | server/src/oauth/consents.ts:36-86 | An approval is remembered for exactly 365 days, or 30 for an unverified client, for the same or fewer scopes and the same document; another document's scopes lapse, and no other row changes. |
| Consents.LaterApprovalRenewsEarlierScopes | server/src/oauth/consents.ts:66-86 | A concrete run in which a scope is reused past its own approval's lifetime, renewed by approving another. |
| Consents.ScopeOutlivesItsApprovalIff | server/src/oauth/consents.ts:36-86 | In every reachable state a remembered scope can, by time passing alone, be reused on expired approvals only, if and only if the approvals the row is stamped with did not cover it. |
| Gates.ProtectedCallsIn | server/src/mcp/gate.ts:56-76 | Every protected or unknown tool in order, and exactly the scopes the calls need together. |
| Gates.Gate | server/src/mcp/gate.ts:138-206 | Rate limit, proof, caller, challenge, in that order. |
| Gates.GateAnswersExactly | server/src/mcp/gate.ts:138-206 | Each answer exactly when: limited by grant or by address, refused for its proof, on as its caller, on alone, challenged in the result, 403 or 401. |
| Gates.OnlyPublicToolsAreFree | server/src/mcp/policy.ts:43-54 | Exactly the three public tools are free; every tool's scope; any other name is gated. |
| Gates.VerifiedIffEveryCallIsCovered | server/src/mcp/gate.ts:138-185 | A batch of any length goes on with a verified caller only if the token covers every protected call and came with its key's proof; and, that given, always does. |
| Gates.OthersRunAnonymously | server/src/mcp/gate.ts:187-206 | Otherwise a protected body is challenged, or on the tool-challenge path runs anonymously. |
| Gates.AdmittedCallsExchange | server/src/oauth/exchange.ts:59-84 | Each protected call of an admitted batch is exchanged, if and only if its token does not round to no time left, for its own scope alone, of the same grant. |
| Session.SessionController.Adopt | ios/IoTSwitch/Session/SessionController.swift:178-184 | Holds and stores the new refresh token with its account, and is signed in. |
| Session.SessionController.Store | ios/IoTSwitch/Session/SessionController.swift:186-193 | Replaces held and stored token together, and does nothing once signed out. |
| Session.SessionController.ClearSession | ios/IoTSwitch/Session/SessionController.swift:195-203 | Leaves nothing held or stored. |
| Session.SessionController.CurrentAccessToken | ios/IoTSwitch/Session/SessionController.swift:142-147 | The token in memory only while more than a quarter of its life, and so some of it, is left. |
| Session.HeldTokensAreUsed | ios/IoTSwitch/Session/SessionController.swift:142-203 | Tokens adopted or stored are used for three quarters of their life and the newest refresh token is presented; a store without an account, a clearing and a restoring leave what they should. |
| Session.SessionController.BeginRefresh | ios/IoTSwitch/Session/SessionController.swift:152-166 | Joins the refresh under way, refuses without a session, or starts one with the held token. |
| Session.SessionController.EndRefresh | ios/IoTSwitch/Session/SessionController.swift:166-174 | A rejection clears the session; the refresh is forgotten either way. |
| Session.AlwaysCoherent | ios/IoTSwitch/Session/SessionController.swift:142-203 | Whatever refreshes are under way, held and stored tokens agree and signed-in, account and token come and go together. |
| Session.SignedOutStays | ios/IoTSwitch/Session/SessionController.swift:186-203 | Once signed out nothing comes back until a sign-in, whatever old refresh still finishes. |
| Session.SingleFlight | ios/IoTSwitch/Session/SessionController.swift:152-174 | If no sign-in overtakes an outstanding refresh, two are never in flight and none presents a token with which a refresh succeeded. |
| Session.OvertakenRefreshBreaksSingleFlight | ios/IoTSwitch/Session/SessionController.swift:166-167 | Otherwise an older refresh's cleanup can always let two refreshes run at once with one token. |
| Session.OvertakenRefusalSignsOut | ios/IoTSwitch/Session/SessionController.swift:169-172 | And an older refresh that was refused signs the newer session out. |
| Session.SignInIsCleanIffNothingIsOutstanding | ios/IoTSwitch/Session/SessionController.swift:152-184 | A sign-in starts an epoch of single flight if no refresh is outstanding; if one is, some run without another sign-in has two refreshes of one token at once or loses the session. |
| Session.RefreshOutlivesItsSession | ios/IoTSwitch/Session/SessionController.swift:152-203 | A concrete run from launch to such a sign-in and on to two refreshes at once. |
| AppRefresh.StepHolds | ios/IoTSwitch/Session/SessionController.swift:152-174 | Every step of app and channel, and every statement of the server, keeps the app's token the tip of its line or one lost answer behind, and every request under way in time. |
| AppRefresh.NeverTheft | server/src/oauth/store.ts:410-428 | However requests and responses are lost and the server's statements interleave, if every request is delivered by the rule no transaction ever takes the app's refreshes for theft, and the grant stays unrevoked. |
| AppRefresh.HoldsTheTip | ios/IoTSwitch/Session/SessionController.swift:152-174 | While signed in the app holds the line's only unreplaced token, or the one it replaced; an answer received always leaves it holding the tip. |
| AppRefresh.SealedAnswerIsThere | server/src/oauth/token.ts:170-180 | A duplicate that reads its sealed answer inside the grace window finds it and answers with it. |
| AppRefresh.AnswersComeTo | ios/IoTSwitch/Session/SessionController.swift:152-193 | What each answer of the server leaves in the app: tokens held and stored, the session ended, or all as it was. |
| AppRefresh.UnruledDeliveryCanBeTheft | server/src/oauth/store.ts:410-428 | The rule is exact: in any state such a run leads to, a request delivered against it can, in some continuation, cost the grant. |
| AppRefresh.GivenUpRequestCanCostTheGrant | server/src/oauth/store.ts:416-428 | From every fresh sign-in, in no time, with one refresh out at a time: a request given up but still at its SELECT, a retry that is answered, and the app's next refresh can end in theft. |
| AppRefresh.FreshSignIn | ios/IoTSwitch/Session/SessionController.swift:178-184 | The runs above exist: a sign-in reached from the server's start is one they begin with. |
| DeviceControl.OneTapActsAtMostOnce | ios/IoTSwitch/ViewModels/DeviceControlService.swift:36-74 | Every copy sent is the same command, never its inverse; however often copies arrive the server writes for it at most once, to the state asked, one version on. |
| DeviceControl.UpdatedIsWhatWasAsked | ios/IoTSwitch/ViewModels/DeviceControlService.swift:36-50 | A tap reported as done shows the state asked for, at the version seen or the next. |
| DeviceControl.RepliesComeTo | ios/IoTSwitch/ViewModels/DeviceControlService.swift:36-74 | What each reply comes to: one renewal and one resend after a 401, the device read back after a conflict or an unknown outcome. |
| DeviceControl.UndisturbedTapSucceeds | ios/IoTSwitch/ViewModels/DeviceControlService.swift:36-50 | From any moment at which nobody's change is under way, a tap ends in the state asked for, one version on, shown as the server has it. |
| DevicesScreen.DevicesViewModel.BeginLoad | ios/IoTSwitch/ViewModels/DevicesViewModel.swift:67-77 | Takes the next sequence number and the ids listed now. |
| DevicesScreen.DevicesViewModel.FinishLoad | ios/IoTSwitch/ViewModels/DevicesViewModel.swift:79-111 | A superseded load changes nothing; a current one merges, keeping newer confirmations and additions. |
| DevicesScreen.DevicesViewModel.BeginSet | ios/IoTSwitch/ViewModels/DevicesViewModel.swift:116-121 | Sends only when no intent is pending and the state differs. |
| DevicesScreen.DevicesViewModel.FinishSet | ios/IoTSwitch/ViewModels/DevicesViewModel.swift:123-165 | Applies the outcome and clears the intent. |
| DevicesScreen.DevicesViewModel.Replace | ios/IoTSwitch/ViewModels/DevicesViewModel.swift:186-199 | Replaces in place unless older; inserts in order when asked. |
| DevicesScreen.ReplacedExactly | ios/IoTSwitch/ViewModels/DevicesViewModel.swift:186-199 | A confirmed device takes the place of its older self, never of a newer, and joins the list only if it may. |
| DevicesScreen.SetSettlesExactly | ios/IoTSwitch/ViewModels/DevicesViewModel.swift:123-165 | In any run: a change's own intent is over, the device reported updates the list, one not found leaves, everything else stays. |
| DevicesScreen.StepsShowExactly | ios/IoTSwitch/ViewModels/DevicesViewModel.swift:116-121 | In any run: a change is sent if and only if none is pending and the state differs; confirmed and added devices are listed. |
| DevicesScreen.ListStaysSound | ios/IoTSwitch/ViewModels/DevicesViewModel.swift:67-199 | Under any overlap the list has unique ids in (createdAt, id) order, the next step takes no device back a version, and one control per device runs while its intent is pending. |
| DevicesScreen.SupersededLoadChangesNothing | ios/IoTSwitch/ViewModels/DevicesViewModel.swift:67-81 | In every run from launch: once a later load has begun, an earlier one changes nothing on the screen whenever and however it ends. |
| DevicesScreen.LastLoadTakesEffect | ios/IoTSwitch/ViewModels/DevicesViewModel.swift:79-95 | When the last load begun succeeds, each fetched device is listed unless a higher version was, and then that; what else is listed was added since the load began; a device gone from the server leaves. |
| DevicesScreen.LastLoadFailsSoftly | ios/IoTSwitch/ViewModels/DevicesViewModel.swift:95-111 | Any other end of it: a failure keeps the list, stale or failed; a session that is gone empties it. |
| DevicesScreen.AdditionSurvivesLoad | ios/IoTSwitch/ViewModels/DevicesViewModel.swift:83-89 | A device that appeared while a load ran is still listed when it succeeds, at its version or newer. |
| DevicesScreen.SortSorts | ios/IoTSwitch/ViewModels/DevicesViewModel.swift:90 | The sort puts devices of unique ids in (createdAt, id) order. |

## Left out

- RefreshMachine: row locks taken by a revocation are not modelled, only that it cannot commit over a row a rotation holds; this admits every real schedule and some more.
- AppRefresh.NeverTheft: assumes that only the app presents its grant's tokens and that nobody asks for the grant's revocation; a request of the app's asks for no scope and no resource, as the app's do.
- AppRefresh.HoldsTheTip: a sign-in during the run is not modelled; each holds from one sign-in on.
- SignOut: the SELECT and the launch of the revocation are one step; the locks its FOR UPDATE takes on the grants' rows are not modelled, which admits every real schedule and some more.
- Trust.AcceptedSoonAfterLive: an exchange and a Device Service check each read the clock once.
- Session.SingleFlight: assumes of the token endpoint that one token is always answered alike and otherwise with new tokens; AppRefresh derives that from the server.
- ExchangeClients.ExchangeClient.Run: the exchanges' answers and the Device Service's replies are parameters; other requests are not interleaved inside one `run`.
- DevicesScreen.ListStaysSound: assumes that server lists have unique ids and that a device's creation time never changes; ids are ordered as numbers.
- Dpop.VerifyProof: a proof's JWT structure, length limits and key type are not modelled, nor is URL normalisation; `htu` is the normalised form.
- OAuthStores.OAuthStore.PruneExpired: of the six tables pruned, the access and refresh tables; codes and pending authorizations are pruned in CodeMachine, and the other two are not part of this model.
- OAuthStores.OAuthStore.SignOutEverywhere: browser sessions of the authorization server are not part of this model.
- DeviceStores.DeviceStore.AddDevice: display and folded names arrive already normalised; Unicode folding is not modelled.
- Gates.Gate: bucket and proof verdicts, and what the verifier said, are parameters.
- CodeMachine: resource and scope of an authorization are validated before it; offline_access only decides whether a refresh token is issued, which RefreshMachine takes as a parameter.
- Environment variables are taken at their defaults; report mode of the write budgets is the one switch modelled.
- Pepper rotation: a single pepper is assumed, and no restart between sealing a response and reading it.
- Shared stores in Redis: the in-memory stores are the reference.
- Token checksums, client metadata documents, passkeys, passwords, cookies, pages and HTTP plumbing: no decision modelled here depends on them.
- changePassword: checks a password, then signs out everywhere, which is modelled.
- listDevices and listConnectedApps: plain reads.
- Metrics, logs, alerts and touchGrant: nothing reads them to decide.
- The detail and add-device screens: they confirm devices to the list as `Changed` and `Added` do.
