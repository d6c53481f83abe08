# AppShield in Dafny

A model of AppShield's Go gate and of what it promises: the OAuth 2.1 broker's grants and tokens, the
browser session store and its debounced file, the OIDC relying party's logins in flight, the per-request
decision, and the tokens themselves. `dafny verify dfyconfig.toml` checks all of it.

## How it is laid out

- **The broker, one endpoint call at a time.** `Records`, `ClientPolicy` and `TokenPolicy` hold the
  documents and the rules about them. `DocumentStore` is the file store with its grant index,
  `Server` the endpoints as methods on it; both are classes proved against functions on the store's
  contents (`DocumentStore`, `Handlers`). `BrokerRuns` makes runs of those functions, with a record of
  what has happened that the broker itself never reads. `BrokerInvariant` and `BrokerSteps` carry the
  invariant over every step, `BrokerTheorems` draws the conclusions, `GraceRuns` says how long a spent
  refresh token is accepted. `KeptDocuments` says how long registrations, requests and codes stay stored, and
  `EndpointAnswers` and `TokenAnswers` from that what each endpoint answers, told from the request, the
  registrations and the authorizations alone. `Cleaning` and `Housekeeping` show that removing expired
  documents cannot be observed, at the store and at the endpoints.
- **The broker, one file operation at a time.** `Interleaving` runs any number of token and revocation
  handlers whose renames, reads, writes, removals and index updates interleave with each other, with
  the clock and with the sweeper. `InterleavingTheorems` has single use of codes and exclusive claims,
  `ClaimSweeping` says when a claim survives the sweeper, `InterleavedRevocation` when an emptied grant stays
  empty, `RevocationEmpties` when a revocation empties it, `InterleavedLifetimes` bounds lifetimes and
  rotations, `InterleavedExamples` has two runs from the empty store, and `HandlersAlone` proves that an
  uninterrupted handler does what the whole-handler model says.
- **Browser sessions.** `Sessions` is the store as a class, `SessionCleaning` the invisibility of lapsing,
  `Debounce` the interleaving of mutators, timer callbacks, flushes and shutdown.
- **Logging in.** `RelyingParty` is the OIDC client as a class, `LoginRuns` its runs; `Gate` is the decision
  over sessions, `GateRuns` its runs together with both logins.
- **Tokens as strings.** `Base64`, `Json`, `Jose`, `Bearer` and `Identity`.
- `Text` and `Wrappers` are shared.

Clocks are integers in milliseconds and never go back; `Unix` is division by 1000. Random identifiers are
hexadecimal and never repeat. Each broker handler sees one instant in the whole-handler model and as many as it
takes in the interleaved one.

## Where the code does less than it says

For each of these a lemma gives the exact condition under which the promise does hold, and where the condition
can fail in a run, another one a run or a token that fails it.

- The sweeper means to remove claim files abandoned by a crash. A rename keeps the modification time of the
  document, so it may also remove the claim file of a refresh that is under way. The claimed token survives
  exactly when it is read within an hour of its last write; otherwise it can be lost for good although nobody
  revoked it (`ClaimSweeping.TimelyReadKeepsTheToken`, `ClaimSweeping.SweptClaimLosesTheToken`,
  `InterleavedExamples.LiveTokenLost`).
- Revocation is final for whole handlers. Between file operations it is final exactly when no handler has
  already claimed a document of the grant (`InterleavedRevocation.RevocationIsFinalExactly`). A token that such a
  handler puts back afterwards is in no index any more. With no handler in flight a revocation empties its grant
  exactly when each stored document of it is listed or is the one the request names; a second revocation can
  therefore leave a live token (`RevocationEmpties.RevocationEmptiesExactly`,
  `InterleavedExamples.SecondRevocationMissesAToken`).
- A rotated token presented again is meant to pass as a client's retry for 30 seconds and as a leak afterwards. Each
  retry marks the token anew, so it passes exactly up to 30 seconds after the second of its last rotation, and
  retries at most 29 seconds apart are never detected while the token is not past its expiry nor its grant past the
  ceiling (`GraceRuns.SpentTokenIsAcceptedExactly`, `GraceRuns.RotationStartsTheGrace`,
  `GraceRuns.RetriesGoUndetected`).
- Flush is called safe to run concurrently. Flushes that overlap leave the memory's file in every order exactly
  when no copy still waiting for its rename differs from the newest (`Debounce.QuietFileIsCurrentExactly`,
  `Debounce.CloseSavesExactly`, `Debounce.OverlappingFlushesLoseAWrite`).
- A change to the sessions after Close has taken its copy is never saved; the file is the final memory's exactly
  when there is none, or it puts the same map back (`Debounce.ClosedFileIsCurrentExactly`,
  `Debounce.LateChangeIsLost`, `Debounce.LateChangeRun`).
- The lifetime cap on control tokens subtracts in 64 bits. A token whose iat is far below zero and whose exp is far
  above overflows it and is accepted far longer (`Identity.ControlTokensAreBrief`,
  `Identity.LongLivedTokenIsAccepted`).
- The authorized scope string changes on its way into the tokens exactly if it is OAUTH_SCOPE itself and that is
  not single-spaced (`TokenPolicy.RequestScopeIsStable`, `TokenPolicy.DoubleSpacedScopeChanges`).

## Model

| member | source | states |
|---|---|---|
| `BrokerTheorems.RevocationIsFinal` | internal/broker/token.go:93-198 | In every reachable state, whatever the run does next, a revoked grant never yields another token response and no code or refresh token of it is stored again. |
| `BrokerTheorems.RevocationEndpointIsFinal` | internal/broker/token.go:320-343 | The same from the answer to a revocation request for a live token of the requesting client (section 2 of RFC 7009): everything of the grant is gone at once and for good. |
| `BrokerTheorems.ClientDeletionIsFinal` | internal/broker/admin.go:96-131 | After a client is deleted no continuation stores a refresh token of that client, brings its record back or issues it a token. |
| `BrokerTheorems.OnlyTheOwnerRevokes` | internal/broker/token.go:142-154 | A grant becomes revoked in a step only through its own client: its revocation request, its own late reuse of a spent token, or its deletion. |
| `BrokerTheorems.ReuseEndsTheLineage` | internal/broker/token.go:142-154 | A spent token presented by its own client after the grace period is refused as reuse and removes exactly the tokens of its lineage, ancestors, siblings and descendants alike, and nothing else (section 4.14.2 of RFC 9700). |
| `BrokerTheorems.LineageIsGrant` | internal/broker/token.go:165-194 | Two refresh tokens descend from one original by rotations if and only if they belong to one grant. |
| `BrokerTheorems.IndexAgrees` | internal/broker/store.go:244-299 | Every stored refresh token is listed under its grant by a reference that decodes to it, every listed reference that still names a document names a token of that grant, and revoking the grant removes exactly its stored tokens. |
| `BrokerInvariant.RevokeIsExact` | internal/broker/store.go:279-299 | Revoking a grant removes all of its stored refresh tokens and no other document. |
| `BrokerTheorems.RotationDepthBound` | internal/broker/token.go:204-220 | A stored refresh token of a confidential client has been rotated at most five times. |
| `BrokerTheorems.AbsoluteGrantLifetime` | internal/broker/token.go:204-208 | Through any number of rotations a grant's refresh tokens keep the first issue time, expire within the ceiling plus one lifetime of it, and its access tokens within an hour more. |
| `BrokerTheorems.TwoClocksAgree` | internal/broker/token.go:296-304 | The seconds inside a stored refresh token and the milliseconds of its envelope agree to less than a second; a refresh never moves the presented token's expiry later and never reaches the one-second fallback. |
| `BrokerTheorems.NoTokenIsLost` | internal/broker/token.go:124-198 | A live refresh token leaves the store only with its revoked grant, or because it was itself presented and refused as another client's or as past its own expiry second. |
| `GraceRuns.SpentTokenIsAcceptedExactly` | internal/broker/token.go:142-154 | After any run that rotated a token away, its own client is answered for it exactly up to 30 seconds after the second of the last rotation in that run and before the token's own expiry; afterwards it is reuse. |
| `GraceRuns.RotationStartsTheGrace` | internal/broker/token.go:165-190 | Whenever a token is rotated away, for the first time or on a retry, it is answered, nothing is revoked, and its period of grace starts anew. |
| `GraceRuns.RetriesGoUndetected` | internal/broker/token.go:142-190 | For every list of pauses of at most 29 seconds there is a run that presents a spent token after each of them, is answered with new tokens every time and revokes nothing, as long as the token is not past its expiry nor its grant past the ceiling. |
| `BrokerTheorems.EveryAccessTokenWasAuthorized` | internal/broker/broker.go:226-420 | Every access token ever issued, directly or through refreshes, names the client, the non-empty subject and the scope of an earlier accepted authorization request with a registered redirect URI and an S256 challenge; the subject is the one the session store found, unexpired, behind the cookie of that interaction. |
| `BrokerTheorems.EveryRefreshTokenWasAuthorized` | internal/broker/client.go:64-72 | Every stored refresh token carries the client, subject and scope of its authorization, belongs to a client entitled to refresh tokens for that scope, and its client and grant are neither deleted nor revoked. |
| `BrokerTheorems.OnlyRegisteredUrisAreRedirectedTo` | internal/broker/broker.go:226-405 | Errors and codes are sent only to a redirect URI the named client registered, with the state of that very request, and a code only for a browser with a subject. |
| `EndpointAnswers.AuthenticatesExactly` | internal/broker/client.go:94-113 | In every reachable state credentials are good if and only if they name a client that registered and was not deleted and, unless it registered as public, carry the secret its registration returned. |
| `EndpointAnswers.EveryClientIsWellRegistered` | internal/broker/client.go:169-266 | Every client ever registered has valid redirect URIs, a known authentication method, only known grant types, and a secret exactly if it is confidential. |
| `EndpointAnswers.RegistersExactly` | internal/broker/client.go:169-219 | A registration succeeds if and only if it names at least one redirect URI, only valid ones, and no method, grant type or response type outside the known ones; the error tells which. |
| `EndpointAnswers.RegistrationIsKept` | internal/broker/client.go:221-266 | The client stored and returned has the requested members with the defaults for the missing ones, and can log in with the returned secret at any later instant. |
| `EndpointAnswers.AuthorizesExactly` | internal/broker/broker.go:226-300 | In every reachable state a request is put before a human if and only if its client, redirect URI, response type, grant, S256 challenge and resource are in order; otherwise the answer is the page or the error of the first check that fails. |
| `EndpointAnswers.PendingIsStored` | internal/broker/broker.go:282-300 | A pending request is stored as it was asked, for one hour; any other answer changes nothing. |
| `EndpointAnswers.InteractsExactly` | internal/broker/broker.go:350-420 | A code is sent if and only if the request is at most an hour old and unanswered and the cookie's session is live and has a subject; the code, kept for ten minutes, names that subject and what was requested. |
| `TokenAnswers.RedeemsExactly` | internal/broker/token.go:93-122 | A code that was issued is exchanged for tokens if and only if no authenticated client presented it before, it is at most ten minutes old, it belongs to the authenticated client and it comes with its redirect URI and a verifier of section 4.1 of RFC 7636 that hashes to the challenge; the tokens, the refresh token and the errors are spelled out. |
| `TokenAnswers.OnlyIssuedCodesAreRedeemed` | internal/broker/token.go:93-100 | Only a value that was issued as a code is ever exchanged. |
| `TokenAnswers.RefreshesExactly` | internal/broker/token.go:124-220 | A live refresh token is answered if and only if it is the authenticated client's own, has not expired and is unspent or spent at most 30 seconds ago; it is replaced if and only if the grant is below its ceiling and the client is public or 0.7 of the token's life is over. Answer, successor, put-back and errors are spelled out. |
| `TokenAnswers.RefreshIs` | internal/broker/token.go:124-220 | The same for any stored token at all, also one of an older broker that lacks a time. |
| `TokenAnswers.TokenErrors` | internal/broker/token.go:70-91 | The error on the wire is invalid_client exactly for bad credentials, unsupported_grant_type for another grant type, and invalid_grant otherwise. |
| `TokenAnswers.TokensGoToTheEntitled` | internal/broker/client.go:94-113 | In every run each token response was given to a request for that very code or refresh token whose credentials name the client in the token and, unless that is public, carry its registered secret. |
| `TokenAnswers.RevokesExactly` | internal/broker/token.go:320-343 | A revocation request takes out exactly the tokens of the grant if the token is live and the client's own, and otherwise at most the expired token it named (section 2 of RFC 7009). |
| `TokenAnswers.DeletesExactly` | internal/broker/admin.go:96-131 | Deleting a client takes out its record and all of its tokens, and no unexpired document besides. |
| `KeptDocuments.KeptNext` | internal/broker/store.go:83-236 | Every step keeps registrations stored until deletion, requests until answered or an hour old, and codes until presented or ten minutes old. |
| `BrokerSteps.NextKeeps` | internal/broker/token.go:93-343 | Every endpoint call, sweep and clock tick keeps the broker invariant that the theorems rest on. |
| `BrokerSteps.RunKeeps` | internal/broker/token.go:93-343 | So does every run. |
| `InterleavingTheorems.AtMostOneSuccessPerCode` | internal/broker/store.go:174-209 | With any number of handlers interleaved between their file operations, one authorization code leads to at most one successful answer in the whole run (section 4.1.2 of RFC 6749). |
| `InterleavingTheorems.ClaimIsALock` | internal/broker/store.go:174-209 | In every interleaved state the stored copies of a document and the handlers that have it in hand number at most one. |
| `InterleavingTheorems.RefreshesAreOrdered` | internal/broker/token.go:128-194 | Two successful refreshes of one presented value never overlap: one put the token back before the other took it. |
| `ClaimSweeping.TimelyReadKeepsTheToken` | internal/broker/store.go:174-209 | In every continuation a claimed refresh token that is read within an hour of the document's last write, and while it is good, stays in hand or is restored. |
| `ClaimSweeping.SweptClaimLosesTheToken` | internal/broker/store.go:322-331 | Whatever the others do, a claimed token that is still good survives at once exactly when its document was last written at most an hour ago; otherwise two steps lose it, unrevoked, and no continuation ever stores it again. |
| `InterleavedExamples.LiveTokenLost` | internal/broker/store.go:322-331 | A run from the empty store in which the sweeper takes a live, unrevoked token out of its own client's refresh, for good. |
| `InterleavedRevocation.RevocationIsFinalExactly` | internal/broker/store.go:279-299 | In a state where no document of a grant is stored, no continuation brings one back or answers for the grant if and only if no handler is past its claim with one of its documents. |
| `InterleavedRevocation.DeadForever` | internal/broker/token.go:93-198 | The lasting half: with no handler in flight, every continuation stores nothing of the grant and answers nothing for it. |
| `InterleavedRevocation.Completes` | internal/broker/token.go:165-194 | The other half: a handler in flight can always go on to a successful answer for the grant. |
| `RevocationEmpties.RevocationEmptiesExactly` | internal/broker/store.go:279-299 | With no handler in flight, every run that stays so from taking the index mutex to the end of the revoking handler leaves nothing of the grant, for good, if and only if each stored document of it is listed in the index or is the token the revocation request names. |
| `RevocationEmpties.UnrevokedIsListed` | internal/broker/store.go:244-264 | In every interleaved state each stored refresh token of a grant never revoked is listed under it, or its handler is about to list it. |
| `Interleaving.ExclusiveKept` | internal/broker/store.go:174-209 | Every store operation keeps claims exclusive. |
| `RevocationEmpties.FirstRevocationIsFinal` | internal/broker/store.go:244-299 | The first revocation of a grant always meets that condition: from taking the index mutex on it empties the grant for good, already before it drops the token it names, in every run with no handler in flight for the grant. |
| `InterleavedExamples.SecondRevocationMissesAToken` | internal/broker/token.go:176-190 | A run from the empty store in which a token put back after a revocation is in no list, so that a later, undisturbed revocation of its grant leaves it stored and live. |
| `InterleavedLifetimes.LifetimesHold` | internal/broker/token.go:204-220 | In every interleaved state each refresh token, on disk or in a handler's hands, expires ninety days after its own issue and at most that after the grant's ceiling, and has been rotated at most five times if its client was always found confidential. |
| `InterleavedLifetimes.FirstIssueIsKept` | internal/broker/token.go:165-190 | And all refresh tokens of one grant, on disk or in hand, carry the same first issue time. |
| `InterleavedLifetimes.EnvelopeEndsLateByTheDelay` | internal/broker/token.go:294-304 | In every interleaved run the envelope of a stored refresh token ends later than the token by the time its last writer took from its read to its write, plus less than a second; delays never add up. |
| `HandlersAlone.RefreshAlone` | internal/broker/token.go:124-198 | However a refresh handler orders its own operations, uninterrupted and to the end, it leaves exactly the store and gives exactly the verdict of the whole-handler model. |
| `HandlersAlone.RedeemAlone` | internal/broker/token.go:93-122 | Likewise every uninterrupted code redemption. |
| `HandlersAlone.RevocationAlone` | internal/broker/token.go:320-343 | Likewise every uninterrupted revocation request, including the removal of an expired token that was merely looked up. |
| `HandlersAlone.OwnScheduleExists` | internal/broker/store.go:266-299 | Such a schedule exists for every handler when nobody else holds the index mutex. |
| `Cleaning.CleaningIsInvisible` | internal/broker/store.go:134-346 | Reads, claims and listings answer every sequence of operations as a map that never deletes expired documents would. |
| `Cleaning.SweepScheduleIsInvisible` | internal/broker/store.go:306-346 | Two schedules that differ only in when the sweeper runs give the same answers. |
| `Housekeeping.HousekeepingIsInvisible` | internal/broker/store.go:134-346 | Leaving every sweep, lookup and listing out of a run keeps it possible, leaves every answer of every endpoint the same, and ends in the same store but for expired documents. |
| `DocumentStore.RefDecodes` | internal/broker/store.go:251-291 | A grant reference decodes to the model and id it was printed from, for every id. |
| `DocumentStore.FileStore.Put` | internal/broker/store.go:83-97 | The store afterwards holds the document under its key, with the expiry the time to live gives, and is otherwise unchanged. |
| `DocumentStore.FileStore.Get` | internal/broker/store.go:134-157 | Finds exactly a live document, and removes an expired one it came across. |
| `DocumentStore.FileStore.Claim` | internal/broker/store.go:174-209 | Finds exactly a live document and takes the file away either way. |
| `DocumentStore.FileStore.List` | internal/broker/store.go:212-236 | Returns each live id of the model exactly once and removes that model's expired documents. |
| `DocumentStore.FileStore.AddToGrant` | internal/broker/store.go:244-264 | The index afterwards lists the reference once, and nothing else changed. |
| `DocumentStore.FileStore.RevokeGrant` | internal/broker/store.go:279-299 | Removes the documents every decodable reference names and the index entry, and counts the references when all decode. |
| `DocumentStore.FileStore.Sweep` | internal/broker/store.go:306-346 | Removes exactly the expired documents of the expiring models and their stray claim and temporary files over an hour old, on request those of the 2.x directories too, and counts them all. |
| `DocumentStore.SweepsExactly` | internal/broker/store.go:36-41 | Of the documents a sweep leaves exactly the registrations of clients and what has no expiry or is not past it. |
| `DocumentStore.StraysExactly` | internal/broker/store.go:306-346 | Stray files go exactly when they are over an hour old, in the 2.x directories as well. |
| `TokenPolicy.GrantableScopesAreSound` | internal/broker/broker.go:305-316 | The granted scopes are never empty, never repeat, never leave the supported set, contain every supported word requested, and are only requested words as soon as one of them is supported. |
| `TokenPolicy.GrantKeepsOrder` | internal/broker/broker.go:305-316 | Granted scopes keep the order in which they were first asked for. |
| `TokenPolicy.SelectScopes` | internal/broker/broker.go:305-316 | The loop over the requested words computes the selection those properties are about. |
| `TokenPolicy.RequestScopeIsStable` | internal/broker/token.go:115-239 | The authorized scope string reaches every token unchanged exactly when OAUTH_SCOPE is single-spaced or some requested scope is supported. |
| `TokenPolicy.DoubleSpacedScopeChanges` | internal/broker/token.go:115-239 | With OAUTH_SCOPE `a  b` a request for nothing is authorized for that string and answered with `a b`. |
| `Text.FieldsOfJoin` | internal/broker/token.go:230-239 | Splitting a joined list of words on white space gives the list back. |
| `Text.NormalisedIffSingleSpaced` | internal/broker/token.go:115-239 | Splitting and joining leaves a string unchanged exactly when its words are separated by single spaces. |
| `ClientPolicy.CheckAll` | internal/broker/client.go:199-219 | The loops over requested grant and response types accept exactly lists drawn from the allowed values. |
| `ClientPolicy.CheckRedirects` | internal/broker/client.go:179-184 | The loop over requested redirect URIs accepts exactly lists of valid ones. |
| `Server.Server.AuthenticateClient` | internal/broker/client.go:94-113 | Accepts a stored public client by its id, or a confidential one by its own non-empty secret, and nothing else. |
| `Server.Server.HandleRegisterWith` | internal/broker/client.go:169-266 | Refuses with the first failing check and no change, or stores the client and its registration token. |
| `Server.Server.HandleAuthorize` | internal/broker/broker.go:226-300 | Shows, sends back or accepts a request in the order of the checks; only an accepted one is stored. |
| `Server.Server.HandleInteraction` | internal/broker/broker.go:350-420 | Turns a pending request into one code for the subject the session store finds behind the cookie and consumes the request, or changes no document but an expired one; the session store is asked only for a live request. |
| `Server.Server.Issue` | internal/broker/token.go:223-292 | Returns the access token, the id token with the access token's hash when openid is granted, and stores a refresh token exactly when one is wanted. |
| `Server.Server.Rotate` | internal/broker/token.go:165-190 | Stores and lists the successor and puts the presented token back as consumed, for the rest of its life. |
| `Server.Server.GrantAuthorizationCode` | internal/broker/token.go:93-122 | Claims the code first and answers by client, redirect URI and verifier, in that order. |
| `Server.Server.GrantRefreshToken` | internal/broker/token.go:124-198 | Claims, judges, rotates or puts back, and revokes the grant on late reuse. |
| `Server.Server.HandleToken` | internal/broker/token.go:70-91 | Authenticates, then dispatches on the grant type. |
| `Server.Server.HandleRevocation` | internal/broker/token.go:320-343 | Drops the client's own token and its grant; anything else is a success without effect. |
| `Server.Server.RevokeClientTokens` | internal/broker/admin.go:113-131 | The loop drops, in some listing order, every live refresh token of the client with its grant. |
| `Server.Server.HandleDeleteClient` | internal/broker/admin.go:96-110 | Removes the client record and then its tokens, or reports an unknown client. |
| `Sessions.Store.constructor` | internal/session/session.go:73-133 | Opens on exactly the file's unexpired sessions that carry a credential, or empty. |
| `Sessions.Store.Load` | internal/session/session.go:99-133 | The loop over the file keeps exactly the usable sessions. |
| `Sessions.Store.Get` | internal/session/session.go:137-152 | Finds exactly a session that has not lapsed and drops a lapsed one, arming a save exactly if it dropped one. |
| `Sessions.Store.Create` | internal/session/session.go:155-168 | Adds the one session and leaves a save armed while the store is open. |
| `Sessions.Store.Delete` | internal/session/session.go:170-178 | Removes the one session and arms a save exactly if it was there. |
| `Sessions.Store.Revoke` | internal/session/session.go:189-203 | Removes exactly the matching sessions, returns their number and arms a save exactly if there were any. |
| `Sessions.Store.Sweep` | internal/session/session.go:207-210 | Removes and counts exactly the lapsed sessions, arming a save exactly if there were any. |
| `Sessions.Store.TimerFires` | internal/session/session.go:241-247 | Leaves the timer unarmed and the file equal to the map. |
| `Sessions.Store.Close` | internal/session/session.go:296-305 | Leaves a file that reopens, at any time, as the unexpired sessions with a credential. |
| `Sessions.ReopensExactly` | internal/session/session.go:99-133 | A session comes back after a restart if and only if it has not lapsed and carries a credential, and then unchanged. |
| `Sessions.LoadsExactly` | internal/session/session.go:99-133 | The same of any session file, entries that are null excepted. |
| `Sessions.FindsExactly` | internal/session/session.go:137-152 | A cookie finds its session up to and including the millisecond in which it expires. |
| `SessionCleaning.SessionCleaningIsInvisible` | internal/session/session.go:137-210 | Whatever was read, swept or restarted before, a read finds a session as a map that never drops a lapsed one would. |
| `SessionCleaning.RevokeCountShowsHousekeeping` | internal/session/session.go:189-203 | After any run the count a revocation returns is the never-dropping map's exactly when no read, sweep or restart came across a matching session after it had lapsed. |
| `SessionCleaning.SweepChangesTheCount` | internal/session/session.go:189-210 | The same lapsed session is counted before a sweep and not after it. |
| `Debounce.NoChangeIsForgotten` | internal/session/session.go:231-248 | In every interleaving before shutdown, the newest copy is as good as the memory, or the timer is armed, or a callback has it in hand, or a mutator has not reached saveSoon; with flushes one at a time the same holds of the file itself, but for a newest copy still to be renamed. |
| `Debounce.NoWriteIsLost` | internal/session/session.go:231-292 | When flushes do not overlap and nothing is under way, the file reopens as exactly the usable sessions in memory. |
| `Debounce.QuietFileIsCurrentExactly` | internal/session/session.go:251-292 | When only renames are left and nothing changed since the newest copy, every order of them ends with the memory's file exactly when no copy still waiting differs from the newest, before and after shutdown. |
| `Debounce.OverlappingFlushesLoseAWrite` | internal/session/session.go:250-292 | A run of two overlapping callbacks that ends with a deleted session still in the file. |
| `Debounce.CloseSavesEverything` | internal/session/session.go:296-305 | With flushes one at a time, reopening after shutdown yields exactly the sessions in memory at that moment that are unexpired and carry a credential, if nothing changes the map afterwards. |
| `Debounce.CloseSavesExactly` | internal/session/session.go:296-305 | If a flush overlaps the shutdown, every order of the outstanding renames ends with that memory exactly when no copy still waiting differs from the newest. |
| `Debounce.LateChangeIsLost` | internal/session/session.go:231-248 | Once the store is closed and its flushes are over, the timer never fires again and nothing short of a new flush changes the file. |
| `Debounce.ClosedFileIsCurrentExactly` | internal/session/session.go:231-305 | After shutdown the quiet file is the final memory's exactly when no change follows the last copy taken, or the last such change puts the same map back. |
| `Debounce.LateChangeRun` | internal/session/session.go:231-305 | A run from opening that loses a session created after shutdown. |
| `RelyingParty.Client.GuessRedirectUris` | internal/oidcrp/oidcrp.go:206-220 | Offers the callback of every accepted origin, or of the request's own when none is configured. |
| `RelyingParty.Client.AdoptRedirectUris` | internal/oidcrp/oidcrp.go:222-243 | Replaces the origins by those of the parsable URIs, if any, and fills the fallback only if it was empty. |
| `RelyingParty.Client.Ensure` | internal/oidcrp/oidcrp.go:126-196 | Registers at most once; a failure after the registrar's answer still leaves the adopted host list. |
| `RelyingParty.Client.HandleLogin` | internal/oidcrp/oidcrp.go:272-299 | Registers if needed, sweeps, stores the flow and names the redirect_uri of the request's origin. |
| `RelyingParty.Client.SweepFlowsLocked` | internal/oidcrp/oidcrp.go:434-441 | Removes exactly the flows older than ten minutes. |
| `RelyingParty.Client.HandleCallback` | internal/oidcrp/oidcrp.go:301-390 | Spends the state before anything else and mints a session only for a fresh flow, a successful exchange and allowed groups. |
| `LoginRuns.RedirectUriIsStable` | internal/oidcrp/oidcrp.go:247-268 | In every run, after any failed registrations, a login and a code exchange that came in on one public origin name the same redirect_uri (section 4.1.3 of RFC 6749). |
| `LoginRuns.RedirectUriIsTheOrigins` | internal/oidcrp/oidcrp.go:247-268 | And that redirect_uri is the callback of the browser's own origin if it is accepted or there is no fallback, and the fallback's otherwise. |
| `LoginRuns.EnsuresExactly` | internal/oidcrp/oidcrp.go:126-243 | A try registers the party if and only if the registrar named a client and an issuer and the metadata could be read, and it adopts the origins of the callbacks the registrar named or accepted. |
| `LoginRuns.LoginsExactly` | internal/oidcrp/oidcrp.go:272-299 | A login is stored under its state with its verifier and target, and of the others exactly those over ten minutes old are dropped. |
| `LoginRuns.FlowsNeedRegistration` | internal/oidcrp/oidcrp.go:272-299 | While any login or callback is under way the party is registered. |
| `LoginRuns.RegistrationFreezesOrigins` | internal/oidcrp/oidcrp.go:126-196 | Once registered, the registration, the accepted origins and the fallback never change again. |
| `LoginRuns.FallbackNeverMoves` | internal/oidcrp/oidcrp.go:222-243 | A non-empty fallback origin never changes at all. |
| `LoginRuns.StateIsExchangedOnce` | internal/oidcrp/oidcrp.go:315-325 | Each login state reaches at most one code exchange in a whole run. |
| `LoginRuns.ExchangeIsTimely` | internal/oidcrp/oidcrp.go:315-325 | And only for a flow this party stored, taken within ten minutes of its creation. |
| `LoginRuns.SweepDropsTheRejected` | internal/oidcrp/oidcrp.go:434-441 | A sweep removes exactly the flows the callback would reject at that moment. |
| `LoginRuns.FlowSweepIsInvisible` | internal/oidcrp/oidcrp.go:434-441 | No step of any run comes out differently because abandoned flows are swept. |
| `Gate.CheckGroups` | internal/authn/authn.go:154-166 | The nested loops accept exactly when no group is required or one required group is held. |
| `Gate.Gate.SessionIdentity` | internal/authn/authn.go:109-150 | The outcome for a cookie, and which session it deletes, as the specification of the decision says. |
| `Gate.Gate.HandleLogin` | internal/authn/authn.go:229-267 | Mints a session exactly for the configured credentials in credentials mode. |
| `Gate.Gate.HandleLogout` | internal/authn/authn.go:269-297 | Refuses a cross-site sub-resource request without touching the sessions; otherwise ends the session behind the cookie, live or not. |
| `Gate.OldSessionsExactly` | internal/authn/authn.go:109-150 | What sessions without claims are worth, and which of them are thrown away. |
| `GateRuns.ForbiddenIsUnreachable` | internal/authn/authn.go:109-166 | In any run from an empty store under one configuration no cookie is answered with a 403, and every live session is accepted as the identity it was minted for. |
| `GateRuns.CookieStaysGood` | internal/oidcrp/oidcrp.go:346-369 | In any run a cookie minted for an ID token is accepted, as that token's identity, until its session expires or someone ends it, and not after. |
| `GateRuns.CallbackIsOidcLogin` | internal/oidcrp/oidcrp.go:346-369 | A callback mints a session only for a verified ID token with allowed groups; every other answer leaves the sessions untouched. |
| `GateRuns.CallbackLogsInExactly` | internal/oidcrp/oidcrp.go:301-416 | A callback logs someone in if and only if the party is registered, no error came, the state belongs to a login of the last ten minutes, the code is exchanged for that login's verifier and the groups are enough; session and target are spelled out. |
| `GateRuns.EverySessionWasMinted` | internal/authn/authn.go:229-267 | In any run a session exists only because someone presented exactly the configured name and password, in credentials mode, or an ID token with allowed groups. |
| `GateRuns.PasswordGetsIn` | internal/authn/authn.go:229-267 | Whoever presents them is accepted under the configured name for the configured time and no longer. |
| `GateRuns.ReconfiguredExactly` | internal/authn/authn.go:109-166 | Sessions minted under one configuration and judged under another are good exactly if the password is the same or the groups are still enough; too few groups, and nothing else, is a 403. |
| `Base64.DecodeEncode` | internal/jose/jose.go:52 | Decoding inverts encoding for every byte string (section 5 of RFC 4648). |
| `Base64.EncodeDecode` | internal/jose/jose.go:231-256 | Of the texts that decode to given bytes, exactly the one without line breaks and spare bits is their encoding. |
| `Base64.DecodeEncodeInt` | internal/jose/jose.go:54-63 | Every natural number, zero included, survives encoding and decoding, with any amount of padding added. |
| `Base64.TestVectors` | internal/jose/jose.go:52 | The test vectors of section 10 of RFC 4648. |
| `Base64.AlphabetIsTheStandards` | internal/jose/jose.go:52 | The alphabet of table 2 of RFC 4648. |
| `Jose.KeyRoundTrip` | internal/jose/jose.go:80-172 | A key written as a JWK parses back to itself exactly when it is consistent, its private members are not zero and its exponent fits 31 bits. |
| `Jose.PublicHalf` | internal/jose/jose.go:104-108 | The published JWK gives the verification key back, does not depend on the private members and never parses as a private key. |
| `Jose.ParsesExactly` | internal/jose/jose.go:126-172 | Which JWKs parse as a private key, and as which. |
| `Jose.ParsesPublicExactly` | internal/jose/jose.go:175-192 | Which parse as a public key. |
| `Jose.VerifiesExactly` | internal/jose/jose.go:228-257 | A token verifies with a payload if and only if it is three dot-free parts that decode, a header naming RS256, that payload, and a signature of the first two that the key accepts. |
| `Jose.VerifySigned` | internal/jose/jose.go:195-257 | For all header and payload byte strings, verification of a rightly signed token returns the payload unchanged, unless the header names another algorithm (section 7.1 of RFC 7515). |
| `Jose.VerifySign` | internal/jose/jose.go:195-257 | What Sign prints, Verify accepts with the same claims. |
| `Bearer.BearerWindow` | internal/broker/broker.go:443-462 | An access token issued at t0 is accepted at t, for its own subject, exactly when t's second lies before t0's second plus 3600. |
| `Bearer.IdTokenIsNoBearer` | internal/broker/broker.go:443-462 | An id token passes for an access token only if the client is named like the resource. |
| `Bearer.CountIsRedundant` | internal/broker/broker.go:443-446 | Counting separators first refuses nothing that verification would accept. |
| `Bearer.BearersExactly` | internal/broker/broker.go:443-462 | A bearer token is worth a subject if and only if the broker's key signed it and its claims name this issuer, this resource, that subject and an expiry still to come. |
| `Bearer.ForgedBearerIsNobody` | internal/broker/broker.go:443-462 | A token whose signature the key does not accept lets nobody in, whatever it says. |
| `Bearer.IdTokenTells` | internal/broker/token.go:240-275 | What a client reads in its id token. |
| `Identity.AssertionIsNoControlToken` | internal/identity/identity.go:188-308 | For every identity, audience, lifetime, secret and instant, a minted assertion is rejected by the control-token check. |
| `Identity.ControlRoundTrip` | internal/identity/identity.go:244-324 | A control token signed with the gate's own secret is accepted exactly for the right issuer and audience and within its times. |
| `Identity.AcceptsExactly` | internal/identity/identity.go:244-308 | A control token is accepted if and only if it carries the MAC of its header and payload under the gate's own secret, and claims of a backend for this gate whose times allow it. |
| `Identity.ForgedTokenIsRefused` | internal/identity/identity.go:270-277 | A token signed with another secret, whose MAC of that text differs, is refused for its signature. |
| `Identity.BackendReads` | internal/identity/identity.go:188-241 | In every minted assertion a backend with the secret finds its MAC and reads the caller's subject, user, mail, name and groups, the audience and the times. |
| `Identity.HeaderSafeDrops` | internal/identity/identity.go:139-150 | Cleaning a value drops its control characters and keeps every other in place. |
| `Identity.NothingIsMintedWithoutASecret` | internal/identity/identity.go:188-192 | Without a secret nothing is signed. |
| `Identity.ControlTokensAreBrief` | internal/identity/identity.go:288-307 | Any two instants at which one control token is accepted are less than 330 seconds apart, except exactly when exp - iat overflows 64 bits. |
| `Identity.LongLivedTokenIsAccepted` | internal/identity/identity.go:288-307 | A signed token with such claims, iat -2^62 and exp 2^62, is accepted at every instant of the next 36 million years. |

## Left out

- HTTP, HTML pages, cookies' attributes, CORS, discovery documents, logging, the reverse proxy, configuration parsing, header propagation and path routing: plumbing or short tables that would only add easy members.
- The 2.x implementation under `auth-service/`: the Go broker holds the same ideas with more state.
- RSA, HMAC, SHA-256, JSON, URL parsing and URL escaping are parameters: a signature verifies under its key, parsing inverts printing, file names do not collide. JSON member names are matched exactly and a member appears once.
- Token introspection, reading a client registration back, the admin pages and the signing key's file: they read what the model already describes.
- The `resource` member of stored tokens of older brokers: nothing in the core reads it.
- Disk failures, partial writes, crashes between a claim and its put-back, and corrupt files other than an unreadable session file.
- Records of the 2.x broker with a zero issue time, expiry or empty grant id appear in the policy functions' branches, but runs start from an empty directory.
- DocumentStore.FileStore.Sweep: files of other names in the swept directories, which it never touches, are not modelled.
- The second failure branch of the interaction endpoint, where a redirect URI that was accepted no longer parses after its code was stored.
- Back-channel logout and the control API appear only as revocations by an arbitrary predicate.
- Back-channel and RP-initiated logout URLs: string building over the registration.
- TokenPolicy.ShouldRotate: the source compares floats; `10 * elapsed > 7 * life` is the same comparison for the lifetime every token of this broker has, since 0.7 times 7776000 rounds to exactly 5443200.
- Server.Server.HandleAuthorize: `resource` and redirect URI validity are the configuration's functions, not URL parsing.
- Server.Server.LoadClient: client secrets are compared by equality, constant time is not modelled.
- DocumentStore.FileStore: the directory is a map from model and id to document; the claim file of a running handler exists only in `Interleaving`.
- Interleaving.Next: a sweep reads and removes an expired file in one step, because nobody can write that name again in between; client deletion and authorization are steps of the whole-handler model only, and a handler's client is the one it authenticated.
- Debounce.Next: a file write is copying and renaming; what happens to the temporary file in between is not observed.
- LoginRuns.Next: the registrar and the provider answer arbitrarily, and a code exchange is recorded when it is sent, whatever comes of it.
- GateRuns.After: a callback appears from the point where its ID token is verified.
- Sessions.Store.Create: the session is a value; callers do not change one after storing it.
- Identity.ControlTokensAreBrief: the range of the machine clock is not bounded; `Identity.LongLivedTokenIsAccepted` gives a token that fails it within any clock.
- Server.Server.Issue: an access token's signature is not part of the record, so its hash is the configuration's function of the claims.
- Gate.Gate.HandleLogout: the choice between the provider's logout page and the local one is not modelled.
