# A model of the OIDC authentication middleware

This project models, in Dafny, the parts of the middleware in which something can go wrong over time, between
components, or between what the code says and what it is for: the key cache and discovery under concurrency, the
lifetime of a session that lives in a browser cookie, parallel login flows, the chain of redirects a challenge starts,
the compiler of bypass rules, the matcher of redirect targets, chunked cookies, host routing with hot reload, and claim
assertions. `dafny verify dfyconfig.toml` checks it.

Each source file has its module. What the source computes step by step is a method (loops, in-place rewriting of
trees, fields of objects); the method is proved equal to a specification, and the properties are lemmas about that
specification. Whatever is shared between goroutines, replicas, browsers or the identity provider is a state machine:
events, a step predicate, runs of any length, and theorems about every legal run.

| file | models |
|---|---|
| Jwks.dfy, JwksProtocol.dfy | the key cache as an object, and any number of goroutines loading and reading it |
| Discovery.dfy | double-checked publication of the discovery document, field by field |
| Sealing.dfy, SessionStore.dfy, SessionLifetime.dfy | symbolic sealing, login states, session tickets, and runs of a session over replicas with one ticket cell as browser |
| SessionCookies.dfy | the same runs over the cookie jar: when the cell stands for it, and the bounds where it does not |
| LoginHandlers.dfy, LoginFlows.dfy | one login or callback request, and any number of flows in any number of browsers |
| ChallengeRedirects.dfy | the hops of a browser that follows every redirect |
| RulePredicate.dfy, RuleCompiler.dfy | expression to builder, builder to tree, negation pushed down in place, matcher tree |
| RedirectPath.dfy, RedirectAuthority.dfy, RedirectUri.dfy | the decoding loop, the host pattern, and the redirect decision |
| ChunkedCookies.dfy | chunked cookies against a cookie jar (section 5.3 of RFC 6265) |
| HostRouting.dfy, HostReload.dfy | host tables, configuration validation, reloads and requests in any order |
| ClaimAuthorization.dfy | claim assertions |
| Common.dfy | small shared types, decimal numerals |

## Conventions

Time is in nanoseconds since Go's zero time, and 0 is `time.Time{}`. One clock reading serves a whole request in the
session and login models; the key cache reads the clock at each step. Strings are byte strings; case folding is ASCII.
A ciphertext is a term of its plaintext, key and purpose: only the same key and purpose open it. Random values are
fresh. What the identity provider answers is an input, or a step of the environment that keeps its own rules: in the
login model it redeems a code once, for the verifier of the challenge the code was issued for.

## Where the code and its comments or its promise differ

The model follows the code. For each item a lemma says exactly when the code does what is promised or what it does
instead, and a lemma with a concrete input or run shows a failure where one is listed.

- The idle bound is tighter than its comment (src/main.go:592-594): a gap over the bound is always refused
  (`SessionLifetime.IdleGap`), and an active session can be refused up to one refresh interval early
  (`SessionLifetime.IdleRefusalExactly`).
- `setChunkedCookies` leaves an old count cookie behind: a ticket that shrinks below one chunk is shadowed by its own
  old chunks (`ChunkedCookies.LastWriteWins`, `ChunkedCookies.PlainRoundTrip`).
- `clearChunkedCookie` leaves the base cookie when a count is present: a jar holding both forms is still readable after
  one clear, never after two (`ChunkedCookies.ClearThenRead`, `ChunkedCookies.ClearTwice`), and the program's own writes
  make such jars (`ChunkedCookies.LogoutLeavesThePlainTicket`).
- Its comment (src/cookie.go:133-135) promises that the count cookie is expired even when its value is unreadable; it is
  not, and then no ticket of one cookie is read until a chunked one is written (`ChunkedCookies.CountCookieCleared`).
- So the session bounds hold over the real cookies only while no write changes the form of the stored ticket
  (`SessionCookies.Simulates`, `SessionCookies.OneFormRunIsSound`). `SessionCookies.StepSimulates` and the lemmas after
  it give the exact condition at each write and clear; `SessionCookies.ShrinkingTicketIsRefused`,
  `SessionCookies.UnstampedTicketResurfaces` and `SessionCookies.LoginBehindOldChunks` are the runs in which the idle
  bound, the maximum lifetime and a login fail.
- `isAuthorized` stops at the first array that lacks a required value, so it may refuse what its comment promises
  (`ClaimAuthorization.SecondArrayIsRefused`); it keeps the promise whatever follows that array exactly when the nodes
  before it suffice (`ClaimAuthorization.PromiseKeptExactly`), and always without one
  (`ClaimAuthorization.UnblockedIsPromised`).
- `validateSessionTicket` may return neither a session nor an error; `ServeHTTP` then calls `Error()` on nil, and the
  lemma names the requests that get there (`SessionStore.NilDereferenceExactly`, `SessionStore.NilDereferenceReachable`).
- A login state sealed before purposes existed opens as a session whose fields are all zero
  (`SessionStore.LegacyStateOpensEmpty`); states sealed today never do.
- A challenge chain does not always end within two trips to the provider. `ChallengeRedirects.TwoTripsExactly` gives the
  condition for every start page, earlier session and behaviour. It fails for a visit to the logout route with default
  targets (`ChallengeRedirects.LogoutVisitTakesThree`), for a login whose redirect_uri is the login route
  (`ChallengeRedirects.NestedLoginTakesThree`), and without any bound for a configured target on the login route
  (`ChallengeRedirects.LoginTargetNeverEnds`, `ChallengeRedirects.RefusingSiteLoops`).
- A host pattern accepts, beyond label-wise matches, the template itself ignoring case, stars included
  (`RedirectAuthority.AuthorityExact`).

## Model

| member | source | states |
|---|---|---|
| Jwks.ExtractKeys | src/oidc/jwks.go:314-344 | the kept keys are exactly the usable signature keys of the document, RSA and EC apart; none at all is the error case |
| Jwks.DeclinedMeansUsable | src/oidc/jwks.go:127-147 | declining a reload is the same as the cached keys being fit for use: present, and young enough or with a failed reload under a minute ago |
| Jwks.JwksHandler.LoadKeys | src/oidc/jwks.go:158-206 | keys, date and failure mark change together, only for a fetched document with a usable key; any failure leaves the cache untouched |
| Jwks.JwksHandler.EnsureLoaded | src/oidc/jwks.go:72-124 | the whole new state in every case (no reload due, new keys, failure with keys, failure without), and nil only with usable keys |
| Jwks.JwksHandler.GetRsaKey | src/oidc/jwks.go:283-298 | the scan finds the first key with the id, or nothing |
| Jwks.JwksHandler.GetEcdsaKey | src/oidc/jwks.go:300-312 | the scan finds the first key with the id, or nothing |
| Jwks.JwksHandler.Keyfunc | src/oidc/jwks.go:240-281 | the key handed to the parser is the lookup of the specification |
| Jwks.LookupAnswers | src/oidc/jwks.go:240-312 | an allowed algorithm only meets a key of its own family and id; a token is left without a key only when there is none |
| Jwks.JwksHandler.ParseJwtWithRetry | src/oidc.go:287-325 | the verdict is that of the keys cached at the end; a token the usable keys can judge causes no fetch; no token is turned away, expiry aside, before a reload was forced or was not due |
| JwksProtocol.OneFetchInFlight | src/oidc/jwks.go:72-124 | over every interleaving of any number of goroutines, at most one fetch is in flight |
| JwksProtocol.FetchesAreSpaced | src/oidc/jwks.go:86-147 | once keys exist, a fetch after a failed one starts at least a minute after the failure, a fetch after a successful one more than five minutes after the installation |
| JwksProtocol.FailureRate | src/oidc/jwks.go:104-147 | reloads that fail while keys are cached number at most w / 1 min + 1 in any window of length w |
| JwksProtocol.NeverEmptyAgain | src/oidc/jwks.go:158-206 | in every interleaving a cache once filled never becomes empty |
| JwksProtocol.NilMeansUsable | src/oidc/jwks.go:72-147 | the step that settles a nil result leaves keys at most six hours old (five minutes if forced) or with a reload that failed within the last minute |
| JwksProtocol.LookupServesLatestKeys | src/oidc/jwks.go:283-344 | every answer of a lookup comes from the most recent successful fetch at the moment of its snapshot, however late it answers |
| JwksProtocol.StepKeepsInv | src/oidc/jwks.go:72-206 | every step of every goroutine keeps the protocol invariant: one writer, an ordered fetch log, a cache that matches the log |
| Discovery.Middleware.EnsureOidcDiscovery | src/main.go:92-151 | one call publishes all four fields from the fetched document and the configuration, or changes nothing |
| Discovery.NilSeesTheOneDocument | src/main.go:92-151 | in any interleaving with failing and succeeding fetches discovery succeeds at most once, and whoever got nil sees that document with its URL, issuer and audience |
| Discovery.DocumentIsPublishedLast | src/main.go:112-151 | a reader without the lock never sees the document before the fields that depend on it |
| Discovery.NeverChangesAgain | src/main.go:92-110 | once published nothing changes again |
| Discovery.FailureLeavesNoTrace | src/main.go:112-125 | until a fetch succeeds the configuration is as it was |
| LoginState.MarshalRoundTrip | src/oidc/state.go:55-111 | encoding then decoding a state gives every field back, omitted empty fields included |
| LoginState.SealRoundTrip | src/oidc/state.go:55-111 | unsealing inverts sealing on all fields for ten minutes and is refused as expired after |
| LoginState.OnlySealedHereUnseals | src/oidc/state.go:84-170 | what unseals was sealed with this secret, for the state purpose with the type tag or without purpose; the latter never expires |
| SessionStore.TicketRoundTrip | src/session/cookieSessionStorage.go:30-66 | a ticket, of this version or legacy, opens to the session that was sealed |
| SessionStore.SessionNeverOpensAsState | src/oidc/state.go:119-170 | no session ticket, purpose-bound or legacy, opens as a login state |
| SessionStore.StateNeverOpensAsSession | src/session/cookieSessionStorage.go:52-66 | no sealed state and no encrypted PKCE verifier opens as a session |
| SessionStore.LegacyStateOpensEmpty | src/session/cookieSessionStorage.go:53-94 | the one crossing: a state sealed without purpose opens as a session without id, tokens or authorization |
| SessionStore.LegacyStateNeedsTheProvider | src/session.go:100-180 | that empty session is accepted exactly when the provider passes an empty token, and refused otherwise, since nothing can renew it |
| SessionStore.StoreSession | src/session/cookieSessionStorage.go:19-50 | the creation time is set once, the last use always, and the ticket is sealed unless it is over the cookie budget |
| SessionStore.TryGetSession | src/session/cookieSessionStorage.go:52-94 | the object equals the opened ticket with both time stamps backfilled, null exactly when the ticket does not open |
| SessionStore.ValidateSessionTicket | src/session.go:100-212 | session, updated session and error together are exactly the specified outcome, the outcome with neither included |
| SessionStore.NilDereferenceExactly | src/main.go:398-477 | the nil error is dereferenced exactly when a valid session was renewed and the new token introspects as inactive, on a route neither public nor front-channel |
| SessionStore.NilDereferenceReachable | src/session.go:156-158 | a concrete session and set of answers that get there |
| SessionStore.SessionWriteTracker.Mark | src/main.go:567-582 | the mark is recorded after dropping the whole map when it is full |
| SessionStore.Interval | src/main.go:607-617 | the refresh interval lies in 1..60 seconds and never exceeds a positive idle bound |
| SessionStore.ForwardAuthenticated | src/main.go:443-460 | the request is forwarded unless a ticket that was due could not be sealed; then it is neither forwarded nor marked |
| SessionLifetime.DurableLastUse | src/main.go:595-628 | with the browser as one ticket cell: for any number of replicas and tracker wipes, after every forwarded request at t the ticket was used later than t minus one interval |
| SessionLifetime.IdleGap | src/session.go:191-212 | with one ticket cell: a true gap over the idle bound is always refused; one of at most the bound less an interval, and a nanosecond more, is never refused as idle |
| SessionLifetime.IdleRefusalExactly | src/main.go:592-594 | an active session can be refused as idle after a gap, in some run, exactly when the gap is over what IdleGap guarantees |
| SessionLifetime.ActiveIsLastUse | src/main.go:402-460 | the gap is measured from what it should be: the last login or forwarded request |
| SessionLifetime.CreatedAtNeverChanges | src/session/cookieSessionStorage.go:19-26 | with one ticket cell: along every run, renewals, re-seals and wipes included, a stamped creation time never changes |
| SessionLifetime.StampedWhenForwarded | src/main.go:635-672 | with one ticket cell: a login stamps its own time and a legacy ticket is stamped by its first forwarded request |
| SessionLifetime.NeverAcceptedPastLifetime | src/session.go:191-202 | with one ticket cell: no request is accepted later than creation plus the maximum lifetime, whatever happened in between |
| SessionLifetime.StepKeepsInv | src/main.go:364-477 | every login, request, foreign session, restart and discard keeps the invariant between ticket and trackers |
| SessionCookies.StepSimulates | src/cookie.go:37-150 | over the real cookies a login, request or logout does what the ticket cell says exactly when its write will be read back and its clear finds one form only, or it writes the ticket already shown |
| SessionCookies.Simulates | src/session.go:281-296 | a run over the cookie jar whose steps pass that guard is a run of the ticket cell, so every bound of SessionLifetime holds for it |
| SessionCookies.OneFormRunIsSound | src/cookie.go:37-67 | a run that starts with at most one form of cookie and never switches form passes the guard throughout |
| SessionCookies.DurableExactly | src/main.go:443-460 | after a forwarded request the shown ticket was used within one interval exactly when its re-sealing, if any, is visible or the ticket carried was that recent already |
| SessionCookies.IdleExactly | src/session.go:204-209 | for the guaranteed gap after it the session is never refused as idle exactly under the same condition |
| SessionCookies.LateExactly | src/session.go:204-209 | beyond the idle bound it is always refused exactly when the re-sealing is visible or the ticket that stays is stamped at all |
| SessionCookies.StampExactly | src/main.go:635-672 | a forwarded request leaves a stamped ticket exactly when its re-sealing is visible or the ticket was stamped before |
| SessionCookies.LoginExactly | src/main.go:1034-1056 | a login is what the next request shows exactly when its ticket is visible |
| SessionCookies.CreatedAtKept | src/session/cookieSessionStorage.go:19-26 | along guarded steps over the cookie jar a stamped creation time never changes |
| SessionCookies.NeverAcceptedLate | src/session.go:191-202 | along guarded steps over the cookie jar no request is accepted past the maximum lifetime |
| SessionCookies.ClearExactly | src/cookie.go:125-150 | after a session is cleared, refused or logged out, no later request is accepted exactly when the clear uncovers no base cookie whose session is within the bounds |
| SessionCookies.ShrinkingTicketIsRefused | src/cookie.go:51-54 | a run: a ticket re-sealed from chunks into one cookie stays unread, and the active session is refused within the guaranteed gap |
| SessionCookies.UnstampedTicketResurfaces | src/main.go:473-474 | a run: a legacy ticket re-sealed into chunks is refused past its maximum lifetime and cleared, and the next request is accepted with the old ticket |
| SessionCookies.LoginBehindOldChunks | src/cookie.go:51-54 | a login whose ticket is one cookie, after a chunked one, is never seen |
| LoginHandlers.CsrfCookieNameInjective | src/cookie.go:191-201 | cookies of different flows never share a name |
| LoginHandlers.RedirectToProvider | src/main.go:1418-1508 | the reply carries this flow's cookie, state, nonce and challenge; a failing random source, endpoint or sealing ends in a 500 that releases no state |
| LoginHandlers.HandleLogin | src/main.go:1340-1345 | either the direct or the double redirect, for the same target and challenge flag |
| LoginHandlers.HandleCallback | src/main.go:823-945 | status, cookies, token request and redirect of a callback are the specified reply, for every state, answer of the provider and failure |
| LoginHandlers.LoginCallback | src/main.go:850-931 | the checks come in the source's order, the CSRF cookie is expired on success and failure, a session is set only after all of them |
| LoginHandlers.HandleUnauthorized | src/main.go:1261-1284 | on the callback: a challenge only for a page request whose session was not challenged before |
| LoginFlows.ExchangesPresentOwnVerifier | src/oidc.go:162-201 | in every run every token request of flow i presents exactly the verifier whose S256 went out as flow i's challenge (section 4.6 of RFC 7636) |
| LoginFlows.OneSessionPerFlow | src/cookie.go:269-313 | no flow and no code yields a session twice |
| LoginFlows.SessionsAreOwn | src/main.go:848-899 | every session was made in the browser that started its flow, for a code whose challenge and nonce are that flow's as far as they are checked |
| LoginFlows.OthersLeaveItAlone | src/cookie.go:285-298 | a step that is not the flow's own callback neither consumes it nor touches its cookie |
| LoginFlows.StaysOpen | src/main.go:1424-1503 | whatever other flows do, in any order, a started flow stays completable for its ten minutes |
| LoginFlows.OpenFlowCompletes | src/main.go:848-899 | an open flow with a code of its own makes a session as soon as the provider answers with a good token |
| LoginFlows.StartedFlowCompletes | src/main.go:823-945 | in any run a started flow is completed by its own callback at any later moment of its ten minutes, whatever other flows were started or completed in between |
| LoginFlows.CallbackIsOwn | src/main.go:848-899 | a token request or a session implies the presented flow is known, unconsumed and in its own browser |
| LoginFlows.ExpiryIsOwn | src/cookie.go:285-298 | a callback expires the CSRF cookie of the flow it presents and no other flow's |
| LoginFlows.StepKeepsInv | src/main.go:823-945 | logins, relays, logouts, issued codes and callbacks keep the invariant, and no flow is ever altered or forgotten |
| ChallengeRedirects.CallbackHopIsReply | src/main.go:887-945 | the callback hop of the chain is the reply of the modelled handler, session and destination |
| ChallengeRedirects.TripsExactly | src/main.go:364-477 | for every site, every place in a chain and every k: k more trips to the provider always suffice exactly when the site allows it, by its routes, targets and behaviours |
| ChallengeRedirects.HopSpends | src/main.go:364-477 | each hop lowers a rank over position and session, or takes one of the allowed trips |
| ChallengeRedirects.BoundedChainsEnd | src/main.go:1261-1345 | a chain allowed k more trips has ended after 8k + 7 hops, whatever the assertions answer and with or without the double redirect |
| ChallengeRedirects.TwoTripsExactly | src/main.go:1307-1345 | from any page, protected, public, login or logout, with any earlier session or none and under any behaviours, two trips always suffice exactly when the configured targets fit; then the chain has ended after 21 hops |
| ChallengeRedirects.ChallengingVisit | src/main.go:1217-1241 | where both behaviours challenge, that is: the target of the login settles, and so does the target of a challenge on it |
| ChallengeRedirects.LogoutVisitTakesThree | src/main.go:474-476 | a visit to the logout route without a session on a site with default targets can take three trips |
| ChallengeRedirects.NestedLoginTakesThree | src/main.go:1316-1326 | so can a visit to the login route with the login route as its redirect_uri |
| ChallengeRedirects.RefusingSiteLoops | src/main.go:400-403 | refusing unauthorized sessions does not help: with the login route as configured target an authorized visit takes any number of trips |
| ChallengeRedirects.LoginTargetNeverEnds | src/main.go:400-403 | with post_login_redirect_uri on the login route there is, under any behaviours and for every n, a chain of n trips by an authorized user |
| RulePredicate.Parse | src/predicate/parse.go:35-69 | the parser computes the specified builder or error |
| RulePredicate.EvaluateExpr | src/predicate/parse.go:83-163 | literals, calls and errors as specified |
| RulePredicate.EvaluateArguments | src/predicate/parse.go:71-81 | all values in order, or an error as soon as one fails |
| RulePredicate.EvaluateSelector | src/predicate/parse.go:174-198 | the one-pass walk yields the names in source order, or an error when the base is no identifier |
| RuleCompiler.InvertedMeaning | src/rules/parser.go:77-92 | pushing a negation down negates the value and consults the same matchers in the same order |
| RuleCompiler.ParsePreservesMeaning | src/predicate/parse.go:35-69 | a rule compiles exactly when its operators are !, && and || over registered matchers with proper arguments, and its tree means what the rule means |
| RuleCompiler.Invert | src/rules/parser.go:77-92 | the in-place rewriting yields the inverted tree on the same nodes and touches nothing else |
| RuleCompiler.Build | src/rules/parser.go:57-98 | every builder call makes a fresh tree of the specified shape |
| RuleCompiler.AddRule | src/rules/requestCondition.go:88-120 | filling the matcher tree succeeds exactly when every leaf passes its checks, and then it is the compiled form of the rule tree |
| RuleCompiler.CompiledMatch | src/rules/requestCondition.go:63-84 | a compiled tree evaluates as the rule tree means and never reaches the nil or invalid-operator branches |
| RuleCompiler.ParseRequestCondition | src/rules/requestCondition.go:14-48 | end to end: accepted exactly when well formed, and then the same boolean and the same matchers in short-circuit order for every request |
| RedirectPath.HasPathTraversal | src/utils/utils.go:414-438 | a path passes exactly when it settles within eight rounds and is safe after every number of rounds, not just eight |
| RedirectPath.ClimbIsTraversal | src/utils/utils.go:418-424 | splitting on slashes finds every climbing segment the position-wise definition sees |
| RedirectPath.TraversalClimbs | src/utils/utils.go:418-424 | and nothing else |
| RedirectPath.NoScheduleClimbs | src/utils/utils.go:414-438 | whatever sequence of decoding and backslash steps others apply, in any order, a passed path decodes and no segment climbs |
| RedirectPath.NothingPopped | src/utils/utils.go:401-438 | removing dot segments (section 5.2.4 of RFC 3986) from a path without ".." segments deletes its "." segments and nothing else |
| RedirectPath.StaysUnderAfterAll | src/utils/utils.go:401-438 | after any such schedule and dot-segment removal a passed path still starts with any plain prefix it started with |
| RedirectAuthority.ValidAuthorityTemplate | src/utils/utils.go:385-399 | accepted exactly when every label is one star or has no star |
| RedirectAuthority.PatternParses | src/utils/utils.go:375-377 | quoting and replacing produce a pattern with exactly one item per template character |
| RedirectAuthority.RegexIsLabelWise | src/utils/utils.go:370-383 | for every valid template the regular expression equals label-wise matching after splitting on dots and colons |
| RedirectAuthority.AuthorityExact | src/utils/utils.go:370-399 | beyond label-wise matches only the template itself ignoring case is accepted, and that adds something only when it has a star |
| RedirectUri.SplitReassembles | src/utils/utils.go:331-344 | scheme, authority and rest put together again are the value, and the authority ends at the first slash, question mark or hash |
| RedirectUri.MatchUriTemplate | src/utils/utils.go:305-329 | the decision is the conjunction of scheme, authority and path rules |
| RedirectUri.UnsafeWildcardRedirect | src/utils/utils.go:401-412 | exactly the values unfit for wildcards: scheme-relative, without scheme or host, with user info, or with a climbing path |
| RedirectUri.ValidateRedirectUri | src/utils/utils.go:278-303 | the answer is the target itself or an error; accepted exactly when empty, listed, or matched by a wildcard URI while wildcards are enabled and the value is fit for them |
| RedirectUri.AcceptedNeverClimbs | src/utils/utils.go:289-303 | a target accepted through a wildcard has no ".." segment under any schedule of decoding, and dot-segment removal never pops |
| RedirectUri.AcceptedAuthority | src/utils/utils.go:305-329 | for any template but "*" scheme and host are the template's, label by label |
| RedirectUri.AcceptedPath | src/utils/utils.go:346-360 | its path is the template's, or under its prefix, or the prefix without the trailing slash |
| RedirectUri.AcceptedStaysUnderPrefix | src/utils/utils.go:346-438 | and stays under a plain prefix after decoding by others and dot-segment removal |
| ChunkedCookies.ChunkString | src/utils/utils.go:262-274 | the loop cuts the input into the specified chunks |
| ChunkedCookies.JoinChunks | src/utils/utils.go:262-274 | the chunks joined are the input |
| ChunkedCookies.SetChunkedCookies | src/cookie.go:37-67 | the emitted headers, made with one reused cookie object, are the specified ones in order |
| ChunkedCookies.ReadChunkedCookie | src/cookie.go:69-123 | reading answers the specified value or error for any jar |
| ChunkedCookies.ClearChunkedCookie | src/cookie.go:125-150 | clearing emits exactly the specified expiries |
| ChunkedCookies.ChunkedRoundTrip | src/cookie.go:37-99 | a ticket over one chunk and within the budget comes back whatever the jar held |
| ChunkedCookies.PlainRoundTrip | src/cookie.go:51-54 | a ticket of one chunk comes back exactly when the jar has no non-zero count cookie or already answered that very ticket; otherwise the write goes unseen |
| ChunkedCookies.LastWriteWins | src/cookie.go:37-67 | over any sequence of writes into a jar that starts empty, the last ticket is read back exactly when it is chunked or no earlier one was |
| ChunkedCookies.ClearThenRead | src/cookie.go:125-150 | after a clear something is readable exactly when the jar held both forms |
| ChunkedCookies.LogoutLeavesThePlainTicket | src/cookie.go:138-147 | two writes of the program reach such a jar: a plain ticket, then a chunked one, then a clear leaves the plain one readable |
| ChunkedCookies.CountCookieCleared | src/cookie.go:133-138 | the count cookie is gone after a clear exactly when there was none or its count is in 1..32; an unreadable one keeps every later plain ticket from being read |
| ChunkedCookies.ClearTwice | src/cookie.go:125-150 | after two clears nothing is readable |
| ChunkedCookies.HeadersBounded | src/cookie.go:101-150 | no request makes the program emit more than 33 cookies |
| ChunkedCookies.ClearUnderInvariant | src/cookie.go:125-150 | with one form only and a count in 1..32, clearing then reading finds nothing and keeps the invariant |
| ChunkedCookies.SetKeepsInvariant | src/cookie.go:37-67 | a write keeps the invariant exactly when it does not switch to the other form |
| HostRouting.LookupHost | cmd/extauth-server/router.go:65-90 | for every iteration order: the exact entry, else the longest wildcard whose suffix properly ends the host, else nothing |
| HostRouting.BestIsUnique | cmd/extauth-server/router.go:75-89 | two longest matching wildcards are the same pattern |
| HostRouting.ValidateMultiConfig | cmd/extauth-server/config_multi.go:140-190 | accepted exactly when ids, normalised hosts, cookie prefixes and secrets are all well formed and pairwise different |
| HostRouting.TableExact | cmd/extauth-server/reload.go:13-35 | for every valid configuration the table maps each listed host to its own client and contains nothing else |
| HostRouting.ListedHostReachesItsClient | cmd/extauth-server/router.go:65-74 | every host, spelled as listed, reaches its own client |
| HostRouting.BuiltExactly | cmd/extauth-server/reload.go:13-35 | the rounds of the client loop succeed exactly when every handler was made and the expanded secrets differ pairwise, and then give that table |
| HostRouting.BuildHostMap | cmd/extauth-server/reload.go:13-35 | the loop ends as those rounds do, first failure or panic included, with the expanded secrets in their configurations |
| HostRouting.HostRouter.ReloadFromFile | cmd/extauth-server/reload.go:37-48 | the table is swapped after everything else succeeded, and otherwise unchanged |
| HostRouting.HostRouter.DoReload | cmd/extauth-server/watch.go:144-167 | a failing or panicking reload leaves the table as it was |
| HostReload.OneReloadAtATime | cmd/extauth-server/watch.go:144-167 | at most one reload at a time reads, builds or swaps |
| HostReload.TableChangesOnlyOnSwap | cmd/extauth-server/router.go:21-23 | over any run of successful, failing and panicking reloads only a completed load changes the table |
| HostReload.VersionsNeverGoBack | cmd/extauth-server/watch.go:144-167 | a slow reload cannot put an older configuration over a newer one |
| HostReload.ServedFromLatestLoad | cmd/extauth-server/router.go:25-33 | every request is served from the complete table of the latest successful load at its snapshot |
| HostReload.LiveSecretsDistinct | cmd/extauth-server/reload.go:22-30 | every table that ever goes live has pairwise distinct expanded secrets and maps each listed host to its own client |
| ClaimAuthorization.IsAuthorized | src/authorization.go:16-130 | the labelled loops accept exactly the declarative meaning of the assertions: one array with all and any, or scalars that jointly cover a duplicate-free list, before the first array lacking a required value |
| ClaimAuthorization.BlockingArrayHidesTheRest | src/authorization.go:62-70 | such an array hides everything after it: the verdict is that of the nodes before it |
| ClaimAuthorization.SatisfiedIsPromised | src/authorization.go:41-43 | the code never accepts what its comment does not promise: some node, or the scalars jointly, wherever they stand |
| ClaimAuthorization.UnblockedIsPromised | src/authorization.go:41-43 | without an array lacking a required value the code does what is promised |
| ClaimAuthorization.PromiseKeptExactly | src/authorization.go:62-70 | with such an array the promise is kept, whatever follows, exactly when the nodes before the array already satisfy the assertion |
| ClaimAuthorization.SecondArrayIsRefused | src/authorization.go:62-70 | two arrays of which only the second carries the required value: promised and refused |

## Left out

- HTTP transport, TLS, timeouts, JSON and YAML decoding, file watching, gRPC translation, logging, error pages and
  header templates: input and output, or text formatting. Their results are inputs here.
- AES-GCM, base64, SHA-256 and JWT signatures: symbolic terms. That a ciphertext cannot be forged is built into them.
- go/parser, the compilation of regular expressions and JSONPath: the syntax tree, whether an expression compiles, what
  a matcher answers, and the nodes found under a claim path are inputs. Only the fragment of regular expressions that
  host patterns use has a semantics of its own.
- Non-ASCII case folding, in particular the two Unicode letters that fold into the host pattern's class.
- Durations beyond 292 years (the overflow of time.Duration), clocks that run backwards, and several clock readings
  within one session or login request.
- The text of a sealed ticket: SessionCookies takes any spelling that is not empty and can be read back, and its
  failing runs are stated for tickets of the lengths they name.
- Cookie attributes other than name, value and age; a browser that drops or evicts cookies on its own; legacy PKCE
  cookies, which are only expired.
- Parallel callbacks of one flow from one browser that carry the same cookie: requests of a browser are sequential, each
  after the cookies of the one before.
- A callback host other than the one that set the CSRF cookie. That is so when PKCE, and with it the double redirect,
  is off, and also when the page's host is a string prefix of the callback URL without being its host
  (src/main.go:1347-1357): the flow's cookie then never reaches the callback.
- Front-channel logout, token revocation, the end-session request, forwarded-header helpers, claim merging and the
  configuration checks of `src.New`: straight-line checks.
- The threshold arithmetic of token renewal, in floating point: whether the threshold has passed is an input.
- The configured authorization parameters and their overrides, `max_age` included: they do not enter any property here.
- Public pages count as pages of their own in `ChallengeRedirects`; a login or logout route that is also public is not
  modelled.
- SessionStore.StoreSession: does not compute the size of the sealed ticket; whether it fits the cookie budget is an
  input, because base64 and AES-GCM are symbolic.
- LoginHandlers.LoginCallback: does not model the expiry of legacy PKCE cookies, which nothing reads any more.
- LoginHandlers.RedirectToProvider: leaves out those expiries too, and the authorization parameters named above.
- LoginHandlers.HandleUnauthorized: models the call from the callback, whose destination is never empty; what the same
  function does on a page is the page hop of ChallengeRedirects.
- Jwks.JwksHandler.ParseJwtWithRetry: models one call without interference; interleavings of the key cache itself are
  the subject of JwksProtocol.
- The ParseMatchers helper of rule trees, which the compiler does not call.
