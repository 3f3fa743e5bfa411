# KIS Auth: a verified model

KIS Auth is an OAuth / OpenID Connect authorization server. A client sends a browser to `/authorize`; the
browser signs in at Google or at an enterprise partner's identity provider and comes back with a single-use
code (or, for a new user, a registration ticket); the client's backend exchanges that over a signed
server-to-server call for a token. State lives in Redis keys with a time to live, in one Postgres table under
two unique constraints, and in one in-process map of used nonces.

`dafny verify dfyconfig.toml` checks everything.

## How the model is built

**The protocol as interleaved steps.** Module `Protocol` is a state machine. A request handler is a program
counter with its local variables; one step is one Redis or Postgres command with its reply and the code up to the
next command. Any number of handlers run at once, and between two steps anything else may happen: other handlers
move, a handler fails where it is, the clock advances, the client registry changes, identities are revoked or
restored. `IsRun` says what a run is: any sequence of such actions from an empty Redis. A ghost history records who
approved, logged in, issued, redeemed and minted what, and when; no step reads it. `ProtocolInvariant` states what
holds in every state, and `ProtocolChanges`, `ProtocolSteps`, `ProtocolOutcomes`, `ProtocolPast` and `ProtocolRuns`
prove it step by step up to `RunInv`. The results are in `ProtocolTraces`, `ProtocolTheorems` (tokens),
`ProtocolGuards` (challenges, link tickets, tenants, the identity table), `ProtocolStatus` (revocation) and
`ProtocolExhaustion`, `ProtocolContinuations` and `ProtocolRisk` (one outcome per session). `ProtocolScenes` builds
runs one action at a time; `ProtocolWitness` and `ProtocolRaces` use it for the runs that show a result is about
something, or that a promise fails.

**The services as methods.** `RedisKeyspace`, `IdentityTable`, `Stores`, `RateLimiting`, `LinkTickets`,
`InternalSigning`, `OidcCaches` have the classes the source has, with the fields its methods update, each method
proved against a specification function. `Services` and `Controllers` are the outcome service and the
controllers as methods over those classes: each is proved to end, when nothing interrupts it, exactly in the
state its handler reaches in `Protocol` when it moves alone (`Reaches`), so the imperative code and the state
machine cannot drift apart. `ServiceSteps` has the effect of every step.

**What each request has to come to.** `Requirements` says it a second time, by the fields of the request, the
stored records, the rows and literal names alone. Nothing is computed from these predicates: the methods of
`Services` and `Controllers` are proved against them, and the theorems about runs use the same ones.

**Canonical text, signatures and time.** `CanonicalJson` and `CanonicalProofs`: the canonical printer under
request signing and its exact equivalence. `CanonicalReader`: a reader that accepts exactly what is printed. `SigningTheorems` and `ReplayTheorems`: what a signature covers and
how often it can be accepted. `RateLimiting` and `LinkTickets` also hold the theorems about their traces;
`AdmissionRates` carries the rate bound over to what the guards of the endpoints admit.
`TenantKey`, `Registry`, `RedisKeys`, `Page`: tenant subjects, client guards, key texts, HTML escaping.

## What is assumed

- The application and Redis share one clock, which never goes back. A key is live while the time is before its
  expiry; expiries and the clock are milliseconds. (Redis itself still answers for a key during the millisecond of its
  expiry; the instants at which a lapsed key is found gone would then be one millisecond later.)
- A command that fails ends its handler (`Fail`). One that ran in Redis or Postgres while its reply was lost is that
  step followed by `Fail`.
- Random ids (sessions, codes, tickets, challenges, verifiers, row uuids) are fresh: a step never draws an id
  drawn before. They are numbers; `RedisKeys` gives their keys a text through any injective printing.
- Hash and MAC do not collide on the two messages a lemma compares (`SigningTheorems.NoCollision`); JavaScript's
  `Number` and decimal printing are parameters, as are base64url and JSON decoding of link tickets.
- `kisUserId` is in canonical uuid text: the column is a uuid while the code compares strings. A link ticket's
  `exp` and the configured times to live are whole seconds, the latter at least one (Redis refuses less).
- Identity rows are never deleted, and only their `status` is changed from outside.
- What an identity provider vouches for, and whether a network call succeeds, is chosen freely at each step.
- Requests that the rate limiter or the signature check refuses take no protocol step; `Controllers` has those
  guards. A missing query parameter or body field is the empty string, as it is for the source's checks.
- Object keys in JSON are distinct, as in any JavaScript object; HTTP method names are ASCII; header values and
  paths hold no line break.

## Where the code does less, or other, than its comments and tests say

- `internal-signing.ts` speaks of a nonce replay cache. An entry lives for one skew while the timestamp window is two
  skews wide, so the same signed headers are accepted up to three times with one clock reading per call. A second
  acceptance is possible exactly when the first happened no later than the second the timestamp names
  (`ReplayTheorems.RepeatableExactly`).
- `link-ticket.ts` says a ticket can never be consumed twice. A claim wins exactly when every claim that won before
  it has lapsed (`LinkTickets.ClaimWinsExactlyWhenLapsed`), which takes a verification that read the clock before the
  expiry and was delayed past it. For every expiry this happens (`LinkTickets.AcceptedTwice`), and one ticket then
  opens two link sessions (`ProtocolRaces.TicketOpensTwoSessions`).
- `oauth-session.store.ts` says `update` works in place. It brings back a session deleted meanwhile, and then one
  session can be answered for twice (`ProtocolWitness.RevivedIsAnsweredTwice`). Every second outcome comes after such
  a write or after a callback that got past its read before another, already past its own, deleted the session
  (`ProtocolExhaustion.SecondOutcomeNeedsOverlap`). In a given state a second outcome is still possible exactly when
  the session is live, a start holds a copy to write back, or the answers given and the callbacks in flight that can
  still answer are two together (`ProtocolRisk.SecondOutcomeExactly`). A callback in flight cannot answer when its
  challenge expired before it was confirmed, or when the configuration allows no attempt.
- `rate-limit.ts` says about twice the limit can pass around a window's end. The exact bound for `n` windows is
  `(n + 1) * limit - 1`, for every limit, window and `n` (`RateLimiting.RateBound`, `RateLimiting.RateBoundIsReached`),
  and bounds what the endpoints admit per address and per client (`AdmissionRates.AddressBound`, `ClientBound`).
- `identity.service.ts` reserves `already_linked` for real conflicts. A call whose own triple is a row when it answers
  gets it too, exactly when it made its SELECT before that row was there (`ProtocolGuards.RepeatIsRefusedExactly`),
  and two concurrent calls for one triple do so (`ProtocolRaces.RepeatIsRefused`).
- A test title in `app-security-hardening.spec.ts` says a revoked identity cannot complete the callback. It can: a run
  in which the identity is revoked throughout ends its callback with a code (`ProtocolWitness.RevokedSignInGetsACode`),
  and every run does the same whatever the statuses are, up to the exchange (`ProtocolStatus.RunIgnoresStatus`). Only
  the exchange looks, and goes on to a token exactly when the row is active (`ProtocolStatus.OnlyTheExchangeLooks`).
- The tenant configuration a partner slug resolves to carries its own slug, which the code never compares with the
  one asked for (`OidcCaches.SlugIsNotCompared`).

## Model

| member | source | states |
|---|---|---|
| ProtocolRuns.RunInv | src/oauth/oauth-outcome.service.ts:45-324 | the invariant behind everything below (what each session, login, row, challenge, code, ticket, token, Redis entry and handler is) holds in every state of every interleaved run |
| ProtocolTheorems.TokenProvenance | src/exchange/exchange.controller.ts:95-166 | every authorization token of every run goes back to one code, one login with that session's nonce and a verifier drawn for it, one session and one earlier `/authorize` at which the client was registered and active, with exactly this redirect target and this purpose among those allowed; audience, purpose and redirect target are that request's; the identity row, keyed by "google" and the verified sub or "oidc" and slug:sub, was active and the subject's own, with the token's e-mail, when the exchange read it; and each of these events happened, in this order, at the step of the run it names |
| ProtocolTheorems.RegistrationTokenProvenance | src/exchange/registration-exchange.controller.ts:87-138 | every registration token of every run goes back in the same way to one ticket, one login, one session and one earlier `/authorize` for a registration; its provider ("google" or "oidc"), subject, e-mail, e-mail verification and partner are the login's, its audience and redirect target the request's; and each of these events happened, in this order, at the step it names |
| ProtocolTheorems.OneTokenPerCode | src/redis/challenge-store.ts:67-74 | whatever the interleaving of its redeemers, a code becomes at most one token, and so does a registration ticket |
| ProtocolTheorems.SpentForGood | src/redis/challenge-store.ts:146-184 | a code or registration ticket whose redemption ended without a token, by refusal or failure, never becomes one and is never in Redis again |
| ProtocolTheorems.RedemptionOutcome | src/exchange/exchange.controller.ts:91-122 | a redeemer gets the payload exactly when the code is live, no field is missing and client and redirect target are the code's; a live code is its redeemer's either way |
| ProtocolTheorems.MismatchSpendsCode | src/exchange/exchange.controller.ts:108-122 | a redemption naming the wrong client or redirect target spends the code: no concurrent or later call gets a token for it |
| ProtocolTheorems.MismatchSpendsTicket | src/exchange/registration-exchange.controller.ts:87-113 | a live registration ticket goes to the call that consumes it; one naming the wrong client or redirect target spends it, and no concurrent or later call gets a token for it |
| ProtocolTheorems.RevocationSpendsCode | src/exchange/exchange.controller.ts:124-144 | a redemption that finds the identity revoked spends the code for good |
| ProtocolTheorems.LiveCodeNamesItsOwner | src/oauth/oauth-outcome.service.ts:249-313 | in every reachable state a live code names a row that is there and belongs to the user it was issued for |
| ProtocolTheorems.OnlyRevocationRejects | src/exchange/exchange.controller.ts:124-144 | not-found and owner-mismatch cannot happen at the exchange: it goes on exactly when the row is active |
| ProtocolWitness.SignInEndsInAToken | src/oauth/oauth-outcome.service.ts:205-323 | for every configuration that allows an attempt, a run in which a returning user's sign-in ends in a token for that user and client |
| ProtocolWitness.RevokedSignInGetsACode | src/app-security-hardening.spec.ts:428-470 | a run in which the identity is revoked in every state, its callback answers with a code, and the exchange of that code ends without a token |
| ProtocolStatus.StepIgnoresStatus | src/oauth/oauth-outcome.service.ts:45-323 | every step but the exchange's identity read takes two worlds that differ only in row statuses to worlds that differ only in row statuses: same handlers, sessions, challenges, codes, tickets, answers and Redis |
| ProtocolStatus.RunIgnoresStatus | src/oauth/oauth-outcome.service.ts:205-278 | take any run in which no exchange reads a row and any other statuses, changed at any other moments: the same requests take the same steps, so the same codes are issued |
| ProtocolStatus.OnlyTheExchangeLooks | src/exchange/exchange.controller.ts:124-144 | at any step of any run, under any statuses: the same result, unless it is the exchange's identity read, which goes on to a token exactly when the row is active |
| ProtocolTraces.ApprovalIsReal | src/oauth/oauth.controller.ts:94-114 | each recorded approval was given at its step to a request whose client was then registered and active, with its redirect target and its purpose among those allowed |
| ProtocolTraces.SessionIsReal | src/oauth/oauth.controller.ts:143-152 | each recorded session was stored, with these contents, at its step by the authorize handler that drew its id |
| ProtocolTraces.LoginIsReal | src/oauth/oauth.controller.ts:257-264 | each recorded login was vouched for at its step, with the session's own verifier and nonce |
| ProtocolTraces.CodeIsReal | src/oauth/oauth-outcome.service.ts:304-313 | each recorded code was issued at its step, for its owner's own challenge |
| ProtocolTraces.TicketIsReal | src/oauth/oauth-outcome.service.ts:160-200 | each recorded registration ticket was issued at its step, for its owner's own verified visit: provider name, subject and e-mail are what the provider vouched for, client and redirect target the session's |
| ProtocolTraces.TokenIsReal | src/exchange/exchange.controller.ts:146-156 | each recorded token was signed at its step by the handler that redeemed it |
| ProtocolTraces.SignerIsReal | src/exchange/exchange.controller.ts:124-144 | whoever is about to sign found the row active, with this owner and e-mail, at the step it says |
| ProtocolTraces.RowsOfRun | src/identity/identity.service.ts:39-104 | no row ever disappears or changes its id, key or owner |
| ProtocolTraces.StatusChangesOutside | src/identity/identity.service.ts:63-72 | no link, callback or exchange alters a row's status |
| ProtocolGuards.OneCodePerChallenge | src/oauth/oauth-outcome.service.ts:289-313 | each challenge becomes at most one code in every interleaving |
| ProtocolGuards.ChallengeIsPrivate | src/oauth/oauth-outcome.service.ts:249-287 | two handlers confirming the same challenge are one handler |
| ProtocolGuards.ConfirmFailsOnlyByExpiry | src/oauth/oauth-outcome.service.ts:296-302 | the confirm checks pass exactly when the challenge has not expired and the configured attempts are at least one |
| ProtocolGuards.TicketClaimedOnce | src/security/link-ticket.ts:75-86 | two claims of one link ticket, both made before it expires, are one claim, in any interleaving |
| ProtocolGuards.TicketOpensOneSession | src/oauth/oauth.controller.ts:120-152 | a link session is bound to its ticket's user, and a ticket claimed in time opens at most one |
| ProtocolRaces.TicketOpensTwoSessions | src/security/link-ticket.ts:75-88 | for every expiry, a run in which one ticket opens two link sessions for its user, the second claim made as the first has lapsed |
| ProtocolGuards.CallbackRowsBelongToTheTicket | src/oauth/oauth-outcome.service.ts:54-68 | a row inserted by a callback belongs to the user of the ticket claimed before its session was made, and is kept under the provider name and subject verified for that session |
| ProtocolGuards.LinkWritesTheLogin | src/oauth/oauth-outcome.service.ts:54-68 | in every run, the UPDATE or INSERT by which a callback is answered `ok` leaves a row with the verified identity's key and e-mail columns and the ticket's user, keeps the status it had or makes it active, and changes no other row |
| ProtocolGuards.LoginServesItsTenant | src/oauth/oidc-enterprise.controller.ts:220-228 | an enterprise login happens only on a session that `/authorize` created for that same, well-formed slug |
| ProtocolGuards.SameKeySameTenant | src/oauth/oidc-enterprise.controller.ts:300-307 | two logins kept under one provider and subject came over one route with one raw sub |
| ProtocolGuards.TenantsShareNoIdentity | src/oauth/oidc-enterprise.controller.ts:309-345 | callbacks that read or link one identity row belong to one tenant, even when raw subs are equal |
| ProtocolGuards.TenantsShareNoTicket | src/oauth/oidc-enterprise.controller.ts:323-335 | a registration ticket for an identity and any login with its key come from one tenant |
| ProtocolGuards.PathsShareNoId | src/redis/challenge-store.ts:161-184 | no id is both a code and a registration ticket, redeemed or stored |
| ProtocolGuards.TokensKeepToTheirPath | src/exchange/registration-exchange.controller.ts:87-129 | authorization tokens name a user and are not for registration; registration tokens name none, carry the identity of a verified login with its e-mail, and are for enterprise registration exactly when a partner is named |
| ProtocolGuards.TableIsUnique | src/db/migrations/001_init.sql:21-25 | (provider, subject) to user is a partial injection in every state, whatever SELECTs and INSERTs race |
| ProtocolGuards.LinkAnswersAreTrue | src/identity/identity.service.ts:61-103 | an `ok` means a row with exactly this triple is there, now and later; `already_linked` means one with its key or its user is |
| ProtocolGuards.LaterLinkIsLinked | src/identity/identity.service.ts:61-73 | once a triple is a row, every call that makes its SELECT later and answers, answers `ok` with that row's id |
| ProtocolGuards.RacingInsert | src/identity/identity.service.ts:75-103 | after a SELECT that found nothing, the INSERT succeeds exactly when no row has its key or its user |
| ProtocolGuards.RepeatIsRefusedExactly | src/identity/identity.service.ts:61-103 | over a whole call: when its own triple is a row as it answers, it is answered `already_linked` exactly if that row was not there at its SELECT, and otherwise `ok` with that row's id |
| ProtocolRaces.RepeatIsRefused | src/identity/identity.service.ts:75-103 | a run of two concurrent links of one triple in which the second is answered `already_linked` while its own triple is a row |
| ProtocolExhaustion.SessionIsUsedUp | src/oauth/oauth.controller.ts:200-329 | unless a start brings it back or one callback overtakes another, a session is either waiting and unanswered, or deleted with at most one outcome, and at most one callback may still answer |
| ProtocolExhaustion.SecondOutcomeNeedsOverlap | src/oauth/oidc-enterprise.controller.ts:175-345 | in every run, two outcomes of one session come after a start that wrote the closed session back, or after a callback that got past its read while another, past its own, had not deleted the session yet |
| ProtocolExhaustion.ClosedSessionIsRefused | src/oauth/oauth.controller.ts:207-255 | after it is closed, and until a start brings it back, every start and callback with its cookie is refused and changes nothing |
| ProtocolContinuations.RiskIsReal | src/oauth/oauth-session.store.ts:58-66 | from every reachable state in which the session is live, a start holds a copy of it, or answers given and callbacks that can still answer make two, there is a continuation with two outcomes |
| ProtocolRisk.SecondOutcomeExactly | src/oauth/oauth.controller.ts:200-329 | a run can be continued to a second outcome of a session if and only if its last state is of that kind |
| ProtocolWitness.RevivedIsAnsweredTwice | src/oauth/oauth-session.store.ts:58-66 | a run in which a start writes back a session that a cancelled callback has closed and answered, and it is answered again |
| TenantKey.CompositeIsInjective | src/oauth/oidc-identity-key.ts:23-25 | well-formed slugs and raw subs are recovered from "slug:sub": tenants never share a subject |
| TenantKey.SplitOfComposite | src/oauth/oidc-identity-key.ts:23-25 | splitting at the first colon undoes the composition for colon-free slugs |
| RedisKeys.KeyTextIsInjective | src/redis/challenge-store.ts:7-9 | the six key families never share a key, whatever text a caller supplies |
| RedisKeyspace.RedisServer.SetNx | src/security/link-ticket.ts:77-86 | SET NX EX: claims a key that is not live and does nothing to one that is |
| RedisKeyspace.RedisServer.EvalConsume | src/redis/challenge-store.ts:67-73 | the consume script: the live value, and the key gone with it |
| RedisKeyspace.RedisServer.EvalIncr | src/security/rate-limit.ts:12-18 | the counting script: the next count, the expiry set only by the first |
| RedisKeyspace.RedisServer.Ttl | src/oauth/oauth-session.store.ts:59-59 | remaining seconds to the nearest second, -1 for a key without expiry and -2 for one that is missing or expired |
| IdentityTable.IdentityService.FindByProviderSubject | src/identity/identity.service.ts:21-32 | the one row with this key, or none exists |
| IdentityTable.IdentityService.FindById | src/identity/identity.service.ts:106-114 | a row found by its id is the one its own (provider, subject) finds, and the only one with that key or that user; none exactly when the id is not there |
| IdentityTable.IdentityService.Link | src/identity/identity.service.ts:39-104 | `ok` exactly when the triple is a row or neither its key nor its user is taken; the row then has the triple, the new e-mail columns and its old status or Active; a refusal and every other row change nothing; the constraints stay |
| IdentityTable.LinkAloneComesTo | src/identity/identity.service.ts:39-104 | the same of the specification the protocol's steps add up to |
| IdentityTable.FindByKeyIs | src/db/migrations/001_init.sql:22-22 | under the constraints a SELECT by key has one answer |
| Stores.ChallengeStore.IncrementAttempts | src/redis/challenge-store.ts:100-110 | the record with one more attempt, rewritten with the remaining seconds; nothing and null if it is gone at either read |
| Stores.ChallengeStore.MarkChallengeUsed | src/redis/challenge-store.ts:112-121 | the record marked used in the same way |
| Stores.ChallengeStore.DeleteChallenge | src/redis/challenge-store.ts:123-125 | the challenge is gone and every other key stays as it was |
| Stores.OAuthSessionStore.Update | src/oauth/oauth-session.store.ts:58-66 | rewritten with its remaining seconds, or for ten minutes if it was not there |
| Stores.RewriteDrift | src/redis/challenge-store.ts:106-108 | a rewrite moves an expiry by at most half a second plus the time between its two commands |
| Stores.IssueThenConsume | src/redis/challenge-store.ts:129-155 | what was issued is consumed once, in time, and not at all later |
| Stores.UpdateRevives | src/oauth/oauth-session.store.ts:58-66 | an update of a missing session makes it live again |
| Services.OAuthOutcomeService.FinalizeLink | src/oauth/oauth-outcome.service.ts:45-120 | a taken key or user costs the session and changes no row; otherwise the row is the verified identity's, with its e-mail columns and the ticket's user, and a code for that row and user is stored, its challenge used; ends where the protocol's handler ends |
| Services.OAuthOutcomeService.FinalizeRegistration | src/oauth/oauth-outcome.service.ts:129-200 | an error redirect for a known identity; else a ticket is stored that carries the provider name, subject, e-mail and verification of the identity, the session's client and redirect target, and the route's purpose; ends where the protocol's handler ends |
| Services.OAuthOutcomeService.FinalizeReturningUser | src/oauth/oauth-outcome.service.ts:205-278 | an error redirect without an identity, else a stored code for the row's user with its used challenge; ends where the protocol's handler ends |
| Services.OAuthOutcomeService.ConfirmAndRedirect | src/oauth/oauth-outcome.service.ts:289-323 | a code exactly for a live, unused challenge with a user, a row and an attempt left: its payload is stored and the challenge marked used; else a refusal that changes nothing; ends where the protocol's handler ends |
| Services.Backend.LinkIdentity | src/identity/identity.service.ts:39-104 | the service's link and the protocol's SELECT, UPDATE or INSERT steps agree on answer and table |
| Services.Backend.MarkUsed | src/redis/challenge-store.ts:112-121 | the store's rewrite and the protocol's three steps agree |
| Services.Backend.ConsumeCode | src/exchange/exchange.controller.ts:91-122 | the payload exactly for a live code of this client and redirect target; the code is gone in any case |
| Services.Backend.FindActive | src/exchange/exchange.controller.ts:124-144 | the row exactly when it is there, active and the payload's user's |
| Services.Backend.ReadForStart | src/oauth/oidc-enterprise.controller.ts:116-125 | the session exactly when it is live and was created for this partner |
| Services.Backend.ReadForCallback | src/oauth/oidc-enterprise.controller.ts:183-228 | the session exactly when it is live, for this partner, the state is its own, and there is an error to report or a code with a stored verifier |
| Controllers.OAuthController.Authorize | src/oauth/oauth.controller.ts:77-167 | a session exactly when the client is registered and active with this redirect target and purpose, the state is there, the slug is well formed, and a link's ticket is unexpired and unclaimed; the stored session holds the request for ten minutes, and a link's ticket is claimed until it expires; a refusal changes nothing |
| Controllers.OAuthController.Start | src/oauth/oauth.controller.ts:170-197 | goes to the provider exactly when the session is there, for this partner, and its configuration resolves, with the session's state and nonce and the new verifier, which is then in the session, its time to live kept to half a second or started anew |
| Controllers.OAuthController.Callback | src/oauth/oauth.controller.ts:200-329 | a request without a matching session and state changes nothing; an error, or a partner that does not resolve, costs the session; what follows is `Identified`; one recorded outcome per reply; ends where the protocol's handler ends |
| Controllers.OAuthController.Identified | src/oauth/oidc-enterprise.controller.ts:255-345 | by the rows alone: a returning user gets a code exactly if a row is kept under "google" and the sub, or "oidc" and slug:sub, and an error otherwise; a registration a ticket exactly if none is; a link its row or an error; ends where the protocol's handler ends |
| Controllers.Guard.Admit | src/exchange/exchange.controller.ts:45-89 | for two scopes, admitted if and only if the address's live count plus one is within its limit, so is a named client's, and the signature is accepted; the counters counted and nothing else change, and only an admitted call spends its nonce |
| AdmissionRates.AddressBound | src/exchange/exchange.controller.ts:45-89 | in any interval of n windows at most (n + 1) * limit - 1 calls of one address are admitted, whatever else is asked, refused or done to other keys |
| AdmissionRates.ClientBound | src/exchange/exchange.controller.ts:54-64 | the same of the calls in one client's name, from however many addresses |
| Controllers.ExchangeController.Exchange | src/exchange/exchange.controller.ts:34-166 | the whole endpoint with its limits of 60 per address and 120 per client a minute: which refusal, which claims, and that only an admitted, complete request touches the code |
| Controllers.ExchangeController.Redeem | src/exchange/exchange.controller.ts:95-166 | a live code is spent by whoever presents it, and worth exactly the claims of its row to its own client and redirect target while the row is active and its user's; the protocol records a token with these claims |
| Controllers.RegistrationExchangeController.Exchange | src/exchange/registration-exchange.controller.ts:37-139 | the whole endpoint for registration tickets, with its limits of 30 per address and 60 per client a minute |
| Controllers.RegistrationExchangeController.Redeem | src/exchange/registration-exchange.controller.ts:87-138 | a live ticket is spent by whoever presents it, and worth its provider, subject, e-mail and partner to its own client and redirect target; the protocol records a token with these claims |
| Controllers.IdentityLinkController.Link | src/exchange/identity-link.controller.ts:36-91 | signature, fields, then the link: made or refused as the rows demand, with the protocol's answer |
| ServiceSteps.EndIsUnique | src/oauth/oauth-outcome.service.ts:45-323 | where a handler ends when it moves alone is one state, so `Reaches` with a finished handler fixes the whole state a service leaves |
| CanonicalProofs.PrintIsCanonical | src/security/internal-signing.ts:23-48 | two JSON values print the same exactly when they are equal up to key order, undefined entries, undefined for null, and `[null]` for `[]`, at any depth |
| CanonicalProofs.PrintDetermines | src/security/internal-signing.ts:23-48 | a printed value can be told from whatever follows it, up to that equivalence |
| CanonicalProofs.EquivPrints | src/security/internal-signing.ts:37-46 | equivalent values print the same |
| CanonicalProofs.QuoteDetermines | src/security/internal-signing.ts:37-37 | a quoted string, escapes and surrogates included, determines the string and where it ends |
| CanonicalProofs.SortedKeysAreUnique | src/security/internal-signing.ts:42-44 | the sorted list of defined keys depends only on which keys are defined |
| CanonicalProofs.KeysAscend | src/security/internal-signing.ts:41-45 | of any two printed keys, the earlier has the lower code unit at the first place where they differ, or is a prefix of the later |
| CanonicalReader.PrintReads | src/security/internal-signing.ts:23-48 | a JSON reader written without the printer reads every printed value back, up to the equivalence, and stops where it ends |
| CanonicalReader.ValueWritten | src/security/internal-signing.ts:23-48 | whatever that reader accepts is, to the letter, what the printer prints for the value it reads |
| CanonicalReader.ReaderIsExact | src/security/internal-signing.ts:23-48 | so a text is some value's canonical text if and only if the reader takes all of it |
| InternalSigning.Verifier.Verify | src/security/internal-signing.ts:118-171 | the first check that fails answers: headers, number, window of the skew (at least thirty seconds) either way, live nonce, MAC of the five lines; the nonce is kept for one skew exactly on acceptance, and expired entries go |
| InternalSigning.Verifier.Prune | src/security/internal-signing.ts:146-149 | deleting while iterating leaves exactly the unexpired entries |
| InternalSigning.SignedHeaders | src/security/internal-signing.ts:93-114 | the signer sends the whole seconds, the nonce, and the MAC of verb in capitals, path, timestamp, nonce and body hash, one to a line |
| SigningTheorems.JoinLinesIsInjective | src/security/internal-signing.ts:80-86 | newline-free fields are recovered from their join |
| SigningTheorems.PayloadDetermines | src/security/internal-signing.ts:73-87 | the payload determines verb up to case, path, timestamp, nonce and body hash |
| SigningTheorems.SignatureCovers | src/security/internal-signing.ts:93-114 | signed headers match a request exactly when secret, verb up to case, path, and body up to the canonical equivalence agree |
| SigningTheorems.VerifierAcceptsSigned | src/security/internal-signing.ts:118-171 | the verifier accepts what the signer made exactly when all of that agrees, the timestamp is in the window and the nonce is not live |
| ReplayTheorems.CacheRefinesLog | src/security/internal-signing.ts:146-152 | the pruned cache answers every call of every sequence as an unbounded log of acceptances does |
| ReplayTheorems.RejectedCallsLeaveNoTrace | src/security/internal-signing.ts:131-170 | leaving out a rejected call changes no other answer |
| ReplayTheorems.AcceptancesAreApart | src/security/internal-signing.ts:150-169 | two acceptances of one nonce are at least a full skew apart |
| ReplayTheorems.NeverFourTimes | src/security/internal-signing.ts:137-169 | with one clock reading per call the same signed headers are accepted at most three times over any sequence of calls |
| ReplayTheorems.NeverFiveTimes | src/security/internal-signing.ts:141-169 | whatever passes between a call's two readings, at most four times |
| ReplayTheorems.ThreeTimesHappens | src/security/internal-signing.ts:137-169 | three acceptances of one request, at the start, middle and end of its window |
| ReplayTheorems.LateIsAcceptedOnce | src/security/internal-signing.ts:141-169 | accepted after the second its timestamp names, a request is never accepted again |
| ReplayTheorems.RepeatableExactly | src/security/internal-signing.ts:141-169 | a second acceptance is possible if and only if the first was no later than that second |
| RateLimiting.RateLimiter.Check | src/security/rate-limit.ts:39-53 | the count after this request and whether it is within the limit; the counter goes up by one, and its window starts with its first count |
| RateLimiting.RateBound | src/security/rate-limit.ts:27-53 | in any interval of n windows at most (n + 1) * limit - 1 requests are allowed, whatever else is checked, denied or done to other keys |
| RateLimiting.RateBoundIsReached | src/security/rate-limit.ts:30-38 | for every limit, window and n of at least one there is a trace in which exactly that many requests are allowed in n windows |
| RateLimiting.EveryCounterExpires | src/security/rate-limit.ts:6-18 | every counter has an expiry at most one window away |
| RateLimiting.ChecksNeverExtendTheWindow | src/security/rate-limit.ts:14-16 | checking a live counter, allowed or denied, leaves its expiry |
| RateLimiting.ZeroAllowsNothing | src/security/rate-limit.ts:52-52 | a limit of zero allows nothing |
| LinkTickets.LinkTicketService.VerifyAndConsume | src/security/link-ticket.ts:45-89 | format, signature, content, expiry and claim, in this order, with the reason of each refusal; the claim lasts as many seconds as the ticket had left when it was read |
| LinkTickets.ReadIs | src/security/link-ticket.ts:45-73 | a ticket reads as a payload exactly if it is two dotless parts around a dot, the second the MAC of the first, which decodes to it; a bad signature is exactly a MAC that differs |
| LinkTickets.MintedIsRead | src/security/link-ticket.ts:32-73 | a minted ticket reads back under its secret and is a bad signature under another |
| LinkTickets.ClaimIsHeld | src/security/link-ticket.ts:78-86 | a claimed nonce is held at least until the ticket expires |
| LinkTickets.AcceptedOnce | src/security/link-ticket.ts:40-44 | under any concurrent verifications, with every claim made before the ticket expires, it is accepted at most once |
| LinkTickets.AcceptedTwiceOnlyLate | src/security/link-ticket.ts:75-86 | a second acceptance needs a claim made after the first lapsed, hence after the ticket expired |
| LinkTickets.ClaimWinsExactlyWhenLapsed | src/security/link-ticket.ts:75-86 | over any trace of overlapping verifications, a claim wins if and only if every claim that won before it has lapsed |
| LinkTickets.AcceptedTwice | src/security/link-ticket.ts:75-86 | for every expiry, two verifications that both read the clock before it and are both accepted |
| OidcCaches.OidcProviderResolver.Look | src/oauth/oidc-provider-resolver.service.ts:58-67 | an answer without a request is the configuration fetched last for this slug, less than a minute ago, or unavailable without a configured URL |
| OidcCaches.OidcProviderResolver.Settle | src/oauth/oidc-provider-resolver.service.ts:77-137 | a response is answered and stored for a minute exactly if it is a success with all six texts, provider "oidc" unless given; each failure has its reason and changes nothing |
| OidcCaches.OidcDiscovery.Look | src/oauth/oidc-discovery.service.ts:32-36 | an answer without a request is the document fetched last for this URL, less than five minutes ago |
| OidcCaches.OidcDiscovery.Settle | src/oauth/oidc-discovery.service.ts:38-77 | a response is answered and stored for five minutes exactly if it is a success with all three endpoints; each failure has its error and changes nothing |
| OidcCaches.BoundedStaleness | src/oauth/oidc-provider-resolver.service.ts:58-137 | with any overlap of lookups, a hit is the last complete answer fetched for the key, and there is one exactly while that is younger than the time to live |
| OidcCaches.CacheHoldsLatest | src/oauth/oidc-discovery.service.ts:32-77 | the cache holds the last complete answer of every key and nothing else |
| OidcCaches.SlugIsNotCompared | src/oauth/oidc-provider-resolver.service.ts:107-137 | for any two slugs, a complete configuration that names one is kept and answered for the other |
| Page.FivePassesAreOne | src/web/page.ts:34-41 | the five successive replacements are one left-to-right substitution |
| Page.EscapeIsSafeAndReversible | src/web/page.ts:34-41 | escaped text has no raw angle bracket or quote and decodes to the original |
| Page.EscapeIsInjective | src/web/page.ts:34-41 | different texts are shown differently |

## Left out

- The HTTP framework, bootstrap, health checks, cookies, redirect URLs and page copy: a cookie is a session id, a
  redirect target an opaque string.
- RSA, JWKS, PKCE challenges, token exchange with the providers: the model has the verifier a login used, the nonce
  it was checked against, and an identity the provider vouched for.
- Security events and logging; the client registry's `register` (the registry may change to anything at any time).
- `pathWithQuery`: the path is what it returns, in the signer and the verifier alike.
- `stableStringify` on buffers, on a top-level string (which it parses first), and on NaN, infinities, -0, dates and
  functions: outside the JSON values the theorem is about.
- Tenant configuration and discovery are one step of the protocol that succeeds or fails; their caches are in
  `OidcCaches`, not shared with the protocol's state.
- Rate counters are in the same keyspace but no protocol step changes them; the limiter and its traces stand alone.
- A link ticket with a fractional `exp`, for which Redis would refuse the SET.
- `oauth-outcome.service.ts` and the controllers under interleaving are step functions on values in `Protocol`; the
  methods in `Services` and `Controllers` are whole calls during which the clock stands still and no other request moves.
