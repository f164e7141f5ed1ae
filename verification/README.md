# Verified models of the boilerplate's stateful core

Dafny models of the parts of this repository where state, concurrency or rewriting is hardest to get
right, with proofs over every run, every interleaving or every input. `dafny verify dfyconfig.toml`
checks all of it.

| files | what they model |
|---|---|
| `Wrappers`, `Tiers`, `Tokens` | options and results, subscription tiers, bearer tokens and the compound session key |
| `SessionStore`, `TokenStoreService`, `TimedStore` | the Redis session store: three linked structures without expiry, the service that updates them, and the same structures with deadlines |
| `AuthTokens`, `SessionRefresh` | issuing and validating the four tokens of a session; refresh rotation among concurrent requests |
| `EmailOtp`, `Credentials` | one-time codes and their counter; failed-login lockout, password change, undo and reset |
| `Billing`, `BillingRuns`, `BillingRows`, `BillingService`, `BillingOutcomes`, `InvoiceRace`, `TierSync` | one user's subscription as a state machine of locked requests, Stripe calls and webhooks; what its runs keep; what each step leaves on the row and in the ledger; the handlers; what their answers are worth and when a retry recovers; the race for the first invoice; the tier in the user's sessions |
| `Comments` | comment threads under a check-then-create lock |
| `MessageKeys`, `Backfill`, `Router` | the message-tree validator, the resumable object backfill, and the request router in its two ports |

A service that changes state is a class. Its methods work step by step, and each is proved equal to a
function of the old state; what the service promises is then proved about those functions. Concurrency
is a machine whose steps are one committed transaction, one MULTI, one store call or one Stripe call.
Where a handler decides on a row it read earlier, that earlier row is a parameter of the step, so the
runs include every stale read. Digests, hashes and signed tokens are free constructors: equal exactly
when their inputs are.

Some promises turned out to hold only under a condition. The model then keeps the code as it is, shows
the failure and proves the exact condition:

- A write that reuses a compound key breaks the session indexes (`WriteKeepsIndexed`, `ReusedKeyBreaksIndexes`).
- Sliding a session does not slide its user's set, so a revoke-all can miss it (`ExtendKeepsCovered`, `SlidSessionSurvivesRevokeAll`).
- A session written between a revoke-all's listing and its MULTI survives it, and every later one (`MissedSessionStaysMissed`).
- A field update that comes after its session's revocation leaves a hash without owner (`UpdateKeepsIndexed`).
- A refresh token that resolves while another refresh holds it can be redeemed twice, and only then (`SessionRefresh.EachTokenIsRedeemedOnce`, `SharedLookupRedeemsTwice`); so can a reset or undo token that two transactions read before either commits (`Credentials.EachTokenIsRedeemedOnce`, `OverlappingRedemptionsBothWork`).
- A guess that reads a one-time code and its counter in two commands gets past five misses exactly when, in between, the counter was removed and fewer than five misses followed (`LateSplitGuessMatchesExactly`, `SplitPeekForgetsAttempts`); guesses that matched before the first consume all succeed (`MatchedGuessesAllSucceed`).
- Undoing a password change restores the hash its request read, which need not be the one it replaced (`UndoRestoresTheHashRead`, `OverlappingChangesUndoTooFar`).
- A webhook for a replaced subscription, a stale deletion, or a failed persist leaves a live subscription unrecorded (`OneLiveNeedsAdmissible`).
- A first subscribe on a row with an old subscription id ends with both subscriptions cancelled and still answers success; success means upgraded exactly when the row recorded none and Stripe replayed no dead one (`OccupiedRowLosesBoth`, `ChargedSubscribeUpgradesExactly`).
- Retrying after a lost persist does not always recover the charge: not after the charge's own invoice without a resolved tier, nor after an admin change to another paid tier (`RetryRecoversExactly`, `PaidInvoiceSpoilsRetry`, `AdminChangeSpoilsRetry`).
- A recorded retry key keeps every repetition from charging, but not from dropping a pending change (`RecordedKeyNeverCharges`, `RecordedKeyStillReleases`).
- A late delivery with a stale read books the old tier in the ledger (`FirstInvoiceConverges`, `StaleDeliveryBooksOldTier`).
- The message validator confuses dotted and empty keys (`DottedKeysCollide`), and a missing page crashes it instead of being reported (`Generate`).
- The backfill never ends on a table whose only row has an empty name (`EmptyNameNeverAdvances`).
- The two routers differ on dashboard and api look-alikes (`PortsAgree`, `PortsAgreeExactly`).

Two comments in `billing.service.ts` promise more than the code does. Lines 490-493 call the guard in
`persistUpgrade` unreachable under the lock, but a locked row that still holds an old subscription id
reaches it. Lines 275-277 call a retry under the same key safe after a failed persist, which it is only
under the condition of `RetryRecoversExactly`. The model follows the code.

## Model

| member | source | states |
|---|---|---|
| `SessionStore.WriteKeepsIndexed` | `nest-js-boilerplate/src/auth/token-store.service.ts:100-138` | A write keeps hash, user set and refresh entry describing the same sessions if and only if it overwrites no session of another user or id and takes no other key's session id |
| `SessionStore.WriteRefinesInsert` | `nest-js-boilerplate/src/auth/token-store.service.ts:100-138` | With a fresh key and id, the write is an insert into the plain map from session id to session, and adds one key to its user's set |
| `SessionStore.ReusedKeyBreaksIndexes` | `nest-js-boilerplate/src/auth/token-store.service.ts:73-87` | A key shared by two logins breaks the linkage: the first login's refresh id finds the second login's session |
| `SessionStore.RevokeRefinesRemove` | `nest-js-boilerplate/src/auth/token-store.service.ts:223-238` | Revoking a key removes exactly that session from the map, its user's set and the refresh index |
| `SessionStore.RevokeByRefreshRefinesRemove` | `nest-js-boilerplate/src/auth/token-store.service.ts:262-268` | Revoking through the refresh index removes exactly the session with that id |
| `SessionStore.MissedSessionStaysMissed` | `nest-js-boilerplate/src/auth/token-store.service.ts:356-375` | The MULTI of one revoke-all attempt leaves exactly the sessions written after its listing, and takes them out of the user's set, so later revoke-alls miss them too; the sets stay right if and only if there were none |
| `SessionStore.RevokeAllRefinesFilter` | `nest-js-boilerplate/src/auth/token-store.service.ts:356-375` | With no call in between, revoking all of a user's sessions filters the plain map by user and leaves none |
| `SessionStore.RewritePatchesExactly` | `nest-js-boilerplate/src/auth/token-store.service.ts:377-415` | A rewrite patches each live session of the user once and no other, in the map as in the hashes; the patch itself is RewriteSetsFields |
| `SessionStore.RewriteSetsFields` | `nest-js-boilerplate/src/auth/token-store.service.ts:377-415` | Field by field: each session of the user has the given values and tier, keeps every other field, user, id and count, and no other session changes |
| `SessionStore.UpdateSetsFields` | `nest-js-boilerplate/src/auth/token-store.service.ts:197-202` | Field by field: the one session has the given values and keeps all else; a missing hash then has these fields and nothing more |
| `SessionStore.IncrUnreadKeepsIndexed` | `nest-js-boilerplate/src/auth/token-store.service.ts:417-426` | Counting unread notifications adds the delta to each of the user's sessions and keeps all else: links, tiers, fields and other users' sessions |
| `SessionStore.UpdateKeepsIndexed` | `nest-js-boilerplate/src/auth/token-store.service.ts:197-202` | A narrow field update keeps the structures linked if and only if the session still exists; otherwise it leaves a hash without owner in nobody's set |
| `SessionStore.ReadAgreesWithIndexes` | `nest-js-boilerplate/src/auth/token-store.service.ts:140-195` | In a linked store a key that reads as a session is in its owner's set alone and is what its id finds; a key that reads as nothing is in no set and behind no id |
| `SessionStore.EveryRunIsIndexed` | `nest-js-boilerplate/src/auth/token-store.service.ts:100-426` | After every untimed run of store calls whose writes meet the write condition and whose narrow updates find their session, a user's set holds exactly that user's keys, and a refresh id leads to a key exactly when that key's session has the id |
| `Tiers.RankOrdersTiers` | `nest-js-boilerplate/src/authorization/tier-rank.ts:1-17` | The ranks order the tiers from FREE to PREMIUM |
| `Tokens.DaysAreWholeUtcDays` | `nest-js-boilerplate/src/auth/token-derivation.service.ts:16-18` | The date a digest is bound to is the UTC day, from midnight to midnight |
| `Tokens.BuildKeyIsInjective` | `nest-js-boilerplate/src/auth/token-store.service.ts:73-87` | The key has the user token as its fourth part exactly when it is not empty, and keys of either length never collide: equal keys mean equal tokens |
| `TokenStoreService.CountInIsExact` | `nest-js-boilerplate/src/auth/token-store.service.ts:393-410` | One page counts exactly its positions that hold a live key |
| `TokenStoreService.CountInAllCovers` | `nest-js-boilerplate/src/auth/token-store.service.ts:377-415` | However a scan repeats members, what it counts is at least the number of distinct live ones |
| `TokenStoreService.PatchKeysTwice` | `nest-js-boilerplate/src/auth/token-store.service.ts:400-410` | Patching a session again changes nothing, so overlapping scan pages equal one pass over their union |
| `TokenStoreService.RevokeAllTwice` | `nest-js-boilerplate/src/auth/token-store.service.ts:333-354` | Revoking all sessions again after a lost reply changes nothing and lists nothing |
| `TokenStoreService.TokenStore.Write` | `nest-js-boilerplate/src/auth/token-store.service.ts:100-138` | The method's three updates are the store's write |
| `TokenStoreService.TokenStore.UpdateFields` | `nest-js-boilerplate/src/auth/token-store.service.ts:197-202` | The method is one unconditional field update; what that does to each field is UpdateSetsFields |
| `TokenStoreService.TokenStore.Revoke` | `nest-js-boilerplate/src/auth/token-store.service.ts:223-238` | A missing hash changes nothing; otherwise hash, set member and refresh entry go together |
| `TokenStoreService.TokenStore.FindByRefreshSessionId` | `nest-js-boilerplate/src/auth/token-store.service.ts:240-260` | The session behind a refresh id, or none when either entry is missing |
| `TokenStoreService.TokenStore.RevokeByRefreshSessionId` | `nest-js-boilerplate/src/auth/token-store.service.ts:262-268` | Whether the id had an entry, and its session's removal |
| `TokenStoreService.TokenStore.ListSessionsWithKeys` | `nest-js-boilerplate/src/auth/token-store.service.ts:278-296` | Exactly the set members whose hash exists, each with that hash |
| `TokenStoreService.TokenStore.RevokeSessionBySessionId` | `nest-js-boilerplate/src/auth/token-store.service.ts:298-316` | True exactly when the user has a live session of that id, which alone is then revoked |
| `TokenStoreService.TokenStore.RevokeAllForUserOnce` | `nest-js-boilerplate/src/auth/token-store.service.ts:356-375` | One attempt under a given fault: the state changes unless it is lost before EXEC, and it answers only when clean |
| `TokenStoreService.TokenStore.RevokeAllForUser` | `nest-js-boilerplate/src/auth/token-store.service.ts:333-354` | Over three attempts under any faults: it returns normally exactly when an attempt is clean, and then no session of the user remains; its count is right exactly when no earlier attempt had removed the sessions and lost its reply |
| `TokenStoreService.TokenStore.RewriteFieldsForUser` | `nest-js-boilerplate/src/auth/token-store.service.ts:377-415` | For any scan pages that cover the set, in any order and with repeats, it ends in the one rewrite (RewriteSetsFields says what that does to each field), with a count of at least the live sessions |
| `TokenStoreService.TokenStore.IncrUnreadForUser` | `nest-js-boilerplate/src/auth/token-store.service.ts:417-426` | The unread counter of each session of the user moves by the delta, once |
| `TimedStore.StepErases` | `nest-js-boilerplate/src/auth/token-store.service.ts:100-415` | Forgetting deadlines, each timed call is the untimed one; sliding is no change at all |
| `TimedStore.OthersKeepDeadlines` | `nest-js-boilerplate/src/auth/token-store.service.ts:223-426` | Only writing and sliding move deadlines: what any other call leaves dies when it would have |
| `TimedStore.WriteStartsLifetime` | `nest-js-boilerplate/src/auth/token-store.service.ts:127-136` | A login lives one lifetime from now in all three places, and nothing else moves |
| `TimedStore.ExtendRestartsLifetime` | `nest-js-boilerplate/src/auth/token-store.service.ts:205-221` | A slide gives one session and its refresh entry one lifetime from now, and nothing else moves |
| `TimedStore.EveryRunSharesDeadlines` | `nest-js-boilerplate/src/auth/token-store.service.ts:205-233` | In every run, sliding included, a session with an id and its refresh entry have one deadline, so neither outlives the other |
| `TimedStore.EveryRunIsCovered` | `nest-js-boilerplate/src/auth/token-store.service.ts:127-136` | In every run without sliding, every live session is in its owner's set |
| `TimedStore.CoveredMeansListedForGood` | `nest-js-boilerplate/src/auth/token-store.service.ts:127-136` | Coverage by deadlines holds if and only if, however much time passes, every session still live is still in its owner's set |
| `TimedStore.ExtendKeepsCovered` | `nest-js-boilerplate/src/auth/token-store.service.ts:205-221` | Sliding keeps that coverage if and only if the owner's set lives as long as the new deadline |
| `TimedStore.SlidSessionSurvivesRevokeAll` | `nest-js-boilerplate/src/auth/token-store.service.ts:205-221` | A session slid after ten minutes is live and missed by a revoke-all six minutes later |
| `TimedStore.TimedTokenStore.Write` | `nest-js-boilerplate/src/auth/token-store.service.ts:127-136` | All three deadlines restart together |
| `TimedStore.TimedTokenStore.ExtendTTL` | `nest-js-boilerplate/src/auth/token-store.service.ts:205-221` | Session and refresh entry slide, the user's set does not |
| `TimedStore.TimedTokenStore.Revoke` | `nest-js-boilerplate/src/auth/token-store.service.ts:223-238` | The three removals, with the set's remaining deadline kept |
| `AuthTokens.AuthTokenService.IssueTokens` | `nest-js-boilerplate/src/auth/auth-token.service.ts:50-137` | The tokens it answers are the derived ones, and the session is stored under the compound key built from exactly these; what is stored is pinned by the next two rows |
| `AuthTokens.FreshTokensValidate` | `nest-js-boilerplate/src/auth/auth-token.service.ts:56-93` | What a login stores validates its own tokens, for every tier, exactly while the JWT is unexpired and the UTC day is the day of issue |
| `AuthTokens.FreshSessionIsFound` | `nest-js-boilerplate/src/auth/auth-token.service.ts:75-137` | The refresh id of a login finds a session with the user, id, tier, unread count and fields asked for |
| `AuthTokens.MissingTokensAreNamed` | `nest-js-boilerplate/src/auth/session-validator.service.ts:45-76` | A missing or empty token, or an expired JWT, is refused under its own reason before anything is looked up |
| `AuthTokens.AcceptanceIsAuthentic` | `nest-js-boilerplate/src/auth/session-validator.service.ts:45-104` | Whatever is presented, acceptance means an unexpired JWT and today's digests for the user and tier of a live session stored under the presented key |
| `AuthTokens.RunKeepsKeysNameUsers` | `nest-js-boilerplate/src/auth/auth-token.service.ts:50-93` | Over every run of store calls, a session belongs to the user its key was derived for, or to nobody |
| `AuthTokens.MintedTokensValidate` | `nest-js-boilerplate/src/auth/session-validator.service.ts:45-104` | What validating one login's tokens answers in every state: success or the first failing condition, in the order of the checks |
| `AuthTokens.IssuedTokensValidateExactly` | `nest-js-boilerplate/src/auth/session-validator.service.ts:45-104` | After issue and any run of store calls, the four tokens validate if and only if the JWT is unexpired, the UTC day is the day of issue, the user's session is live and its stored tier is the issued one; no other user's session can be under that key |
| `SessionRefresh.ResolveExactly` | `nest-js-boilerplate/src/auth/auth-session.service.ts:25-74` | A refresh token resolves if and only if it is not empty, leads to a session, and its user exists and is ACTIVE or PENDING_VERIFICATION; the answer is that session and the user's row as it is now, and each refusal has its case |
| `SessionRefresh.BlockedAccountCannotRefresh` | `nest-js-boilerplate/src/auth/auth-session.service.ts:63-70` | Once an account is suspended or banned, in every run until it is set again no token of its sessions resolves |
| `SessionRefresh.AuthSessionService.ResolveRefreshContext` | `nest-js-boilerplate/src/auth/auth-session.service.ts:25-74` | The session and owner behind a refresh token, or the first of the four refusals |
| `SessionRefresh.AuthSessionService.Refresh` | `nest-js-boilerplate/src/auth/auth-session.service.ts:158-219` | A refusal changes nothing; a success is one rotation, answered with tokens for the owner's current tier |
| `SessionRefresh.RotateReplacesOneSession` | `nest-js-boilerplate/src/auth/auth-session.service.ts:158-219` | A rotation swaps one entry of the plain map, keeps the user's number of sessions, and touches no other user |
| `SessionRefresh.SpentTokensStayDead` | `nest-js-boilerplate/src/auth/auth-session.service.ts:190-200` | In every interleaving, once some refresh of a token reached its revoke, no later lookup of it succeeds |
| `SessionRefresh.SharedLookupRedeemsTwice` | `nest-js-boilerplate/src/auth/auth-session.service.ts:25-74` | The condition is exact: a token that resolves while another request holds it can be run on to two redemptions, whatever else is under way |
| `SessionRefresh.InterleavedRefreshesRedeemTwice` | `nest-js-boilerplate/src/auth/auth-session.service.ts:158-200` | The failing run from a quiet world: two lookups before the first revoke redeem any resolvable token twice |
| `SessionRefresh.PlayIsThreeSteps` | `nest-js-boilerplate/src/auth/auth-session.service.ts:158-219` | A refresh as one step is exactly its lookup, revoke and issue uninterrupted |
| `SessionRefresh.EachTokenIsRedeemedOnce` | `nest-js-boilerplate/src/auth/auth-session.service.ts:158-219` | In every interleaving where no token resolves while another request holds it, each token is redeemed at most once; refreshes of different tokens, and failing lookups, overlap freely |
| `SessionRefresh.AtomicRefreshRedeemsOnce` | `nest-js-boilerplate/src/auth/auth-session.service.ts:158-219` | With refresh as one step the condition is met of itself, and every run redeems each token at most once |
| `EmailOtp.EmailOtpService.Generate` | `nest-js-boilerplate/src/auth/email-otp.service.ts:25-60` | Refused with the remaining seconds while the cooldown runs; otherwise a new code with no counter, and a new cooldown |
| `EmailOtp.EmailOtpService.IncrementOtpAttempts` | `nest-js-boilerplate/src/auth/token-store.service.ts:607-622` | One more miss counted, with the code's own deadline untouched |
| `EmailOtp.EmailOtpService.Verify` | `nest-js-boilerplate/src/auth/email-otp.service.ts:63-114` | End state and answer are those of one guess's steps run without interruption |
| `EmailOtp.EmailOtpService.Resend` | `nest-js-boilerplate/src/auth/email-otp.service.ts:116-137` | Refused during the cooldown with nothing changed; otherwise the old code is gone and a new one stands |
| `EmailOtp.AloneByCases` | `nest-js-boilerplate/src/auth/email-otp.service.ts:63-114` | The guess machine, uninterrupted: expired, burnt, matched and consumed, burnt by the fifth miss, or told what remains |
| `EmailOtp.CounterOutlivesCode` | `nest-js-boilerplate/src/auth/token-store.service.ts:556-622` | In every interleaving, with any passing of time, the counter equals the misses of the stored code and never expires before it |
| `EmailOtp.RefusedStaysRefused` | `nest-js-boilerplate/src/auth/email-otp.service.ts:63-114` | A guess on its way to refusal is refused whatever other guesses do |
| `EmailOtp.LateGuessNeverSucceeds` | `nest-js-boilerplate/src/auth/email-otp.service.ts:63-114` | A guess whose peek follows the fifth counted wrong guess for the code in force never succeeds, in any interleaving |
| `EmailOtp.EarlyGuessCanSucceed` | `nest-js-boilerplate/src/auth/email-otp.service.ts:63-114` | The bound is exact: a peek with the right code matches if and only if fewer than five misses are counted |
| `EmailOtp.CodeLastsTenMinutes` | `nest-js-boilerplate/src/auth/token-store.service.ts:556-569` | A code can be peeked at for 600 seconds, starting without misses, and no longer |
| `EmailOtp.NextCodeTakesAMinute` | `nest-js-boilerplate/src/auth/email-otp.service.ts:25-60` | After a code is generated the next is refused for 60 seconds with the remaining time, and given from then on |
| `EmailOtp.WhatRemovesCounter` | `nest-js-boilerplate/src/auth/token-store.service.ts:571-631` | What can take the counter away: a new code, a deletion, a burn, a consume, or its own expiry |
| `EmailOtp.CountAfterRun` | `nest-js-boilerplate/src/auth/token-store.service.ts:607-622` | After any run the counter is its start plus the misses, or the misses since it was last removed |
| `EmailOtp.LateSplitGuessMatchesExactly` | `nest-js-boilerplate/src/auth/token-store.service.ts:584-595` | Reading code and counter apart, a guess after the fifth counted miss matches if and only if it has the right code and, between its reads, the counter was removed and fewer than five misses followed |
| `EmailOtp.LateSplitGuessIsSafe` | `nest-js-boilerplate/src/auth/token-store.service.ts:584-595` | With no removal between its reads, a late guess never succeeds, whatever runs before, between and after |
| `EmailOtp.SplitPeekForgetsAttempts` | `nest-js-boilerplate/src/auth/token-store.service.ts:584-595` | The failing runs to success: a burn, or a new code, between the two reads |
| `EmailOtp.LateCounterDeletion` | `nest-js-boilerplate/src/auth/token-store.service.ts:571-582` | The second command of a consume, coming late, forgets misses exactly when a new code is stored by then and has counted some |
| `EmailOtp.CodeWorksOnce` | `nest-js-boilerplate/src/auth/token-store.service.ts:571-582` | After a success, every guess that peeks before a new code is written finds it expired, in any interleaving |
| `EmailOtp.MatchedGuessesAllSucceed` | `nest-js-boilerplate/src/auth/email-otp.service.ts:112-113` | The consumed value is not looked at, so guesses that matched before the first consume all succeed |
| `Credentials.CredentialService.RegisterFailedLogin` | `nest-js-boilerplate/src/auth/auth-login.service.ts:521-561` | The count rises by one, and the lock is set for 15 minutes from the fifth failure on and left alone before it |
| `Credentials.LockedExactlyFromTheFifth` | `nest-js-boilerplate/src/auth/auth-login.service.ts:521-561` | Over every run from an unlocked account, it has a lock if and only if five or more failures stand since the last reset, and each failure event carries its number and says locked exactly from the fifth on |
| `Credentials.CredentialService.Login` | `nest-js-boilerplate/src/auth/auth-login.service.ts:60-189` | Which refusal, second-factor request or success each case gets, and what each commits |
| `Credentials.CredentialService.ChangePassword` | `nest-js-boilerplate/src/auth/auth-registration.service.ts:363-417` | A verified change sets the hash, resets the lock and parks the hash read before on the undo token; otherwise nothing changes |
| `Credentials.CredentialService.UndoPasswordChange` | `nest-js-boilerplate/src/auth/auth-registration.service.ts:447-509` | Succeeds exactly for an unspent, unexpired undo token when the sessions could be revoked, which leaves the user none |
| `Credentials.CredentialService.ResetPassword` | `nest-js-boilerplate/src/auth/auth-registration.service.ts:296-354` | The same for reset tokens and the new password |
| `Credentials.FailuresAreNeverLost` | `nest-js-boilerplate/src/auth/auth-login.service.ts:521-561` | In every interleaving of committed login and password transactions, the counter is the audit trail's failures since the last reset, five or more imply a lock, and the trail gains one event per failure |
| `Credentials.TokensLastADay` | `nest-js-boilerplate/src/auth/auth-registration.service.ts:363-417` | An undo token works through 24 hours after its issue and no longer, and never as a reset token; likewise the other way round |
| `Credentials.ResetSetsPassword` | `nest-js-boilerplate/src/auth/auth-registration.service.ts:296-354` | A reset puts the new password in force, spends its token and lifts the lock |
| `Credentials.TokensOnlyGetSpent` | `nest-js-boilerplate/src/auth/auth-registration.service.ts:296-354` | In every run a token keeps its kind, expiry and parked hash, and once consumed stays so |
| `Credentials.UndoRestoresTheHashRead` | `nest-js-boilerplate/src/auth/auth-registration.service.ts:363-509` | Undo restores the hash its change request read, whatever was committed since the change; that is the hash in force before the change if and only if the one read was still in force then |
| `Credentials.UndoRestoresTheHashReplaced` | `nest-js-boilerplate/src/auth/auth-registration.service.ts:363-509` | If no commit between the request's read and its transaction writes the password, undo restores exactly the hash replaced, whatever else is committed before and after |
| `Credentials.OverlappingChangesUndoTooFar` | `nest-js-boilerplate/src/auth/auth-registration.service.ts:363-509` | The failing run: of two changes that read one hash, undoing the second skips the first |
| `Credentials.AtomicChangeIsUndone` | `nest-js-boilerplate/src/auth/auth-registration.service.ts:363-509` | When read and change are one step, undo restores exactly the hash before the change |
| `Credentials.TokensWorkOnce` | `nest-js-boilerplate/src/auth/auth-registration.service.ts:447-509` | After a redemption, no later redemption of the token changes anything, in any run |
| `Credentials.EachTokenIsRedeemedOnce` | `nest-js-boilerplate/src/auth/auth-registration.service.ts:304-327` | With reading a token and committing its redemption as separate steps: in every interleaving where no token is found valid while another redemption of it is under way, each token changes a password at most once |
| `Credentials.OverlappingRedemptionsBothWork` | `nest-js-boilerplate/src/auth/auth-registration.service.ts:304-327` | The condition is exact: two redemptions that both read the token as valid both commit, in either order, and the last one's password stands |
| `Credentials.RedemptionInBetweenBothWork` | `nest-js-boilerplate/src/auth/auth-registration.service.ts:453-476` | The same when the second redemption runs whole between the first one's read and commit |
| `Credentials.RedemptionIsTwoSteps` | `nest-js-boilerplate/src/auth/auth-registration.service.ts:447-509` | A redemption in one step is its read and commit uninterrupted, for resets and undos |
| `BillingRuns.NextKeepsOneLive` | `nest-js-boilerplate/src/billing/billing.service.ts:174-307` | Each transaction and each Stripe call keeps every live subscription on the row or in the lock holder's hands |
| `BillingRuns.OneLiveNeedsAdmissible` | `nest-js-boilerplate/src/billing/stripe-webhook.controller.ts:170-180` | A paid invoice, a deletion or a failed persist keeps that if and only if it names no replaced subscription, does not clear a newer one, or leaves no new charge unrecorded |
| `BillingRuns.FreshWebhooksAreAdmissible` | `nest-js-boilerplate/src/billing/stripe-webhook.controller.ts:415-439` | Deletions decided on the current row, and invoices of the recorded or a live subscription, always qualify |
| `BillingRuns.EveryRunHasOneLive` | `nest-js-boilerplate/src/billing/billing.service.ts:174-307` | Over every such run of subscribes, cancels, tier changes and webhooks: at most one live subscription, and with no request in flight it is the one on the row |
| `BillingRuns.EveryRunKnows` | `nest-js-boilerplate/src/billing/stripe-webhook.controller.ts:170-180` | Over every run whose invoices name created subscriptions, so does the row, and whatever is live or replayable was created |
| `BillingRows.PersistBooksOneRow` | `nest-js-boilerplate/src/billing/billing.service.ts:509-553` | A purchase is booked in one row, keyed by the invoice or else the retry key: a new one is a completed zero fee under the client's key, and one the invoice wrote keeps its kind, status, amount, client key and other metadata |
| `BillingRows.PersistMovesRow` | `nest-js-boilerplate/src/billing/billing.service.ts:555-564` | Tier, subscription and paid period as charged, not cancelled, with the pending change kept |
| `BillingRows.InvoiceBooksOneRow` | `nest-js-boilerplate/src/billing/stripe-webhook.controller.ts:329-395` | A delivery leaves one completed fee with the invoice's own amount, keeps what the purchase booked there, and repeats to the same |
| `BillingRows.FailedPaymentDropsSchedule` | `nest-js-boilerplate/src/billing/stripe-webhook.controller.ts:252-286` | A failed payment drops a paid tier to FREE with everything scheduled, keeps subscription and period, and a redelivery is harmless |
| `BillingRows.DeletionForgetsSubscription` | `nest-js-boilerplate/src/billing/stripe-webhook.controller.ts:415-439` | The recorded subscription's deletion drops to FREE and forgets subscription and period; another's, or a redelivery, changes nothing |
| `BillingRows.UpdateMirrorsFlag` | `nest-js-boilerplate/src/billing/stripe-webhook.controller.ts:498-508` | The cancel flag, and the period end when there is one, are mirrored and nothing else |
| `BillingRows.EndedScheduleIsForgotten` | `nest-js-boilerplate/src/billing/stripe-webhook.controller.ts:516-532` | The end of a schedule clears its own id only, never a newer one |
| `BillingRows.CancellationBooks` | `nest-js-boilerplate/src/billing/billing.service.ts:629-662` | A committed cancellation keeps tier, subscription and period, drops the schedule, and adds one adjustment for the tier it ends |
| `BillingRows.ScheduleBooks` | `nest-js-boilerplate/src/billing/billing.service.ts:821-850` | A committed schedule records tier, date and schedule, and adds one adjustment that says from where and when |
| `BillingRows.LocalChangeBooks` | `nest-js-boilerplate/src/billing/billing.service.ts:916-941` | A local change moves the tier at once, marks it as not renewing, and adds one adjustment in dollars |
| `BillingRows.ReleaseUndoesSchedule` | `nest-js-boilerplate/src/billing/billing.service.ts:709-740` | Releasing a schedule gives the row back as it was before scheduling |
| `BillingOutcomes.ChargedSubscribeUpgradesExactly` | `nest-js-boilerplate/src/billing/billing.service.ts:174-307` | A charged first subscribe answers success; it leaves the user on the tier with a live subscription if and only if the row recorded none and Stripe replays no dead one; an uncharged one changes nothing |
| `BillingOutcomes.OccupiedRowLosesBoth` | `nest-js-boilerplate/src/billing/billing.service.ts:213-217` | On a row that records a subscription, a charged first subscribe answers success with nothing live: row and ledger are as before, or have the tier when Stripe replays the old subscription |
| `BillingOutcomes.SubscribeKeepsOneLive` | `nest-js-boilerplate/src/billing/billing.service.ts:103-154` | Every branch of a request leaves each live subscription on the row, at most one, and the lock free |
| `BillingOutcomes.RefusalChangesNothing` | `nest-js-boilerplate/src/billing/billing.service.ts:103-154` | A request that does not answer success changes neither row nor ledger nor sessions, and creates nothing live |
| `BillingOutcomes.SuccessMeans` | `nest-js-boilerplate/src/billing/billing.service.ts:103-154` | What success promises on the branches besides a first subscribe: pending change gone, local tier reached, cancellation at period end, or the tier pending, with Stripe's live set and the recorded id untouched |
| `BillingOutcomes.LostChargeIsUnrecorded` | `nest-js-boilerplate/src/billing/billing.service.ts:263-300` | A charge whose persist throws is live and on no row |
| `BillingOutcomes.RetryRecoversExactly` | `nest-js-boilerplate/src/billing/billing.service.ts:103-154` | After any run of webhooks and admin changes, the whole request repeated under its key creates no other subscription, and the charge is on the row if and only if it was already, on the bought tier, or the user is on FREE with no recorded subscription, the charge is live, and Stripe accepts the payment method given |
| `BillingOutcomes.UnpaidRetryRecovers` | `nest-js-boilerplate/src/billing/billing.service.ts:103-154` | In particular a retry from FREE recovers the charge while no invoice has recorded it and Stripe has not ended it |
| `BillingOutcomes.LockedRetryByCases` | `nest-js-boilerplate/src/billing/billing.service.ts:174-240` | What the locked part of a retry does when its early read was stale: nothing on a tier as high, otherwise the same condition |
| `BillingOutcomes.RepeatOnReachedTier` | `nest-js-boilerplate/src/billing/billing.service.ts:118-129` | Repeated on the tier it asks for, a request is refused, or drops a pending change; tier, recorded subscription, ledger and Stripe stay |
| `BillingOutcomes.PaidInvoiceSpoilsRetry` | `nest-js-boilerplate/src/billing/billing.service.ts:494-508` | A failing input: the charge's own invoice, delivered first with an unresolved tier, makes the retry cancel the recorded subscription, get it back dead and answer success |
| `BillingOutcomes.AdminChangeSpoilsRetry` | `nest-js-boilerplate/src/billing/billing.service.ts:909-954` | Another: after an admin has moved the user to another paid tier, the retry answers success locally while the charged subscription stays live on no row |
| `BillingOutcomes.PaidInvoiceCompletesUpgrade` | `nest-js-boilerplate/src/billing/stripe-webhook.controller.ts:182-209` | With the tier resolved, that delivery completes the upgrade, and the repeated request leaves it standing: refused, or dropping a change pending for another tier |
| `BillingOutcomes.RecordedRowIsAnswered` | `nest-js-boilerplate/src/billing/billing.service.ts:413-439` | A repeated first subscribe is answered by the row with its key: success if and only if it is completed, and otherwise its reason or declined |
| `BillingOutcomes.PersistedPurchaseAnswersSuccess` | `nest-js-boilerplate/src/billing/billing.service.ts:192-201` | Once a purchase is persisted in a new row, over every run a repetition under its key from a lower tier answers success without a charge or other change |
| `BillingOutcomes.UnchargedAnswers` | `nest-js-boilerplate/src/billing/billing.service.ts:163-262` | What a first subscribe answers without payment method, on a tier as high, when the old subscription cannot be cancelled, or when Stripe declines |
| `BillingOutcomes.DeferredAnswers` | `nest-js-boilerplate/src/billing/billing.service.ts:113-154` | What the same-tier, cancelling and tier-changing branches answer, case by case |
| `BillingOutcomes.RecordedKeyNeverCharges` | `nest-js-boilerplate/src/billing/billing.service.ts:413-439` | Once a retry key is recorded, over every run no request under it touches Stripe's subscriptions on any branch, and a purchase from FREE under it changes nothing |
| `BillingOutcomes.RecordedKeyStillReleases` | `nest-js-boilerplate/src/billing/billing.service.ts:118-129` | The other branches ignore the key: on the tier it bought, a repeated request drops a change pending since |
| `BillingRuns.DoubleClickChargesOnce` | `nest-js-boilerplate/src/billing/billing.service.ts:160-240` | Any number of concurrent same-tier first subscribes from a row with no id, racing webhooks of what is live: at most one successful create |
| `BillingRuns.NextKeepsUniqueClientKeys` | `nest-js-boilerplate/src/billing/billing.service.ts:413-439` | A client retry key is on at most one ledger row, and on none while a charge under it is in flight |
| `BillingRuns.RetryNeverChargesAgain` | `nest-js-boilerplate/src/billing/billing.service.ts:413-439` | Once a retry key is recorded it stays on exactly one row over every run, is never in flight again, and a first subscribe that takes the lock with it goes no further |
| `BillingRuns.PersistRecordsKey` | `nest-js-boilerplate/src/billing/billing.service.ts:529-553` | A persisted upgrade records its retry key if and only if the invoice's row does not already carry another |
| `BillingRuns.PendingStaysPaired` | `nest-js-boilerplate/src/billing/billing.service.ts:602-646` | Over every run, pending tier and pending date are both null or both set |
| `BillingRuns.SchedulingKeepsTier` | `nest-js-boilerplate/src/billing/billing.service.ts:709-740` | Any run of scheduling, releasing, cancelling and their Stripe notices leaves tier, subscription and period start |
| `BillingRuns.PaidPendingTakesEffect` | `nest-js-boilerplate/src/billing/stripe-webhook.controller.ts:182-209` | Paying for the pending tier clears both pending fields and moves the tier there, unless a stale read already saw that tier |
| `BillingRuns.DeletionKeepsPending` | `nest-js-boilerplate/src/billing/stripe-webhook.controller.ts:430-439` | Deleting a subscription downgrades the row but keeps its pending change |
| `BillingService.BillingHandlers.FindRetryResult` | `nest-js-boilerplate/src/billing/billing.service.ts:413-439` | Found exactly when some row carries the key; then a success exactly when that row is completed, and otherwise with its reason |
| `BillingService.BillingHandlers.PersistUpgrade` | `nest-js-boilerplate/src/billing/billing.service.ts:475-579` | The method's steps are the machine's persist, for refused, reconciled and new rows |
| `BillingService.BillingHandlers.HandleFirstSubscribe` | `nest-js-boilerplate/src/billing/billing.service.ts:156-318` | Uninterrupted, it is acquire, cancel, create and persist of the machine, with the session tiers rewritten exactly when provisioned |
| `BillingService.BillingHandlers.HandleFullCancellation` | `nest-js-boilerplate/src/billing/billing.service.ts:581-700` | Local downgrade without a subscription; otherwise the machine's cancellation, or its refusal with nothing changed |
| `BillingService.BillingHandlers.HandleTierChange` | `nest-js-boilerplate/src/billing/billing.service.ts:751-902` | Local change without a subscription; otherwise the machine's scheduled change, or its refusal |
| `BillingService.BillingHandlers.ReleasePendingChange` | `nest-js-boilerplate/src/billing/billing.service.ts:709-740` | The pending change is gone, unless Stripe refuses the release and nothing changes |
| `BillingService.BillingHandlers.ApplyLocalTierChange` | `nest-js-boilerplate/src/billing/billing.service.ts:909-972` | Row, ledger and session tiers move together; a duplicate generated key rolls all of it back |
| `BillingService.BillingHandlers.SubscribeToPlan` | `nest-js-boilerplate/src/billing/billing.service.ts:103-154` | Every branch is the uninterrupted run of the machine's steps, and client keys stay unique |
| `BillingService.BillingHandlers.HandleInvoicePaid` | `nest-js-boilerplate/src/billing/stripe-webhook.controller.ts:111-231` | The method's ordered updates are the machine's paid step on the current row, and sessions follow the tier |
| `BillingService.BillingHandlers.UpsertInvoiceTransaction` | `nest-js-boilerplate/src/billing/stripe-webhook.controller.ts:329-395` | One ledger row per invoice, keeping an earlier row's client key and other metadata |
| `BillingService.BillingHandlers.HandleInvoiceFailed` | `nest-js-boilerplate/src/billing/stripe-webhook.controller.ts:233-316` | A paid tier drops to FREE with its pending change cleared; a FREE row is left alone |
| `BillingService.BillingHandlers.HandleSubscriptionDeleted` | `nest-js-boilerplate/src/billing/stripe-webhook.controller.ts:397-465` | Only the recorded subscription's deletion has an effect, and sessions follow it |
| `BillingService.BillingHandlers.SetUserTier` | `nest-js-boilerplate/src/authorization/admin.resolver.ts:147-183` | The admin mutation moves row and sessions to the tier |
| `BillingService.SubscribeKeepsUniqueKeys` | `nest-js-boilerplate/src/billing/billing.service.ts:103-154` | No request, on any branch, puts one client key on two ledger rows |
| `InvoiceRace.RunMovesOn` | `nest-js-boilerplate/src/billing/billing.service.ts:475-579` | The state of the race after any prefix of persist and deliveries, each deciding on a row read at any earlier point |
| `InvoiceRace.FirstInvoiceConverges` | `nest-js-boilerplate/src/billing/stripe-webhook.controller.ts:111-210` | However persist and one or more deliveries interleave: one new ledger row for the invoice with amount, retry key and merged metadata, and the bought tier and subscription; the booked tier is the bought one exactly when the last event is the persist, resolves the billed tier, or read the bought one |
| `InvoiceRace.EveryOrderAgrees` | `nest-js-boilerplate/src/billing/stripe-webhook.controller.ts:329-395` | With a resolved billed tier and one period end, any two orders end in the same user row and ledger |
| `InvoiceRace.CurrentReadsConverge` | `nest-js-boilerplate/src/billing/stripe-webhook.controller.ts:111-210` | When each delivery reads the current row, every order books the bought tier, resolved or not |
| `InvoiceRace.CurrentReadsAgree` | `nest-js-boilerplate/src/billing/stripe-webhook.controller.ts:111-210` | With current reads and one period end, any two orders end in the same user row and ledger, resolved or not |
| `InvoiceRace.StaleDeliveryBooksOldTier` | `nest-js-boilerplate/src/billing/stripe-webhook.controller.ts:318-327` | A delivery that read before the persist and commits after it books the old tier when the billed tier does not resolve |
| `TierSync.SubscribeAnnounces` | `nest-js-boilerplate/src/billing/billing.service.ts:309-313` | On every branch, a request writes into the sessions exactly the tier it leaves on the row |
| `TierSync.PaidAnnounces` | `nest-js-boilerplate/src/billing/stripe-webhook.controller.ts:184-218` | The same for a paid invoice |
| `TierSync.FailedAnnounces` | `nest-js-boilerplate/src/billing/stripe-webhook.controller.ts:276-286` | The same for a failed invoice |
| `TierSync.DeletedAnnounces` | `nest-js-boilerplate/src/billing/stripe-webhook.controller.ts:429-456` | The same for a deleted subscription |
| `TierSync.RewriteMovesOnlyTheTier` | `nest-js-boilerplate/src/auth/token-store.service.ts:377-415` | Writing a tier into a user's sessions changes nothing else in them and nobody else's |
| `TierSync.BillKeepsSynced` | `nest-js-boilerplate/src/auth/token-store.service.ts:377-415` | A handler that announces its tier leaves every session with the row's tier |
| `TierSync.SessionsCarryTheTier` | `nest-js-boilerplate/src/billing/billing.service.ts:916-954` | Over every run of non-overlapping logins, refreshes, store calls, requests, webhooks and admin changes, every live session of the user carries the tier on the row |
| `Comments.CommentService.Create` | `nest-js-boilerplate/src/comment/comment.service.ts:26-129` | Which of the three refusals or the insertion each case gets, and that a refusal changes nothing |
| `Comments.CommentService.FindReply` | `nest-js-boilerplate/src/comment/comment.service.ts:61-72` | Found exactly when the author has an undeleted reply under the parent |
| `Comments.CommentService.Delete` | `nest-js-boilerplate/src/comment/comment.service.ts:168-199` | Only the author's own undeleted comment is marked; anything else changes nothing |
| `Comments.CreateKeepsInv` | `nest-js-boilerplate/src/comment/comment.service.ts:52-88` | The insertion from the critical section keeps one reply per author and parent, proper threads and every held lock |
| `Comments.CheckReplyKeepsInv` | `nest-js-boilerplate/src/comment/comment.service.ts:59-72` | What the check under the lock saw stays true until the lock goes |
| `Comments.DeleteKeepsInv` | `nest-js-boilerplate/src/comment/comment.service.ts:181-184` | A soft delete between other requests' steps breaks none of it |
| `Comments.CreatedAsDrafted` | `nest-js-boilerplate/src/comment/comment.service.ts:73-88` | A created comment has the draft's author, post and parent, is undeleted and the youngest, counts as its author's reply, and nothing else changes |
| `Comments.DeletedStopsCounting` | `nest-js-boilerplate/src/comment/comment.service.ts:181-184` | A deleted comment is no reply any more, so its author may reply again; it cannot be deleted or replied to, and nothing else changes |
| `Comments.ParentCheckIsExact` | `nest-js-boilerplate/src/comment/comment.service.ts:38-51` | A reply passes its parent check if and only if the parent exists, undeleted, under the same post |
| `Comments.FirstChecksAreExact` | `nest-js-boilerplate/src/comment/comment.service.ts:26-36` | A draft passes its post check if and only if the post exists undeleted; a delete passes its own if and only if the comment is the author's and undeleted |
| `Comments.EveryRunKeepsThreads` | `nest-js-boilerplate/src/comment/comment.service.ts:38-88` | In every interleaving of creates, deletes and post deletions: at most one undeleted reply per author and parent, and parents older and of the same post |
| `Comments.ChainsAreAcyclic` | `nest-js-boilerplate/src/comment/comment.service.ts:38-51` | A reply chain is finite, never repeats a comment, ends at a top-level one and belongs to one post |
| `MessageKeys.JoinIsInjective` | `next-js-boilerplate/scripts/generate-i18n-types.ts:58-69` | Dotted strings of non-empty dot-free keys determine the key paths |
| `MessageKeys.LeafPathsLeadToLeaves` | `next-js-boilerplate/scripts/generate-i18n-types.ts:58-69` | The leaf paths of a tree are exactly those that, walked key by key from the root, end at a leaf |
| `MessageKeys.FlattenIsDottedLeaves` | `next-js-boilerplate/scripts/generate-i18n-types.ts:58-69` | Flattening under any prefix is the leaf paths, dotted, in order and with multiplicity |
| `MessageKeys.SameKeysIffSameLeaves` | `next-js-boilerplate/scripts/generate-i18n-types.ts:58-69` | Two trees of such keys flatten to the same set of strings if and only if they have the same leaf paths |
| `MessageKeys.DottedKeysCollide` | `next-js-boilerplate/scripts/generate-i18n-types.ts:58-69` | A dot in a key, or an empty key, makes different trees flatten alike |
| `MessageKeys.SameKeysByLists` | `next-js-boilerplate/scripts/generate-i18n-types.ts:141-160` | No key missing in either direction is equality of the key sets |
| `MessageKeys.Generate` | `next-js-boilerplate/scripts/generate-i18n-types.ts:99-164` | Types are written if and only if every locale has the first one's pages and keys; the generator crashes if and only if some locale lacks a page of the first |
| `MessageKeys.AcceptedLocalesMatch` | `next-js-boilerplate/scripts/generate-i18n-types.ts:116-164` | After an accepted run any two locales have the same pages and the same leaf paths per page |
| `Backfill.VisitRow` | `nest-js-boilerplate/scripts/backfill-r2-attachments.ts:74-104` | One row's outcome and what it adds to the bucket, under any stat or upload fault |
| `Backfill.CursorResumes` | `nest-js-boilerplate/scripts/backfill-r2-attachments.ts:65-71` | The page after a cursor starts at the row after the last one visited |
| `Backfill.EmptyNameNeverAdvances` | `nest-js-boilerplate/scripts/backfill-r2-attachments.ts:65-71` | On a table whose one row has an empty name every query answers the same page, so the loop never ends |
| `Backfill.Walk.VisitPage` | `nest-js-boilerplate/scripts/backfill-r2-attachments.ts:74-104` | A page extends the sweep by exactly its rows |
| `Backfill.Walk.Run` | `nest-js-boilerplate/scripts/backfill-r2-attachments.ts:62-117` | On every other table the paged loop ends having visited each row exactly once, with the counters, bucket and failure list of one sweep, and exit code 0 exactly when nothing failed or is missing |
| `Backfill.CountersAddUp` | `nest-js-boilerplate/scripts/backfill-r2-attachments.ts:49-104` | The four outcomes sum to the total, the total is the table's size, a dry run changes nothing, and the failure list counts the failed and missing rows |
| `Backfill.CountersCountRows` | `nest-js-boilerplate/scripts/backfill-r2-attachments.ts:74-104` | Over unique names, each counter is the number of rows of its kind as the bucket stood at the start, the bucket gains exactly the uploaded names, and the failure list names exactly the failed and lost rows |
| `Backfill.CleanRunUploadsAll` | `nest-js-boilerplate/scripts/backfill-r2-attachments.ts:74-104` | A run with no failed and no missing row leaves every object present |
| `Backfill.FullBucketNeedsNothing` | `nest-js-boilerplate/scripts/backfill-r2-attachments.ts:74-104` | Over a full bucket with working stats everything is found present |
| `Backfill.RerunBackfillsNothing` | `nest-js-boilerplate/scripts/backfill-r2-attachments.ts:62-105` | A rerun after a clean run backfills nothing and changes nothing |
| `Backfill.ResumedRunCompletes` | `nest-js-boilerplate/scripts/backfill-r2-attachments.ts:62-105` | A clean run over what an interrupted one left completes the bucket and keeps what was there |
| `Router.ShippedIsValid` | `next-js-boilerplate/src/lib/version/config.ts:5-7` | The shipped configuration meets what the other results ask of one |
| `Router.SplitOfJoin` | `next-js-boilerplate/src/proxy.ts:116-118` | Joining segments and splitting the path gives the segments back |
| `Router.VersionedPath` | `next-js-boilerplate/src/lib/version/config.ts:13-18` | A version-like first segment is also the first non-empty one |
| `Router.VersionedAnswer` | `next-js-boilerplate/src/proxy.ts:115-167` | How a path of segments is answered, with status and cookie: version mended for good, then locale for now and remembered, then the session gate |
| `Router.CookieWins` | `next-js-boilerplate/src/lib/i18n/config.ts:46-53` | A supported language cookie wins over the negotiated locale, which is used otherwise |
| `Router.ServedPageSetsLanguage` | `next-js-boilerplate/src/proxy.ts:196-232` | A served page gets the visitor's locale, and sets the cookie if and only if the visitor has none |
| `Router.UnknownDemoLocaleIsRefused` | `next-js-boilerplate/src/proxy.ts:97-107` | Under /i18n/ a path is not found if and only if its locale segment is not empty and not supported |
| `Router.NamedRedirects` | `next-js-boilerplate/src/proxy.ts:73-96` | The bare demo path leads to the visitor's locale, remembered and for now; the old about page has moved for good |
| `Router.PrefixRoutes` | `next-js-boilerplate/src/proxy.ts:168-194` | Dashboard paths pass if and only if there is a session and lead to login otherwise; security paths get their own policy; api and framework paths are left alone |
| `Router.RedirectsDescend` | `next-js-boilerplate/src/proxy.ts:68-194` | Each redirect leads to a path of lower rank, at most three, and keeps every non-empty segment from the third on until the login page |
| `Router.FollowEnds` | `next-js-boilerplate/src/proxy.ts:68-194` | On either port, from any path and cookies, following redirects ends within three hops at a response that is none, with those segments kept until the login page |
| `Router.ThreeHopsHappen` | `next-js-boilerplate/src/proxy.ts:115-167` | The bound is reached: unknown version, then unknown locale, then no session |
| `Router.PortRedirectsAreProxys` | `tanstack-boilerplate/src/start.ts:120-219` | Every redirect of the port is the original's, cookie included |
| `Router.PortsAgree` | `tanstack-boilerplate/src/start.ts:91-219` | Both ports redirect and refuse alike on page requests if and only if the path is no dashboard look-alike without a token |
| `Router.PortsAgreeExactly` | `tanstack-boilerplate/src/start.ts:91-219` | The whole decisions are equal if and only if the path is neither such a look-alike nor one that only one port leaves to its framework |

## Left out

- Router.Proxy: Accept-Language parsing (its result is the parameter `accepted`), query strings, request ids, CSP and debug headers.
- MessageKeys.Generate: reading and writing files, the emitted TypeScript types, and the wording of the reported errors.
- Backfill.Walk.Run: requires a table other than the single row with an empty name, on which it never ends, and the name order the query asks for; rows do not change while it runs.
- Comments.CommentService.Create: bodies, images, notifications and caches; updating a comment; the cascade of hard deletes. The advisory lock is keyed by author and parent, not by a hash of them, and an empty parent id, which the code treats as absent, is given as absent.
- Credentials.CredentialService.ChangePassword: password strength rules and the mail with the undo link.
- Credentials.CredentialService.Login: device recognition, the second-factor challenge and the social account linking; a completed second factor and a social login are steps of the runs.
- Credentials.TokensWorkOnce: the first redemption and the later ones are each one step; overlapping ones are EachTokenIsRedeemedOnce. The other transactions are one step each.
- SessionRefresh.SharedLookupRedeemsTwice: the two new sessions are given; that fresh keys and ids exist is not stated.
- SessionRefresh.SpentTokensStayDead: store calls between the steps include narrow updates only of sessions that exist.
- EmailOtp.EmailOtpService.Generate: drawing and mailing the code, and the subject and purpose in the keys; one subject and purpose at a time.
- EmailOtp.LateGuessNeverSucceeds: the guess itself peeks in one step; a guess that peeks in two reads is LateSplitGuessMatchesExactly. Consuming a code is one step in the runs, although it too is two commands; what a late second one does is LateCounterDeletion.
- SessionRefresh.AuthSessionService.Refresh: device fingerprints, cookies and logging.
- AuthTokens.AuthTokenService.IssueTokens: the hydrated profile fields are given as a map, and device recognition and cookies are left out.
- TimedStore.EveryRunSharesDeadlines: a narrow update finds its session live; `incrUnreadForUser`, and a narrow update after expiry, which can create an expired hash again without its other fields and without a deadline, are not timed calls; nor are the per-session wire keys.
- TimedStore.TimedTokenStore.Write: the class has write, extend and revoke; the other timed calls are functions on the store's value.
- TokenStoreService.TokenStore.IncrUnreadForUser: requires linked structures, an invariant of every untimed run, so a member without a hash does not occur.
- TokenStoreService.TokenStore.RevokeAllForUser: requires linked structures, and the retry delay is left out; calls by others between its listing and its MULTI are covered by MissedSessionStaysMissed alone.
- BillingService.BillingHandlers.HandleFirstSubscribe: the 3DS path and `finalizeSubscription`, whose two parked subscriptions can both be confirmed elsewhere; creating the Stripe customer and the wallet; audit events, notifications and realtime messages.
- BillingService.BillingHandlers.HandleInvoicePaid: signature checks, event de-duplication and the lookup of the user and of the billed tier, which are given.
- BillingRuns.EveryRunHasOneLive: the minute buckets of generated retry keys are taken as given keys, and one user has one Stripe customer.
- TierSync.SessionsCarryTheTier: handlers do not overlap; the store is the untimed one.
- Multi-factor challenges, API keys, cache-aside reads, the message bus, realtime transport and the demo modules are not part of this model.
