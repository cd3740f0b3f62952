# Verification of TIM's token and login core

TIM issues, extends, revokes and validates its own JWTs, and brokers OpenID
Connect logins into sessions. This project models the three state machines at
its centre and the algorithms around them, and proves what holds over every run
of each.

- **Token service** (`TokenTables`, `JwtService`, `TokenAnswers`, `Lifecycle`,
  `LifecycleRuns`, `ServiceRuns`,
  `ExtensionChains`, `TokenActivity`, `DenylistPurge`, `BulkRevoke`, `Listing`,
  `ListAnswers`, over `Claims` and `Signer`). The state is an append-only metadata table, an insert-only denylist,
  a clock, and a signer with a current and an optional retiring key. A run is any
  sequence of generate, the two halves of extend (its denylist check and its
  transaction), revoke by token or by jti, clock ticks and key rotations, with any
  number of extends in flight. `JwtService` is the service itself, each method
  proved against the function in `TokenTables` that says what it answers and
  writes; the runs are built from those same functions, and `TokenAnswers`
  tells what each call answers from the token, the tables and the clock alone.
- **Login protocol** (`OAuthFlow`, `LoginRuns`, `BrokerRuns`, `IdToken`). Logins insert one-shot
  rows; callbacks race to consume them, exchange the code, verify the ID token
  and create a session; the sweeper deletes rows all the while.
- **Session stores** (`SessionStores`, `SessionHistories`, `SessionCipher`). The
  memory store removes expired sessions on sight, the database filters them out
  in the query; both are compared with a naive reading of the history.
- **Around them**: `Discovery` (retry, backoff and cache), `CookieScanner` and
  `Strings`, `HexCodec`, `Counting`.

## How it is modelled

- Time is in microseconds, the resolution of the tables. A JWT's `exp` is the
  floor to whole seconds; several results turn on the difference.
- A signature verifies under the key that made it and no other. The AEAD is two
  functions of which only "decryption undoes encryption" is assumed. JSON text,
  base64 and SHA-256 are not modelled; a claim set is an object from names to the
  values written under them, so that duplicates are visible.
- A string is either plain or one of the spellings of a UUID (`Text`), which is
  all that `Uuid::parse_str` can tell.
- Every SQL statement and every transaction is one step. `generate` writes in one
  statement and is one step; `extend` is two, with its denylist and row lookups
  in the first; `revoke` and `revoke_by_jti` are one, since the row they read never
  changes.
- Fresh UUIDs, states, nonces, session ids and row ids have not been used before.
  TIM's keys are secret: what verifies under one was minted in the run or belongs
  to a given set of tokens from outside this database, whose rows are unknown.
- Key rotation is a restart: extends in flight are abandoned.

## Where the code and its documentation differ

- `migrations/0001_init.sql:48-51` says that denylist rows past `expires_at` are no
  longer needed. They are, for up to a second: validation compares whole seconds,
  so a token is accepted during all of its last second. A purge needs a
  margin of one second, and no smaller one will do; if tokens from outside share a
  jti, of one second more than their expiries are apart
  (`InvisibleIffMarginEnough`). Listings and the answers of
  revocations do change: a purged token is listed as expired, and can be newly
  revoked. The repository has no purge code.
- An extension chain can end up with two live tokens: `extend` does not look at
  the denylist again in its transaction, so two extends of one token that overlap
  both succeed (`OverlappingExtendsFork`; `OneLiveThroughoutIff` is the exact
  condition).
- A token whose `kid` names the retiring key but which another key signed is
  refused although a published key accepts it, and is accepted once that key has
  retired (`VerifyRawRefinesTryAllKeys`, `ReactivationIff`,
  `MisroutedTokenReactivates`). TIM mints no such token.
- The discovery cache is keyed by URL alone, so the plain-HTTP flag of whoever
  filled an entry decides for everyone (`PermissiveThenStrict`; `CallersServedIff`
  is the exact condition).
- The order of a bulk revocation can matter: a token of the retiring key is only
  revoked if its turn comes before that key goes (`OrderIrrelevantIff`).
- A login whose authorization endpoint turns out not to be a URL fails after its row
  is in the table; the row stays until the sweeper takes it.
- A session lasts at least one second even if the configured cap is zero.

## Model

| member | source | states |
|---|---|---|
| Claims.RoundTrip | src/jwt/service.rs:16-31 | The flattened claim set reads back as written if and only if no extra claim has the name of a typed field; otherwise reading fails on a duplicate field |
| Claims.EncodedMembers | src/jwt/service.rs:16-31 | Which claim is signed under which registered name, and every extra under its own |
| Claims.RemoveReserved | src/jwt/service.rs:657-664 | The in-place removal loop leaves exactly the content under unregistered names |
| Claims.GeneratedExtra | src/jwt/service.rs:78-83 | Signed extras are the content minus the registered names plus the token type, and never meet a typed field |
| Claims.ExtendedExtra | src/jwt/service.rs:448-453 | Extension keeps extras that have a token type exactly, adds one otherwise, and stays clear of the typed fields |
| Signer.VerifyRawRefinesTryAllKeys | src/crypto/mod.rs:147-190 | `verify_raw` accepts with given claims if and only if some key published at that instant does and the kid does not point the token at another key |
| Signer.HonestKidIsNeverMisrouted | src/crypto/mod.rs:147-190 | For a token with no kid, or with the kid of the published key that signed it, `verify_raw` and trying every published key agree exactly |
| Signer.MisroutedTokenIsLost | src/crypto/mod.rs:153-158 | A concrete token that a published key accepts and kid routing refuses, until the retiring key has gone |
| Signer.FallbackOnlyOnMismatch | src/crypto/mod.rs:160-174 | An error other than a signature mismatch means no other key accepts either, so not retrying it loses nothing |
| Signer.VerifyRawErrors | src/crypto/mod.rs:147-177 | Each refusal if and only if: no header, a fault of the token, no advertised key that its kid allows signed it, a payload that is no claim set |
| Signer.JwksAre | src/crypto/mod.rs:179-208 | The current key, and the previous one strictly before it retires, in that order |
| Signer.SignVerifyRoundTrip | src/crypto/mod.rs:116-174 | What the signer signs it verifies, for all clean claims; without the kid guard of the constructor, exactly when the retiring key does not shadow the current kid |
| Signer.AcceptanceOnlyShrinks | src/crypto/mod.rs:179-185 | What is accepted later was accepted before with the same claims, except exactly the misrouted tokens |
| Signer.ConstructorsValid | src/crypto/mod.rs:63-78 | The second key is refused exactly when its kid is the current one, and every signer built has distinct kids |
| TokenTables.ActiveIff | src/jwt/service.rs:155-226 | A token is active if and only if a published key signed it, its kid does not misroute it, issuer, audience and policy agree, its last second is not over, and its jti is a UUID that is not denylisted |
| TokenTables.IntrospectAgreesWithValidate | src/introspect/mod.rs:72-110 | Introspection is active exactly when validation for TIM's issuer is, apart from tokens the audience policy turns away, with the same claims |
| TokenTables.LatestRowIsLatest | src/jwt/service.rs:421-430 | The row looked up is the latest created of its jti |
| TokenAnswers.GenerateRefusals | src/jwt/service.rs:54-70 | Each refusal if and only if: minutes not positive, then content too large, then the first audience that the policy forbids; the tables stay |
| TokenAnswers.GenerateAnswers | src/jwt/service.rs:63-134 | Every claim signed, every field of the row and of the answer, from the request, the clock and the configuration |
| TokenAnswers.ExtendRefusals | src/jwt/service.rs:398-444 | Each refusal if and only if: unverified, expired, jti no UUID, revoked, minutes not positive, expiry out of range, in that order; the tables stay |
| TokenAnswers.ExtendAnswers | src/jwt/service.rs:418-522 | The new token lasts 60 minutes or the minutes asked for from now on; every claim signed, the row with the old one's id, name and root, the denylist row of the old jti, and the answer |
| TokenAnswers.RevokeAnswers | src/jwt/service.rs:315-343 | True if and only if the token verifies, its jti is a UUID not denylisted and its expiry in range; each refusal; exactly the row written |
| TokenAnswers.RevokeByJtiAnswers | src/jwt/service.rs:284-312 | Nothing, true or false if and only if no row, a row and not denylisted, a row and denylisted; the row written has the latest row's expiry |
| TokenAnswers.ValidateAnswers | src/jwt/service.rs:155-226 | Every answer if and only if: undecodable, wrong issuer, wrong audience, expired, jti no UUID, revoked, active, each with its valid flag and claims |
| JwtService.JwtService.constructor | src/jwt/service.rs:40-42 | A new service has the given configuration and signer, and empty tables in the model |
| JwtService.JwtService.CheckAudience | src/jwt/service.rs:137-153 | The loop answers the first requested audience that is not allowed, or all of them, each allowed |
| JwtService.JwtService.Generate | src/jwt/service.rs:54-134 | Answers the planned token and appends its one row, or leaves both tables alone |
| JwtService.JwtService.StartExtend | src/jwt/service.rs:398-447 | Up to the transaction: what the call will commit, read from the tables at that moment, or the first error in the source's order |
| JwtService.JwtService.FinishExtend | src/jwt/service.rs:448-522 | The transaction against whatever the tables then are: both rows, or neither; a denylist row that is already there stays |
| JwtService.JwtService.Extend | src/jwt/service.rs:398-522 | One uninterrupted call is the check followed by the commit, with its whole answer: the new row and the old jti's denylist row appear together or not at all |
| JwtService.JwtService.Revoke | src/jwt/service.rs:315-343 | True exactly when newly denylisted, with the token's own expiry; an existing row is kept; metadata is untouched |
| JwtService.JwtService.RevokeByJti | src/jwt/service.rs:284-312 | The same by jti, with the expiry of the latest row; nothing for a jti never issued here |
| JwtService.JwtService.RevokeAll | src/jwt/service.rs:357-387 | The loop, each turn at its own instant and with any insertions of other callers in between, accounts for every token in order and writes exactly the rows of the jtis it won |
| JwtService.JwtService.BulkRevoke | src/jwt/service.rs:345-394 | One result a token in order, the three counts sum to the batch, newly = jtis whose row the batch wrote, whatever other callers insert between its turns; rows that were there and rows of others stay |
| JwtService.JwtService.ValidateToken | src/jwt/service.rs:155-226 | The chain of checks, in the source's order, answers what the specification says |
| BulkRevoke.CountsOfItems | src/jwt/service.rs:357-387 | For every batch, interrupted or not, the per-token results and the counts agree: newly is both the number of "revoked" items and the number of jtis whose row the batch wrote |
| BulkRevoke.PermutedBatchCountsTheSame | src/jwt/service.rs:345-394 | A permutation of the batch, whenever its tokens have their turns, has the same three counts and leaves the same jtis denylisted, as long as no key retires in the middle and nobody else denylists |
| BulkRevoke.OrderIrrelevantIff | src/jwt/service.rs:345-394 | For every signer, every clock and every batch size: the order of a batch never matters if and only if its turns all see the same advertised keys, or the two keys are one |
| BulkRevoke.RetirementMidBatchBreaksIt | src/jwt/service.rs:345-394 | For every signer and every clock that lets the retiring key go between two turns: a batch whose one readable token is revoked at the one turn and not at the other |
| BulkRevoke.LeftAloneGrowsByNewly | src/jwt/service.rs:345-394 | A batch nobody interferes with: newly is the number of distinct verifiable jtis not denylisted before, and the denylist grows by exactly those |
| BulkRevoke.BulkStatusMeaning | src/router/mod.rs:292-300 | 200, 400 and 409 if and only if all tokens were newly revoked, all failed, all were already revoked |
| JwtService.JwtService.ListForSubject | src/jwt/service.rs:528-636 | The loop answers the slice of the query's answer that the request means, each row summarised, with the pagination block |
| ListAnswers.SummaryTells | src/jwt/service.rs:593-616 | A row is shown with its own fields; revoked if and only if denylisted, else expired if and only if its expiry is past, with the denylist row's time and reason |
| ListAnswers.AnswersAreTheListing | src/jwt/service.rs:528-636 | The answers to the same request for page 0, 1 and so on to the last page announced, joined, are the whole listing in order, in both modes, each with its own pagination block |
| Listing.RequestMeans | src/jwt/service.rs:531-538 | A request's page size, row offset and page number from its limit, offset and mode; page times size stays in i64 if and only if the page is at most the largest i64 divided by the size |
| Listing.TotalPagesIsCeiling | src/jwt/service.rs:617-621 | The page count is the exact ceiling |
| Listing.AllPagesAreTheListing | src/jwt/service.rs:550-621 | Pages 0 to the last, joined, are the whole answer, each row once |
| Listing.ListingShowsMatchingRows | src/jwt/service.rs:550-621 | Over all pages a row is shown if and only if it is the subject's, within the four instants, both ends included, and of the name asked for |
| Lifecycle.DenyKeepsInv | src/jwt/service.rs:330-342 | Adding a denylist row that outlives its token keeps every invariant of the tables |
| Lifecycle.IssueKeepsInv | src/jwt/service.rs:475-497 | Appending a row that attaches to its chain, with the token it records, keeps every invariant |
| LifecycleRuns.VerifiedIsKnown | src/jwt/service.rs:398-417 | Whatever verifies carries the claims recorded for its jti, or comes from outside this database |
| LifecycleRuns.CommitKeepsInv | src/jwt/service.rs:475-514 | The commit of any pending extend keeps every invariant, whatever happened since its check |
| LifecycleRuns.InvAlways | src/jwt/service.rs:54-514 | Rows and tokens correspond, links form a forest, denylist rows outlive their tokens and chains keep their content, in every state of every run |
| ServiceRuns.GenerateStep | src/jwt/service.rs:54-134 | The service's generate takes the step of the runs |
| ServiceRuns.ExtendCheckStep | src/jwt/service.rs:398-447 | The first half of the service's extend is the check of the runs |
| ServiceRuns.ExtendCommitStep | src/jwt/service.rs:448-522 | The second half of the service's extend is the commit of the runs |
| ServiceRuns.RevokeStep | src/jwt/service.rs:315-343 | The service's revoke takes the step of the runs, and says true exactly when that changes anything |
| ServiceRuns.RevokeJtiStep | src/jwt/service.rs:284-312 | The service's revocation by jti takes the step of the runs |
| ExtensionChains.FollowSupersedes | migrations/0001_init.sql:21-34 | From any row, following `supersedes` reaches the chain's end |
| ExtensionChains.MetadataRowsFormForest | src/jwt/service.rs:418-514 | In every reachable state, overlapping extends included: the walk ends, the original is constant along it, every row passed is denylisted, and the end is a generate root or the first extension of a token with no row |
| ExtensionChains.AtMostOneLiveTokenPerChain | src/jwt/service.rs:414-514 | If extends of one token never overlap, each chain has at most one token that is not denylisted, in every reachable state |
| ExtensionChains.CommitKeepsOneLiveIff | src/jwt/service.rs:475-514 | With overlap allowed, a commit keeps one live token a chain if and only if the chain then has no live token but the one it replaces |
| ExtensionChains.OneLiveThroughoutIff | src/jwt/service.rs:414-514 | Over whole runs with overlap allowed: every state so far has at most one live token a chain if and only if every commit so far replaced the only live token of its chain |
| ExtensionChains.StepKeepsOneLiveIff | src/jwt/service.rs:475-514 | Only a commit that finds another live token on its chain can break it; every other event keeps it |
| ExtensionChains.OverlapLeavesTwoLive | src/jwt/service.rs:414-514 | In any reachable state, two extends in flight for one token that both commit leave two live tokens on its chain |
| ExtensionChains.OverlappingExtendsFork | src/jwt/service.rs:414-514 | Every service that can mint a token has a run of five steps, for any three unused jtis, that reaches such a state |
| ExtensionChains.EndedChainStaysDead | src/jwt/service.rs:414-514 | When revocation is final, over every run: a chain with no token live and none being extended never has a live token again |
| ExtensionChains.CommitRevivesChain | src/jwt/service.rs:475-514 | While a token of the chain is being extended it is not final: the commit brings the chain back, even if every token was revoked in between |
| ExtensionChains.ChainKeepsContent | src/jwt/service.rs:448-463 | Every token of a chain begun by generate has the issuer, subject, audience and extras that the request asked for |
| TokenActivity.InactiveStaysInactive | src/jwt/service.rs:155-226 | A minted token once inactive, for validation or introspection, is inactive in every later state of the run |
| TokenActivity.ReactivationIff | src/crypto/mod.rs:147-190 | Over every run, rotations included: any token that is active later is inactive now if and only if its kid misroutes it now or its key has not been used yet |
| TokenActivity.MisroutedTokenReactivates | src/crypto/mod.rs:147-190 | For every claim set a token that is inactive during a grace period and active after it |
| TokenActivity.ValidateExpiredVersusListing | src/jwt/service.rs:597-606 | In every reachable state, for every issuer and audience asked for and every policy: validation's "expired" implies the listing's not "active"; validation says active and the listing expired if and only if it is the second that contains `expires_at` and the token is otherwise in order |
| TokenActivity.DenyRowOutlivesToken | src/jwt/service.rs:276-342 | Whichever path wrote it, a minted token's denylist row does not expire before the token's `exp` |
| DenylistPurge.PurgingIsInvisible | migrations/0001_init.sql:48-51 | In every run with purges that leave the margin, at any times, every validation, introspection and extend check of any token answers as in the run without the purges, then and later, and the same tokens and rows come about |
| DenylistPurge.InvisibleIffMarginEnough | migrations/0001_init.sql:48-51 | The margin is exact: purging is invisible if and only if it leaves a second, and a second more than the expiries of any two tokens of one jti are apart |
| DenylistPurge.StepKeepsAgreement | migrations/0001_init.sql:48-51 | Every event of the service keeps the purged and the unpurged state in agreement |
| DenylistPurge.SmallerMarginReactivates | migrations/0001_init.sql:48-51 | With any smaller margin every service that can mint a token has a run, of a generate, a revoke, a wait and a purge, after which the revoked token is active again |
| DenylistPurge.SharedJtiReactivates | src/jwt/service.rs:327-342 | For two tokens from outside that share a jti, every margin below the gap of their expiries plus a second lets a run reactivate the one by revoking and purging the other |
| OAuthFlow.StaleIsNeverConsumable | src/oauth2/state_sweeper.rs:46-57 | A row the sweeper may take can never again be consumed, for every configured age |
| OAuthFlow.FreshRowConsumableIff | src/oauth2/flow.rs:180-193 | A login can be completed when created if and only if the age is positive after the cast to 32 bits |
| OAuthFlow.TtlIsAsAsked | src/oauth2/flow.rs:284-288 | What the provider sent if it is within the cap, the cap if it is more or nothing was sent, one second otherwise |
| OAuthFlow.EffectiveTtl | src/oauth2/flow.rs:284-288 | Between one second and the cap (or one second), whatever the provider sent |
| OAuthFlow.ConsumeRowAnswers | src/oauth2/flow.rs:180-193 | The provider's own row, strictly within its age, is handed out and leaves the table; the sweeper keeps exactly the rows that are not past it |
| OAuthFlow.FormRepeats | src/oauth2/flow.rs:213-228 | The code of the callback, the row's redirect URI, and its verifier unless it has none |
| OAuthFlow.FinishLoginAnswers | src/oauth2/flow.rs:269-300 | No ID token, or the refusal of its verification for the row's nonce at the second of the callback, and nothing else, stops a login here |
| OAuthFlow.FinishedLoginMatchesRow | src/oauth2/flow.rs:269-300 | A session is only made from an acceptable ID token for that row's nonce, with its subject, its mapped profile and a lifetime within the cap |
| OAuthFlow.OAuthBroker.BuildLoginUrl | src/oauth2/flow.rs:71-132 | Refuses an unknown provider, failed discovery or a pin mismatch before touching the table; else inserts exactly the row of this login's nonce, redirect URI and verifier, and sends exactly the request with its state and the hash of that verifier; an endpoint that is no URL fails after the insert |
| OAuthFlow.OAuthBroker.CompleteCallback | src/oauth2/flow.rs:160-315 | A matching, fresh row is deleted however the callback ends; the form sent and the error follow from that row; a session appears exactly on success, starts at that instant, lasts as long as asked within the cap, and the answer tells its id, expiry, profile and user |
| OAuthFlow.OAuthBroker.SweepOAuthState | src/oauth2/state_sweeper.rs:46-57 | Removes exactly the stale rows and counts them |
| LoginRuns.InvAlways | src/oauth2/flow.rs:71-300 | In every run, rows in the table are unconsumed logins, every callback holds its own login, and sessions and their makers correspond one to one |
| LoginRuns.NoRowIsReturnedTwice | src/oauth2/flow.rs:180-193 | No two consuming statements of a run return the same login, under any interleaving |
| LoginRuns.LoginConsumedAtMostOnce | src/oauth2/flow.rs:180-230 | A login is given to at most one callback and is then gone |
| LoginRuns.SessionTracesToOneLogin | src/oauth2/flow.rs:99-300 | Each session has exactly one login behind it: the exchange repeated the redirect URI of that login's authorization request and gave a verifier that hashes to its challenge, and the ID token has its nonce |
| LoginRuns.IdTokenYieldsOneSession | src/oauth2/idtoken.rs:169-186 | One ID token yields at most one session |
| LoginRuns.SweeperIsInvisible | src/oauth2/state_sweeper.rs:18-57 | Sweeps inserted into or removed from a run anywhere leave a run that gives every callback the same answer and creates the same sessions |
| BrokerRuns.LoginStep | src/oauth2/flow.rs:71-132 | From equal tables the broker's login leaves the table and the request of the run's login, or the row alone when the endpoint is no URL |
| BrokerRuns.CallbackStep | src/oauth2/flow.rs:160-315 | The broker's callback is the run's consume, exchange and finish |
| BrokerRuns.SweepStep | src/oauth2/state_sweeper.rs:46-57 | The broker's sweep is the run's |
| IdToken.VerifyAcceptsIff | src/oauth2/idtoken.rs:81-189 | Accepted if and only if the claims are acceptable under section 3.1.3.7 of OpenID Connect Core, the key set could be fetched, and its first matching key is a usable asymmetric one that signed the token |
| IdToken.UnambiguousKeyLosesNothing | src/oauth2/idtoken.rs:110-131 | When one published key matches, nothing that any matching key would accept is refused |
| IdToken.KeyTried | src/oauth2/idtoken.rs:110-131 | With a kid a key of that kid, whatever its algorithm; without one a key that declares the header's algorithm, or none and is of its kind |
| IdToken.VerifyRefusals | src/oauth2/idtoken.rs:88-189 | Each refusal if and only if, in the order of the checks: header, symmetric algorithm, key set, key, signature and times, audience, issue in the future, nonce missing, nonce different |
| IdToken.ResolveClaimPath | src/oauth2/idtoken.rs:277-287 | The loop computes the walk through nested objects |
| IdToken.DottedPathNests | src/oauth2/idtoken.rs:266-287 | A dotted path is its front resolved, then its back inside that object, with no fallback to a top-level name |
| IdToken.PlainPathIsTopLevel | src/oauth2/idtoken.rs:266-287 | A name without a dot is the top-level claim |
| IdToken.ProfileFromClaims | src/oauth2/idtoken.rs:289-311 | The loop builds a profile with every mapped name whose claim is present and no other |
| IdToken.ProfileTells | src/oauth2/idtoken.rs:293-311 | A mapping reaches the subject, the issuer and the audience, as a list, by their registered names, and the provider's claims by path |
| SessionStores.MemoryStore.Get | src/oauth2/session/memory.rs:34-46 | An expired session is not returned and is removed |
| SessionStores.MemoryStore.SweepExpired | src/oauth2/session/memory.rs:59-72 | Collecting and then removing leaves exactly the sessions not expired and counts the others |
| SessionStores.PostgresStore.Get | src/oauth2/session/postgres.rs:74-113 | Returns the unexpired row with its profile opened |
| SessionStores.PostgresStore.Touch | src/oauth2/session/postgres.rs:115-128 | Changes the last activity of an unexpired row and nothing else |
| SessionStores.RowRoundTrip | src/oauth2/session/postgres.rs:49-113 | A session sealed into a row is read back unchanged |
| SessionHistories.StoresAnswerAlike | src/oauth2/session/memory.rs:29-72 | On every history both stores answer every read alike, last activity and profile included, and as the naive specification does |
| SessionHistories.ReadableIff | src/oauth2/session/store.rs:24-26 | Readable means created, not revoked, and ending strictly later than now |
| SessionHistories.RevokeAnswersDifferOnlyOnExpired | src/oauth2/session/postgres.rs:130-143 | Where one store has a session to revoke and the other has not, it is created, unrevoked and expired |
| SessionHistories.LookupKeepsTimes | src/oauth2/session/store.rs:24-26 | A session read is a created one with nothing changed but its last activity |
| SessionHistories.TouchingDoesNotExtend | src/oauth2/session/memory.rs:34-53 | No history keeps a session readable past its creation plus the cap |
| SessionHistories.AtomicGetIsGetThenDrop | src/oauth2/session/memory.rs:34-46 | The store's get is the two steps the histories interleave |
| SessionHistories.AtomicSweepIsSweepThenDrops | src/oauth2/session/memory.rs:59-72 | The store's sweep is the collecting step and the removals, in any order |
| SessionCipher.KeyFromHex | src/oauth2/session/crypto.rs:23-37 | Succeeds if and only if the trimmed text is 64 hex digits, and the key writes back as that text in lower case |
| SessionCipher.OpenSeal | src/oauth2/session/crypto.rs:39-63 | Opening what was sealed under a twelve-byte nonce gives the text back |
| SessionCipher.OpenAnswers | src/oauth2/session/crypto.rs:53-63 | Refused unread below twelve bytes; otherwise the first twelve are the nonce and the rest is decrypted |
| HexCodec.HexEncode | src/oauth2/flow.rs:342-348 | The loop writes two lower-case digits a byte |
| HexCodec.HexDecode | src/oauth2/session/crypto.rs:68-80 | Over the UTF-8 bytes of the trimmed text: odd length first, else the bytes or the error of the first bad one |
| HexCodec.HexInUtf8 | src/oauth2/session/crypto.rs:70-73 | Text has only hex digits among its bytes if and only if it is hex digits, and then it is its own bytes |
| HexCodec.DecodeOfEncode | src/oauth2/session/crypto.rs:68-89 | Decoding the encoding of any bytes gives them back |
| HexCodec.EncodeOfDecode | src/oauth2/session/crypto.rs:68-89 | Decoding succeeds if and only if the trimmed text is an even number of hex digits, and encoding the result is that text in lower case |
| HexCodec.DecodeErrors | src/oauth2/session/crypto.rs:68-89 | Odd length if and only if the bytes are odd in number; otherwise the error names the first byte that is no hex digit |
| Discovery.DiscoveryCache.FetchWith | src/oauth2/discovery.rs:127-160 | At most one fetch more than the retries; sleeps the sum of the backoffs; stops at the first success, permanent error or last try; never reaches the trailing error; caches only validated documents |
| Discovery.DiscoveryCache.FetchForFlagOfUrl | src/oauth2/discovery.rs:127-160 | If the flag depends on the URL alone, every caller gets a document valid for its own flag |
| Discovery.CallersServedIff | src/oauth2/discovery.rs:127-160 | Calls, however their lookups, replies and insertions interleave, get only documents valid for their callers, for all replies and evictions, if and only if no URL is looked up strictly after it was looked up permissively |
| Discovery.CallAtOnceIsFetched | src/oauth2/discovery.rs:127-160 | A lookup followed at once by its reply is the operation that the cache's method performs |
| Discovery.PermissiveThenStrict | src/oauth2/discovery.rs:127-131 | Two calls on the cache after which the strict caller holds a plain-HTTP document |
| Discovery.FlagOnlyGatesHttp | src/oauth2/discovery.rs:42-90 | The flag decides about plain-HTTP endpoints and nothing else |
| Discovery.RefusalsOfValidate | src/oauth2/discovery.rs:42-90 | Each refusal if and only if: a blank field, a plain endpoint without the flag, grants without the code grant, response types without code, in that order |
| Discovery.HttpsMeans | src/oauth2/discovery.rs:55-75 | An endpoint counts as TLS if and only if it starts with the eight characters of the scheme |
| Discovery.DelayDoubles | src/oauth2/discovery.rs:127-160 | The running delay is the capped power of two |
| Discovery.DelaysSumUp | src/oauth2/discovery.rs:132-153 | Half a second, one, two, and four from then on |
| Discovery.StatusIsRetriedUnless4xx | src/oauth2/discovery.rs:187-196 | Reading the class back out of the message retries an answer if and only if its status is not a 4xx |
| Discovery.FailuresAreRetried | src/oauth2/discovery.rs:162-196 | Connection errors and unreadable documents are retried unless their reason holds the marker; timeouts always; nothing else |
| CookieScanner.CookieValue | src/router/mod.rs:621-634 | The scan answers the first part that has the name and a value; what it answers is neither empty nor padded, on any header |
| CookieScanner.ScanFindsFirstNonEmpty | src/router/mod.rs:616-634 | Scanning any rendered list of clean pairs for a name finds its first non-empty value, or nothing |
| CookieScanner.ValueIsClean | src/router/mod.rs:628-630 | On arbitrary input a value found is neither empty nor padded |
| Strings.SpacesAre | src/router/mod.rs:627 | Trimming goes by Unicode's twenty-five white-space characters |
| Strings.SplitAppend | src/oauth2/idtoken.rs:281 | Splitting a path distributes over a separator |
| Strings.JoinSplit | src/router/mod.rs:626 | Splitting a header loses nothing |

## Left out

- JwtService.JwtService.RevokeAll: other callers act between two turns of the loop, not inside one; a turn verifies and inserts in one step.
- JwtService.JwtService.Extend: one call in which nothing intervenes; the interleaved call is the two steps of `Lifecycle`.
- JwtService.JwtService.ListForSubject: the page, the count and each denylist lookup are separate statements in the source and one here; rows with equal `issued_at` may come in any order, but the same order for every page; audiences are lists, not comma-joined text.
- Listing.RequestMeans: overflow wraps, as in a release build; a debug build stops instead.
- Claims.RoundTrip: the 64-bit range of `exp` and `iat` is not modelled.
- OAuthFlow.OAuthBroker.CompleteCallback: redirect URI resolution and the ways an HTTP exchange can fail are not told apart, and sessions are a map rather than either store.
- OAuthFlow.OAuthBroker.BuildLoginUrl: the request is a record of its parameters, not URL text.
- IdToken.VerifyAcceptsIff: library checks are stated as conditions on the claims, with the configured leeway inclusive at both ends; a payload of the wrong shape is one case.
- DenylistPurge.InvisibleIffMarginEnough: for the necessity of the margin, tokens from outside are taken to be earlier issues under the current key that are not over.
- Discovery.RefusalsOfValidate: the message of a refusal does not name the field or endpoint it is about.
- Discovery.DiscoveryCache.FetchWith: one call in one step; calls that overlap are the moments of `CallersServedIff`. Eviction by age or size is the separate method `Evict`, which drops any entry.
- Tables that already hold rows when a run starts: runs start empty, with outside tokens standing for earlier issues, and `Insert` for login rows of an older version.
- `authenticate_bearer`, whose `exp` check uses the library's default leeway.
- The legacy revocation endpoint's choice between token, jti and cookie (`src/router/mod.rs`): a case split over operations modelled here.
- RSA, SHA-256, ChaCha20-Poly1305, base64 and JSON text: uninterpreted.
- HTTP plumbing, configuration, admin checks, logging and the key-set cache's single flight: easy or inside a library.
- Panics of date arithmetic for extreme expiry minutes: inputs are taken to be in range.
