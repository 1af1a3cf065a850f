# Sessions, caches and windows: a verified model

A Slack-like workspace server keeps sessions alive by rotating refresh tokens, shields its database with a versioned
cache, limits callers by counters in Redis, shows a language model a redacted chat history, and runs huddles,
verification codes and third-party authorizations over plain tables. This project models those parts and proves what
they guarantee in every run, and exactly when they do not.

The protocols with interleaving are state machines: a `State`, an `Event` per step between which another request may
run, a `Step` function that is `None` when the event is not enabled, and `Exec` over a schedule of events. The
inductive invariant and the proof that every step keeps it come next, then the theorems about whole runs. The services
themselves are classes with the fields and tables the source updates. Each of their methods states its effect on those
tables outright and is proved to be a schedule of the machine, so that what holds of every run holds of the calls.

| File | Content |
|---|---|
| `TokenRotation*.dfy` | refresh-token rotation: machine, invariant, theorems |
| `RevokeAll.dfy`, `Overtaking.dfy` | what a revoke-all guarantees and exactly when a rotation can overtake it |
| `UninterruptedRefresh.dfy`, `AuthService.dfy` | the session methods and the Redis side of authentication, tied to the machine |
| `CacheProtocol.dfy`, `CacheSafety.dfy`, `CacheTheorems.dfy`, `CachedService.dfy` | versioned list cache, detail cache and singleflight across processes |
| `RateLimit.dfy` | the window counter |
| `ChatHistory.dfy` | text extraction and the history window |
| `HuddleLifecycle.dfy`, `VideoCallService.dfy` | huddles, webhooks and recording |
| `Verification.dfy`, `VerificationService.dfy` | verification codes |
| `OAuth.dfy` | listing and revoking third-party clients |

## What the proofs found

Where a promise fails, the code is modelled as it is, the exact condition is proved, and a run from the initial state
reaches the failing case.

- **The first revoke-all of a user turns away no access token.** A missing version key reads as 1
  (`libs/cached/src/authCached.service.ts:38`), and INCR of a missing key also gives 1. A token rotated before it and
  presented again inside its 15-second grace window buys an accepted access token, at any time after the revoke-all, if
  and only if the key was never written before it and not bumped since (`BumpTurnsAwayIff`, `ReplayAfterRevokeAllIff`,
  `ReplayGapIsReachable`).
- **A rotation can overtake a revoke-all.** The update sees the rows of its snapshot and waits for those that are locked; a
  rotation that commits meanwhile leaves a child session the update never selected, and it stays usable. An update can
  be overtaken if and only if the user has a usable session at its snapshot that is unexpired or already being rotated
  (`OvertakableIff`, `OvertakingIsReachable`). It is final in every continuation if and only if no such child is usable
  when it completes (`RevokeRowsFinalIff`), and so it is whenever no rotation of the user commits during it
  (`UndisturbedUpdateIsFinal`). With the bump of an existing key after it, old tokens are worthless for ever if and only
  if no such child is usable at the bump (`RevokeAllFinalIff`, `RevokeAllIsFinal`).
- **Detail invalidation is not enough while an older fetch is outstanding.** Later reads are fresh if and only if no
  process has a fetch of the key that read the database before the write (`InvalidateDetailIff`,
  `StaleFetchIsReachable`). List invalidation needs no such condition (`BumpIsAlwaysEnough`), provided writers write
  before they bump (`WriteAloneIff`, `StaleListIsReachable`).
- **The limiter's window is fixed, not sliding**, against its comment (`libs/cached/src/rateLimit.service.ts:19-20`). It
  keeps the sliding promise if and only if the limit is at most 1 or the window is one unit (`SlidingIff`). Any interval
  of window length sees at most 2·limit − 1 allowed calls, one fewer than two full windows, and that is reached
  (`IntervalBound`, `IntervalBoundIsTight`).
- **Late webhooks break the huddle rules.** A step keeps one active huddle per channel and nobody in an ended huddle if
  and only if it is not a `room_started` for an ended huddle whose channel has another one, nor a `participant_joined`
  for an ended huddle (`OrderlyIffTimely`, `LateWebhooksAreReachable`).
- **A second recording loses the first.** `startRecording` does not ask whether the huddle is recording. A huddle loses a
  running recorder, without stopping it, if and only if another start succeeds on it, and then never stops it
  (`LosesRecordingIff`, `LostRecordingStaysLost`, `LostRecordingIsReachable`).
- **Two e-mail codes of one user can be accepted at one instant**, the older one's last: `verifyEmail` accepts at equality
  while `resendCode` looks for codes strictly alive. A step adds a second acceptable e-mail code if and only if it is a
  resend at that instant (`SecondEmailCodeIff`, `TwoEmailCodesAtLastInstant`).
- **Reset codes have no bound.** A step adds a second acceptable one if and only if it issues one while another is live
  (`SecondResetCodeIff`), and for every n some run leaves n of them acceptable at once (`ResetCodesUnbounded`).
- `buildTruncatedHistorySummary` is described as making no model call
  (`apps/orchestration/src/message-client.service.ts:214-217`) but makes one; `setUserTokenVersion` has no caller.

## Modelling decisions

- Refresh tokens, session ids and verification codes are numbers handed out once, and a token stands for its own hash.
  A duplicate would be refused by the unique index
  (`apps/auth/migrations/1776350648059-addIndexesToAuthAndRelatedEntities.ts:17`). JWT verification, password hashing,
  the model call, JSON repair and LiveKit answers are parameters.
- An access token is accepted when its `tokenVersion` equals the effective version, as both gateways check
  (`apps/api-gateway/src/common/guards/jwt_auth.guard.ts:64`, `apps/socket-gateway/src/gateway/socket.gateway.ts:116`);
  `loadtest/seed_bulk_users.js:9-12` describes the same. The guards also check expiry and the
  blacklist (`apps/api-gateway/src/common/guards/jwt_auth.guard.ts:51-62`), which are not part of it. Both would only
  strengthen the theorems that an access token is turned away; where a theorem says that one is accepted, as one half
  of `ReplayAfterRevokeAllIff` does, it speaks of tokens that have neither expired nor been blacklisted by a logout.
- A minted pair carries the number of its refresh token in its access token, so that access tokens are pairwise distinct.
  In the source an access token has no id of its own (`apps/auth/src/auth.service.ts:212-215`): two minted for one user
  within one second are one string, and blacklisting one blacklists both. No theorem depends on their being distinct.
- A refresh is split into lock and read, rotate, read the version, insert the child, write the grace entry, commit, or
  lookup, update of the user's rows, bump. Its transaction's overlay lives in the phase of the request; reuse detection
  and revoke-all write to the committed table directly. Their update is two steps: it selects the user's unrevoked rows
  in a snapshot, and completes once no request holds the lock of a selected row. Rows it has reached before are not
  locked meanwhile; a schedule that takes one is that of an update that had not reached it yet. A logout waits for a
  locked row.
- After the grace entry is written, the commit succeeds. Grace entries end by their time only, and version keys
  stay. Seven days are 7·24 hours, without clock changes.
- The database behind the cache is a counter of writes, and a fetched value is the count it saw. Cached values may vanish
  at any time (TTL with its jitter, eviction, failing SET); the tracker may not. One tracker suffices in the machine,
  as different trackers share no key; the class has all of them. A process that dies is one whose steps no longer happen.
- A value in the cache is truthy, since only truthy values are stored; `null`, `0` and `''` are fetched again.
- In the history, messages are told apart by position, absent previews are empty strings, and text is a sequence of
  characters. `trim` removes the white space and line terminators of ECMAScript.
- An authorization table holds each access token and each refresh token once: they are its primary key and a unique column
  (`apps/auth/src/entity/oauth-token.entity.ts:16-20`).
- Huddle and verification handlers, and the methods of all classes, run without interruption. A query that returns one of
  several matching rows may return any of them.
- An egress id is a non-empty string in the source and an opaque number here; the recorder's failure is `None`.

## Model

| member | source | states |
|---|---|---|
| `TokenRotationSafety.StepKeepsInv` | apps/auth/src/auth.service.ts:398-498 | every step of any request keeps the invariant: sessions form an unforked forest of revoked parents, row locks and pending children are exclusive, grace entries belong to the one child of their token |
| `TokenRotationSafety.StepGrows` | apps/auth/src/auth.service.ts:412-490 | no step removes a session, changes its user or expiry, or makes a revoked one usable; effective versions never fall |
| `TokenRotationSafety.RunKeepsInv` | apps/auth/src/auth.service.ts:398-704 | the invariant holds after every schedule of logins, refreshes, logouts, revoke-alls, aborts and clock ticks |
| `TokenRotationTheorems.SessionsFormAForest` | apps/auth/src/auth.service.ts:463-481 | in every run a session has at most one rotation child, of the same user, and a session with a child is revoked |
| `TokenRotationTheorems.LineageHasOneLiveSession` | apps/auth/src/auth.service.ts:412-490 | in every run the sessions descending from one login include at most one that is not revoked |
| `TokenRotationTheorems.CommitConserves` | apps/auth/src/auth.service.ts:463-490 | in every run, a committed rotation keeps every user's number of usable sessions: one goes, one comes |
| `TokenRotationTheorems.RefreshesAgree` | apps/auth/src/auth.service.ts:425-437 | in every run all granted refreshes of one token returned the same pair, whose refresh token is the only child session |
| `TokenRotationTheorems.GraceEntryIsFinal` | libs/cached/src/authCached.service.ts:48-60 | once written, the grace entry of a token is never overwritten, in any continuation |
| `TokenRotationTheorems.HolderReadsRevoked` | apps/auth/src/auth.service.ts:412-425 | whoever holds the lock of a token that has a grace entry has read a revoked row |
| `TokenRotationTheorems.ReplayExactlyAfterRotation` | apps/auth/src/auth.service.ts:425-437 | with a revoked row in hand, the pair of the committed child is replayed exactly when the token was rotated and its entry is alive; otherwise reuse is found; no row changes |
| `TokenRotationTheorems.LateRefreshReplaysWinner` | apps/auth/src/auth.service.ts:412-489 | in every run, once the winner has written its grace entry and before its TTL ends, whoever holds the row lock and has yet to look replays the winner's pair and changes nothing else, whatever ran before the lock and after it |
| `RevokeAll.ReuseIsDurable` | apps/auth/src/auth.service.ts:440-449 | in every run, once the update of reuse detection completes, all sessions of its snapshot are revoked and stay so, and the refresh is never granted, whatever else runs and whether its transaction rolls back before or after the bump |
| `RevokeAll.ReuseNeverWaitsForItself` | apps/auth/src/auth.service.ts:412-449 | in every run, the update of reuse detection, outside its transaction, never selects the row that transaction has locked, so that it completes once no other request holds a lock |
| `TokenRotationTheorems.RevokedForever` | apps/auth/src/auth.service.ts:398-704 | a revoked session stays revoked in every continuation of every run |
| `RevokeAll.UpdateRevokes` | apps/auth/src/auth.service.ts:690-696 | from its snapshot to its completion, whatever runs between, an update revokes exactly the rows of the user that were usable at the snapshot and touches no other |
| `RevokeAll.OldTokensRevoked` | apps/auth/src/auth.service.ts:690-696 | all tokens the user had at the snapshot are revoked when the update completes and in every continuation |
| `RevokeAll.RevokeAllIsFinal` | apps/auth/src/auth.service.ts:690-697 | in every run, a revoke-all during whose update no rotation of the user commits, and which then bumps an existing key, leaves in every continuation no usable session descending from an old token and no accepted pair returned for one, whatever runs between its steps |
| `Overtaking.RotationCompletes` | apps/auth/src/auth.service.ts:463-490 | an open rotation, from whichever step, can run to its commit and leaves an unrevoked session descending from the same login |
| `RevokeAll.RevokeRowsFinalIff` | apps/auth/src/auth.service.ts:690-696 | in every run, no continuation of a completed update has a usable session descending from an old token if and only if, when it completed, no session made from one since the snapshot was usable |
| `RevokeAll.NowOrNever` | apps/auth/src/auth.service.ts:412-490 | old lineages without a usable session stay so in every continuation, and only those do |
| `RevokeAll.UndisturbedUpdateIsFinal` | apps/auth/src/auth.service.ts:690-696 | in every run, an update during which no rotation of the user commits is final |
| `RevokeAll.RevokeAllFinalIff` | apps/auth/src/auth.service.ts:440-449 | in every run, once an existing key is bumped after the update, in every continuation no old token has a usable descendant and no pair returned for one is accepted, if and only if at the bump no session made from one since the snapshot was usable |
| `Overtaking.OvertakableIff` | apps/auth/src/auth.service.ts:412-490 | in every run, some schedule lets a session made from an old token outlive the update if and only if at the snapshot the user has a usable session that is unexpired or already being rotated |
| `Overtaking.UpdateNeverStuck` | apps/auth/src/auth.service.ts:440-447 | in every run, an update under way can still complete, whatever other requests are doing |
| `TokenRotationTheorems.EffectiveAfterBumps` | libs/cached/src/authCached.service.ts:35-44 | from a missing key, n bumps give the effective version max(1, n) |
| `TokenRotationTheorems.BumpTurnsAwayIff` | libs/cached/src/authCached.service.ts:35-44 | a bump leaves an accepted token accepted exactly when the version key was missing |
| `TokenRotationTheorems.BumpIsFinal` | libs/cached/src/authCached.service.ts:41-44 | in every run, once an existing key is bumped, no access token of the user minted until then, by login or refresh, is accepted in any continuation |
| `TokenRotationTheorems.VersionCountsBumps` | libs/cached/src/authCached.service.ts:41-44 | over any run the counter a version key holds, 0 when missing, grows by exactly the number of the user's bumps, and the key exists from the first one on |
| `TokenRotationTheorems.Replay` | apps/auth/src/auth.service.ts:425-437 | presenting a revoked token while its grace entry lives returns the cached pair and changes nothing else |
| `TokenRotationTheorems.ReplayAfterRevokeAllIff` | apps/auth/src/auth.service.ts:929-934 | in every run, an old token looked up inside its grace window at any time after a revoke-all's bump gets the cached pair, whose version is the effective one if and only if the key had never been written before the bump and was not bumped since |
| `TokenRotationTheorems.LoginAcceptedIff` | apps/auth/src/auth.service.ts:382-394 | in every run a login ends with one fresh session of the user, usable for seven days, and its access token is accepted if and only if, since its version was read, no bump came or only the first one of a missing key |
| `TokenRotationTheorems.GrantedAcceptedIff` | apps/auth/src/auth.service.ts:210-214 | the access token of a rotation is the owner's and is accepted if and only if, since its version was read, no bump came or only the first one of a missing key |
| `TokenRotationTheorems.AbortRollsBack` | apps/auth/src/auth.service.ts:411-490 | until the grace entry is written a refresh can roll back: it is rejected and no table changes |
| `TokenRotationTheorems.LogoutRevokes` | apps/auth/src/auth.service.ts:650-660 | a logout revokes exactly the presented session if it is usable and unexpired, waits while its row is locked, and changes nothing otherwise |
| `FirstRevokeAll.ReplayGapIsReachable` | apps/auth/src/auth.service.ts:690-697 | one login, one refresh and the user's first revoke-all lead to a refresh of the old token that is granted an accepted access token |
| `FirstRevokeAll.OvertakingIsReachable` | apps/auth/src/auth.service.ts:411-423 | after a login, with the version key present, some schedule lets a refresh overtake a revoke-all |
| `UninterruptedRefresh.RefreshRuns` | apps/auth/src/auth.service.ts:411-490 | a refresh that nothing interrupts is a schedule of the machine, for each of its outcomes; what it does is said by RefreshEffects |
| `UninterruptedRefresh.RefreshEffects` | apps/auth/src/auth.service.ts:411-490 | unknown, expired or without e-mail: rejected and no table changes; usable: old session revoked, fresh seven-day child, accepted pair kept for 15 seconds; revoked with a live entry: exactly the stored pair; revoked without: rejected, all sessions of the user and no others revoked, the counter one higher |
| `UninterruptedRefresh.LoginRuns` | apps/auth/src/auth.service.ts:382-394 | a login that nothing interrupts is a schedule of the machine; what it does is said by LoginAcceptedIff |
| `UninterruptedRefresh.RevokeAllRuns` | apps/auth/src/auth.service.ts:690-697 | a revoke-all that nothing interrupts is a schedule of the machine and ends in the stated state |
| `UninterruptedRefresh.RevokeAllEffects` | apps/auth/src/auth.service.ts:690-697 | all sessions of the user are revoked, nobody else's are touched, and the user's counter grows by one |
| `AuthCache.AuthCacheService.BlacklistToken` | libs/cached/src/authCached.service.ts:15-19 | the token is listed until the given time and nothing else changes |
| `AuthCache.AuthCacheService.IsBlacklisted` | libs/cached/src/authCached.service.ts:21-26 | true exactly while an entry of the token is alive |
| `AuthCache.AuthCacheService.GetUserTokenVersion` | libs/cached/src/authCached.service.ts:35-39 | the effective version: 1 for a missing key |
| `AuthCache.AuthCacheService.BumpUserTokenVersion` | libs/cached/src/authCached.service.ts:41-44 | INCR: the user's counter, from 0 when missing, grows by one; no other changes |
| `AuthCache.AuthCacheService.CacheRotationResult` | libs/cached/src/authCached.service.ts:48-59 | the pair is stored under the old token for 15 seconds |
| `AuthCache.AuthCacheService.GetRotationResult` | libs/cached/src/authCached.service.ts:61-67 | the stored pair while its entry lives, else none |
| `AuthService.AuthService.GenerateTokens` | apps/auth/src/auth.service.ts:206-221 | a pair never handed out before, carrying the user's effective version |
| `AuthService.AuthService.CreateSession` | apps/auth/src/auth.service.ts:223-239 | one new unrevoked session of seven days under the refresh token, with no parent |
| `AuthService.AuthService.Login` | apps/auth/src/auth.service.ts:382-394 | returns a pair whose access token is the user's and accepted and whose refresh token names one fresh unrevoked session of seven days, all other rows unchanged; it is the machine's login start and finish |
| `AuthService.AuthService.Refresh` | apps/auth/src/auth.service.ts:398-498 | an unverifiable token changes nothing; a verified one is refused, rotated, replayed or treated as reuse, each with its full effect on reply, rows, versions and grace entries; the call is a schedule of the machine |
| `AuthService.AuthService.InTransaction` | apps/auth/src/auth.service.ts:411-490 | the callback ends in the state of the uninterrupted refresh, for each of its branches |
| `AuthService.AuthService.RevokeAllOfUser` | apps/auth/src/auth.service.ts:444-448 | exactly the user's usable sessions are revoked and the user's version is bumped |
| `AuthService.AuthService.Rotate` | apps/auth/src/auth.service.ts:463-489 | the old session is revoked, one child session and the grace entry are written, and nothing else changes |
| `AuthService.AuthService.Logout` | apps/auth/src/auth.service.ts:636-677 | succeeds exactly for an unrevoked, unexpired session, which is then revoked and no other; the access token is blacklisted only then; it is the machine's logout |
| `AuthService.AuthService.LogoutAll` | apps/auth/src/auth.service.ts:690-697 | all sessions of the user are revoked, nobody else's, and the counter grows by one; it is the machine's snapshot, update and bump |
| `CacheSafety.StepKeepsInv` | libs/cached/src/cached.service.ts:98-152 | every step of any reader, writer, eviction or fetch of any process keeps the invariant: entries and fetches under a version are no older than the version, the map mirrors outstanding fetches |
| `CacheSafety.RunKeepsInv` | libs/cached/src/cached.service.ts:98-152 | the invariant, and with it the growth of database, tracker and version floors, holds over every schedule |
| `CacheTheorems.ReturnedIsGood` | libs/cached/src/cached.service.ts:98-127 | in every run, every value returned for a key was produced by a fetch for that key and is no older than the key's version |
| `CacheTheorems.CallKeepsKey` | libs/cached/src/cached.service.ts:143-147 | once a call has built its key, it keeps that key to its end |
| `CacheTheorems.ListReadSeesWrites` | libs/cached/src/cached.service.ts:135-152 | in every run and interleaving, a list read whose version step follows a bump returns a snapshot with everything written before that bump |
| `CacheTheorems.GuardKept` | libs/cached/src/cached.service.ts:98-127 | a key with nothing older than a write cached or on its way stays so, and later calls see nothing older, in every run |
| `CacheTheorems.FreshSuffices` | libs/cached/src/cached.service.ts:98-127 | from such a state all later calls of the key reflect the write |
| `CacheTheorems.StaleHit` | libs/cached/src/cached.service.ts:104-105 | a cached value, however old, is returned to some later call |
| `CacheTheorems.StaleFlight` | libs/cached/src/cached.service.ts:107-111 | an outstanding fetch that has read the database hands its value to some later call |
| `CacheTheorems.FreshIff` | libs/cached/src/cached.service.ts:98-127 | all later calls of a key reflect a write if and only if neither the cache nor an outstanding fetch holds something older |
| `CacheTheorems.InvalidateDetailIff` | libs/cached/src/cached.service.ts:129-131 | after a write and its invalidation, all later reads reflect it if and only if no process has a fetch of the key outstanding that read before the write |
| `CacheTheorems.StaleFetchIsReachable` | libs/cached/src/cached.service.ts:98-131 | a run reaches a read overtaken by a write, after which invalidation does not keep the old value away |
| `CacheTheorems.BumpIsAlwaysEnough` | libs/cached/src/cached.service.ts:150-152 | after a bump, all later reads under the new version reflect everything written, unconditionally |
| `CacheTheorems.WriteAloneIff` | libs/cached/src/cached.service.ts:135-152 | a write that no bump follows is seen by all later reads under the current version if and only if its list is neither cached nor read by an outstanding fetch |
| `CacheTheorems.StaleListIsReachable` | libs/cached/src/cached.service.ts:135-152 | a writer that bumps before it writes can have its write missed: a run caches the list in between |
| `CacheTheorems.OneFetchPerProcessAndKey` | libs/cached/src/cached.service.ts:107-126 | in every run, a process's map holds a key for a fetch exactly while that fetch of that key, SET included, is outstanding |
| `CacheTheorems.JoinedCallersAgree` | libs/cached/src/cached.service.ts:107-111 | in every run all callers that awaited one fetch got the same outcome |
| `CacheTheorems.SettledFetchFreesKey` | libs/cached/src/cached.service.ts:107-126 | in every run, no caller ever joins a settled fetch: it awaits another one that is outstanding, and starts it when there is none |
| `CachedService.ChainRuns` | libs/cached/src/cached.service.ts:114-123 | the promise chain of a fetch, run undisturbed, is a schedule of the machine; what it leaves is said by ChainEffects |
| `CachedService.ChainEffects` | libs/cached/src/cached.service.ts:114-123 | the fetch settles with the fetcher's value, or with an error when it rejects; a truthy value and no other is stored when Redis answers; the map loses exactly the key |
| `CachedService.CachedService.Get` | libs/cached/src/cached.service.ts:58-66 | the entry, or a miss when there is none or Redis fails |
| `CachedService.CachedService.Set` | libs/cached/src/cached.service.ts:68-75 | the entry is replaced, or nothing changes when Redis fails |
| `CachedService.CachedService.Del` | libs/cached/src/cached.service.ts:77-83 | exactly that entry goes, or nothing changes when Redis fails |
| `CachedService.CachedService.GetVersion` | libs/cached/src/cached.service.ts:87-90 | the tracker's version, 0 when missing |
| `CachedService.CachedService.BumpVersion` | libs/cached/src/cached.service.ts:92-94 | that tracker's version grows by one, no other |
| `CachedService.CachedService.InvalidateListBulk` | libs/cached/src/cached.service.ts:154-159 | every tracker's version grows by its number of occurrences in the list |
| `CachedService.CachedService.InvalidateList` | libs/cached/src/cached.service.ts:150-152 | that tracker's version grows by one, for every process: the machine's bump |
| `CachedService.CachedService.InvalidateDetail` | libs/cached/src/cached.service.ts:129-131 | exactly that entry goes, or nothing when Redis fails: the machine's invalidation |
| `CachedService.CachedService.BeginList` | libs/cached/src/cached.service.ts:135-148 | up to its first wait a list call is the machine's version read, GET and continuation, under the current version's key; a version read that throws ends the call |
| `CachedService.CachedService.BeginDetail` | libs/cached/src/cached.service.ts:104-125 | a cached value is a hit, else the outstanding fetch of the key is awaited, else one is started and the map gains the key; it is the machine's GET and continuation |
| `CachedService.CachedService.CompleteFetch` | libs/cached/src/cached.service.ts:114-123 | the outcome is the fetcher's value, or an error when it rejects; the entry gains exactly a truthy value when Redis answers; the map loses exactly the key; it is the machine's chain |
| `RateLimit.RateLimitService.IncrementInWindow` | libs/cached/src/rateLimit.service.ts:4-28 | the count is one higher; a hit that counts 1 is gone exactly from now plus the window on, and a later one ends when the window does; other keys stay |
| `RateLimit.RateLimitService.IsAllowed` | libs/cached/src/rateLimit.service.ts:35-42 | allowed exactly when fewer than limit calls were counted in the window, which a first call opens for the window's length |
| `RateLimit.RateLimitService.GetRemaining` | libs/cached/src/rateLimit.service.ts:44-47 | positive exactly when a call at that instant would be allowed, and then the number of calls left |
| `RateLimit.WindowAdmits` | libs/cached/src/rateLimit.service.ts:4-10 | inside an open window call number i is allowed exactly while the limit lasts; refusals do not extend the window |
| `RateLimit.FirstWindowAdmits` | libs/cached/src/rateLimit.service.ts:35-42 | a window with n calls allows exactly its first min(n, limit) |
| `RateLimit.NextWindowOpens` | libs/cached/src/rateLimit.service.ts:4-10 | the first call at or after the window's end is allowed if and only if the limit is at least 1, and from it on the verdicts are those of a new key |
| `RateLimit.WindowEnds` | libs/cached/src/rateLimit.service.ts:4-10 | from a missing key, the first call at least a window after the first one is allowed if and only if the limit is at least 1, and from it on the verdicts are those of a new key |
| `RateLimit.CapacityBounds` | libs/cached/src/rateLimit.service.ts:21-42 | from any counter, the calls allowed in an interval of window length are at most what its window and the next one leave |
| `RateLimit.IntervalBound` | libs/cached/src/rateLimit.service.ts:21-42 | for any calls of one key in time order, any interval of window length has at most 2·limit − 1 allowed calls |
| `RateLimit.IntervalBoundIsTight` | libs/cached/src/rateLimit.service.ts:4-10 | for every limit of 1 or more and window of 2 or more, some calls reach that bound |
| `RateLimit.SlidingIff` | libs/cached/src/rateLimit.service.ts:19-28 | every interval of window length has at most limit allowed calls, for all calls in time order, if and only if the limit is at most 1 or the window is one unit |
| `ContentText.LeavesInPreOrder` | apps/orchestration/src/message-client.service.ts:31-48 | what the visitor collects are the texts of exactly the text nodes, in pre-order, for any finite tree |
| `ContentText.LeavesOfConcat` | apps/orchestration/src/message-client.service.ts:36-45 | collecting distributes over concatenation of child arrays |
| `ContentText.JoinOfConcat` | apps/orchestration/src/message-client.service.ts:46 | joined texts stand in order with one separator between any two |
| `ContentText.DocumentText` | apps/orchestration/src/message-client.service.ts:31-57 | a document, as a tree or as its JSON text, is its text leaves in pre-order with spaces between |
| `ContentText.PlainTextIsItself` | apps/orchestration/src/message-client.service.ts:52-60 | text that does not parse, and text that parses to a string, stands for itself |
| `ContentText.ScalarsAreSilent` | apps/orchestration/src/message-client.service.ts:50-60 | content that is neither text, object nor array, as such or parsed, has no text |
| `ContentText.TextCollector.Visit` | apps/orchestration/src/message-client.service.ts:34-46 | the accumulating visitor terminates and appends exactly the tree's text leaves |
| `ContentText.TextCollector.VisitEach` | apps/orchestration/src/message-client.service.ts:36-45 | the same for an array of children, left to right |
| `ChatHistory.BlankIffAllSpace` | apps/orchestration/src/message-client.service.ts:147 | a turn's text counts as blank exactly when all its characters are white space |
| `ChatHistory.TrimIsCore` | apps/orchestration/src/message-client.service.ts:237 | trimming leaves the part from the first to the last character that is not white space |
| `ChatHistory.BuildToolCallRecap` | apps/orchestration/src/message-client.service.ts:194-212 | for any cap, a recap is never empty and never longer than its prefix, the cap and an ellipsis |
| `ChatHistory.StatusesOfCalls` | apps/orchestration/src/message-client.service.ts:195-199 | the three statuses have the three labels |
| `ChatHistory.OneCall` | apps/orchestration/src/message-client.service.ts:201-205 | a call is described by its tool, its arguments if given, its status, and its result if given |
| `ChatHistory.CallsInOrder` | apps/orchestration/src/message-client.service.ts:200-206 | several calls are described one after the other, separated by a semicolon |
| `ChatHistory.RecapShowsCalls` | apps/orchestration/src/message-client.service.ts:208-211 | a recap is its prefix and the described calls, in full if they fit the cap and otherwise cut there with an ellipsis |
| `ChatHistory.CapHistoryToCharBudget` | apps/orchestration/src/message-client.service.ts:173-189 | without a budget nothing is dropped; with one the loop drops the oldest turn while it is exceeded and another remains; the newest turn is always kept |
| `ChatHistory.CappedIsLongestSuffix` | apps/orchestration/src/message-client.service.ts:165-189 | the result is the longest suffix within the budget, or just the newest turn when not even that fits |
| `ChatHistory.KeptIsMaximal` | apps/orchestration/src/message-client.service.ts:165-189 | no suffix within the budget is longer than what is kept |
| `ChatHistory.TotalOfConcat` | apps/orchestration/src/message-client.service.ts:180 | the total that is compared with the budget is the sum of the turns' lengths |
| `ChatHistory.GetRecentHistory` | apps/orchestration/src/message-client.service.ts:110-163 | the capped window, with the summary turn in front exactly when older messages exist and yield one |
| `ChatHistory.SummaryComesFirst` | apps/orchestration/src/message-client.service.ts:155-163 | a user's summary turn stands first exactly when there are older messages with people's texts and they could be fetched; else there is none |
| `ChatHistory.SnippetsExplained` | apps/orchestration/src/message-client.service.ts:232-238 | the summarizer gets the trimmed texts of exactly the people's messages with text, oldest first |
| `ChatHistory.HistoryIndependentOfBotProse` | apps/orchestration/src/message-client.service.ts:127-163 | lists that differ only in bots' non-blank text, and older batches that differ in any bot text, give the same history for any budget, limits and summarizer |
| `ChatHistory.RecapsOnLastTraced` | apps/orchestration/src/message-client.service.ts:132-142 | for any lookback a message gets a recap exactly when it is a bot's with tool calls and fewer than lookback such messages follow, or the lookback is 0; for a lookback of 1 or more there are at most that many |
| `ChatHistory.WindowExplained` | apps/orchestration/src/message-client.service.ts:127-160 | for any lookback and cap, the window has one turn for each message with text, in chronological order: a person's text, or a redacted answer with a recap exactly on the last traced ones |
| `ChatHistory.ModelCharsBounded` | apps/orchestration/src/message-client.service.ts:132-160 | for any lookback of 1 or more and any cap, all model turns together are at most the redaction text each, plus lookback times the cap with its fixed overhead |
| `HuddleLifecycle.StepKeepsSound` | apps/video-call/src/video-call.service.ts:57-475 | for arbitrary webhooks, participant rows stay unique, an inactive huddle has an end, and an egress id is set exactly while recording |
| `HuddleLifecycle.RunsAreSound` | apps/video-call/src/video-call.service.ts:57-475 | the same in every run, whatever webhooks arrive |
| `HuddleLifecycle.UnknownHuddleIsIgnored` | apps/video-call/src/video-call.service.ts:328-336 | a request for an unknown huddle changes nothing |
| `HuddleLifecycle.RoomStartedEffects` | apps/video-call/src/video-call.service.ts:348-352 | the huddle is active and nothing else changes |
| `HuddleLifecycle.ParticipantJoinedEffects` | apps/video-call/src/video-call.service.ts:370-388 | the participant is present afterwards, and nobody else's row changes |
| `HuddleLifecycle.ParticipantLeftEffects` | apps/video-call/src/video-call.service.ts:407-418 | exactly the participant's present row is left now |
| `HuddleLifecycle.RoomFinishedEffects` | apps/video-call/src/video-call.service.ts:438-448 | the huddle has ended now, everybody present in it has left now, and all else is unchanged |
| `HuddleLifecycle.RecordingEffects` | apps/video-call/src/video-call.service.ts:522-593 | a start sets the egress id and the flag, the stop after it clears both and stores the address, and nothing else changes |
| `HuddleLifecycle.OtherStepsKeepOrderly` | apps/video-call/src/video-call.service.ts:62-237 | joining, leaving, the other webhooks and recording keep one active huddle per channel and nobody present in an ended one |
| `HuddleLifecycle.OrderlyIffTimely` | apps/video-call/src/video-call.service.ts:347-388 | a step keeps that order if and only if it is not one of the two late webhooks |
| `HuddleLifecycle.LateWebhooksAreReachable` | apps/video-call/src/video-call.service.ts:347-388 | joining, leaving and joining again reaches an orderly state in which both webhooks for the first huddle are late |
| `HuddleLifecycle.ReactivatedOnlyByRoomStarted` | apps/video-call/src/video-call.service.ts:348-351 | an ended huddle becomes active again by a `room_started` for it and by nothing else |
| `HuddleLifecycle.RunsInTimeAreOrderly` | apps/video-call/src/video-call.service.ts:347-448 | in runs whose two webhooks reach active huddles only, the order holds throughout and no huddle is ever reactivated |
| `HuddleLifecycle.LeaveEndsEmptyHuddle` | apps/video-call/src/video-call.service.ts:210-237 | leaving ends an active huddle exactly when nobody else is present, and the one who left is not |
| `HuddleLifecycle.LosesRecordingIff` | apps/video-call/src/video-call.service.ts:481-523 | a huddle's egress id changes to another one exactly by a successful start on it, and goes exactly by that or a stop |
| `HuddleLifecycle.LostRecordingStaysLost` | apps/video-call/src/video-call.service.ts:559-593 | in every run, an egress id that no huddle has any more, and that is not handed out again, is never one a huddle would stop |
| `HuddleLifecycle.LostRecordingIsReachable` | apps/video-call/src/video-call.service.ts:477-524 | joining and starting lead to a state in which a second start loses the first recorder |
| `VideoCallService.VideoCallService.JoinHuddle` | apps/video-call/src/video-call.service.ts:57-99 | an active huddle of the channel is found, or one is created because there is none; the user's row comes back or is created, and nothing else changes; one join step of the machine |
| `VideoCallService.VideoCallService.LeaveHuddle` | apps/video-call/src/video-call.service.ts:194-237 | the user's present row is left, and an active huddle that is then empty ends; succeeds exactly for an existing huddle; one leave step of the machine |
| `VideoCallService.VideoCallService.OnRoomStarted` | apps/video-call/src/video-call.service.ts:348-352 | an existing huddle becomes active; one machine step |
| `VideoCallService.VideoCallService.OnParticipantJoined` | apps/video-call/src/video-call.service.ts:370-388 | the participant's row comes back or is created; one machine step |
| `VideoCallService.VideoCallService.OnParticipantLeft` | apps/video-call/src/video-call.service.ts:407-418 | one machine step: the participant's present row, if any, is left |
| `VideoCallService.VideoCallService.OnRoomFinished` | apps/video-call/src/video-call.service.ts:438-448 | the huddle ends, everybody present in it has left, and nobody else has; one machine step |
| `VideoCallService.VideoCallService.StartRecording` | apps/video-call/src/video-call.service.ts:477-524 | succeeds exactly for an active huddle whose recorder started, and then sets its id and the flag; one machine step |
| `VideoCallService.VideoCallService.StopRecording` | apps/video-call/src/video-call.service.ts:559-593 | succeeds exactly for a huddle with an egress id whose recorder stopped, and then clears it with the flag and stores the address; one machine step |
| `Verification.StepKeepsInv` | apps/auth/src/auth.service.ts:154-893 | every step keeps codes distinct, accepted codes used, overwritten codes gone, and e-mail codes of one user apart in time |
| `Verification.RunKeepsInv` | apps/auth/src/auth.service.ts:154-893 | the same after every schedule; accepted and overwritten codes are never forgotten |
| `Verification.CodesAcceptedOnce` | apps/auth/src/auth.service.ts:160-193 | in every run no code is accepted twice and no overwritten code is ever accepted |
| `Verification.OverwrittenNeverAccepted` | apps/auth/src/auth.service.ts:865-889 | after a resend replaced a code, no continuation accepts the old one or holds it in a row |
| `Verification.AtMostOneLiveEmailCode` | apps/auth/src/auth.service.ts:860-893 | in every run at most one unused e-mail code of a user has time left, and at most one more is acceptable, at its very last instant |
| `Verification.TwoEmailCodesAtLastInstant` | apps/auth/src/auth.service.ts:173-175 | a registration and a resend at the first code's expiry leave two acceptable e-mail codes |
| `Verification.SecondEmailCodeIff` | apps/auth/src/auth.service.ts:860-893 | while at most one e-mail code of a user is acceptable, a step adds a second if and only if it is a resend that finds none alive while an unused one is at its last instant |
| `Verification.ResetCodesCoexist` | apps/auth/src/auth.service.ts:706-725 | issuing a reset code leaves two acceptable ones if and only if one was live |
| `Verification.SecondResetCodeIff` | apps/auth/src/auth.service.ts:706-893 | while at most one reset code of a user is acceptable, a step adds a second if and only if it issues one while another is live |
| `Verification.ResetCodesUnbounded` | apps/auth/src/auth.service.ts:706-725 | for every n some run leaves n different reset codes of one user acceptable at once |
| `VerificationService.VerificationService.RegisterUser` | apps/auth/src/auth.service.ts:94-110 | one unused e-mail code of five minutes for the new user, and nothing else changes; the machine's registration step |
| `VerificationService.VerificationService.ForgotPassword` | apps/auth/src/auth.service.ts:706-725 | one unused reset code of five minutes exactly for a local account; the machine's issue step |
| `VerificationService.VerificationService.VerifyEmailCode` | apps/auth/src/auth.service.ts:154-193 | the machine's verify step for this code; accepted, invalid, expired or without account, each tied to the row found |
| `VerificationService.VerificationService.ResetPasswordWithCode` | apps/auth/src/auth.service.ts:775-815 | the machine's reset step for this user and code; accepted exactly when a live row matches, and only then the password changes |
| `VerificationService.VerificationService.ResendCode` | apps/auth/src/auth.service.ts:856-893 | a live row gets a new code of five minutes, or a new row is created because none is live, exactly for a local account; the machine's resend step |
| `OAuth.GetAuthorizedClientsIsListing` | apps/auth/src/oauth.service.ts:380-423 | the pipeline over the token and client queries computes the reference listing, one pass over the client table |
| `OAuth.ListedOnceIffHeld` | apps/auth/src/oauth.service.ts:380-423 | a client is listed once if it is registered and the user holds a token for it, and not at all otherwise |
| `OAuth.SortSorts` | apps/auth/src/oauth.service.ts:412 | the sort by creation gives the same tokens, newest first |
| `OAuth.AuthorizedAtIsLatest` | apps/auth/src/oauth.service.ts:412-420 | an entry's date is the latest creation among the user's tokens for the client, and is the date of one of them |
| `OAuth.EntriesShowClients` | apps/auth/src/oauth.service.ts:393-421 | every entry shows the id and name of a registered client the user holds a token for, with the scopes of those tokens |
| `OAuth.ScopesFromFirstActive` | apps/auth/src/oauth.service.ts:394-410 | an entry's scopes are those of the first active token, or of the first one when none is active |
| `OAuth.RevokeDropsEntry` | apps/auth/src/oauth.service.ts:425-436 | removing the user's tokens for a client takes exactly that client's entry out of the user's listing |
| `OAuth.RevokeLeavesOthers` | apps/auth/src/oauth.service.ts:425-436 | every other user's listing stays as it was |
| `OAuth.RevokedForGoodIff` | apps/auth/src/oauth.service.ts:365-377 | removing a matching row, whichever it is, ends every match of the token if and only if the string does not stand in both columns of the client's rows |
| `OAuth.TwoMatchesIff` | apps/auth/src/oauth.service.ts:365-371 | two rows match one token exactly when it is the access token of one and the refresh token of the other |
| `OAuth.OAuthService.RevokeToken` | apps/auth/src/oauth.service.ts:351-378 | fails for an unknown client or wrong secret without changes; else removes one row matching the token for that client, if there is one; with disjoint columns, as issued tokens have, nothing matches afterwards |
| `OAuth.OAuthService.RevokeAuthorizedClient` | apps/auth/src/oauth.service.ts:425-436 | the table loses all of the user's tokens for the client and no other, with the stated effect on every listing |
| `OAuth.OAuthService.VerifyTokenScope` | apps/auth/src/oauth.service.ts:304-335 | grants the owner and client of an unexpired stored token exactly when its signed scopes include the required one; the missing scope has an error of its own |

## Left out

- RevokeAllFinalIff: needs an existing version key; without one, ReplayAfterRevokeAllIff says what a replay buys.
- ReplayAfterRevokeAllIff: leaves out expiry and the blacklist of access tokens, as does every statement about acceptance.
- Refresh: the e-mail inside the token is only present or absent; session metadata (address, agent, device) is not stored.
- CreateSession: session metadata is not stored.
- Set: keeps no TTL with the entry, which may vanish at any time instead.
- Login: credential, device and two-factor checks come before it and are not modelled; only the session-creating end is.
- Logout: presence removal and the missing-parameter checks are left out.
- LogoutAll: presence, socket disconnects and the device update of `secureAccount` are left out; its reset code is `ForgotPassword`'s step.
- The classes run their methods without interruption; interleaving is covered by the machines only, for authentication and the cache.
- A commit that fails after the grace entry was written, and deadlocks between two updates of one user's rows, do not occur.
- A failing INCR throws: it is a bump that did not happen.
- Redis sets, `writeThrough`, `exists`, `ping` and the presence, message and user caches: single commands.
- `summarizeSnippets`, the circuit breaker and retries behind it: one function of the snippets.
- Characters outside the basic plane count once here and twice in JavaScript.
- Huddle socket events, notifications, mute state, join times, member lookups and the recordings list: no effect on the properties.
- Huddle handlers that interleave: two concurrent joins could both create a huddle, since no unique index forbids it.
- `changePassword`, `verifyResetPassword`, e-mails and queues around verification codes.
- OAuth client administration, authorization codes and token issue: tables with arbitrary content are given instead; decoding an access token's scopes is a function.
- Controllers, gateways, migrations, load tests and evaluation scripts.
