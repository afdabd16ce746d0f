# Kerghan: verified models of its concurrent protocols

Kerghan's backend keeps its safety in conditional `UPDATE` and `DELETE`
statements: every `await` is a point where other requests interleave. This
project models those protocols and proves what they guarantee over every
interleaving. A table is a map, a request is a continuation that advances one
database statement at a time, and a run is any sequence of such steps
(including requests that fail or crash half way, where the protocol has that
path). Operations the source runs in place are classes whose methods are proved
against functions of the table; the lemmas about those functions carry the
properties.

| Part | Files |
|---|---|
| Refresh-token sessions, rotation, replay detection, denial | `RefreshTokens`, `SessionProtocol`, `SessionInvariant`, `SessionTheorems`, `SessionSecurity` |
| The same operations one call at a time, what they give their callers, pruning, agreement of the two views | `AuthService`, `AuthMeaning`, `Pruning`, `SoloRuns` |
| Key set, cipher, batch re-encryption, re-encryption under concurrency | `IntegrationsKey`, `SecretCodec`, `KeyRotation`, `RotationProtocol`, `RotationAlone` |
| Credential cool-off by reservation | `CoolOff` |
| GitHub App connection flow; what each request does alone; its pending cap one call at a time and under concurrency | `GithubInstallations`, `GithubAppFlow`, `GithubStates`, `GithubAlone`, `GithubPending`, `GithubOverrun` |
| Device authorization: claims, sessions, lockout | `DeviceFlow`, `DeviceRuns`, `DeviceClaims`, `DeviceAlone`, `DeviceOnce`, `DeviceOverrun`, `DeviceLockout` |
| Device authorization: create limit and open cap, one call at a time and under concurrency | `DeviceCreate`, `DeviceWindow`, `DeviceBurst`, `DeviceCap`, `DeviceDrift` |
| Browser poller | `Poller` |
| Per-user integration cap | `IntegrationCap` |
| Proxy-hop parsing | `Text`, `ClientRequest` |

`dafny verify dfyconfig.toml` checks the whole project.

Two kinds of results go together. Those over runs say what no interleaving can
break. Those about a request that nothing interrupts (`Uninterrupted…`, and the
modules `AuthMeaning`, `RotationAlone`, `GithubAlone` and `DeviceAlone`) say what it
does get done, in terms of rows, answers, saves and callbacks only.

## How the main results are argued

- **Sessions.** Every session has one holder: a row that was not rotated away,
  or a request that won the guarded rotation and has not inserted yet (or
  crashed before it could). A step moves the holder or leaves it. Counting
  holders gives the exact rotation balance; the absence of a live holder is
  permanent. Theorems stated from a state with `Inv` hold in every reachable
  state, because `RunInvariant` establishes it.
- **Key rotation.** A history column records what each row's plaintext should
  be, changed only by create and replace. Rewrites are guarded by the key id
  they read, and a replacement always writes the current key id, so no stale
  rewrite matches. Each batch run keeps "every row still to move lies ahead of
  me", even while other writers change rows it has already read.
- **GitHub App.** A flow lives in exactly one place: a state row, a request
  that consumed or is issuing one, or a save. Every place carries the number of
  the verification that justified it.
- **Device flow.** The documentation of `poll` says that only the first poll to
  win the claim mints a session. That holds per approval, not per request:
  `authorize` reads the request and writes `approved` without a condition, so
  several authorize calls that read before the first of them wrote let one
  request mint as many sessions (`StaleApprovalsMintAgain`, for every n), and a
  stale `deny` can leave a denied request with a session
  (`StaleDenialAfterMint`). `PromiseIff` gives the exact condition, request by
  request. Without a further approval, a request can be claimed a second time if
  and only if an approval was written over it when its `loggedAt` was set, and
  can come to two sessions if and only if one was written while a session of it
  existed or was being minted. Without a further denial, a denied request can
  have a session if and only if a denial was written then. Runs whose unconditional
  writes to the request find it still open, and so all runs in which each
  read-then-write is atomic, keep all three.
- **Limits under concurrency.** Calls that overlap between their count and
  their insert each see the table without the others. With at most k
  overlapping, a user has at most 4 + k pending GitHub App states and a window
  holds at most limit - 1 + k requests, and both bounds are met for every k.
  The cap on open requests has no such bound. It holds in all runs with at most
  k overlapping creates of a user if and only if k <= 1 (`OpenCapIff`): with one
  at a time nothing running beside it can break it, and two at a time suffice to
  reach any number, because both expire the same oldest request. The run that
  does it keeps its pairs so far apart that every create limit admits them
  (`OpenCapDrifts`).
- **Authorize lockout.** Wrong passwords are counted, and lock the request from
  the threshold on, if and only if no failure is written over a count that
  differs from the one its call read; n parallel wrong passwords can count as
  one.
- **Cool-off.** A burst keeps at most `maxAttempts` validations failed or
  pending. The stronger statement in the source, at most `maxAttempts` GitHub
  calls, holds exactly when no attempt is given back (`DocumentedBoundIff`):
  `CallsBound` adds the released ones, `CallsBoundIsTight` meets that bound, and
  `ReleasedCallsAreUnbounded` shows that they have none.
- **Poller.** It never forks. It stalls exactly when `onTick` throws out of the
  last handler: thrown while an error is handled, or thrown twice (not with
  status 404 the first time) while an open answer is dispatched
  (`StallExists`).

Where the source and its documentation differ: `revoke` ignores expiry, so it
is the one operation that can notice opportunistic pruning (`RevokeSeesPruning`
says exactly when: every unrevoked row of the session expired and its user got
a new session afterwards); `installationsOf` evaluates its filter
over a whole page before storing, so of two entries with one id on one page the
last wins, at the first one's position.

## Model

| member | source | states |
|---|---|---|
| `SessionInvariant.RunInvariant` | backend/src/auth/auth.service.ts:153-180 | in every interleaving of all session requests, with crashes, each session is carried by exactly one non-rotated row or pending mint, and rows, mints and requests agree with it |
| `SessionTheorems.AtMostOneCarrier` | backend/src/auth/auth.service.ts:153-180 | unrevoked rows plus in-flight mints of a session never exceed one |
| `SessionTheorems.RotationAccounting` | backend/src/auth/token.service.ts:131-162 | rows ever issued + mints in flight + mints lost to a crash = 1 + rows revoked as `rotated` |
| `SessionTheorems.SessionRowsAgree` | backend/src/auth/token.service.ts:131-162 | all rows ever issued for a session share user, `keepSignedIn` and `startedAt` |
| `SessionTheorems.RevocationWriteOnce` | backend/src/auth/token.service.ts:214-231 | no run changes when or why a revoked row was revoked |
| `SessionTheorems.DeadStaysDead` | backend/src/core/jwt.guard.ts:94-109 | a session without unrevoked row and in-flight mint never gets one again, so the gate rejects its access tokens in all later states |
| `SessionSecurity.ReplayOnlyAfterRotation` | backend/src/auth/auth.service.ts:270-287 | for every row ever revoked as `replay_detected` there are two steps of one request in the run: it looked up a token of the same user that was then revoked by rotation and unexpired, and later ran the UPDATE that revoked the row |
| `SessionSecurity.MassRevocationIsExact` | backend/src/auth/auth.service.ts:278-284 | the replay revocation changes exactly the unrevoked rows of the replayed token's user |
| `SessionSecurity.DeniedReadsClearNobody` | backend/src/auth/authorization-request.service.ts:259-270 | no login, refresh, registration or claimed poll that reads a denied user goes on to mint |
| `SessionSecurity.DenialIsFinal` | backend/src/auth/admin.service.ts:200-246 | once a non-default user is denied: no approve restores them, the gate rejects all their sessions, and only requests that had read the user before can still write a row, one each |
| `AuthService.Auth.IssueTokens` | backend/src/auth/token.service.ts:131-162 | prunes the user's expired rows, then inserts one unrevoked row; the answer names that row's user, session, hash and expiry, the session being the rotated one when there is one |
| `AuthService.Auth.LogIn` | backend/src/auth/auth.service.ts:112-120 | the whole new database and answer of a login, refused and denied users included |
| `AuthService.Auth.RefreshToken` | backend/src/auth/auth.service.ts:153-180 | the whole new database and answer of a refresh on every path: unknown, expired, replayed, revoked, denied, rotated; a session answered is on the new row and is the presented row's session and user |
| `AuthService.Auth.RevokeSession` | backend/src/auth/session.service.ts:120-129 | revokes the unrevoked rows of one session, not found exactly when there are none |
| `AuthService.Auth.RevokeOtherSessions` | backend/src/auth/session.service.ts:146-163 | revokes every unrevoked row of the user outside the presented active session, else unauthorized |
| `AuthService.Auth.ReportStatus` | backend/src/auth/auth.service.ts:225-242 | the whole new database and answer of a status request: pending, logged in, denied and signed out, automatic login |
| `AuthService.Auth.LogInDefault` | backend/src/auth/default-user.service.ts:99-107 | a session of the default user, and its unrevoked row, exactly when the IP is allowed and the user exists; otherwise nothing changes |
| `AuthService.Auth.ApproveUser` | backend/src/auth/admin.service.ts:200-215 | done exactly when the user was pending, and then exactly that user becomes approved; otherwise not found or not pending, and nothing changes |
| `AuthService.Auth.DenyUser` | backend/src/auth/admin.service.ts:231-246 | denies and revokes all unrevoked rows of the user, except the default user and the caller |
| `AuthMeaning.RotationMeans` | backend/src/auth/auth.service.ts:153-180 | a live, unexpired token of a user who is not denied: its row is revoked as `rotated`, one new row carries exactly the answer, and session, user, flag and start are the presented row's |
| `AuthMeaning.RefusedRefreshMeans` | backend/src/auth/auth.service.ts:270-287 | any other known token: no session and no new row; exactly the user's unrevoked rows are revoked on a replay, exactly the presented one for a denied user, none otherwise |
| `AuthMeaning.RefreshedSessionIsAdmitted` | backend/src/auth/token.service.ts:131-162 | right after a refresh the gate admits the answered session for that user, if approved, and for nobody else |
| `AuthMeaning.NewSessionIsAdmitted` | backend/src/core/jwt.guard.ts:94-109 | the same right after a login, registration, claim or automatic login |
| `AuthMeaning.GateAgrees` | backend/src/auth/session.service.ts:69-81 | the gate of the one-call view is the gate of the interleaved one |
| `AuthMeaning.LoginMeans` | backend/src/auth/auth.service.ts:112-120 | unauthorized, forbidden or a new session with exactly one new row, each under exactly its condition |
| `AuthMeaning.RegistrationMeans` | backend/src/auth/auth.service.ts:78-98 | a taken name is refused; otherwise the user is stored with their status and gets a session that is not kept |
| `AuthMeaning.ClaimMeans` | backend/src/auth/authorization-request.service.ts:259-277 | a session exactly for an approved user |
| `AuthMeaning.AutoLoginMeans` | backend/src/auth/default-user.service.ts:99-107 | a session of the default user exactly when the IP is allowed and the user exists |
| `AuthMeaning.StatusMeans` | backend/src/auth/auth.service.ts:225-242 | an active token answers pending or logged in by its user's status and changes nothing; a denied user's token is revoked and the automatic login decides |
| `AuthMeaning.LogoutMeans` | backend/src/auth/auth.service.ts:188-195 | revokes exactly the unrevoked rows of the presented token |
| `AuthMeaning.RevokeUserMeans` | backend/src/auth/token.service.ts:214-220 | revokes exactly the user's unrevoked rows, the kept token excepted |
| `AuthMeaning.RevokeSessionMeans` | backend/src/auth/session.service.ts:120-129 | revokes exactly the user's unrevoked rows of the session, not found exactly when there are none |
| `AuthMeaning.RevokeOthersMeans` | backend/src/auth/session.service.ts:146-163 | with an active own token, revokes exactly the user's unrevoked rows of other sessions; otherwise nothing |
| `AuthMeaning.DenialMeans` | backend/src/auth/admin.service.ts:231-246 | not found, default user and self are refused, in that order, and change nothing; otherwise exactly that user is set to denied and exactly their unrevoked rows are revoked |
| `AuthMeaning.ApprovalMeans` | backend/src/auth/admin.service.ts:200-215 | exactly a pending user becomes approved; a missing or already decided one is reported as such and nothing changes |
| `AuthMeaning.ListActiveMeans` | backend/src/auth/session.service.ts:92-106 | lists exactly the user's unrevoked, unexpired rows |
| `Pruning.PruningIsInvisible` | backend/src/auth/token.service.ts:73-78 | over runs of any length with a monotone clock, a pruning store and one that never deletes answer alike: login, registration, refresh, status with automatic login, claimed polls, logout, lookups, listing, revoke-others, mass revocations, approve, deny and the gate |
| `Pruning.RevokeSeesPruning` | backend/src/auth/session.service.ts:120-129 | after any such run, `revoke` answers differently if and only if the session has unrevoked rows and the user was handed a new session after each of them had expired |
| `Pruning.RevokeExceptionExists` | backend/src/auth/token.service.ts:146-146 | login, a later login, `revoke` of the first session: the two stores answer differently |
| `Pruning.RunPrunesExactly` | backend/src/auth/token.service.ts:131-162 | over a run, a row is missing from the pruning store exactly when it was before or its user got a session after it had expired |
| `SoloRuns.UninterruptedRefresh` | backend/src/auth/auth.service.ts:153-180 | a refresh nobody interrupts leaves the database of the atomic refresh: the interleaved and the one-call model agree |
| `SoloRuns.UninterruptedLogin` | backend/src/auth/auth.service.ts:112-120 | the same agreement for login |
| `SoloRuns.UninterruptedRegistration` | backend/src/auth/auth.service.ts:78-98 | the same agreement for registration |
| `SoloRuns.UninterruptedClaim` | backend/src/auth/authorization-request.service.ts:259-277 | the same agreement for a claimed poll |
| `SoloRuns.UninterruptedAutoLogin` | backend/src/auth/default-user.service.ts:99-107 | the same agreement for the automatic login |
| `SoloRuns.UninterruptedStatus` | backend/src/auth/auth.service.ts:225-242 | the same agreement for status |
| `SoloRuns.UninterruptedRevokeOthers` | backend/src/auth/session.service.ts:146-163 | the same agreement for revoke-others |
| `SoloRuns.UninterruptedDeny` | backend/src/auth/admin.service.ts:231-246 | the same agreement for deny |
| `SoloRuns.UninterruptedApprove` | backend/src/auth/admin.service.ts:200-215 | the same agreement for approve |
| `SoloRuns.AloneUpdate` | backend/src/auth/auth.service.ts:188-195 | the same agreement for logout, revoke and every other single revoking UPDATE |
| `SoloRuns.AloneEndsOnce` | backend/src/auth/auth.service.ts:153-180 | a request that steps alone has exactly one end, so these ends are the ends |
| `IntegrationsKey.KeySetOf` | backend/src/integrations/integrations-key.ts:84-97 | a key set results exactly when no two keys share a key id; then it holds the current key and the retired ones in order, each under its id, and every id finds its key |
| `IntegrationsKey.PreviousAgree` | backend/src/integrations/integrations-encryption.service.ts:132-152 | "decryptable and not current" is membership among the retired ids, and the current id is never retired |
| `IntegrationsKey.CleanedIsFirstUses` | backend/src/integrations/integrations-key.ts:133-147 | the cleaned list holds exactly the first uses of non-blank values other than the current key, with their positions |
| `IntegrationsKey.CleanedInOrder` | backend/src/integrations/integrations-key.ts:133-147 | in configured order, each position once |
| `IntegrationsKey.ParsePreviousKeys` | backend/src/integrations/integrations-key.ts:133-147 | the parsing loop yields exactly the entries whose part of the list, trimmed, is not blank, not the current key and on no earlier part, with their positions |
| `SecretCodec.Vault.EncryptRoundTrips` | backend/src/integrations/integrations-encryption.service.ts:80-124 | what is encrypted decrypts to itself, under the current key id |
| `SecretCodec.Vault.ReencryptKeepsPlaintext` | backend/src/integrations/integrations-encryption.service.ts:112-124 | re-encryption succeeds exactly on decryptable secrets and keeps their plaintext |
| `KeyRotation.Store.FindBatch` | backend/src/integrations/integration-store.service.ts:208-219 | the first `limit` pending rows past the cursor, in id order |
| `KeyRotation.Store.RewriteSecret` | backend/src/integrations/integration-store.service.ts:160-180 | rewrites the secret only over the expected key id and owner, and says whether it did |
| `KeyRotation.Store.ReencryptRow` | backend/src/integrations/integrations-key-rotation.service.ts:127-143 | one row moved to the current key, or left alone when it does not decrypt |
| `KeyRotation.Store.Reencrypt` | backend/src/integrations/integrations-key-rotation.service.ts:91-107 | the batch loop ends, visits each row under a previous key exactly once in id order, and its counts add up to their number |
| `KeyRotation.RotationKeepsPlaintexts` | backend/src/integrations/integrations-key-rotation.service.ts:91-107 | decryptable rows end under the current key with the same plaintext; all others are unchanged |
| `KeyRotation.SecondRunMovesNothing` | backend/src/integrations/integrations-key-rotation.service.ts:91-107 | a second run re-encrypts nothing and changes nothing |
| `RotationProtocol.PlaintextIsLatest` | backend/src/integrations/integration-connection-test.service.ts:91-103 | in every interleaving, each row decrypts to the plaintext of its latest create or replace |
| `RotationProtocol.KeyIdMovesOnce` | backend/src/integrations/integration-store.service.ts:160-180 | a row's key id changes at most once, to the current one, and never back |
| `RotationProtocol.ReplacementStands` | backend/src/integrations/integrations.service.ts:173-189 | a replaced credential stays readable under the current key until the next replacement, whatever rewrites were in flight |
| `RotationProtocol.FinishedBatchLeavesNothing` | backend/src/integrations/integrations-key-rotation.service.ts:91-107 | once any batch run has finished, in every interleaving, no decryptable row is under a previous key |
| `RotationAlone.UninterruptedTest` | backend/src/integrations/integration-connection-test.service.ts:58-103 | an admitted test of a readable row under a retired key, with a valid payload, leaves it under the current key with the same plaintext; every other test leaves the secret as it was, and no other row changes |
| `RotationAlone.UninterruptedCreate` | backend/src/integrations/integrations.service.ts:117-146 | stores one row readable as the given credential under the current key |
| `RotationAlone.UninterruptedReplace` | backend/src/integrations/integrations.service.ts:173-189 | leaves exactly that row readable as the new credential under the current key |
| `RotationAlone.UninterruptedRename` | backend/src/integrations/integrations.service.ts:155-162 | touches no secret and no other row |
| `RotationAlone.UninterruptedDelete` | backend/src/integrations/integrations.service.ts:208-213 | removes exactly that row |
| `CoolOff.ReservationsAccounted` | backend/src/integrations/integration-credential.service.ts:108-128 | every reservation is outstanding or settled once; a lock implies the threshold; the count is covered by failures kept since the last reset and outstanding attempts |
| `CoolOff.CountIsExact` | backend/src/integrations/integration-credential-abuse-guard.service.ts:24-36 | when no reset overlaps another reservation, the count is exactly kept failures plus outstanding attempts |
| `CoolOff.BoundedByExpiredLocks` | backend/src/integrations/integration-credential-abuse-guard.service.ts:107-127 | without success, kept failures plus outstanding validations exceed the threshold by at most the reservations won against expired locks |
| `CoolOff.BurstBound` | backend/src/integrations/integration-credential-abuse-guard.service.ts:107-127 | a parallel burst before any lock can run out never exceeds `maxAttempts` |
| `CoolOff.CallsBound` | backend/src/integrations/integration-credential-abuse-guard.service.ts:45-51 | GitHub calls are at most `maxAttempts` plus those released plus those won against expired locks |
| `CoolOff.CallsBoundIsTight` | backend/src/integrations/integration-credential-abuse-guard.service.ts:45-51 | for every r a run within one lock period with exactly r released attempts makes `maxAttempts` + r GitHub calls |
| `CoolOff.DocumentedBoundIff` | backend/src/integrations/integration-credential-abuse-guard.service.ts:45-51 | all runs within one lock period with r released attempts make at most `maxAttempts` GitHub calls if and only if r = 0 |
| `CoolOff.ReleasedCallsAreUnbounded` | backend/src/integrations/integration-credential-abuse-guard.service.ts:45-51 | for every n a run within one instant makes n GitHub calls, each released before the next |
| `CoolOff.RateLimit` | backend/src/integrations/integration-credential-abuse-guard.service.ts:24-36 | beyond the threshold, each further failing or pending validation costs a whole lock period |
| `CoolOff.Guard.ReserveAttempt` | backend/src/integrations/integration-credential-abuse-guard.service.ts:107-117 | admitted exactly when unlocked, with the new counter and lock |
| `CoolOff.Guard.RunAttempt` | backend/src/integrations/integration-credential.service.ts:108-128 | the counter after a whole attempt: unchanged when refused, one more (locked from the threshold on) after a counted failure, the old count unlocked when given back, zero after a success that resets |
| `CoolOff.UninterruptedAttempt` | backend/src/integrations/integration-credential.service.ts:108-128 | an attempt of the interleaved model that nothing interrupts ends in that same counter, and is refused exactly while the lock runs |
| `GithubInstallations.InstallationsOf` | backend/src/integrations/types/github-app/github-app-user-verification.service.ts:170-195 | follows next links for at most ten pages, fails on the first failed page, and collects the pages it read |
| `GithubInstallations.CollectedIsVerified` | backend/src/integrations/types/github-app/github-app-user-verification.service.ts:170-195 | the collected list has distinct ids, only entries GitHub listed for this app, and misses none of their ids |
| `GithubInstallations.PickInstallation` | backend/src/integrations/types/github-app/github-app-flow.service.ts:173-187 | a picked id is always verified; a claimed id is picked exactly when verified; without a claim one is taken and several are offered |
| `GithubInstallations.SelectionIsFaithful` | backend/src/integrations/types/github-app/github-app-selection.service.ts:131-144 | the offer is sorted, holds only verified entries, each id once, min(100, distinct ids) of them; a cut drops only entries sorting after every offered one, and without a cut no id is missing |
| `GithubInstallations.BuildSelection` | backend/src/integrations/types/github-app/github-app-selection.service.ts:131-144 | the map-filling loop, sort and slice compute that offer |
| `GithubAppFlow.EachStartSavesOnce` | backend/src/integrations/types/github-app/github-app-flow.service.ts:87-129 | in every interleaving each start leads to at most one save, and saves never outnumber starts |
| `GithubAppFlow.SavedIsProven` | backend/src/integrations/types/github-app/github-app-selection.service.ts:68-109 | every saved installation was listed by GitHub for this app in a verification by the same user, is recorded under that verification's login, and goes to the user and target the flow was started for |
| `GithubAlone.StartStores` | backend/src/integrations/types/github-app/github-app-flow.service.ts:87-99 | an uninterrupted start stores one redirect state for its user and target and saves nothing |
| `GithubAlone.CallbackSaves` | backend/src/integrations/types/github-app/github-app-flow.service.ts:110-129 | a callback with a matching redirect state whose listing settles on an installation (the claimed one, or the only one) appends exactly one save: that installation, under that verification's login, for the state's user and target |
| `GithubAlone.CallbackRefuses` | backend/src/integrations/types/github-app/github-app-flow.service.ts:173-187 | a claim GitHub does not list, or an empty listing, uses the state up and saves nothing |
| `GithubAlone.CallbackOffers` | backend/src/integrations/types/github-app/github-app-flow.service.ts:122-126 | two or more listed installations and no claim: nothing saved, one select state with the user, target and login, offering listed installations of the app in order, all of them up to 100 |
| `GithubAlone.SelectSaves` | backend/src/integrations/types/github-app/github-app-selection.service.ts:94-109 | a selection with a matching state appends exactly one save when the id was offered and none otherwise |
| `GithubAlone.MismatchSavesNothing` | backend/src/integrations/types/github-app/github-app-state.service.ts:114-140 | a missing state, or a wrong secret, stage or time, saves nothing; a state of the user's is used up |
| `GithubAlone.StartThenCallback` | backend/src/integrations/types/github-app/github-app-flow.service.ts:87-129 | start and then callback within the time to live end in one save for the start's user and target |
| `GithubAlone.CallbackThenSelect` | backend/src/integrations/types/github-app/github-app-selection.service.ts:68-109 | a callback that leaves a choice and then a selection end in one save of the chosen installation under the callback's login, or none when it was not offered |
| `GithubStates.OldestCount` | backend/src/integrations/types/github-app/github-app-state.service.ts:186-193 | dropping the rows past position `keep` in descending id order leaves min(keep, all) rows |
| `GithubStates.KeptUnderCap` | backend/src/integrations/types/github-app/github-app-state.service.ts:151-193 | before the insert the user keeps their newest four unexpired rows (all, when fewer), only older ones and expired ones went, and nobody else's unexpired row did |
| `GithubStates.StateTable.Issue` | backend/src/integrations/types/github-app/github-app-state.service.ts:151-193 | the whole new table, with at most five pending rows of the user |
| `GithubStates.StateTable.Consume` | backend/src/integrations/types/github-app/github-app-state.service.ts:114-140 | the presented state is gone whatever the outcome; its content is returned exactly for the right secret, in time, at the right stage |
| `GithubStates.UninterruptedIssue` | backend/src/integrations/types/github-app/github-app-state.service.ts:151-193 | the interleaved issue, when nobody interrupts it, leaves the table of the one-call issue |
| `GithubStates.UninterruptedConsume` | backend/src/integrations/types/github-app/github-app-state.service.ts:114-140 | the interleaved consume, when nobody interrupts it, deletes the row and goes on exactly when the one-call consume answers it |
| `GithubPending.PendingBound` | backend/src/integrations/types/github-app/github-app-state.service.ts:151-193 | in every interleaving in which at most k issues of a user overlap, the user has at most 4 + k pending states |
| `GithubOverrun.PendingBoundIsTight` | backend/src/integrations/types/github-app/github-app-state.service.ts:151-193 | for every k a run with at most k overlapping issues, each drawing a uuid of its own, that reaches 4 + k pending states |
| `DeviceClaims.ClaimsNeedApprovals` | backend/src/auth/authorization-request.service.ts:140-277 | in every interleaving: sessions ≤ claims, claims + (1 if approved) ≤ approval writes, approved or logged requests name their approver as user, and sessions are minted for that user |
| `DeviceAlone.SessionsAreForApprovedUsers` | backend/src/auth/authorization-request.service.ts:259-277 | in every interleaving, for each session of a request there are two steps of one call: having won the claim it found that session's user among the users, approved, and later it stored the session |
| `DeviceAlone.UninterruptedPoll` | backend/src/auth/authorization-request.service.ts:140-277 | with the right token, an open request past its time expires; an approved one is used up with exactly one session for an approved owner, a denial and no session for any other, neither for a missing one; nothing else changes |
| `DeviceAlone.UninterruptedDenial` | backend/src/auth/authorization-request.service.ts:236-242 | denies exactly an open request of the caller |
| `DeviceAlone.UninterruptedCreate` | backend/src/auth/authorization-request.service.ts:88-125 | stores one open request for the named user, expiring their oldest open one exactly at the cap; every other request stays as it was |
| `DeviceOnce.PromiseIff` | backend/src/auth/authorization-request.service.ts:197-277 | for each request and each promise (claimed once, minted once, none minted if denied): along a run it cannot be broken without a further write of its kind if and only if no such write came too late |
| `DeviceOnce.TooLateBreaks` | backend/src/auth/authorization-request.service.ts:197-242 | after any late approval or denial there is a continuation without a further one that breaks the promise |
| `DeviceOnce.PromptRunsKeepPromises` | backend/src/auth/authorization-request.service.ts:197-277 | a request whose unconditional writes all find it open keeps all three promises, whatever happens to other requests |
| `DeviceOnce.AtomicRunsKeepPromises` | backend/src/auth/authorization-request.service.ts:197-248 | over every run in which authorize, deny, expiry and eviction are atomic, every request keeps all three |
| `DeviceClaims.UninterruptedAuthorize` | backend/src/auth/authorization-request.service.ts:197-226 | the request after one authorize call: approved, with counter and lock cleared, exactly when open, unexpired, unlocked, the caller's and the password right; a wrong one is counted and locks at the threshold; no other request changes |
| `DeviceOverrun.StaleApprovalsMintAgain` | backend/src/auth/authorization-request.service.ts:197-226 | for every n there is a run in which one request receives n approval writes and mints n sessions |
| `DeviceOverrun.StaleDenialAfterMint` | backend/src/auth/authorization-request.service.ts:236-242 | a run that ends with a denied request that minted a session |
| `DeviceLockout.CountedIff` | backend/src/auth/authorization-request-abuse-guard.service.ts:114-125 | the stored count is the number of wrong passwords since the last approval, and the request is locked from the threshold on, if and only if no failure was registered over a count that differs from the one its call read |
| `DeviceLockout.ParallelGuessesCountOnce` | backend/src/auth/authorization-request-abuse-guard.service.ts:114-125 | for every n a run in which n wrong passwords count as one and lock nothing |
| `DeviceCreate.WindowLimit` | backend/src/auth/authorization-request-abuse-guard.service.ts:64-73 | over every run of creates with a monotone clock, any window of the configured length holds at most the limit per IP and per username |
| `DeviceWindow.ConcurrentWindow` | backend/src/auth/authorization-request-abuse-guard.service.ts:64-73 | with counts and inserts as separate statements and at most k calls of an IP or username overlapping in between, every window holds at most limit - 1 + k of its requests |
| `DeviceWindow.UninterruptedCreate` | backend/src/auth/authorization-request.service.ts:88-125 | a create that nothing interrupts is refused exactly over the limit for its IP or username and otherwise stores its request |
| `DeviceBurst.ConcurrentWindowIsTight` | backend/src/auth/authorization-request.service.ts:88-125 | for every k a run with at most k overlapping calls that puts limit - 1 + k requests into one window |
| `DeviceCreate.OpenCap` | backend/src/auth/authorization-request-abuse-guard.service.ts:82-97 | a user's open requests never exceed the cap, what they started with, or one |
| `DeviceDrift.OpenCapDrifts` | backend/src/auth/authorization-request-abuse-guard.service.ts:82-97 | for every n, every cap and every window: a run with never more than two calls in progress, each create beginning when no request was created within the window, that leaves n open requests; no window of that length holds more than two requests |
| `DeviceCap.CapHoldsAlone` | backend/src/auth/authorization-request-abuse-guard.service.ts:82-97 | in every interleaving in which at most one create of a user is between its count and its insert, the user has at most max(cap, 1) open requests, whatever polls, authorizations, denials and expiries run beside it |
| `DeviceDrift.OpenCapIff` | backend/src/auth/authorization-request.service.ts:88-125 | all runs with at most k overlapping creates of a user keep the cap if and only if k <= 1 |
| `DeviceCreate.Requests.IsOverCreateLimit` | backend/src/auth/authorization-request-abuse-guard.service.ts:64-73 | on a monotone clock: true exactly when storing the request now would put more than the limit into the window that ends now, for its IP or its username |
| `DeviceCreate.Requests.EnforceOpenCapFor` | backend/src/auth/authorization-request-abuse-guard.service.ts:82-97 | at the cap exactly one open request of the user, the oldest, expires; otherwise nothing changes |
| `DeviceCreate.Requests.CreateRequest` | backend/src/auth/authorization-request.service.ts:88-125 | one whole call is one step of those runs; over the limit nothing changes, otherwise the request is stored for its user and at most the user's oldest open one has expired |
| `Poller.SilentAfterEnd` | frontend/assets/js/utils/polling/AuthorizationRequestPoller.js:160-265 | for every order of starts, stops, timers, results and errors: at most one terminal callback, and no callback after it or after the poller stopped |
| `Poller.NeverForksNorStalls` | frontend/assets/js/utils/polling/AuthorizationRequestPoller.js:70-90 | after one start, an unstopped poller has exactly one of {tick timer, poll in flight}, if and only if no `onTick` threw out of the last handler; a stopped one has no timer left |
| `Poller.CallbacksAreCaused` | frontend/assets/js/utils/polling/AuthorizationRequestPoller.js:17-55 | in every run each callback has an event of its kind: `onApproved` only after a poll answered `approved`, and likewise for every rejection and tick |
| `Poller.ExpiryStaysArmed` | frontend/assets/js/utils/polling/AuthorizationRequestPoller.js:194-247 | from start to stop exactly one expiry timer is pending, when the expiry could be parsed |
| `Poller.StallExists` | frontend/assets/js/utils/polling/AuthorizationRequestPoller.js:47-55 | start, tick, a failed poll and an `onTick` that throws: not stopped, and neither a timer nor a poll left |
| `Poller.AuthorizationRequestPoller.OnPollSettled` | frontend/assets/js/utils/polling/AuthorizationRequestPoller.js:17-90 | the whole new state after a poll comes back, callbacks that throw or stop included: while running, the first callback added is the one its answer calls for (approved, denied, expired, logged, not found, or a tick), a second one only after an `onTick` that threw; once stopped, none |
| `Poller.AuthorizationRequestPoller.OnTimer` | frontend/assets/js/utils/polling/AuthorizationRequestPoller.js:194-247 | the whole new state after a timer fires: a tick in time starts one poll, a late tick or the expiry ends a running poller as expired, a stopped one does nothing |
| `Poller.AuthorizationRequestPoller.Halt` | frontend/assets/js/utils/polling/AuthorizationRequestPoller.js:174-186 | clears both timers it has handles for and marks the poller stopped |
| `Poller.AuthorizationRequestPoller.Begin` | frontend/assets/js/utils/polling/AuthorizationRequestPoller.js:160-166 | schedules a tick and arms the expiry, unless stopped |
| `IntegrationCap.CapHolds` | backend/src/integrations/integration-store.service.ts:119-147 | no interleaving of creates, renames, deletes and rollbacks lets a user exceed the cap (or what they had), or hold two rows with one normalised label |
| `IntegrationCap.CountIsComplete` | backend/src/integrations/integration-store.service.ts:119-131 | the count the lock holder takes misses no row, committed or not |
| `IntegrationCap.UninterruptedCreate` | backend/src/integrations/integration-store.service.ts:119-132 | below the cap with a free label exactly one committed row is added, otherwise none; the lock is given back |
| `IntegrationCap.UninterruptedRename` | backend/src/integrations/integrations.service.ts:155-162 | renames exactly the owner's row, and only to a free label |
| `IntegrationCap.UninterruptedDelete` | backend/src/integrations/integrations.service.ts:208-213 | removes exactly the owner's row |
| `ClientRequest.PrefixNeverChangesIp` | backend/src/core/client-request.ts:86-117 | with h ≥ 1 trusted hops present, text put to the left never changes the resolved IP, the h-th hop from the right |
| `Text.SplitJoins` | backend/src/core/client-request.ts:86-104 | splitting a header at its commas loses nothing and leaves no comma in a part |
| `Text.TrimCuts` | backend/src/core/client-request.ts:97-100 | trimming takes the white space off both ends, all of it and nothing else |
| `ClientRequest.HopsAreTrimmedParts` | backend/src/core/client-request.ts:97-100 | the hops are exactly what the parts of the header trim to, blank ones left out |
| `ClientRequest.FallbackIffNoHop` | backend/src/core/client-request.ts:86-113 | a header without a hop, absent or in whatever form, gives the fallback or the empty text; one with hops gives one of them, the leftmost when no more than trusted are present, and `undefined` exactly for a zero hop count |
| `ClientRequest.InvalidCountTrustsLastHop` | backend/src/core/client-request.ts:86-117 | an invalid hop count resolves to the last hop |
| `ClientRequest.ParsedHops` | backend/src/core/client-request.ts:25-37 | exactly plain digit strings up to the largest safe integer are taken at their value; everything else gives 1 |
| `ClientRequest.ParseTrustedProxyHops` | backend/src/core/client-request.ts:25-37 | every raw value parses to a non-negative safe integer |

## Left out

- bcrypt, SHA-256, AES-GCM, JWT signing and base64: hashes stand for the tokens they identify, and the cipher is any keyed codec whose opening undoes its sealing.
- The JWT guard's header parsing, claim shapes and the loop over retired signing keys: only its session check (`GateAdmits`) is modelled.
- GitHub's HTTP answers and the app-JWT installation checks: an oracle that answers pages, or fails the request; a saved id is the requested id by assumption.
- Account edits, password-reset tokens, default-user boot sync and the account-edit lockout: none of them takes part in the interleavings, and account edits are taken not to change a user's status.
- The OAuth App flow: the GitHub App flow's single-use state with one stage fewer.
- Controllers, DTO validation, cookies, mail, logging, health, migrations, CORS and React components.
- MySQL's rounding of datetimes to seconds, and isolation beyond atomic single statements, the explicit row lock and the unique index.
- Random tokens, UUIDs and hashes drawn by a request are taken to be unused so far; row ids are never reused.
- `issueTokens` warnings for bad TTL settings, and fractional or non-numeric limits: limits are integers, TTLs are positive.
- The order in which active sessions are listed: `listActive` answers a set.
- SessionSecurity.DenialIsFinal: excludes the default user, whose denial `denyUser` refuses.
- CoolOff.RateLimit: asks that reservations are won in the order of the times they carry, because each attempt captures its time before it reserves.
- GithubStates.StateTable.Issue: the cap of five holds for issues that run one at a time; `GithubPending.PendingBound` is the bound for overlapping ones.
- GithubInstallations.SelectionIsFaithful: `localeCompare` on lower-cased logins is an arbitrary ranking of logins.
- DeviceClaims.UninterruptedAuthorize: one call alone; `DeviceLockout.CountedIff` covers the lockout over runs.
- DeviceAlone.UninterruptedPoll: the request and its sessions; the status word a poll answers is not recorded, apart from the session.
- DeviceCreate.WindowLimit: whole `create` calls only; `DeviceWindow.ConcurrentWindow` is the bound for overlapping ones.
- DeviceCreate.OpenCap: whole `create` calls only; `DeviceDrift.OpenCapIff` says which overlapping ones keep the cap.
- `DeviceFlow` starts a create after the create limit has let it through; the limit under concurrency is `DeviceWindow`, and the run of `OpenCapDrifts` is one every limit admits.
- DeviceWindow.ConcurrentWindow: leaves the eviction out of the interleaving; it changes no column the limit looks at.
- Poller.NeverForksNorStalls: one `start`; a second `start` schedules a second thread of ticks.
- IntegrationCap.CapHolds: the checks `create` makes before its transaction only refuse earlier and are not modelled.
