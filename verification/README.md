# A verified model of supython's stateful core

supython is a Postgres-backed application server with its own authentication, key and secret rotation, storage URLs,
realtime broker and job scheduler. This project models the parts where state, time and interleaving decide whether the
server keeps its promises, and proves what those promises amount to. `dafny verify dfyconfig.toml` checks everything.

| module | models |
|---|---|
| `Common` | options, results, decimal numerals, Python's `strip` |
| `TokenFamilies` | the refresh-token table as a parent-linked forest; the recursive revocations as a worklist |
| `AuthModel`, `AuthRuns`, `AuthTheorems` | every auth flow as one step on users, tokens and one-time tokens; invariants and theorems over all runs |
| `AuthLaws`, `EmailedTokens` | what each auth call does to the tables, stated without the flows that compute it, and its consequences over runs: passwords, bans, sign-outs, emailed tokens |
| `AuthService` | the same flows as methods that update the tables statement by statement, with rollback |
| `RefreshProtocol` | the SDK's single-flight refresh against the server, all interleavings; the SDK object |
| `Rotation`, `SecretSet`, `KeySet` | timed rotation of one manifest section; the secrets manifest with its value files; the JWT keyset |
| `SignedUrl` | the signed storage payload and its verification |
| `BrokerModel` | the realtime broker: connections, topic index, presence, bounded queues, joins |
| `BrokerIndex`, `BrokerLimits`, `BrokerPresence` | invariants of every broker run |
| `BrokerFanout`, `BrokerDelivery`, `BrokerLogs` | fan-out of one row change, in one go and with other steps during its probes; what it leaves in each connection's log |
| `BrokerAccess`, `BrokerQueues`, `BrokerCalls` | who gets which row change, what a queue keeps and loses, and what the other calls do, stated without the functions that compute it |
| `RealtimeBroker` | the broker's classes, method by method |
| `Topics` | the row-filter grammar |
| `Cron` | the in-process scheduler on several replicas, with its lock, its transaction and the jobs table |
| `CronLoop` | one scheduler object: its loops between their suspension points, started, stopped and started again |
| `RateLimit` | the fixed-window limiter and its pruning job |

Code that computes values is modelled by functions. Code that changes state step by step is modelled twice: a pure step
function, about which the lemmas speak, and a class whose methods do the statements in order and are proved to make
exactly that step. Calls are atomic except where a module says otherwise: the broker holds its lock without awaiting,
and an auth flow is one call that rolls back where it opens a transaction. Three things are modelled at their await
points. The SDK suspends at each fetch. A fan-out suspends only while the database is probed for a candidate, so other
steps of the broker run then and not between two candidates. A scheduler loop suspends in its sleep and during each
attempt to fire, and the attempts of several replicas are interleaved lock by lock and commit by commit.

What the outside world answers is a parameter: the clock, fresh tokens, kids and ids, whether a claims provider raises,
row-level-security probes, UUID parsing, cron schedules, and which attempts to fire succeed. A signature is checkable
only under the secret that made it; hashes stand for the values they hash.

## Where the code falls short of its documentation

Each is a theorem, named in brackets; where its name ends in `Iff` or `Promise` the condition is exact.

- A signature is sure to outlive rotation for `w` seconds only if `w` is at most the grace window
  [`Rotation.RotationPromise`]; a JWT, leeway included, only if lifetime plus leeway is at most the grace window
  [`KeySet.AccessTokenPromise`]. With the defaults (3600 and 3600) expiry is covered, the 30 seconds of leeway are not.
- The first rotation of a second secret, when a manifest already exists, drops the environment secret at once, although
  migration is described as independent for each name [`SecretSet.FirstRotationKeepsLegacyIff`].
- `add_key(activate_immediately=True)` leaves two active keys unless there was none [`KeySet.ImmediateActivationIsSafeIff`].
- Reuse detection ends all sessions of the user, as its message says, only if every session other than the presented
  token's had already ended [`TokenFamilies.ReuseEndsAllSessionsIff`]; a second sign-in that stays live is
  `TokenFamilies.OtherSessionSurvivesReuse`. A refresh that races past its read forks a family
  [`TokenFamilies.RotationIsSafeIffStillLive`].
- Logout with scope `others` keeps the presented token's session only if that token itself is live, or the bearer is
  another user and the session was live [`AuthTheorems.LogoutOthersKeepsSessionIff`].
- A client whose refresh answer is lost, or whose claims provider raises after the rotation has committed, is treated as
  a token thief at its next refresh [`RefreshProtocol.NextRefreshIsReuseIff`].
- The clearing of a taken address in an email change is rolled back with the refusal
  [`AuthTheorems.TakenAddressLeavesChangePending`].
- A `postgres_changes` push is labelled from the channels the connection has at the push, not from the listing: it names
  the channel its ids belong to only if that channel is then the first that matches, or none matches and it is the
  fallback [`BrokerDelivery.PushLabelIff`]. Leaving the channel during the probe is enough
  [`BrokerDelivery.LeftRoomIsMislabelled`]. With nothing between listing and push the condition is: no more than one
  channel matches [`BrokerFanout.LabelsAgreeIff`].
- The idempotency key of a cron tick is checked against unfinished jobs only. A tick gets a second job exactly when an
  enqueue goes through although the tick has a job, which has finished by then, and its transaction commits
  [`Cron.EnqueueOnceIff`, `Cron.SingleRunIff`]; a check over every status would be the one that never repeats
  [`Cron.OncePerTickIff`].
- Stopping the scheduler clears a flag that its loop reads only when it wakes. The pass under way goes on
  [`CronLoop.StopEndsPasses`], and a start before the loop has woken leaves two loops running
  [`CronLoop.RestartRevivesIff`], whose shared anchor can then go back when one of them waits long for its commit
  [`CronLoop.AnchorGoesBack`]; it never does when each start waits for the old loop to end [`CronLoop.SoleLoopAdvances`].
- Where the pruning job is installed, counters are deleted an hour after their window began, so longer windows admit
  more than their limit; without the job the limit holds for every length [`RateLimit.LimitHoldsIff`].

## Model

| member | source | states |
|---|---|---|
| `TokenFamilies.FamilyIsChain` | src/supython/auth/service.py:130-146 | within a family every earlier token is revoked and the later ones descend from it |
| `TokenFamilies.FamilyHasOneUser` | src/supython/auth/service.py:436-447 | a whole rotation family belongs to one user and starts at a sign-in |
| `TokenFamilies.IssueKeepsChained` | src/supython/auth/service.py:130-146 | issuing a fresh token starts a new family and keeps the forest of chains |
| `TokenFamilies.RotateKeepsChained` | src/supython/auth/service.py:436-447 | rotating a live token keeps the forest of chains and un-revokes nothing |
| `TokenFamilies.DeadStaysDead` | src/supython/auth/service.py:397-447 | a family without a live token gets none in any later step |
| `TokenFamilies.ReuseKillsFamily` | src/supython/auth/service.py:401-428 | presenting a revoked token leaves its family without a live token and every other family untouched |
| `TokenFamilies.ReuseEndsAllSessionsIff` | src/supython/auth/service.py:401-428 | after it all of the user's tokens are revoked if and only if those outside the family already were |
| `TokenFamilies.OtherSessionSurvivesReuse` | src/supython/auth/service.py:419-428 | two sign-ins, one refreshed: replaying its first token leaves the other session live |
| `TokenFamilies.LocalLogoutKillsFamily` | src/supython/auth/service.py:486-508 | local logout of any member leaves its family without a live token and every other family untouched |
| `TokenFamilies.RotationIsSafeIffStillLive` | src/supython/auth/service.py:380-391 | a rotation decided on a stale read keeps the family a chain and a dead family dead if and only if the row is still live when the update runs |
| `TokenFamilies.RacingRefreshesFork` | src/supython/auth/service.py:436-440 | two refreshes that both read the row live leave two live tokens in one family |
| `TokenFamilies.Closure` | src/supython/auth/service.py:402-418 | the worklist terminates with a set that holds its start, is closed under child links, and holds descendants only |
| `TokenFamilies.ClosedSetHasDescendants` | src/supython/auth/service.py:402-418 | a set closed under child links that holds a token's children holds all its descendants |
| `TokenFamilies.MarkRevoked` | src/supython/auth/service.py:402-418 | exactly the chosen rows become revoked, every other row and column is unchanged |
| `TokenFamilies.RevokeDescendants` | src/supython/auth/service.py:402-418 | the recursive update revokes exactly the rows reachable by child links from the token |
| `TokenFamilies.RevokeChain` | src/supython/auth/service.py:493-507 | the recursive update revokes exactly the row and the rows reachable from it |
| `AuthRuns.ApplyKept` | src/supython/auth/service.py:130-146 | every call keeps the token forest, its owners, and adds a row only for a new sign-in or under a live row |
| `AuthRuns.ApplyKeepsEmails` | src/supython/migrations/0002_auth_schema.sql:12 | every call keeps addresses unique across users |
| `AuthRuns.ApplyKeepsChanges` | src/supython/auth/service.py:699-724 | every call keeps the confirmation bits equal to the consumed sides of the latest change request |
| `AuthRuns.BitSaysOtherSide` | src/supython/auth/service.py:768-801 | a consumable change token belongs to the latest request, and its user's bits are exactly the other side's consumption |
| `AuthTheorems.EveryReachableStateIsConsistent` | src/supython/auth/service.py:279-920 | every state of every run from empty tables has unique emails, owned chained tokens and tracked changes |
| `AuthTheorems.OneLiveTokenPerFamily` | src/supython/auth/service.py:130-146 | of two tokens of one family the earlier is revoked and is an ancestor, and both belong to one user |
| `AuthTheorems.DeadFamilyNeverRevives` | src/supython/auth/service.py:372-452 | in any run a family once without a live token stays so |
| `AuthTheorems.EndedFamilyStaysEnded` | src/supython/auth/service.py:397-428 | once a revoked member is presented or any member is logged out locally, no token of the family is ever live again |
| `AuthTheorems.LogoutOthersKeepsSessionIff` | src/supython/auth/service.py:510-544 | with any bearer or none, scope `others` revokes all rows of the bearer, or of the row's owner, but the presented one; a live token of its family remains if and only if the presented row was live, or the bearer is someone else and the family was live |
| `AuthTheorems.RefusalLeavesMarkIff` | src/supython/auth/service.py:178-213 | a refused call changes the tables if and only if it is a detected reuse with a live descendant, a provider failing after a committed rotation or sign-up, or an OAuth sign-in refused at issuance after it had created, linked, confirmed or activated |
| `AuthTheorems.PasswordChangeSoleSurvivor` | src/supython/auth/service.py:627-644 | a granted password change leaves the returned token as the user's one live token and other users' tokens as they were; in every later state of any run each live token of the user goes back to it or to a later sign-in |
| `AuthTheorems.RecoverySoleSurvivor` | src/supython/auth/service.py:888-920 | a granted recovery does the same, and no recover token the user then had can be consumed in any later state |
| `AuthTheorems.BannedGetsNothing` | src/supython/auth/service.py:107-127 | no call creates a refresh or access token for a user who is banned at that time |
| `AuthTheorems.RunBoundsAccess` | src/supython/tokens.py:29-58 | in every run every access token expires within the access lifetime of the latest call |
| `AuthTheorems.BannedRefreshKeepsToken` | src/supython/auth/service.py:430-434 | a banned user's refresh is refused and changes nothing, so the token is not burned |
| `AuthLaws.CallsKeepRows` | src/supython/auth/service.py:279-920 | no call deletes an account; a password changes only by a granted change or recovery of its own account, a ban only by `ban` and `unban`, and activation and confirmation are never taken back |
| `AuthLaws.EveryGrantIsProper` | src/supython/auth/service.py:107-146 | whatever the call, a session is granted only to an account that is not banned, is active, and is confirmed where required; it is one pair, whose access token lives exactly the configured time; without a grant no access token is made |
| `AuthLaws.RefreshAnswers` | src/supython/auth/service.py:372-452 | an unknown token is invalid, a revoked one is reuse and revokes exactly its descendants, and a live one of an eligible account is revoked and replaced by its child, the provider failing afterwards or not |
| `AuthLaws.PasswordSignsIn` | src/supython/auth/service.py:343-369 | after an accepted sign-up, or a granted change or recovery, and until the next one, exactly that password signs in to the account, in every later state; any other is refused as invalid credentials and changes nothing |
| `AuthLaws.PasswordDecides` | src/supython/auth/service.py:343-369 | with an account's address, a wrong password is invalid credentials, and the right one is granted or refused for what the account is |
| `AuthLaws.NoPasswordNoSignIn` | src/supython/auth/service.py:355-357 | an unknown address and an account without a password are refused like a wrong password |
| `AuthLaws.ResetNeedsProof` | src/supython/auth/service.py:591-644 | a change of a password needs the present one, a recovery an unused and unexpired token of the account under its address |
| `AuthLaws.ChangeIsGrantedIff` | src/supython/auth/service.py:591-644 | with the present password, where there is one, a change is granted exactly when the account may sign in and the providers succeed |
| `AuthLaws.OauthTakesOverNothing` | src/supython/auth/service.py:1181-1388 | a provider sign-in is for the account its identity is linked to; else for the one with its verified address, unless that is unconfirmed and has a password; else for a new one; otherwise it changes nothing |
| `AuthLaws.BanBans` | src/supython/admin/api/service_auth_users.py:148-168 | an accepted ban makes the user banned exactly until its end, a day when no duration is asked, and writes nothing else; it is refused exactly for a non-positive duration and an unknown user |
| `AuthLaws.UnbanUnbans` | src/supython/admin/api/service_auth_users.py:170-182 | an unban ends the ban at once and writes nothing else |
| `AuthLaws.BanStands` | src/supython/admin/api/service_auth_users.py:148-168 | without a later ban or unban of the user, in every later state the user is banned exactly until the end of the ban |
| `AuthLaws.BanCutsOff` | src/supython/admin/api/service_auth_users.py:148-168 | after an accepted ban, without a later ban or unban of the user and until its end, no run issues anything to the user, and all their access tokens expire within the access lifetime of the ban |
| `AuthLaws.BanEnds` | src/supython/auth/service.py:107-127 | from the end of the ban on the account may sign in again, if it is active and confirmed where required |
| `AuthLaws.GlobalSignOutRevokesAll` | src/supython/auth/service.py:510-544 | global logout revokes every row of the bearer, or of the presented token's owner, and no other; without either it is refused |
| `AuthLaws.LocalSignOutRevokes` | src/supython/auth/service.py:486-508 | local logout revokes exactly the row of the presented token and everything rotated out of it |
| `AuthLaws.ForcedSignOutRevokes` | src/supython/admin/api/service_auth_users.py:184-200 | a forced logout revokes every row of an existing user, a revocation by id exactly that row |
| `AuthLaws.UnnamedSignOutIsRefused` | src/supython/auth/service.py:480-520 | local and `others` logout without a token are refused, with an unknown one do nothing |
| `AuthLaws.SignedOutForGood` | src/supython/auth/service.py:510-544 | after a global or forced logout, in every later state, each live token of the user goes back to a later sign-in |
| `AuthLaws.SignupCreates` | src/supython/auth/service.py:279-340 | a sign-up is refused for a used address only, and creates one active, unconfirmed account with its password |
| `AuthLaws.ProvisionAndActivate` | src/supython/auth/service.py:561-588 | activation stamps an existing account once; a provisioned account has an address and nothing else |
| `AuthLaws.InactiveGetsNoSession` | src/supython/auth/service.py:107-127 | in every run an account gets no session, by whatever call, before it is activated |
| `EmailedTokens.RequestStoresToken` | src/supython/auth/service.py:854-873 | a request answers alike for every address, and stores one token with the configured or clamped lifetime for an account that has one to get |
| `EmailedTokens.VerifyAnswers` | src/supython/auth/service.py:1017-1083 | a token is accepted exactly when it is of its kind, unused, unexpired and of the claimed address; it is then worth one session, proves the address and is used, or nothing changes |
| `EmailedTokens.RecoverAnswers` | src/supython/auth/service.py:876-920 | the same for a recovery, which also stores the new password |
| `EmailedTokens.TokenWorksOnce` | src/supython/auth/service.py:178-213 | a token that was worth a session is refused in every later state |
| `EmailedTokens.CallsKeepToken` | src/supython/auth/service.py:178-213 | only a granted verification with it, or a granted recovery of its account, uses a token up |
| `EmailedTokens.EmailedTokenOpens` | src/supython/auth/service.py:149-213 | an emailed token that was not used up opens in every later state, for its own kind and the account's address, exactly until its lifetime is over |
| `EmailedTokens.RequestReplacesChange` | src/supython/auth/service.py:667-756 | an email change is refused for the own and for a used address only, and replaces what was pending by two fresh tokens |
| `EmailedTokens.VerifyChangeAnswers` | src/supython/auth/service.py:758-851 | the first side of a change is only noted; the second changes the address to the requested one and confirms it, unless the address is taken or the account may not sign in, and then nothing changes |
| `AuthTheorems.EmailChangesOnlyWhenBothConfirmed` | src/supython/auth/service.py:758-851 | an email changes only to the latest request's address and only when both of its tokens have been consumed before they expired |
| `AuthTheorems.OtherCallsKeepEmails` | src/supython/auth/service.py:279-340 | no other call changes the email of an existing account |
| `AuthTheorems.ChangeIsAlwaysPending` | src/supython/auth/service.py:790-796 | the refusal for a consumable change token without a pending change is never reached |
| `AuthTheorems.TakenAddressLeavesChangePending` | src/supython/auth/service.py:817-828 | when the address was taken meanwhile the call is refused, everything is rolled back and the token stays consumable |
| `AuthService.Service.ConsumeOneTime` | src/supython/auth/service.py:178-213 | burns exactly a live unexpired token of an accepted kind and address, and otherwise nothing |
| `AuthService.Service.StoreOneTime` | src/supython/auth/service.py:149-175 | stores one unused token row with its expiry and touches no other row |
| `AuthService.Service.MarkEmailConfirmed` | src/supython/auth/service.py:240-249 | dates the confirmation once and touches no other user |
| `AuthService.Service.UpdateRevoked` | src/supython/auth/service.py:526-537 | the update loop revokes exactly the user's rows, less the kept one |
| `AuthService.Service.AssertCanAuthenticate` | src/supython/auth/service.py:107-127 | the eligibility gate in the order ban, activation, confirmation |
| `AuthService.Service.IssueTokens` | src/supython/auth/service.py:130-146 | the gate, the access token and the stored refresh row of every issuance |
| `AuthService.Service.SignUp` | src/supython/auth/service.py:279-340 | the statements of a sign-up make the specified step |
| `AuthService.Service.SignIn` | src/supython/auth/service.py:343-369 | the statements of a password sign-in make the specified step |
| `AuthService.Service.Refresh` | src/supython/auth/service.py:372-452 | the statements of a refresh, with the worklist revocation on reuse, make the specified step |
| `AuthService.Service.SignOut` | src/supython/auth/service.py:455-544 | the statements of the three logout scopes make the specified step |
| `AuthService.Service.Activate` | src/supython/auth/service.py:561-588 | activation makes the specified step |
| `AuthService.Service.ChangePassword` | src/supython/auth/service.py:591-644 | the statements of a password change, rolled back on refusal, make the specified step |
| `AuthService.Service.RequestChange` | src/supython/auth/service.py:667-755 | the statements of an email-change request make the specified step |
| `AuthService.Service.VerifyChange` | src/supython/auth/service.py:758-851 | the statements of an email-change verification, rolled back on refusal, make the specified step |
| `AuthModel.ClampMagicLinkTtl` | src/supython/auth/service.py:967-976 | an asked-for link lifetime within a minute and the ceiling is kept, one outside is clamped, and none gives the default |
| `AuthService.Service.RequestToken` | src/supython/auth/service.py:979-1014 | requesting an emailed token stores at most one row, with the clamped lifetime |
| `AuthService.Service.VerifyToken` | src/supython/auth/service.py:1017-1083 | the passwordless verifications, rolled back on refusal, make the specified step |
| `AuthService.Service.Recover` | src/supython/auth/service.py:876-920 | the statements of a recovery, rolled back on refusal, make the specified step |
| `AuthService.Service.FinishOauth` | src/supython/auth/service.py:1181-1388 | linking, creating or refusing an account by provider identity makes the specified step |
| `AuthService.Service.Ban` | src/supython/admin/api/service_auth_users.py:148-168 | sets the end of the ban, or refuses an unknown user or a bad duration |
| `AuthService.Service.Unban` | src/supython/admin/api/service_auth_users.py:170-182 | clears the end of the ban, or refuses an unknown user |
| `AuthService.Service.ForceSignOut` | src/supython/admin/api/service_auth_users.py:184-201 | revokes every token of the user |
| `AuthService.Service.RevokeOne` | src/supython/admin/api/service_auth_users.py:273-287 | revokes one row, or refuses an unknown one |
| `AuthService.Service.Serve` | src/supython/auth/service.py:279-1388 | every call through the object is exactly one step of the state machine and keeps the invariant |
| `RefreshProtocol.RefreshOfLiveLeaf` | src/supython/auth/service.py:397-452 | refreshing a session's live leaf makes the new token its live leaf, or refuses for ineligibility and changes nothing |
| `RefreshProtocol.StepSound` | ts-sdk/src/client.ts:263-271 | every step of any task, of the network, of the server or of other users keeps client and server coordinated |
| `RefreshProtocol.SingleFlightNeverReuses` | ts-sdk/src/client.ts:263-271 | in every interleaving at most one refresh is in flight, the reuse branch is never taken, and between flights the stored token is the session's one live token |
| `RefreshProtocol.WaitersShareOneAnswer` | ts-sdk/src/lib/postgrest.ts:36-43 | all tasks waiting on a flight act on its one answer, and no task fetches more than twice |
| `RefreshProtocol.LatestPairIsHeld` | ts-sdk/src/auth.ts:114-129 | in every interleaving, whenever no refresh is under way, the client holds exactly the access and refresh token of the server's latest answer, and neither after a refusal |
| `RefreshProtocol.WaiterMovesOn` | ts-sdk/src/lib/postgrest.ts:36-43 | a waiting request moves on exactly when its refresh has an answer: to its retry, or to its end |
| `RefreshProtocol.ResponseEnds` | ts-sdk/src/lib/postgrest.ts:36-43 | any response but a first 401 ends its request, so there is one retry at most |
| `RefreshProtocol.SecondJoins` | ts-sdk/src/client.ts:263-271 | of two requests that meet a 401 the first sends the stored token and the second sends nothing |
| `RefreshProtocol.NothingToSend` | ts-sdk/src/client.ts:263-271 | without a refresh token nothing is sent, the session is dropped and the waiter is told so |
| `RefreshProtocol.OneRefreshServesAll` | ts-sdk/src/client.ts:263-271 | while a live token of an eligible account is stored, one refresh gives two waiting requests their retry and the client the new pair |
| `RefreshProtocol.NextRefreshIsReuseIff` | src/supython/auth/service.py:436-452 | the refresh after a granted one is treated as reuse, ending the family, if and only if the answer was lost or the claims provider failed |
| `RefreshProtocol.RevokedIsReuse` | src/supython/auth/service.py:397-428 | a refresh with a revoked token is refused as reuse and ends the family |
| `RefreshProtocol.SupythonClient.SetSession` | ts-sdk/src/client.ts:154-159 | stores both tokens and leaves a running flight alone |
| `RefreshProtocol.SupythonClient.ClearSession` | ts-sdk/src/client.ts:161-165 | forgets both tokens and leaves a running flight alone |
| `RefreshProtocol.SupythonClient.StartHandle401` | ts-sdk/src/client.ts:263-269 | joins a running flight or starts the only one, ending the session when there is no refresh token |
| `RefreshProtocol.SupythonClient.ReceiveRefresh` | ts-sdk/src/auth.ts:114-129 | adopts a granted pair, clears the session on a client error, keeps it otherwise |
| `RefreshProtocol.SupythonClient.FinishHandle401` | ts-sdk/src/client.ts:270 | the flight is over and its answer is what the waiters see |
| `Rotation.EveryRunIsGood` | src/supython/secretset.py:179-282 | every run of rotate, activate and prune, forced or not, keeps kids unique, exactly one active entry equal to the pointer, and a time on every retired entry |
| `Rotation.PruneKeepsGood` | src/supython/keyset.py:207-236 | a prune keeps the invariant and never removes the active entry |
| `Rotation.ImportedIsReachable` | src/supython/scaffold/init_project.py:183-208 | a scaffolded or imported manifest is what one rotation makes of the empty one |
| `Rotation.AcceptedThroughoutWindow` | src/supython/secretset.py:322-341 | whatever rotates, a signature under the key active when it was made is accepted for any window up to the grace window |
| `Rotation.LostAtGrace` | src/supython/secretset.py:250-282 | a run that loses a signature exactly one grace window after it was made |
| `Rotation.RotationPromise` | src/supython/secretset.py:227-341 | signatures survive every run for `window` seconds if and only if `window` is at most the grace window |
| `Rotation.OperationsDoAsDescribed` | src/supython/keyset.py:142-237 | in every reachable manifest: adding lists the key last as verifying, the first of all as active; activating makes exactly the named key active and retires exactly the previous one, at this second; pruning drops exactly the retired keys past grace, all retired ones when forced, and keeps the order |
| `Rotation.ActivatesIsUnique` | src/supython/keyset.py:187-204 | the description of activation leaves one possible result |
| `Rotation.SignerStays` | src/supython/keyset.py:187-204 | nothing but an activation changes the active key |
| `Rotation.RetiredSecretsExpire` | src/supython/secretset.py:322-342 | a superseded secret that is left alone is accepted in no later state from the end of its grace on, pruned or not |
| `Rotation.FindKid` | src/supython/keyset.py:120-125 | finds an entry with the kid, or there is none |
| `Rotation.ActivateEntries` | src/supython/keyset.py:187-204 | the loop over entries promotes the target and retires the rest as specified |
| `Rotation.SplitPrunable` | src/supython/keyset.py:207-236 | the loop splits entries into the survivors and the removed kids as specified |
| `SecretSet.SigningNeverFails` | src/supython/secretset.py:290-319 | after every run the signing loader reaches none of its errors and finds a secret exactly when the section exists |
| `SecretSet.OtherSectionsUntouched` | src/supython/secretset.py:179-224 | operations on one name leave every other name's section and values alone |
| `SecretSet.ActivatedSecretSigns` | src/supython/secretset.py:227-320 | after an activation, through every run, forced prunes included, the loader signs with the trimmed value of the named kid until another is activated |
| `SecretSet.VerifiersHoldExactly` | src/supython/secretset.py:322-342 | a verifier is given exactly the active secrets and those retired less than the grace window ago; the environment secret only when there are none |
| `SecretSet.RotationStores` | src/supython/secretset.py:179-224 | a rotation stores its value under its kid and lists it, after importing an environment secret of at least 32 characters where there is no manifest |
| `SecretSet.PruningDrops` | src/supython/secretset.py:250-282 | a prune drops exactly the outlived entries and their value files |
| `SecretSet.SignedUrlOutlivesRotation` | src/supython/storage/signing.py:59-112 | a URL signed with a lifetime below the grace window verifies after any run, for exactly its own object, exactly until it expires |
| `SecretSet.FirstRotationKeepsLegacyIff` | src/supython/secretset.py:136-176 | the first rotation of a name keeps the environment secret verifying if and only if it could be imported: no manifest yet, long enough, nothing to trim |
| `SecretSet.EnvironmentUrlOutlivesImport` | src/supython/secretset.py:136-176 | a URL signed under the environment secret verifies for its own object until it expires, through every run that starts with the rotation importing that secret |
| `SecretSet.SecretManifest.ImportLegacySingleSecret` | src/supython/secretset.py:136-176 | imports the environment secret exactly when there is no manifest and it is long enough |
| `SecretSet.SecretManifest.Rotate` | src/supython/secretset.py:179-224 | imports if needed, then adds the new secret, verifying unless it is the first |
| `SecretSet.SecretManifest.ActivateSecret` | src/supython/secretset.py:227-247 | the named entry becomes the only active one, or an error changes nothing |
| `SecretSet.SecretManifest.PruneSecrets` | src/supython/secretset.py:250-282 | entries and value files past grace go, and are returned |
| `SecretSet.SecretManifest.LoadSigningSecret` | src/supython/secretset.py:290-319 | the trimmed value of the active entry, or the error of its branch |
| `SecretSet.SecretManifest.LoadVerificationSecrets` | src/supython/secretset.py:322-341 | the active and the retired-within-grace secrets in order, and no verifying ones |
| `KeySet.SigningNeverFails` | src/supython/jwks.py:146-167 | after every run with a key the signing loader finds the active one |
| `KeySet.AccessTokenPromise` | src/supython/tokens.py:29-86 | access tokens decode until `slack` seconds past expiry after every run if and only if lifetime plus `slack` is at most the grace window, whatever became active since |
| `KeySet.ActivatedKeySigns` | src/supython/keyset.py:187-204 | after an activation, until the next, tokens carry the named kid and expire after their own lifetime |
| `KeySet.TokenDecodesExactlyUntil` | src/supython/tokens.py:29-86 | with a grace window that covers lifetime and leeway, a token decodes through every unforced run exactly until both are over |
| `KeySet.ImmediateActivationIsSafeIff` | src/supython/keyset.py:142-184 | adding a key as active at once keeps one active entry if and only if no other entry was active |
| `KeySet.Keyset.ImportLegacySingleKey` | src/supython/keyset.py:239-275 | imports the legacy key exactly when there is no manifest and there is a key |
| `KeySet.Keyset.AddKey` | src/supython/keyset.py:142-184 | adds the key, verifying unless it is the first |
| `KeySet.Keyset.ActivateKey` | src/supython/keyset.py:187-204 | the named key becomes the only active one, or the error of its branch changes nothing |
| `KeySet.Keyset.PruneKeys` | src/supython/keyset.py:207-236 | keys past grace go, and are returned |
| `KeySet.Keyset.LoadVerificationKeyset` | src/supython/jwks.py:206-221 | exactly the listed kids, whatever their status; the single legacy key without a manifest; an error when there is neither |
| `SignedUrl.VerifiesExactlyItsObject` | src/supython/storage/signing.py:55-108 | a token for bucket and path verifies for another pair if and only if the joined strings agree and it has not expired, whatever characters the path has |
| `SignedUrl.SlashFreeBucketsAreDetermined` | src/supython/storage/signing.py:55-57 | for bucket names without a slash the joined string determines bucket and path |
| `SignedUrl.ReadBack` | src/supython/storage/signing.py:93-104 | after the object's prefix the signed payload reads back its lifetime; after any other prefix of it there is no number |
| `SignedUrl.Verify` | src/supython/storage/signing.py:68-112 | the loop over secrets returns the verdict of the one that signed, or an invalid signature |
| `Topics.ParseUndoesPrint` | src/supython/realtime/topics.py:55-109 | parsing undoes printing on every eq filter and every in filter with trimmed, non-empty, comma-free values |
| `Topics.ParsedIsPrintable` | src/supython/realtime/topics.py:78-109 | every accepted string yields such a filter, and printing and parsing it again changes nothing |
| `Topics.NullIsNeverSelected` | src/supython/realtime/broker.py:760-776 | no accepted filter selects a row whose column is null or missing |
| `BrokerIndex.EveryRunIsCoherent` | src/supython/realtime/broker.py:242-327 | every run keeps index, subscriptions, presence ownership and insertion order in agreement |
| `BrokerIndex.IndexAgrees` | src/supython/realtime/broker.py:312-327 | in every run an id is listed on a topic if and only if that registered connection is subscribed to it; presence is owned by subscribers under their own key; no empty set, bucket or list remains |
| `BrokerIndex.UnregisterKeeps` | src/supython/realtime/broker.py:255-262 | a disconnect clears all its topics one by one and ends in agreement |
| `BrokerIndex.SubscribeKeeps` | src/supython/realtime/broker.py:277-305 | a join, a re-join included, ends in agreement |
| `BrokerIndex.UnsubscribeKeeps` | src/supython/realtime/broker.py:307-327 | a leave ends in agreement and removes exactly one subscription |
| `BrokerIndex.UntrackKeeps` | src/supython/realtime/broker.py:393-403 | untracking ends in agreement |
| `BrokerIndex.TrackKeeps` | src/supython/realtime/broker.py:370-391 | tracking adds an entry owned by a subscriber |
| `BrokerLimits.EveryQueueIsKept` | src/supython/realtime/broker.py:595-615 | in every run each queue is a suffix of what was enqueued, within capacity, and enqueued equals taken plus queued plus dropped |
| `BrokerQueues.EveryStepFeeds` | src/supython/realtime/broker.py:595-615 | in every reachable state a call only appends frames to a connection's log, its queue then holds the latest that fit, and only what does not fit is dropped; the writer takes the oldest |
| `BrokerQueues.LosesIffOverflowed` | src/supython/realtime/broker.py:595-615 | in every run a connection has lost a frame if and only if, after some call, more were undelivered than its queue can hold |
| `BrokerLimits.BroadcastReachesExactly` | src/supython/realtime/broker.py:331-366 | in every run a broadcast adds one frame to each subscriber of the topic, less a sender without echo, and changes nothing else |
| `BrokerLimits.EveryConnectionIsCapped` | src/supython/realtime/websocket.py:372-389 | in every run no connection holds more filters than the cap |
| `BrokerLimits.EveryIdIsUnique` | src/supython/realtime/topics.py:112-124 | in every state of every run no two filters share an id |
| `BrokerLimits.IdsDifferAcrossTime` | src/supython/realtime/topics.py:112-124 | filters with one id at any two moments of a run are one filter of one unchanged subscription |
| `BrokerLimits.IdsAreNeverReused` | src/supython/realtime/topics.py:112-124 | an id below the counter that somebody holds later was held at the same place before, so a released id never returns |
| `BrokerLimits.JoinDraws` | src/supython/realtime/websocket.py:391-410 | a join never turns the counter back, and every id it brings is at or above the old counter |
| `BrokerLimits.AssignInOrder` | src/supython/realtime/topics.py:136-159 | ids are consecutive in the filters' order, and a join is refused exactly when some filter does not parse |
| `BrokerPresence.PresenceReplays` | src/supython/realtime/broker.py:312-425 | in every run a subscriber that was sent a state frame since it joined, and has lost nothing since the last one, replays to exactly the current presence, under every key |
| `BrokerPresence.EveryoneIsInformed` | src/supython/realtime/broker.py:648-670 | in every run the frames ever enqueued to a synced subscriber replay to the current presence |
| `BrokerPresence.KeptAndRemoved` | src/supython/realtime/broker.py:617-646 | a list of entries splits into what is kept and what is reported as left |
| `BrokerPresence.ReplaySuffix` | src/supython/realtime/broker.py:409-425 | nothing before the last state frame matters to a replay |
| `BrokerPresence.DroppedDiffMisleads` | src/supython/realtime/broker.py:606-615 | a run in which an overflow leaves a subscriber with the wrong presence |
| `BrokerCalls.RegisterAdmits` | src/supython/realtime/broker.py:230-253 | a connection is admitted below the cap, empty, with its role and claims, under the next id |
| `BrokerCalls.ConnectionsAreCapped` | src/supython/realtime/broker.py:230-253 | no run holds more connections than the cap |
| `BrokerCalls.DisconnectCloses` | src/supython/realtime/broker.py:255-262 | a disconnect closes its connection and no other |
| `BrokerCalls.ClaimsReplace` | src/supython/realtime/broker.py:264-273 | new claims replace the role and claims of one connection and nothing else |
| `BrokerCalls.StateIsSent` | src/supython/realtime/broker.py:405-425 | the state frame goes to one connection and lists who is there |
| `BrokerCalls.TrackAdds` | src/supython/realtime/broker.py:370-391 | tracking adds one entry under the member's key and takes none away; a non-member changes nothing |
| `BrokerCalls.UntrackRemoves` | src/supython/realtime/broker.py:393-403 | untracking removes exactly the connection's own entries on the topic |
| `BrokerCalls.LeaveRemoves` | src/supython/realtime/broker.py:307-327 | so does leaving the topic |
| `BrokerCalls.DisconnectRemoves` | src/supython/realtime/broker.py:255-262 | a disconnect removes exactly the connection's own entries everywhere |
| `BrokerFanout.MatchedExactly` | src/supython/realtime/broker.py:719-757 | the ids matched on a channel are those of its matching filters, once each |
| `BrokerFanout.FanOutIsExact` | src/supython/realtime/broker.py:453-515 | in every reachable state a fan-out adds to each connection the ids of its matching filters exactly once each when it is authorised, and nothing otherwise |
| `BrokerFanout.LabelIs` | src/supython/realtime/broker.py:779-792 | the label is the first matching channel in join order, or the fallback when none matches |
| `BrokerFanout.LabelsAgreeIff` | src/supython/realtime/broker.py:779-792 | with nothing between listing and push, every push of a connection names the channel its ids belong to if and only if at most one channel matches |
| `BrokerFanout.SecondRoomIsMislabelled` | src/supython/realtime/broker.py:779-792 | a run in which one connection watches one table on two channels: the second's ids arrive under the first's name |
| `BrokerAccess.AuthorizedIffVisible` | src/supython/realtime/broker.py:516-576 | authorisation is: the service role, or unexpired claims and a granted key, or an owned old row |
| `BrokerAccess.ServiceRoleGetsAll` | src/supython/realtime/broker.py:524-525 | in every reachable state a fan-out withholds nothing from the service role |
| `BrokerAccess.ExpiredGetsNothing` | src/supython/realtime/broker.py:530-531 | another role with expired claims gains nothing |
| `BrokerAccess.ProbeDecides` | src/supython/realtime/broker.py:549-571 | an insert or update gives a connection each id it asks for once if the database grants the row's key values to its role and claims, and nothing otherwise |
| `BrokerAccess.MissingKeyGetsNothing` | src/supython/realtime/broker.py:549-560 | a notification without a key column reaches only the service role |
| `BrokerAccess.OwnerDecides` | src/supython/realtime/broker.py:533-547 | a deletion gives a connection each id it asks for once if its user is the owner in the old row, as a UUID or else as text, and nothing otherwise |
| `BrokerAccess.OwnerlessGetsNothing` | src/supython/realtime/broker.py:533-542 | without an owner column, an owner or a user a deletion reaches only the service role |
| `BrokerAccess.AskDecides` | src/supython/realtime/broker.py:495-504 | with other steps during the probes, a candidate is allowed by what its connection is when it is asked for |
| `BrokerAccess.JoinSubscribes` | src/supython/realtime/websocket.py:335-420 | an accepted join leaves the connection subscribed with the filters, echo and key it asked for, and changes no other subscription; it is accepted exactly when the filters fit and parse |
| `BrokerAccess.OthersSubscriptions` | src/supython/realtime/broker.py:230-327 | no other call changes a subscription but leaving its topic and disconnecting |
| `BrokerAccess.EchoIffAsked` | src/supython/realtime/broker.py:331-366 | a sender hears its own broadcast exactly when its join asked for it |
| `BrokerAccess.FiltersAreAsWritten` | src/supython/realtime/topics.py:135-159 | in every run a held filter is the parse of the text the client wrote |
| `BrokerAccess.WantedIffAsked` | src/supython/realtime/broker.py:719-757 | a filter's id is matched exactly for a change on its schema, table and event whose row holds one of its values in its column |
| `BrokerDelivery.StraightIsFanOut` | src/supython/realtime/broker.py:478-515 | asking for and answering every candidate with nothing in between is the fan-out in one go |
| `BrokerDelivery.FanOutIsARun` | src/supython/realtime/broker.py:478-515 | a fan-out with anything during its probes is a run of the broker, so all invariants hold throughout |
| `BrokerDelivery.InterleavedIdsAreOfTheSnapshot` | src/supython/realtime/broker.py:478-515 | whatever runs during the probes, an id is sent at most once and only if a filter with it matched at the snapshot, and each candidate is decided once |
| `BrokerDelivery.SentOnceIffServed` | src/supython/realtime/broker.py:495-515 | when the fan-out has finished, a matching id was sent exactly once if its connection was authorised at its candidate's turn and open at the push, and not at all otherwise |
| `BrokerDelivery.PushLabelIff` | src/supython/realtime/broker.py:779-792 | at any push of any fan-out the label is the candidate's channel if and only if that channel is then the first matching one, or none matches and it is the fallback |
| `BrokerDelivery.LeftRoomIsMislabelled` | src/supython/realtime/broker.py:495-515 | a probed connection with one matching channel leaves it during a granting probe: its ids arrive under a name it never joined |
| `BrokerDelivery.ClosedGetsNothing` | src/supython/realtime/broker.py:595-603 | a connection that closes at any point, the probe included, stays closed and is sent nothing more, whatever is pending or already authorised |
| `BrokerLogs.StepLog` | src/supython/realtime/broker.py:595-615 | of all steps of the broker only a push of row changes adds ids to a log, its own ids to its own connection's |
| `BrokerLogs.LogAccount` | src/supython/realtime/broker.py:495-515 | at every moment of a fan-out the log of an open connection begins with what it was, and its ids are those it had, those others pushed and those the fan-out sent it |
| `BrokerLogs.LogsGainExactly` | src/supython/realtime/broker.py:478-515 | after a fan-out with anything during its probes, the log of an open connection has gained each id exactly as often as others pushed it, and once more if a filter with it matched at the listing and its candidate was authorised and then found open |
| `RealtimeBroker.Connection.Put` | src/supython/realtime/broker.py:595-615 | enqueues with drop-oldest, refuses once closed |
| `RealtimeBroker.Connection.Take` | src/supython/realtime/broker.py:85-105 | the writer takes the oldest frame |
| `RealtimeBroker.Broker.TakeFrom` | src/supython/realtime/broker.py:85-105 | the writer of one connection takes its oldest frame and no other connection changes |
| `RealtimeBroker.Broker.Register` | src/supython/realtime/broker.py:230-253 | registers under the next id unless the cap is reached |
| `RealtimeBroker.Broker.Unregister` | src/supython/realtime/broker.py:255-262 | closes the connection and clears its topics in order, with their diffs |
| `RealtimeBroker.Broker.UpdateClaims` | src/supython/realtime/broker.py:264-273 | replaces role and claims of one connection and nothing else |
| `RealtimeBroker.Broker.Subscribe` | src/supython/realtime/broker.py:277-305 | replaces an old subscription, then adds the new one last |
| `RealtimeBroker.Broker.Unsubscribe` | src/supython/realtime/broker.py:307-327 | leaves the topic and tells those who stay |
| `RealtimeBroker.Broker.Broadcast` | src/supython/realtime/broker.py:331-366 | adds one frame to each member of the topic, less a sender without echo, and returns how many |
| `RealtimeBroker.Broker.EmitPresenceDiff` | src/supython/realtime/broker.py:648-670 | adds the diff to every member of the topic and to nobody else |
| `RealtimeBroker.Broker.TrackPresence` | src/supython/realtime/broker.py:370-391 | appends the entry and tells every member, or refuses a connection that has not joined |
| `RealtimeBroker.Broker.UntrackPresence` | src/supython/realtime/broker.py:393-403 | strips the connection's entries and tells every member |
| `RealtimeBroker.Broker.PushPresenceState` | src/supython/realtime/broker.py:405-425 | enqueues the current presence to one connection |
| `RealtimeBroker.Broker.DropPresenceFor` | src/supython/realtime/broker.py:617-646 | the loop over keys keeps the others' entries, removes empty lists and buckets, and returns what it removed |
| `RealtimeBroker.Broker.SplitBucket` | src/supython/realtime/broker.py:629-643 | every key's list is split into kept entries and removed metas |
| `RealtimeBroker.Broker.AssignIds` | src/supython/realtime/topics.py:136-159 | ids in order until a filter fails to parse |
| `RealtimeBroker.Broker.HandleJoin` | src/supython/realtime/websocket.py:335-420 | the cap, the ids and the subscription of a join; it succeeds exactly when the filters fit under the cap and all parse |
| `RealtimeBroker.Broker.MatchSubscriptionIds` | src/supython/realtime/broker.py:719-757 | the loop over filters returns the ids of the matching ones in order |
| `RealtimeBroker.Broker.CandidatesFor` | src/supython/realtime/broker.py:478-489 | the snapshot of every matching channel of every open connection |
| `RealtimeBroker.Broker.Authorize` | src/supython/realtime/broker.py:517-576 | service role, expiry, owner column and probe, in that order |
| `RealtimeBroker.Broker.LabelFor` | src/supython/realtime/broker.py:779-792 | the first matching channel, else the first channel, else a fixed name |
| `RealtimeBroker.Broker.PushTo` | src/supython/realtime/broker.py:505-515 | after the probe: one frame labelled from the connection as it now is, or nothing when it has closed |
| `RealtimeBroker.Broker.DeliverTo` | src/supython/realtime/broker.py:495-515 | one candidate's turn with nothing during the probe: one labelled frame if its connection is open and authorised, nothing otherwise |
| `RealtimeBroker.Broker.FanoutChange` | src/supython/realtime/broker.py:453-515 | the loops over candidates, with nothing in between and one clock reading, make the specified fan-out |
| `Cron.TicksAreConsecutive` | src/supython/jobs/cron_inproc.py:71-94 | in every run each replica fires the ticks after its start with no gap or repetition, its anchor is the last of them, and a cron unknown at start never fires |
| `Cron.OneUnfinishedJobPerTick` | src/supython/migrations/0007_jobs_schema.sql:68-72 | across replicas at most one unfinished job exists per tick, although the lock is released before the commit |
| `Cron.JobsAtMostFirers` | src/supython/jobs/cron_inproc.py:99-119 | a tick never has more jobs than replicas that fired it |
| `Cron.EnqueueOnceIff` | src/supython/migrations/0007_jobs_schema.sql:157-175 | with the lock held, no unfinished job and no pending insert of the tick, enqueue and commit keep one job per tick if and only if the tick has no job |
| `Cron.SingleRunIff` | src/supython/jobs/cron_inproc.py:99-119 | in any run every tick has at most one job if and only if no enqueue goes through for a tick that then has a job and has its transaction commit |
| `Cron.PendingKeepsGuard` | src/supython/jobs/cron_inproc.py:99-119 | while an insert is pending nobody adds a job of its tick, so the guard is settled when the enqueue goes through |
| `Cron.OncePerTickIff` | src/supython/migrations/0007_jobs_schema.sql:157-175 | a tick gets at most one job in every run if and only if the idempotency check covers every status |
| `Cron.FinishedJobsAreForgotten` | src/supython/migrations/0007_jobs_schema.sql:157-175 | the check as written does not give at most one job per tick |
| `Cron.LockIsExclusive` | src/supython/jobs/cron_inproc.py:101-119 | in every run one replica at most is between lock and unlock of a cron |
| `Cron.StartsAtPresent` | src/supython/jobs/cron_inproc.py:65-77 | a replica starts with every cron it knows anchored at the present |
| `Cron.FiredTicksHaveJobs` | src/supython/jobs/cron_inproc.py:86-119 | in every run whatever a replica counts as fired has a job |
| `Cron.NothingFiresEarly` | src/supython/jobs/cron_inproc.py:81-89 | in every run no tick is fired before it is due |
| `Cron.LoserRollsBack` | src/supython/migrations/0007_jobs_schema.sql:157-175 | a replica whose insert loses to another's rolls back: no job is added and no anchor moves |
| `Cron.FailureLeavesNothing` | src/supython/jobs/cron_inproc.py:90-119 | a failed attempt leaves anchors, history and jobs as they were and the lock free |
| `Cron.PassAdvances` | src/supython/jobs/cron_inproc.py:81-97 | one pass moves an anchor by one due tick at most and never invents an anchor |
| `Cron.PassIsTurns` | src/supython/jobs/cron_inproc.py:81-97 | the anchors a pass leaves in the shared world, whatever happens within its turns, are those the loop computes |
| `CronLoop.PassIsPassed` | src/supython/jobs/cron_inproc.py:79-97 | a pass that nothing interrupts, attempt by attempt, moves the anchors as the loop over the crons does |
| `CronLoop.StopEndsPasses` | src/supython/jobs/cron_inproc.py:79-99 | from a stop to the next start no loop begins a pass, and an anchor moves only for a cron still to come in a pass under way, to a tick due at it |
| `CronLoop.StoppedMovesOnce` | src/supython/jobs/cron_inproc.py:79-99 | with one loop at a time it moves once at most, to the next tick of its schedule |
| `CronLoop.SoleLoopAdvances` | src/supython/jobs/cron_inproc.py:79-97 | when every start waits for the old loop to end, no step of any run moves an anchor by more than one tick, or back |
| `CronLoop.RestartRevivesIff` | src/supython/jobs/cron_inproc.py:65-79 | a start after a stop keeps the anchors it finds, so that missed ticks are still fired, and anchors new crons at the present; an old loop runs beside the new one if and only if it has not woken in between |
| `CronLoop.AnchorGoesBack` | src/supython/jobs/cron_inproc.py:79-99 | a run with a revived loop in which an anchor is set back to a tick before the last one fired |
| `CronLoop.InProcScheduler.Start` | src/supython/jobs/cron_inproc.py:65-97 | anchors every cron that has none, then goes to the first cron that is due |
| `CronLoop.InProcScheduler.Wake` | src/supython/jobs/cron_inproc.py:79-96 | after the sleep, a new pass while the scheduler runs and the end of the loop otherwise |
| `CronLoop.InProcScheduler.Answer` | src/supython/jobs/cron_inproc.py:86-97 | an attempt that fired moves its anchor to the tick; the pass goes to the next cron that is due |
| `CronLoop.InProcScheduler.Pass` | src/supython/jobs/cron_inproc.py:81-97 | with nothing in between, the loop over the crons moves exactly the anchors whose due tick was fired |
| `RateLimit.LimitHoldsIff` | src/supython/migrations/0009_auth_rate_limits.sql:19-33 | with or without the pruning job, every window of every run admits at most the limit if and only if there is no job or windows last an hour at most |
| `RateLimit.EachWindowIsBounded` | src/supython/auth/ratelimit.py:18-39 | in every run whose prunings spare the windows still running, each window admits at most the limit |
| `RateLimit.SparesAlways` | src/supython/migrations/0009_auth_rate_limits.sql:19-33 | without the job, and with windows of an hour at most, every run is such a run |
| `RateLimit.LongWindowForgets` | src/supython/migrations/0009_auth_rate_limits.sql:20-33 | with the job and a longer window a run admits one more than the limit in one window |
| `RateLimit.AnyIntervalAdmitsTwice` | src/supython/auth/ratelimit.py:18-39 | in every such run any interval of the window's length, at any offset, admits at most twice the limit |
| `RateLimit.AdmittedIffBelowLimit` | src/supython/auth/ratelimit.py:24-39 | in every such run an attempt is admitted exactly when fewer than the limit, refused ones included, were made before it in its window |
| `RateLimit.PruneDeletesOld` | src/supython/migrations/0009_auth_rate_limits.sql:26-31 | pruning deletes exactly the counters of windows that began over an hour ago |
| `RateLimit.TwiceIsReached` | src/supython/auth/ratelimit.py:18-39 | and twice the limit is reached, for every window length |
| `RateLimit.WindowOf` | src/supython/auth/ratelimit.py:18-21 | the window start is the aligned multiple at or before the moment |
| `RateLimit.RateLimiter.Attempt` | src/supython/auth/ratelimit.py:24-39 | counts every attempt and blocks exactly those past the limit |

## Left out

- Cryptography, argon2, hashing and randomness: a signature is a value only its own secret checks; new tokens, kids and ids are fresh.
- Caches (`lru_cache`, the realtime registry cache), the `JWT_KID` override, PEM and file handling in the key modules.
- Concurrency inside the database, other than the racing refresh and the cron transactions: calls to the auth service are serialised.
- Emails, templates, redirect URLs, the audit log, hooks and user metadata: no modelled flow reads them.
- `last_sign_in_at`: written by the flows, read by none of them.
- RefreshProtocol.SingleFlightNeverReuses: assumes every refresh answer arrives and no claims provider raises, because otherwise it is false; NextRefreshIsReuseIff says exactly when. A manual `refreshSession` or `signOut` beside a running flight is not a step.
- SignedUrl.VerifiesExactlyItsObject: numerals that Python's `int` accepts beyond ASCII digits are not parsed, because no signer writes them.
- AuthService.Service.RequestToken: the refusal of a redirect URL outside the allowlist comes before it and is not modelled.
- AuthService.Service.FinishOauth: starts from the provider's profile; the signed state, the allowlist and the exchange, with their refusals, come before it.
- RealtimeBroker.Broker.DeliverTo: nothing happens during the probe; PushTo and BrokerDelivery cover what does.
- RealtimeBroker.Broker.FanoutChange: one clock reading and nothing in between; BrokerDelivery covers whatever runs during the probes, with a clock and answers of its own for each candidate.
- BrokerDelivery.ClosedGetsNothing: for a connection that has closed before its turn a probe is always assumed, because its role is no longer in the state; the fan-out may then suspend where the program does not.
- Topics.NullIsNeverSelected: column values arrive in their string form, so the coercion of timestamps is not modelled.
- BrokerFanout.FanOutIsExact: the table is enabled; for a table outside the registry the program sends nothing.
- RealtimeBroker.Broker.CandidatesFor: visits connections by id, which is the order of the program's dictionary, since ids grow and are never reused.
- RealtimeBroker.Broker.HandleJoin: payload validation and the token carried by a join are outside; a change of claims is a step of its own.
- Expired-token refusals of `broadcast` and `presence` frames in the socket handler: the broker's own methods do not check them.
- The LISTEN loop, its reconnection, and the broker's `stop`.
- Cron.TicksAreConsecutive: a replica runs one loop; several loops of one scheduler object are CronLoop's.
- CronLoop.InProcScheduler.Pass: the crons of a pass are fixed when it begins; registering one during a pass, which ends the program's loop with an error, is not a step.
- Cron.JobsAtMostFirers: a commit that succeeds while its answer is lost is not a step; hash collisions between lock names only add contention.
- Job claiming, retries and back-off: any status change of a job is allowed at any time, subject to the unique index.
- RateLimit.RateLimiter.Attempt: one clock for the limiter and its pruning, and the counter's 32-bit range is not modelled.
- Storage uploads and range reads, routers, CLI, admin pages, type generators, health checks, log tailing, middleware, client-IP resolution.
