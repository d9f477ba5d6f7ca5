# Verified models of the control plane and its clients

This project models the protocols and reconcilers of the Agent Enterprise Protocol control plane
(Go services), its Node SDK and its reference agent (TypeScript), and proves what they promise over
whole runs. Verify everything with `dafny verify dfyconfig.toml` (Dafny 4.11).

| module | what it is |
|---|---|
| `Sessions` | session and refresh-token tables, their transactions, and safety over every interleaving |
| `SessionEvents` | every answer to a bearer read off the events, and what each statement writes, row by row |
| `SessionRetention` | retention cleanup as a simulation: when bearers can notice it |
| `ClientRefresh` | the SDK's single-flight refresh, cut at its awaits and composed with the session server |
| `LoginLimiter` | login backoff, the failure window, and when the two sweeps are invisible |
| `LoginStreaks` | counts, delays and throttle answers read off the failures of a run |
| `AuditLimiter` | the bounded limiter of repeated failing administrative writes |
| `DataScope` | subtree closure, grant and deny layers, and the default-deny decision |
| `CredentialPublisher` | the reconciler of credential Secrets under concurrent writers |
| `CredentialCache` | the agent's credential cache with shared resolutions |
| `SkillReconciler` | Skill installation by swap and rollback, and the reconcile pass |
| `AgentInbox` | the agent's durable inbox and outbox under crashes |
| `Base64Url`, `GatewayPolicy` | limit headers, their injective key, and the Rego rules for the same set |
| `DesiredState`, `GatewayRender` | canonical desired state, its two hashes, and order-independent rendering |
| `Sorting` | Go string order and the contract of an unstable library sort |
| `Wrappers` | optional values |

Conventions. Time is an integer count of clock ticks. Tables are maps and a committed transaction is one
step. Where a method loops over a Go map or a SQL result without an order, the model picks any order and
the contract does not depend on it. Unknown results of other parties (network replies, failing file
operations, downloads) are chosen arbitrarily. SHA-256, authenticated decryption, URL parsing, the slug
of a model id, DNS-name validation and the contents an API server admits are function parameters; hash
results assume no collision between the texts in play and nothing else. Classes carry the state that the
source updates in place; each of their methods is tied to a function of the old state, and the run
theorems are about those functions.
Theorems whose names end in `OnFields` or `FollowsEvents` state what such a function does in the fields of
the data or from the events of a run alone, without the predicates the function is made of.

Some promises hold only under a condition; the model proves the exact one.

* The in-line sweep of the login limiter is invisible exactly when no count that fits its column causes a
  block longer than two failure windows plus one tick; with a first limit of at most 2^31 - 64, exactly
  when the longest backoff is no longer than that (`LoginLimiter.InlineSweepUnobservableIff`).
  Configuration validation does not ask for this. The run that shows it has at most 63 overlapping
  failures past the limit. If attempts do not overlap, the condition is on the base delay alone
  (`LoginLimiter.SerialInlineSweepIff`).
* Retention is invisible to bearers exactly when it is off, or no token of a session reaches more than two
  ticks further than it: the access token, the model token, or a token derived in the last tick of an
  access token (`SessionRetention.CleanupInvisibleIff`). The witness is a logout that stops after its
  first statement.
* A pass of the credential publisher without faults succeeds exactly when every eligible name is valid,
  every eligible or labelled name that is taken is the publisher's own, and every eligible envelope opens to
  text that its Secret already holds or the API server will write (`CredentialPublisher.Publisher.Sync`).
  The API server refuses contents it does not admit, a change of type, and a change of an immutable Secret,
  so an own Secret of either kind with stale data keeps the publisher from becoming ready. A withdrawn
  Secret with finalizers counts as withdrawn once it is marked; while it lingers, later passes fail.
* An answered credential request serves later uses exactly until the earlier of its two limits or the first
  disturbance: the id listed differently, a clear, or an answer to another outstanding request for the id,
  even one for a replaced revision (`CredentialCache.AnswerServesIff`, `CredentialCache.LateAnswerEvicts`).
* After a successful Skill pass a listed directory is the package its row names exactly unless the Skill was
  only reported unchanged and its directory was not whole before (`SkillReconciler.Reconciler.Reconcile`).
  A removal that stops half way, or a crash between swap and row, followed by a manifest that matches the
  row, is such a case: the pass succeeds and touches nothing.
* After such a pass the rows are the manifest's triples exactly when entries of one id agree
  (`SkillReconciler.TriplesMatchIff`).
* The published hash and the reconciler's hash agree exactly when there is a route: the reconciler
  encodes an empty list as null (`DesiredState.HashesAgreeIff`).
* The Rego rules and the Go code define the same headers exactly unless the body names an empty model
  (`GatewayPolicy.RegoAgreesIff`), although the comment on the rules calls them equivalent.
* The subtree walk ends exactly when no cycle lies below its start (`DataScope.WalkEndsIff`).
* A sort by key has one outcome exactly when equal keys mean equal elements
  (`Sorting.SortDeterminedIff`).

Two promises are proved under a condition together with runs that show it cannot be dropped; these are
counterexamples, not exact conditions.

* Local success stops a delivery from running again (`AgentInbox.NeverRunsAgain`). The server's knowledge of
  success does not: an agent that stops between reporting success and marking it runs the delivery a second
  time (`AgentInbox.ToldButRunAgain`).
* Concurrent credential resolutions are shared if no replaced revision is listed again and the cache is not
  cleared while one is outstanding (`CredentialCache.AtMostOneResolution`). Each of the two exceptions has a
  run with a duplicate (`CredentialCache.RecurrenceDuplicates`, `CredentialCache.ClearDuplicates`).

## Model

| member | source | states |
|---|---|---|
| `Sessions.SessionStore.IssueUserSession` | services/control-service/internal/app/app.go:479-547 | the new tables and the reply: a session row and one live token are added, or nothing changes |
| `Sessions.SessionStore.RefreshUserSession` | services/control-service/internal/app/app.go:552-619 | the new tables and the reply of a rotation, with every refusal leaving the tables alone |
| `Sessions.SessionStore.RevokeUserSession` | services/control-service/internal/app/app.go:621-636 | the presented token row and the session row are revoked; an empty session id changes nothing |
| `Sessions.SessionStore.RevokeUserSessionByID` | services/control-service/internal/app/app.go:642-670 | a known session and all its tokens are revoked keeping earlier revocation times; an unknown one is reported |
| `Sessions.SessionStore.RevokeUserSessionSet` | services/control-service/internal/app/app.go:672-682 | every session and token of the user is revoked, nothing else |
| `Sessions.SessionStore.ValidateAccessSession` | services/control-service/internal/app/app.go:151-178 | succeeds exactly for an active user owning an unrevoked session |
| `Sessions.SessionStore.DeleteTokens` | services/control-service/internal/app/retention.go:93-95 | deletes exactly the batch members that expired or were revoked before the cutoff |
| `Sessions.SessionStore.DeleteSessions` | services/control-service/internal/app/retention.go:96-98 | deletes exactly the idle batch members without a usable token, and their tokens with them |
| `Sessions.SessionStore.CleanupRetention` | services/control-service/internal/app/retention.go:85-99 | tokens are pruned first and sessions judged on what is left; without a retention nothing happens |
| `Sessions.IssueOpensSession` | services/control-service/internal/app/app.go:479-547 | a login succeeds exactly for a known user with a live agent profile; its refresh token and both access tokens work exactly while the user is active and their lifetimes last |
| `Sessions.RotationHandsOver` | services/control-service/internal/app/app.go:552-619 | a rotation happens exactly for a usable token; the successor is usable for a full lifetime, a new pair of access tokens is signed, the presented token never works again, and a refusal changes nothing |
| `Sessions.RotationIsLocal` | services/control-service/internal/app/app.go:605-614 | no other token becomes usable or unusable by a rotation |
| `Sessions.RevocationIsExact` | services/control-service/internal/app/app.go:621-682 | a revocation statement takes exactly the tokens it covers from their bearers |
| `Sessions.StepConsistent` | services/control-service/internal/app/app.go:509-545 | every statement keeps one live token per session, tokens attached to sessions, and identifiers recorded |
| `Sessions.AtMostOneLiveToken` | services/control-service/internal/app/app.go:479-682 | after every prefix of every legal run each session has at most one unrevoked token |
| `Sessions.SpentForever` | services/control-service/internal/app/app.go:605-614 | a rotated, revoked or deleted token never becomes usable again in any continuation |
| `Sessions.RotatedAtMostOnce` | services/control-service/internal/app/app.go:552-619 | no refresh token is rotated twice in any run of issue, refresh, revoke and cleanup steps |
| `Sessions.ClosedForever` | services/control-service/internal/app/app.go:621-682 | a revoked or deleted session stays so in every continuation |
| `Sessions.CompletionCloses` | services/control-service/internal/app/app.go:634-681 | the last statement of each revocation closes every session it covers |
| `Sessions.RevokedForGood` | services/control-service/internal/app/app.go:621-682 | after a completed session or user-wide revocation no later refresh, access check or derived token of the session succeeds |
| `SessionEvents.RefreshFollowsEvents` | services/control-service/internal/app/app.go:552-682 | over every run without cleanups, a refresh succeeds exactly within the lifetime of its token, for an active user and a live agent profile, naming no other session, and if no event has closed the session or rotated or revoked the token |
| `SessionEvents.AccessFollowsEvents` | services/control-service/internal/app/app.go:151-178 | over every run without cleanups, an access or derived token passes exactly before it expires, for the active user of a session no event has closed |
| `SessionEvents.LoginFollowsEvents` | services/control-service/internal/app/app.go:479-547 | in every run a login succeeds exactly for a user some event has named, with a live agent profile |
| `SessionEvents.SessionAlong` | services/control-service/internal/app/app.go:479-682 | from its login on the row of a session is revoked exactly if an event has closed it |
| `SessionEvents.TokenAlong` | services/control-service/internal/app/app.go:552-682 | from its generation on the row of a refresh token keeps session and expiry and is revoked exactly if an event has spent it |
| `SessionEvents.OtherSessionRefused` | services/control-service/internal/app/app.go:574-577 | in every run a refresh that names another session is refused, and tables and signed tokens stay as they are |
| `SessionEvents.RotationOnFields` | services/control-service/internal/app/app.go:588-614 | the rows a rotation writes: the presented token is revoked now, the successor lives for the refresh lifetime, the session is last seen now, and a control and a model token of their lifetimes are signed |
| `SessionEvents.LoginOnFields` | services/control-service/internal/app/app.go:509-545 | the rows a login writes and the two tokens it signs |
| `SessionEvents.DerivedOnFields` | services/control-service/internal/auth/tokens.go:98-147 | a token is derived exactly for an admitted bearer and lives as long as asked for, up to the configured lifetime |
| `SessionEvents.RevokeByIdStamps` | services/control-service/internal/app/app.go:642-670 | a revocation by id stamps exactly the unrevoked rows of the session; an earlier time stays |
| `SessionEvents.FirstRevocationStays` | services/control-service/internal/app/app.go:634-670 | in every run the first time of revocation of a session stays, unless the session logs out |
| `SessionEvents.CleanupOnFields` | services/control-service/internal/app/retention.go:93-98 | of a batch exactly the sessions go that were last seen before the cutoff and are revoked before it or without a usable token, and exactly the tokens that expired or were revoked before it or lost their session; all else is unchanged |
| `SessionRetention.SameSeen` | services/control-service/internal/app/retention.go:85-99 | in related tables every bearer operation gets the same answer |
| `SessionRetention.SweptSessionDead` | services/control-service/internal/app/retention.go:96-98 | a session row the cleanup may delete cannot be used at any later instant |
| `SessionRetention.CleanupRelated` | services/control-service/internal/app/retention.go:85-99 | deleting any batch keeps the thinned tables related to the full ones from the next instant on |
| `SessionRetention.RefreshRelated` | services/control-service/internal/app/app.go:552-619 | a refresh keeps thinned and full tables related |
| `SessionRetention.DeriveRelated` | services/control-service/internal/auth/tokens.go:98-147 | signing a further token for the bearer of an access token keeps thinned and full tables related |
| `SessionRetention.SameAccess` | services/control-service/internal/httpapi/gateway_identity.go:26-30 | a control, model or derived token is admitted by the thinned table exactly when the full one admits it |
| `SessionRetention.RunsAgree` | services/control-service/internal/app/retention.go:85-99 | from related tables, runs with and without cleanups give the same answers |
| `SessionRetention.LongToken` | services/control-service/internal/auth/tokens.go:64-71 | if the lifetimes do not fit, one of the three tokens of a session outlives the cleanup of its row |
| `SessionRetention.WitnessDiffers` | services/control-service/internal/app/retention.go:96-98 | a concrete legal run that tells the machines apart when a token reaches too far |
| `SessionRetention.CleanupInvisibleIff` | services/control-service/internal/app/retention.go:85-99 | cleanup is unobservable to bearers of any token over all timely runs exactly when retention is off or no access, model or derived token reaches more than retention plus two ticks |
| `ClientRefresh.AepSessionClient.constructor` | packages/aep-sdk-node/src/token-store.ts:6-11 | a client starts with the given tokens and no refresh |
| `ClientRefresh.AepSessionClient.Request` | packages/aep-sdk-node/src/client-session.ts:408-417 | a call begins by reading the store |
| `ClientRefresh.AepSessionClient.RefreshSession` | packages/aep-sdk-node/src/client-session.ts:439-442 | an explicit refresh joins the pending promise or starts one |
| `ClientRefresh.AepSessionClient.Refresh` | packages/aep-sdk-node/src/client-session.ts:439-464 | joins the pending promise, or becomes the owner of a new flight |
| `ClientRefresh.AepSessionClient.Resume` | packages/aep-sdk-node/src/client-session.ts:408-430 | a call goes from one await to the next: 401, re-read, refresh or retry with newer tokens, release of the promise |
| `ClientRefresh.AepSessionClient.ResumeFlight` | packages/aep-sdk-node/src/client-session.ts:441-458 | the refresh body goes from one await to the next: request, store or clear, settle |
| `ClientRefresh.StepInv` | packages/aep-sdk-node/src/client-session.ts:408-464 | every step of client, server and other parties keeps the invariant that ties stored token, promise and flights |
| `ClientRefresh.RunInv` | packages/aep-sdk-node/src/client-session.ts:408-464 | the invariant holds after every prefix of every permitted interleaving |
| `ClientRefresh.SingleFlight` | packages/aep-sdk-node/src/client-session.ts:439-464 | in every interleaving of calls and 401s at most one refresh is in flight |
| `ClientRefresh.PromiseHasOwner` | packages/aep-sdk-node/src/client-session.ts:459-463 | a pending promise always has an owning call, which releases it exactly once it has settled: no stale promise answers later refreshes |
| `ClientRefresh.NeverPresentsRotatedToken` | packages/aep-sdk-node/src/client-session.ts:441-450 | a refresh token on its way to the server has never been rotated |
| `ClientRefresh.RefusalIsNotReuse` | packages/aep-sdk-node/src/client-session.ts:445-454 | when the server treats a request, its token is the stored one, unrotated, and no other request is on the wire |
| `ClientRefresh.AnswerReachesStore` | packages/aep-sdk-node/src/client-session.ts:451-457 | an answered refresh ends with the successor token in the store, or with an empty store after a refusal |
| `ClientRefresh.CallCarriesStored` | packages/aep-sdk-node/src/client-session.ts:408-420 | in every interleaving a call sends the tokens that were stored when it began |
| `ClientRefresh.OtherResponseEnds` | packages/aep-sdk-node/src/client-session.ts:420-430 | a response other than a 401, or any response to the retry, ends the call and leaves store, promise and flights alone |
| `ClientRefresh.RejectedCall` | packages/aep-sdk-node/src/client-session.ts:421-441 | in every interleaving a call that got a 401 ends without stored tokens, retries with other stored tokens, and with the very tokens it used waits on the pending flight, starting it exactly if there is none |
| `ClientRefresh.ExplicitRefresh` | packages/aep-sdk-node/src/client-session.ts:439-442 | an explicit refresh waits on the pending flight, starting it exactly if there is none |
| `ClientRefresh.FlightCarriesStored` | packages/aep-sdk-node/src/client-session.ts:441-450 | a flight presents exactly the tokens that were stored when it started, and without any settles at once |
| `ClientRefresh.WaitingCall` | packages/aep-sdk-node/src/client-session.ts:424-463 | every call waiting on a flight the server answered goes on exactly when it has settled: retried with the successor token after a rotation, ended otherwise; the owner releases the promise |
| `ClientRefresh.CallMovesOn` | packages/aep-sdk-node/src/client-session.ts:408-430 | no call ever goes back: it sends its request once and retries at most once |
| `LoginLimiter.BackoffMonotone` | services/control-service/internal/httpapi/auth_security.go:229-244 | more failures never shorten the delay, which stays between zero and the maximum |
| `LoginLimiter.LoginBackoff` | services/control-service/internal/httpapi/auth_security.go:229-244 | the doubling loop on 64-bit durations yields min(maximum, base * 2^(failures - limit)) without overflow |
| `LoginLimiter.LimiterStore.LoginThrottle` | services/control-service/internal/httpapi/auth_security.go:95-120 | the delay is positive exactly when one of the two rows is blocked beyond now |
| `LoginLimiter.LimiterStore.RecordLimitFailure` | services/control-service/internal/httpapi/auth_security.go:158-176 | the count restarts after the window and otherwise grows by one; the block follows the backoff; other rows stay; the count must fit its column |
| `LoginLimiter.LimiterStore.RecordLoginFailure` | services/control-service/internal/httpapi/auth_security.go:122-156 | both rows count the failure, the longer delay is returned, and of the others exactly the rows older than two windows go |
| `LoginLimiter.LimiterStore.RecordLoginSuccess` | services/control-service/internal/httpapi/auth_security.go:182-197 | exactly the row of principal and source goes |
| `LoginLimiter.LimiterStore.CleanupLoginRateLimits` | services/control-service/internal/app/retention.go:101-106 | deletes exactly the batch members older than both the window and the longest backoff |
| `LoginLimiter.StepSimulates` | services/control-service/internal/httpapi/auth_security.go:95-197 | if no block outlives the sweeps, a swept and an unswept table answer every step alike and stay related |
| `LoginLimiter.RunSimulates` | services/control-service/internal/httpapi/auth_security.go:95-197 | the same after every prefix of every run with a non-decreasing clock |
| `LoginLimiter.RetentionUnobservable` | services/control-service/internal/app/retention.go:101-106 | in every run the retention sweep changes no throttle answer and no failure count |
| `LoginLimiter.LongestIsMaximum` | services/control-service/internal/httpapi/auth_security.go:229-244 | 63 failures past the first limit reach every 64-bit maximum |
| `LoginLimiter.WitnessRuns` | services/control-service/internal/httpapi/auth_security.go:122-156 | that run has a non-decreasing clock, all its counts fit, and below both limits its attempts do not overlap |
| `LoginLimiter.WitnessDiffers` | services/control-service/internal/httpapi/auth_security.go:138-140 | if some count that fits its column causes a block longer than two windows, a concrete run whose last check the in-line sweep changes |
| `LoginLimiter.InlineSweepUnobservableIff` | services/control-service/internal/httpapi/auth_security.go:138-140 | over all runs whose counts fit, the in-line sweep is unobservable exactly when no count causes a block longer than two windows plus one tick; with ordinary limits, exactly when the maximum is no longer |
| `LoginLimiter.SerialInlineSweepIff` | services/control-service/internal/httpapi/auth_security.go:107-176 | over runs whose failures are recorded only while unblocked, it is unobservable exactly when the base delay is at most two windows plus one tick |
| `LoginStreaks.StreakIffLastStretch` | services/control-service/internal/httpapi/auth_security.go:158-165 | the streak is the one number of last failures that come within a window of each other while the one before them does not |
| `LoginStreaks.RowsFollowEvents` | services/control-service/internal/httpapi/auth_security.go:95-197 | after every prefix of every run, with any sweeps, each row says what the events say, and a missing row has nothing left to say |
| `LoginStreaks.FailuresAddUp` | services/control-service/internal/httpapi/auth_security.go:158-176 | in every run, with or without sweeps, a row counts n exactly if the last n failures of its key since its last success came within a window of each other and the one before did not; from the limit on it blocks for min(maximum, base * 2^(n - limit)) |
| `LoginStreaks.FailureFollowsEvents` | services/control-service/internal/httpapi/auth_security.go:122-176 | in every run both counts and the returned delay of a failure follow from the events |
| `LoginStreaks.CheckFollowsEvents` | services/control-service/internal/httpapi/auth_security.go:95-120 | in every run whose in-line sweep is off or spares the blocks, a throttle check answers the longer of the two blocks the events leave |
| `AuditLimiter.AuditFailureLimiter.Allow` | services/control-service/internal/httpapi/admin_audit.go:61-84 | the decision and the new table, eviction of stale entries included |
| `AuditLimiter.DecideEntries` | services/control-service/internal/httpapi/admin_audit.go:67-83 | one decision records at most its own attempt and drops only entries a window old |
| `AuditLimiter.EntryStems` | services/control-service/internal/httpapi/admin_audit.go:61-84 | every remembered entry stems from a remembered attempt of the run |
| `AuditLimiter.EntryStays` | services/control-service/internal/httpapi/admin_audit.go:61-84 | a remembered attempt stays, possibly refreshed, until it is a window old |
| `AuditLimiter.NeverExceedsMaxKeys` | services/control-service/internal/httpapi/admin_audit.go:70-83 | after every attempt of every run at most maxKeys entries are held |
| `AuditLimiter.SuppressedIff` | services/control-service/internal/httpapi/admin_audit.go:67-69 | an attempt is suppressed exactly when an identical one was remembered less than a window earlier |
| `AuditLimiter.RepeatAdmittedOnlyIfSaturated` | services/control-service/internal/httpapi/admin_audit.go:70-81 | a repeat inside the window is admitted only if the earlier admission found maxKeys live fingerprints |
| `DataScope.WalkEndsIff` | services/control-service/internal/app/datascope.go:95-111 | the level walk from a team ends exactly when no cycle lies below it |
| `DataScope.UniqueSorted` | services/control-service/internal/app/datascope.go:113-128 | the nonempty values, each once, strictly ascending |
| `DataScope.ChildrenOf` | services/control-service/internal/app/datascope.go:96-99 | the children of each parent, whatever the iteration order |
| `DataScope.SubtreeIDs` | services/control-service/internal/app/datascope.go:95-111 | strictly sorted, exactly the nonempty nodes whose parent chain reaches the team, the team itself included |
| `DataScope.UniqueResourceRefs` | services/control-service/internal/app/datascope.go:188-208 | the references with kind and id, each once, ascending by kind then id |
| `DataScope.ReasonContains` | services/control-service/internal/app/datascope.go:163-169 | the substring test on the joined reason decides membership among the grant kinds |
| `DataScope.GrantLayer` | services/control-service/internal/app/datascope.go:153-173 | the granted teams, the other grants, and the reason listing each kind once in order of appearance |
| `DataScope.DenyLayer` | services/control-service/internal/app/datascope.go:177-182 | exactly the references named by applicable in-window denies |
| `DataScope.OwnScope` | services/control-service/internal/app/datascope.go:145-151 | the union of the own teams' subtrees |
| `DataScope.AddSubtrees` | services/control-service/internal/app/datascope.go:174-176 | the scope grows by the union of the granted subtrees, in any order |
| `DataScope.OrgScope` | services/control-service/internal/app/datascope.go:145-176 | own and granted subtrees together are exactly the teams with an own or granted ancestor-or-self |
| `DataScope.BuildRetrievalContext` | services/control-service/internal/app/datascope.go:144-186 | every list of the context is exactly what the declarative policy says, strictly sorted, and the decisions on it are the policy's for every resource |
| `DataScope.AllowsIffAuthorized` | services/control-service/internal/app/datascope.go:212-227 | stated in the fields of the rules: a resource is allowed exactly if no in-window explicit_deny of the subject names it, whatever its kind, and a management_scope or exception_grant of the subject names it or, for a team, it or an ancestor is granted or the subject's own |
| `DataScope.DenyIsNotInherited` | services/control-service/internal/app/datascope.go:212-217 | a further deny changes the answer for no team but the one it names |
| `DataScope.ReasonOnFields` | services/control-service/internal/app/datascope.go:161-169 | the reason names exactly the kinds of the grants on teams |
| `DataScope.ReasonInOrder` | services/control-service/internal/app/datascope.go:161-169 | the reason begins with the kind of the first grant on a team |
| `DataScope.ContextIgnoresOrderAndFilter` | services/control-service/internal/app/datascope.go:277-302 | rules in any order or multiplicity, filtered by the query or not, give the same context up to the reason text |
| `CredentialPublisher.Publisher.SyncOne` | services/control-service/internal/credentialdelivery/publisher.go:174-229 | the outcome of one turn under foreign writes before the read and before the write and any API fault; a Secret that is immutable or of another type is never updated, one with finalizers only marked for removal |
| `CredentialPublisher.SameVersionSameObject` | services/control-service/internal/credentialdelivery/publisher.go:196-200 | whatever others write, an object seen again with its version is unchanged |
| `CredentialPublisher.TurnWrites` | services/control-service/internal/credentialdelivery/publisher.go:174-229 | a turn writes nothing, or makes one conditional write on what it read and owns |
| `CredentialPublisher.TurnTouchesOnlyOwnVersion` | services/control-service/internal/credentialdelivery/publisher.go:167-229 | a changed Secret is the very version whose ownership was checked, other names stay, and a removal or a mark for removal needs an absent answer of the source |
| `CredentialPublisher.ForeignSecretsSurvive` | services/control-service/internal/credentialdelivery/publisher.go:167-229 | in every run a Secret that is not the publisher's own at the write survives unchanged |
| `CredentialPublisher.UnclaimedSecretSurvives` | services/control-service/internal/credentialdelivery/publisher.go:167-191 | in every run a Secret with an owner reference, on its way out, or with other labels or annotations than the publisher writes survives every turn unchanged |
| `CredentialPublisher.QuietTurnSettles` | services/control-service/internal/credentialdelivery/publisher.go:174-229 | without interference a successful turn delivers an eligible credential and removes any other, or marks it for removal |
| `CredentialPublisher.QuietTurnIdles` | services/control-service/internal/credentialdelivery/publisher.go:218-224 | a delivered credential is never written again, whatever fails |
| `CredentialPublisher.QuietTurnKeeps` | services/control-service/internal/credentialdelivery/publisher.go:174-229 | a turn undoes no delivery and moves the inventory only at its own name |
| `CredentialPublisher.CalmTurnSucceedsIff` | services/control-service/internal/credentialdelivery/publisher.go:174-229 | without faults a turn succeeds exactly for a valid name, a Secret that is absent or the publisher's own, and, if eligible, an envelope that opens to text which the Secret holds or the API will write to it |
| `CredentialPublisher.RotationReaches` | services/control-service/internal/credentialdelivery/publisher.go:204-228 | the rotation law: a successful turn leaves exactly the text the envelope opens to under "api-key" in an Opaque Secret; an existing one keeps everything else and is written exactly if it held something else |
| `CredentialPublisher.WithdrawalReaches` | services/control-service/internal/credentialdelivery/publisher.go:192-203 | a successful turn for an absent credential leaves no Secret, or its own one marked until its finalizers are done |
| `CredentialPublisher.CalmTurnOnFields` | services/control-service/internal/credentialdelivery/publisher.go:174-229 | when a turn without faults succeeds, in the fields of the Secret it finds |
| `CredentialPublisher.ConvergedServes` | services/control-service/internal/credentialdelivery/publisher.go:109-165 | a converged cluster has an Opaque Secret of the publisher for every eligible credential with the opened text under "api-key", and no other marked Secret that stays |
| `CredentialPublisher.DeliverableOnFields` | services/control-service/internal/credentialdelivery/publisher.go:167-229 | what can be delivered, in the fields of the cluster: valid names, envelopes that open, Secrets that are free or the publisher's own, and text they hold or accept |
| `CredentialPublisher.QuietTurnItems` | services/control-service/internal/credentialdelivery/publisher.go:174-229 | no turn makes another credential good or bad, and that of an eligible one makes neither it nor the whole deliverable or undeliverable |
| `CredentialPublisher.PageFollows` | services/control-service/internal/credentialdelivery/source.go:28-32 | the keyset page continues the visited prefix and is short only at the end |
| `CredentialPublisher.PageAscends` | services/control-service/internal/credentialdelivery/source.go:28-32 | pages ascend beyond the cursor, so the order check never fails on a stable source |
| `CredentialPublisher.Publisher.QuietSync` | services/control-service/internal/credentialdelivery/publisher.go:120-130 | one item: readiness falls on an error, success delivers or withdraws, a delivered item is not written |
| `CredentialPublisher.Publisher.SyncPage` | services/control-service/internal/credentialdelivery/publisher.go:120-130 | all items of a page are treated; those without an error end delivered |
| `CredentialPublisher.Publisher.SyncNextPage` | services/control-service/internal/credentialdelivery/publisher.go:113-134 | a page continues the visited prefix, and without faults succeeds exactly if its items are good |
| `CredentialPublisher.Publisher.SyncEligible` | services/control-service/internal/credentialdelivery/publisher.go:109-134 | terminates and visits the eligible ids once each in increasing order, or aborts with an error |
| `CredentialPublisher.Publisher.SyncListed` | services/control-service/internal/credentialdelivery/publisher.go:146-157 | one inventory item: re-read and withdrawn or kept, never trusted from the list; an item that is not the publisher's own is not written |
| `CredentialPublisher.Publisher.SyncInventory` | services/control-service/internal/credentialdelivery/publisher.go:135-163 | beyond the eligible names only items whose own turn failed stay in the inventory |
| `CredentialPublisher.Publisher.Sync` | services/control-service/internal/credentialdelivery/publisher.go:109-165 | success means every eligible credential has an Opaque Secret with exactly the opened text under "api-key", and the labelled Secrets not marked for removal are exactly these; a pass without faults succeeds exactly if all can be delivered; a converged cluster is not written; readiness survives only without errors |
| `CredentialPublisher.Publisher.Pass` | services/control-service/internal/credentialdelivery/publisher.go:91-92 | after a pass ready is equivalent to a clean pass and implies convergence; without faults it is equivalent to deliverability |
| `CredentialPublisher.Publisher.Start` | services/control-service/internal/credentialdelivery/publisher.go:88-104 | whatever the passes did, readiness is withdrawn when the loop ends |
| `CredentialCache.CredentialManager.OnListed` | examples/node-agent/src/credentials.ts:84-94 | listing replaces the metadata and drops exactly the entries of other revisions |
| `CredentialCache.CredentialManager.UseMaterial` | examples/node-agent/src/credentials.ts:96-107 | a use hits, joins a pending request of its revision, or starts one |
| `CredentialCache.CredentialManager.OnResolved` | examples/node-agent/src/credentials.ts:108-125 | an answer is cached until the earlier limit and only its own pending entry goes |
| `CredentialCache.CredentialManager.Clear` | examples/node-agent/src/credentials.ts:78-82 | everything is forgotten |
| `CredentialCache.CacheAlwaysFits` | examples/node-agent/src/credentials.ts:58-125 | in every interleaving each entry stems from an ended request of its id and revision and respects both limits |
| `CredentialCache.HitIsCurrent` | examples/node-agent/src/credentials.ts:96-101 | a hit returns material requested for the revision listed now, less than maxCacheMs ago and unexpired at the server |
| `CredentialCache.AnswerServesIff` | examples/node-agent/src/credentials.ts:84-125 | in every interleaving an answer for the listed revision serves a later use exactly if the use precedes the earlier of the two limits and in between the id was not listed differently, nothing was cleared, and no other outstanding request for the id was answered |
| `CredentialCache.AnswerAlong` | examples/node-agent/src/credentials.ts:84-125 | before the limit the entry stays cached until the first disturbance and is gone ever after |
| `CredentialCache.LateAnswerEvicts` | examples/node-agent/src/credentials.ts:113-117 | a run without recurring revisions or clearing in which a late answer for a replaced revision takes the fresh entry, and the next use asks again |
| `CredentialCache.PendingAlwaysFits` | examples/node-agent/src/credentials.ts:104-123 | in every interleaving a pending entry is for an outstanding request of its own id and revision |
| `CredentialCache.MetadataIsListing` | examples/node-agent/src/credentials.ts:78-94 | in every interleaving the metadata is the last listing since the last clear |
| `CredentialCache.UseGetsOwnMaterial` | examples/node-agent/src/credentials.ts:96-107 | in every interleaving a hit, a joined request and a new one are for the used id and the revision listed for it now; a joined one is outstanding, and only a new one makes a request |
| `CredentialCache.UseIsDecided` | examples/node-agent/src/credentials.ts:96-107 | in every interleaving a use is unavailable exactly for an unlisted id, a hit exactly if the entry of the listed revision has not expired, and otherwise joins exactly if a resolution of the listed revision is pending |
| `CredentialCache.AtMostOneResolution` | examples/node-agent/src/credentials.ts:104-124 | at most one request per id and revision is outstanding if replaced revisions do not recur and no clear interrupts |
| `CredentialCache.RecurrenceDuplicates` | examples/node-agent/src/credentials.ts:104-107 | listing a replaced revision again duplicates its outstanding request |
| `CredentialCache.ClearDuplicates` | examples/node-agent/src/credentials.ts:78-82 | clearing while a request is outstanding lets the next use duplicate it |
| `SkillReconciler.Reconciler.Exchange` | examples/node-agent/src/skills.ts:103-104 | at every instant nothing moved, the target is at the backup, or the new package is in place |
| `SkillReconciler.Reconciler.SwapIn` | examples/node-agent/src/skills.ts:100-106 | every intermediate state of extraction, swap and backup removal; the row moves only with success |
| `SkillReconciler.Reconciler.FinishSwap` | examples/node-agent/src/skills.ts:105-106 | after the swap only the backup is touched, and the row is written last |
| `SkillReconciler.Reconciler.Recover` | examples/node-agent/src/skills.ts:107-110 | recovery only drops the staging directory and restores a missing target |
| `SkillReconciler.SwapKeepsCopy` | examples/node-agent/src/skills.ts:100-106 | in every state of the swap a complete old or new copy remains if there was one |
| `SkillReconciler.RecoveryKeepsCopy` | examples/node-agent/src/skills.ts:107-110 | in every state of the recovery that copy remains |
| `SkillReconciler.Reconciler.SwapOrRecover` | examples/node-agent/src/skills.ts:100-111 | the try with its handler: copies remain at every instant and a completed recovery leaves a whole target |
| `SkillReconciler.Reconciler.Install` | examples/node-agent/src/skills.ts:90-112 | at every file operation a complete copy remains; success leaves row and directory matching; without faults a good package installs; a missing package, a wrong digest, a missing SKILL.md or an unsafe id never does, and leaves the directory alone |
| `SkillReconciler.Reconciler.ApplySkill` | examples/node-agent/src/skills.ts:51-67 | one entry ends unchanged, installed, updated or failed, and its row says so; it is unchanged exactly if the row matched, and then nothing is touched; only a vetted package is installed or updates |
| `SkillReconciler.Reconciler.ApplyAll` | examples/node-agent/src/skills.ts:51-67 | every entry is attempted whatever failed before; rows follow the last non-failed entry of each id, directories are whole where something was installed and as before where all was unchanged or nothing was vetted |
| `SkillReconciler.TargetsStep` | examples/node-agent/src/skills.ts:51-67 | each entry keeps the directories in step with what the items report |
| `SkillReconciler.VettedStep` | examples/node-agent/src/skills.ts:51-67 | each entry keeps the directory of a Skill without a vetted package as it was |
| `SkillReconciler.Reconciler.Revoke` | examples/node-agent/src/skills.ts:70-78 | a removed Skill has neither row nor directory; a failed removal keeps the row |
| `SkillReconciler.Reconciler.RevokeOthers` | examples/node-agent/src/skills.ts:68-79 | exactly the unlisted managed Skills are attempted; listed rows and directories are untouched, removed directories are gone |
| `SkillReconciler.Reconciler.ApplyManifest` | examples/node-agent/src/skills.ts:51-79 | both loops run whatever fails in them; without a failed item rows and directories follow the manifest |
| `SkillReconciler.Reconciler.StoreApplied` | examples/node-agent/src/skills.ts:80-84 | the revision is written before the etag, an absent or empty etag leaves the stored one, and either write may be the last |
| `SkillReconciler.Reconciler.Reconcile` | examples/node-agent/src/skills.ts:35-88 | success leaves the rows of the manifest; revision and etag move only over fully applied rows without a failed item, the etag only after the revision, though a pass may stop between or after the writes; a listed directory is whole exactly unless it was only reported unchanged and was not whole before; a pass without faults over good packages succeeds, and one over matching rows touches nothing; only vetted packages are reported as applied |
| `SkillReconciler.RowsFollowFrom` | examples/node-agent/src/skills.ts:47-84 | without failed items the rows are the last entries of the manifest, one per listed id |
| `SkillReconciler.TargetsMatchFrom` | examples/node-agent/src/skills.ts:47-84 | after a successful pass a listed Skill's directory is the package of its row exactly unless all its entries were reported unchanged over a directory that was not |
| `SkillReconciler.TriplesMatchIff` | examples/node-agent/src/state.ts:100-110 | after a successful pass the rows equal the manifest's triples exactly when entries of one id agree |
| `AgentInbox.AgentState.PersistInbox` | examples/node-agent/src/state.ts:66-68 | a delivery is stored once; a stored one keeps its state |
| `AgentInbox.AgentState.ListPendingInbox` | examples/node-agent/src/state.ts:70-73 | exactly the received, running and failed deliveries, each once |
| `AgentInbox.AgentState.SetInboxState` | examples/node-agent/src/state.ts:75-77 | only the state of a stored delivery changes |
| `AgentInbox.AgentState.EnqueueTelemetry` | examples/node-agent/src/state.ts:79-82 | the event is added to the outbox |
| `AgentInbox.AgentState.RemoveTelemetry` | examples/node-agent/src/state.ts:88-98 | exactly the named events leave the outbox |
| `AgentInbox.StepInv` | examples/node-agent/src/agent.ts:49-108 | every step, lost response or crash keeps the invariant of inbox, snapshot and outbox |
| `AgentInbox.AcknowledgedIsDurable` | examples/node-agent/src/agent.ts:49-66 | at every instant of every run what the server saw acknowledged is in the durable inbox |
| `AgentInbox.TelemetryIsConserved` | examples/node-agent/src/agent.ts:91-108 | every event ever enqueued is in the outbox or was accepted by the server |
| `AgentInbox.SuccessStays` | examples/node-agent/src/state.ts:66-77 | local success is absorbing and excludes every later execution of the delivery |
| `AgentInbox.NeverRunsAgain` | examples/node-agent/src/agent.ts:61-89 | across crashes and redeliveries a locally succeeded delivery is never executed again |
| `AgentInbox.SuccessIsEarned` | examples/node-agent/src/agent.ts:68-89 | in every run a locally succeeded delivery was run and reported, and the server knows only of work that was run |
| `AgentInbox.AcknowledgedIsRunOrPending` | examples/node-agent/src/agent.ts:49-66 | in every run an acknowledged delivery was run, or is received, running or failed in the inbox and part of the next resume |
| `AgentInbox.ToldButRunAgain` | examples/node-agent/src/agent.ts:80-81 | from every idle state with a pending delivery the server can learn of success and the delivery still run again |
| `AgentInbox.ExampleAgent.ReceivePage` | examples/node-agent/src/agent.ts:53-56 | each event of a page is stored before it is acknowledged; new ones are received, stored ones keep their state |
| `AgentInbox.ExampleAgent.ReceiveControlEvents` | examples/node-agent/src/agent.ts:49-59 | the paging loop is a run of the machine; success means every event was acknowledged |
| `AgentInbox.ExampleAgent.RunTask` | examples/node-agent/src/agent.ts:71-88 | the work runs once; a success that cannot be reported is reported as a failure |
| `AgentInbox.ExampleAgent.FinishTask` | examples/node-agent/src/agent.ts:81-88 | the local state is set before the event is queued, and one event is |
| `AgentInbox.ExampleAgent.Execute` | examples/node-agent/src/agent.ts:68-89 | one execution is a run of the machine that executes exactly its delivery |
| `AgentInbox.ExampleAgent.ResumeOne` | examples/node-agent/src/agent.ts:62-65 | one pending delivery is acknowledged again and executed once |
| `AgentInbox.ExampleAgent.ResumeInbox` | examples/node-agent/src/agent.ts:61-66 | a completed resume ran exactly the received, running and failed deliveries, each once, and each ended succeeded and reported, or failed |
| `AgentInbox.ExampleAgent.FlushTelemetry` | examples/node-agent/src/agent.ts:102-108 | uploading and removing confirmed events is a run of the machine, whatever happens to the response; what leaves the outbox was accepted |
| `AgentInbox.ExampleAgent.RunOnce` | examples/node-agent/src/agent.ts:18-32 | whatever phase fails: acknowledged deliveries are stored, succeeded ones stay so and are not executed again, no event is lost |
| `Base64Url.RoundTrip` | services/internal/gatewaypolicy/policy.go:71-77 | decoding undoes the unpadded encoding of section 5 of RFC 4648, and no encoding contains a dot |
| `Base64Url.TestVectors` | services/internal/gatewaypolicy/policy.go:74-76 | the encodings of the vectors of section 10 of RFC 4648 and of the two URL-safe digits |
| `GatewayPolicy.KeyTextInjective` | services/internal/gatewaypolicy/policy.go:71-77 | different subjects have different keys |
| `GatewayPolicy.HeaderOnFields` | services/internal/gatewaypolicy/policy.go:71-101 | the text of a valid limit's header in its fields |
| `GatewayPolicy.AddAll` | services/internal/gatewaypolicy/policy.go:107-117 | two names per membership, one without and one with the model |
| `GatewayPolicy.Headers` | services/internal/gatewaypolicy/policy.go:105-122 | the names of exactly the request's subjects, or an error beyond the bound, in either iteration order |
| `GatewayPolicy.HeaderPresentIff` | services/internal/gatewaypolicy/policy.go:83-101 | a valid limit's header is among the request's headers exactly when scope and optional model match |
| `GatewayPolicy.HeadersFailIff` | services/internal/gatewaypolicy/policy.go:118-120 | the bound is exceeded exactly by too many distinct memberships |
| `GatewayPolicy.RegoAgrees` | services/internal/gatewaypolicy/rego.go:8-20 | unless the body names an empty model, the rules define exactly the headers of the Go code |
| `GatewayPolicy.RegoDiffersForEmptyModel` | services/internal/gatewaypolicy/rego.go:14-19 | for an empty model the rules define a header the Go code never emits |
| `GatewayPolicy.RegoAgreesIff` | services/internal/gatewaypolicy/rego.go:3-20 | rules and code define the same set exactly unless the body names an empty model; a body without a model leaves the second rule undefined |
| `DesiredState.RouteNormalizationIdempotent` | services/control-service/internal/httpapi/data_plane_handlers.go:68-97 | normalizing a route twice is normalizing it once, and keeps its id |
| `DesiredState.NormalFormOnFields` | services/control-service/internal/httpapi/data_plane_handlers.go:68-97 | which routes are accepted, in their fields, and what becomes of each field: the provider of an OpenAI-compatible route defaults to "openai" and a credential loses its namespace |
| `DesiredState.AcceptableOnFields` | services/control-service/internal/httpapi/data_plane_handlers.go:64-106 | which states are accepted, in their fields: 200 bytes of revision, 500 routes, distinct ids |
| `DesiredState.NormalizeInPlace` | services/control-service/internal/httpapi/data_plane_handlers.go:68-97 | succeeds exactly when every route is valid, and then each is edited to its normal form |
| `DesiredState.SortDistinct` | services/control-service/internal/httpapi/data_plane_handlers.go:98-106 | the scan of neighbours rejects exactly the lists with a repeated id, and yields the sorted list |
| `DesiredState.NormalizeDataPlaneState` | services/control-service/internal/httpapi/data_plane_handlers.go:64-108 | accepts exactly the acceptable states and returns their canonical form |
| `DesiredState.CanonicalIgnoresOrder` | services/control-service/internal/httpapi/data_plane_handlers.go:98-107 | states with the same revision and routes in any order have one canonical form |
| `DesiredState.CanonicalIsFixed` | services/control-service/internal/httpapi/data_plane_handlers.go:64-108 | normalizing a canonical form changes nothing |
| `DesiredState.CanonicalHash` | services/internal/gatewayrender/render.go:330-339 | the digest of some arrangement of the routes by id |
| `DesiredState.HashesAgreeIff` | services/internal/gatewayrender/render.go:328-339 | the reconciler's hash of a published state in any order equals the published hash exactly when there is a route |
| `DesiredState.RouteJsonInjective` | services/control-service/internal/httpapi/data_plane_handlers.go:32-46 | nothing of a route is left out of its encoding |
| `DesiredState.HashIdentifiesState` | services/control-service/internal/httpapi/data_plane_handlers.go:107-113 | published states have one hash exactly if they are equal |
| `GatewayRender.Classify` | services/internal/gatewayrender/render.go:134-168 | the first bad route decides the error; otherwise the enabled routes of each protocol in order |
| `GatewayRender.CheckRoute` | services/internal/gatewayrender/render.go:137-160 | a route passes exactly with a valid strategy and endpoint and a slug no earlier route owns |
| `GatewayRender.OpenAIPart` | services/internal/gatewayrender/render.go:169-176 | an ingress per route, and an upstream exactly for absolute endpoints |
| `GatewayRender.AnthropicPart` | services/internal/gatewayrender/render.go:177-183 | an ingress and upstream pair per route |
| `GatewayRender.Render` | services/internal/gatewayrender/render.go:124-196 | the document list or the error is the declarative one for some arrangement of the routes by id |
| `GatewayRender.RenderingUnique` | services/internal/gatewayrender/render.go:124-196 | one arrangement of the routes admits one outcome |
| `GatewayRender.RenderIgnoresOrder` | services/internal/gatewayrender/render.go:124-196 | with distinct ids the outcome, document or error, is the same for every route order |
| `GatewayRender.SlugsApartPermutes` | services/internal/gatewayrender/render.go:149-154 | whether two routes share a slug does not depend on their order |
| `GatewayRender.RenderSucceedsIff` | services/internal/gatewayrender/render.go:127-168 | rendering succeeds exactly for a named revision and deployment, valid routes and no two submitted Anthropic routes with one slug |
| `GatewayRender.OwnErrorOnFields` | services/internal/gatewayrender/protocol.go:58-119 | which routes are accepted on their own, in their fields, and which error the others cause |
| `GatewayRender.DocumentsOnFields` | services/internal/gatewayrender/render.go:161-183 | the documents are exactly those of the enabled routes, in their fields: an OpenAI route shows the provider "openai" unless it names one, and only an absolute endpoint gives an upstream |
| `GatewayRender.SharedDocumentsOnFields` | services/internal/gatewayrender/render.go:184-186 | two shared documents close the list, and show exactly the enabled routes of their protocols by id |
| `Sorting.LibrarySort` | services/control-service/internal/app/datascope.go:126-126 | a sorted permutation of the input with equal keys in no promised order |
| `Sorting.LessAtFirstDifference` | services/control-service/internal/app/datascope.go:126-126 | one string is less than another exactly if it ends or is smaller where they first differ |
| `Sorting.SortDeterminedIff` | services/internal/gatewayrender/render.go:332-332 | a sort by key has one result exactly when equal keys mean equal elements |

## Left out

- GatewayPolicy.Headers: returns the header names only, because every value is the constant "1".
- DesiredState.NormalizeInPlace: says nothing about the array after a rejection, because the source then discards it with the routes edited so far.
- LoginLimiter.LimiterStore.RecordLimitFailure: requires the next count to fit the 32-bit column, because beyond it the database refuses the statement; times and twice the window are integers that do not wrap.
- SessionRetention.CleanupInvisibleIff: tokens issued for governed runtimes carry conversation ids chosen by the caller, which are assumed not to be session ids.
- CredentialPublisher.Publisher.Sync: assumes a source and cluster without other writers during the pass; what holds under interference is stated per turn and per run of turns.
- CredentialPublisher.PageAscends: assumes that the database orders ids by bytes as Go compares them; another collation can make the order check fail.
- SessionEvents.RefreshFollowsEvents: speaks of runs without cleanups, because a cleanup may delete a usable token's session where the lifetimes do not fit; `SessionRetention.CleanupInvisibleIff` says when it carries over.
- SessionEvents.AccessFollowsEvents: speaks of runs without cleanups, for the same reason.
- LoginStreaks.CheckFollowsEvents: asks that an in-line sweep spares the longest block; `LoginLimiter.InlineSweepUnobservableIff` says when another one shows.
- CredentialPublisher.RotationReaches: speaks of turns without a foreign write between the Get and the write; such a write can replace a Secret that was read as already right.
- DataScope.BuildRetrievalContext: requires that no walked subtree holds a cycle, because the source does not terminate otherwise.
- Transactions have one instant: the model does not separate the signing time of an access token, the statement time and the transaction start, which differ by the duration of a request.
- Retention batches are arbitrary subsets of the matching rows, so the oldest-first order and the batch limit are not modelled; neither are the sweeps of audits, deliveries, telemetry and assignments.
- A single deployment: the deployment filters of queries are left out; users and their bindings are never deleted.
- Generated session ids, tokens, event ids, UIDs and directory suffixes do not repeat; distinct access tokens have distinct refresh tokens.
- Database errors other than unknown users and repeated keys, and losing a committed reply of the session server, are not modelled; the session client meets no transport failure.
- The protected token store, restoring from a stored refresh token, and login, logout or password change racing a refresh are not part of this model.
- Server-side control deliveries, assignments of models and roles to tokens, and password-change flags do not influence the session outcomes and are left out.
- Audit rows, fingerprints and masking are left out; the limiters take keys as given.
- Server-side defaulting, the owners of finalizers and the 10-second timeouts are not modelled; which contents the API server admits is a parameter; a listing of the inventory is one snapshot taken at its start.
- SkillReconciler.Reconciler.Reconcile: a stored etag says that its manifest was fully applied when it was stored; nothing is said about a manifest that returns after an incomplete pass over another one, whose rows a not-modified answer leaves as they are.
- Credential lists contain each id once; concurrent synchronizations share one promise in the source, which the model covers by arbitrary listings.
- Skill directories are whole or unfinished; ZIP extraction, path safety inside an archive and removal of leftover staging and backup directories are left out, and distinct ids name distinct directories; the ids "." and ".." name the managed root and its parent, on which no swap succeeds, and count as not installable.
- The agent is one control flow; the methods of `AgentInbox.ExampleAgent` end at failing requests, while crashes between any two steps are covered by the machine they are runs of. Batches of telemetry are arbitrary subsets of the outbox, and local storage does not fail.
- The text of rendered YAML, the slug function and URL parsing are parameters; JSON text is represented by its document tree.
- HTTP handlers, request decoding, the command line, configuration parsing, SSH and health probing, blob storage, publication relay and repository code would only add plumbing.
