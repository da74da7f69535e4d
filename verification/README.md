# DiracX in Dafny

A model of the parts of DiracX whose behaviour spans several calls, processes
or passes over data, with proofs about it. One module stands for one component;
functions say what a piece of code computes, classes and methods follow the
code that updates state, and lemmas state what holds over every input and run.

## What is modelled

- **Caches.** `CacheSlot`, `CacheProtocol` and `CacheRuns` model `TwoLevelCache`
  as steps of readers, workers, expiry and eviction, any number of each.
  The reader's locked section is one step. The worker's is four, because
  readers look at both caches without the lock. `CacheRefresh` says when a
  key can still be refreshed, `CacheRegression` is a run that goes back to an
  older value, and `CacheObject` is the class with its dictionaries, whose lone
  gets `CacheAlone` ties to the protocol. `ConfigProtocol` and `ConfigObject` put
  the LRU of two contents of `ConfigSource` on top; `ConfigRace` takes reading the
  revision and indexing its content apart.
- **Token service and its client.** `AuthTables`, `AuthService` and the other
  `Auth` modules model the device flow, the authorization-code flow and
  refresh-token rotation over tables that are maps. `AuthObject` holds the
  transactions as methods, `AuthRegistration` the checks of clients, redirect URIs
  and owners, `AuthCompleteness` when each request succeeds or fails, and
  `AuthColons` what VO names with a colon do. `Scope` is scope parsing and the
  identity behind a token, `RefreshChain` any number of refreshes in a row.
  `Credentials` and `CredentialsProtocol` are the credentials file
  shared by any number of processes, moving against that server and its other
  clients, and `CredentialsAlone` one call among them.
- **Arithmetic and aggregation.** `JulianDay`, `Priority`, `AccessPolicy`,
  `Paging`, `ContentRange` and `RangeHeader`.
- **Small languages.** `Properties` (expressions over Python integers),
  `SearchQuery` (filters to OpenSearch), `ConfigMerge` (recursive merging).
- **Jobs.** `JobStatus`, `JobBatch`, `Reschedule`, what one call does in
  `RescheduleOutcome`, and over runs of calls `RescheduleRuns` (counters) and
  `RescheduleAcceptance` (accepted reschedules).

## Where the code does not do what its text says

Each of these is a lemma here, with the exact condition where there is one.

- Successive gets of `TwoLevelCache` can go back to an older value: between its
  two writes the worker has published to the hard cache only
  (`RegressionExactlyWhenUnsettled`, `GenerationsCanRegress`).
- A `populate_func` that raises is never tried again for its key, since its
  future stays in the table (`FailedRefreshIsFinal`, `RefreshableExactly`).
- `read_config` indexes the content cache without a guard. Overtaken by two
  refreshes between getting the revision and indexing it, it raises KeyError
  (`ContentCanMiss`, `MissPossibleExactly`). It never does if the worker neither
  admits nor publishes a revision between the two (`QuietNeverMisses`).
- `~` on a property expression lets every user through, because -1 and -2 are
  truthy (`NegationGrantsAll`, `DecidedExactly`).
- Beyond 10000 jobs per page, Content-Range is computed from the size asked for
  and not from the capped one (`HeaderDescribes`, `HeaderCanLie`).
- Null defaults that meet a null entry are not completed by one pass of
  `ensure_operations_defaults` (`CompletedOnce`). A VO called Defaults does no harm.
- Merging is associative slightly more often than its shape suggests: a plain
  value between two dicts does no harm if the last dict covers the first
  (`MergeAssociativeIff`).
- A reschedule counter is also stored when the submission check fails, and then
  without a status unless the check gives one (`CounterWithStatus`, `CounterAlone`).
- A job over its maximum keeps its status when no other job of the call is left
  (`MarkedExactly`).
- MaxRescheduling bounds stored counters and not accepted reschedules: a job
  whose new status is not decided is reported as rescheduled although its counter
  is not stored, so it can be accepted any number of times
  (`AcceptedWithinMaximum`, `AcceptedForEver`).
- The refresh of a user whose VO has a colon in its name looks the user up under a
  longer name. It is refused unless that name is a registered member too
  (`UnregisteredRefused`); if it is, the subject changes, and a reused subject can
  be refreshed again without a new login (`ReuseEscapes`, `LoginForcedExactly`).

## Assumptions

- Requests are serialised transactions that commit when they answer and roll
  back when they raise. `BaseSQLDB` is not part of this model.
- Hashes are injective, authorization codes are fresh, and a refresh token the
  server did not sign is never accepted. Expiry of a token is checked when it
  is decoded.
- Cached values are truthy. A non-blocking lock attempt may fail at any moment.
- In `ConfigProtocol` a revision and its content are read in one step, and in
  `ConfigRace` in two. In both, the worker's two cache writes are at most hard minus soft lifetime (3595 s) apart.
- The signed part of a token stores its expiry in whole seconds, rounded down.
- In `CredentialsProtocol` answers of the server arrive and are written, and no
  login or logout touches the file during the run.
- Reals stand for floats in `Priority`, `JulianDay` and all times.
- `getNewStatus`, `getStartAndEndTime`, the submission checks of DIRAC, and the
  text by which task queues are grouped are arbitrary functions.
- Word characters and digits in a Content-Range header are those of ASCII.

## Model

| member | source | states |
|---|---|---|
| CacheSlot.LockedSectionKeeps | diracx-core/src/diracx/core/utils.py:213-224 | the locked section of a get keeps the slot invariant, leaves a future in the table, and never makes an older generation readable |
| CacheSlot.PopKeeps | diracx-core/src/diracx/core/utils.py:254-256 | `futures.pop(key)` finds an entry, and it is the future of the worker itself; the invariant survives |
| CacheSlot.StoreHardKeeps | diracx-core/src/diracx/core/utils.py:257 | the first cache write keeps the invariant, the hard copy being newer than the soft one until the second write |
| CacheSlot.StoreSoftKeeps | diracx-core/src/diracx/core/utils.py:258 | the second cache write brings both caches to the same generation |
| CacheSlot.EvictKeeps | diracx-core/src/diracx/core/utils.py:179-180 | losing an entry to the size limit keeps the invariant |
| CacheSlot.TimeKeeps | diracx-core/src/diracx/core/utils.py:211-217 | expiry keeps the invariant and brings back no older generation |
| CacheProtocol.StepKeeps | diracx-core/src/diracx/core/utils.py:211-258 | every step of every reader, worker or eviction keeps the invariant over slot, calls and replies |
| CacheProtocol.AnswerKeeps | diracx-core/src/diracx/core/utils.py:211-237 | each value handed out was computed by its task, is younger than soft plus hard lifetime, and is no older than the finished task its call waited for |
| CacheRuns.SingleFlightTheorem | diracx-core/src/diracx/core/utils.py:193-194 | in every interleaving a key has at most one task that is not over, and its future is in the table exactly until it pops it |
| CacheRuns.FuturesNeverMiss | diracx-core/src/diracx/core/utils.py:222-256 | `futures.pop(key)` and `self.futures[key]` always find an entry, and the one found is still pending |
| CacheRuns.SameGenerationWhenFree | diracx-core/src/diracx/core/utils.py:255-258 | while the lock of a key is free, its two caches hold the same value |
| CacheRuns.RepliesTheorem | diracx-core/src/diracx/core/utils.py:211-237 | every value returned in any run is genuine and younger than soft_ttl + hard_ttl; after a settled reply generations never decrease |
| CacheRuns.RegressionExactlyWhenUnsettled | diracx-core/src/diracx/core/utils.py:231-258 | a reply can be followed by an older one exactly when a live older soft copy remains at that moment, and then it was given between the two cache writes without the lock |
| CacheRuns.SettledNeverRegresses | diracx-core/src/diracx/core/utils.py:211-258 | no continuation of a run follows a settled reply by an older value |
| CacheRegression.GenerationsCanRegress | diracx-core/src/diracx/core/utils.py:235-258 | a concrete run in which a later get returns the older value |
| CacheRuns.FailedRefreshIsFinal | diracx-core/src/diracx/core/utils.py:215-216 | after `populate_func` raised, no run ever submits another task for the key |
| CacheRefresh.Completes | diracx-core/src/diracx/core/utils.py:254-258 | from every reachable state the worker of the last task can run to its end, unless `populate_func` raised |
| CacheRefresh.RefreshableExactly | diracx-core/src/diracx/core/utils.py:211-216 | in every reachable state: no run submits a further task for the key if and only if its last `populate_func` raised |
| CacheObject.TwoLevelCache.GetLocked | diracx-core/src/diracx/core/utils.py:213-224 | the dictionaries after the locked section are those of the protocol step; other keys are untouched |
| CacheObject.TwoLevelCache.Await | diracx-core/src/diracx/core/utils.py:225-231 | waiting for the future and reading the hard cache: the refreshed value, or KeyError after a failed refresh |
| CacheObject.TwoLevelCache.Work | diracx-core/src/diracx/core/utils.py:254-258 | a whole `_work` publishes its value in both caches, or leaves a failed future |
| CacheObject.TwoLevelCache.GetValue | diracx-core/src/diracx/core/utils.py:185-237 | a whole get alone: a live copy in the soft cache, else one in the hard cache, is given back; without either a non-blocking get is not ready, and a blocking one gives what the refresh computes, or KeyError exactly if that raises or an earlier one did; and the slot it leaves |
| CacheAlone.AloneRuns | diracx-core/src/diracx/core/utils.py:185-258 | answer and slot of a whole get are those of a run of the protocol in which it steps alone, read by read and write by write |
| CacheAlone.ReadsExactly | diracx-core/src/diracx/core/utils.py:211-237 | among other threads, a get replies at exactly those reads that find a copy younger than its lifetime, with that copy, and otherwise goes on to the lock, to the wait or the second look, or to its error |
| CacheAlone.WaitedIsAnswered | diracx-core/src/diracx/core/utils.py:225-258 | a get that waits for a task is answered with what that computed, when it ends well |
| ConfigProtocol.AdmitKeeps | diracx-core/src/diracx/core/config/sources.py:152-155 | admitting the new revision into two slots never evicts the content of a revision that can still be read |
| ConfigProtocol.LockedKeeps | diracx-core/src/diracx/core/utils.py:213-224 | a refresh submitted with the hard copy gone finds the soft copy gone too, so the current revision stays most recently used |
| ConfigProtocol.StepKeepsSource | diracx-core/src/diracx/core/config/sources.py:124-155 | every step keeps: each readable revision has its content, and the current one is the most recently used while a refresh is pending |
| ConfigProtocol.PublishKeepsCovered | diracx-core/src/diracx/core/utils.py:254-258 | the steps of the worker uncover no readable revision |
| ConfigProtocol.ContentNeverMissing | diracx-core/src/diracx/core/config/sources.py:78-155 | with the lifetimes of 5 s and 3600 s, and all others in that order, no index of the content cache ever misses in any run, whichever way the branch moves and however time passes, as long as the two cache writes of a refresh are at most hard minus soft lifetime apart |
| ConfigRace.QuietNeverMisses | diracx-core/src/diracx/core/config/sources.py:126-144 | with the reading of the revision and the indexing of its content as two steps, in any order of indexing: no index misses in a run in which the worker neither admits nor publishes a revision while a read waits to be indexed |
| ConfigRace.ContentCanMiss | diracx-core/src/diracx/core/config/sources.py:126-155 | a run in which a read waits while two refreshes pass, and then raises KeyError |
| ConfigRace.MissPossibleExactly | diracx-core/src/diracx/core/config/sources.py:126-155 | in every reachable state: some continuation misses if and only if the last refresh has not failed, or a revision that waits or can be read has lost its content |
| ConfigProtocol.DropKeepsOthers | diracx-core/src/diracx/core/config/sources.py:87 | moving a key in the LRU order loses and repeats nothing |
| ConfigObject.ConfigSource.Index | diracx-core/src/diracx/core/config/sources.py:133-144 | a hit makes the revision the last one, the other keeping its place; a miss is a KeyError and changes nothing |
| ConfigObject.ConfigSource.ReadConfigWork | diracx-core/src/diracx/core/config/sources.py:146-155 | the revision returned has its content in the cache; a new one is put last and drives out the first of two; a known one or a failed read changes nothing |
| Scope.ParseMeans | diracx-logic/src/diracx/logic/auth/utils.py:235-300 | a scope is accepted exactly when one VO, at most one group and known properties fit it, and then the result is unique |
| Scope.ParseAndValidateScope | diracx-logic/src/diracx/logic/auth/utils.py:235-300 | the loop over the pieces computes that result or the error |
| Scope.GetAllowedUserProperties | diracx-logic/src/diracx/logic/auth/utils.py:226-232 | exactly the properties of the groups the user is in |
| Scope.ExchangeToken | diracx-logic/src/diracx/logic/auth/token.py:286-317 | the identity, or the first check that fails |
| Scope.IdentifySound | diracx-logic/src/diracx/logic/auth/token.py:286-361 | what a token says of its user: registered, in the group that the scope names or else the default one, with exactly the properties asked for and those of the group, and the preferred name |
| Scope.IdentifyExactly | diracx-logic/src/diracx/logic/auth/token.py:286-361 | a token is given exactly to a registered member of the group that the scope names or of the default one, with the properties of that group and those asked for, each of which some group of the user has |
| Scope.IdentifyFails | diracx-logic/src/diracx/logic/auth/token.py:286-314 | which of the errors comes when: scope, missing default group, registration, membership or properties |
| Scope.SplitJoins | diracx-logic/src/diracx/logic/auth/utils.py:248 | splitting a text loses nothing: no piece holds the separator, and joining them gives the text back |
| Scope.AfterColonExactly | diracx-logic/src/diracx/logic/auth/token.py:213-217 | what follows the first colon, and an error exactly without one |
| Scope.SubjectRoundTrip | diracx-logic/src/diracx/logic/auth/token.py:213-217 | taking the VO off the stored subject gives the user back if and only if the VO has no colon |
| Scope.NamedIsNameable | diracx-logic/src/diracx/logic/auth/utils.py:248 | a VO that some scope names has no space in its name |
| Scope.NameableIsNamed | diracx-logic/src/diracx/logic/auth/utils.py:248 | every name without a space is named by a scope |
| AuthTables.AdvancesTransitive | diracx-db/src/diracx/db/sql/auth/db.py:61-266 | rows advance transitively: nothing disappears, PENDING to READY to DONE, REVOKED stays |
| AuthInvariants.ServeSteps | diracx-logic/src/diracx/logic/auth/token.py:100-161 | every request moves each flow by at most one status step, and READY and DONE rows hold an ID token |
| AuthLog.ServeLog | diracx-logic/src/diracx/logic/auth/token.py:164-225 | every request keeps: each minted token answers for its flow, and no single-use source is used twice |
| AuthRotation.FoundsKeepsFamilies | diracx-logic/src/diracx/logic/auth/token.py:319-327 | a login founds a new family with one live token |
| AuthRotation.RotatesKeepsFamilies | diracx-logic/src/diracx/logic/auth/token.py:204-206 | a rotation revokes the old token of the family before it inserts the new one |
| AuthRuns.StatusesOnlyAdvance | diracx-db/src/diracx/db/sql/auth/db.py:61-196 | over any run no row is lost, flows only go forward, and REVOKED is never left |
| AuthRuns.SingleUseTheorem | diracx-logic/src/diracx/logic/auth/token.py:100-161 | over any run each device code, authorization code and rotating refresh token mints at most once, within its validity, for the same client, redirect URI and challenge = hash(verifier) (section 4.1.2 of RFC 6749, section 4.6 of RFC 7636, section 3.5 of RFC 8628) |
| AuthRuns.OneLiveTokenPerLogin | diracx-logic/src/diracx/logic/auth/token.py:183-206 | over any run two tokens of one login that are both not revoked are the same (section 10.4 of RFC 6749) |
| AuthRuns.ReuseRevokesSubject | diracx-logic/src/diracx/logic/auth/token.py:192-202 | for a signed, unexpired, rotating token that is known: the request fails with the reuse error if and only if the row is REVOKED, and then the revocation of every token of its subject is committed and logged |
| AuthRuns.ReuseForcesNewLogin | diracx-logic/src/diracx/logic/auth/token.py:187-202 | after a detected reuse every later rotating refresh of the subject descends from an interactive login made since, in every run whose configurations name no VO with a colon that a scope can name |
| AuthColons.LoginForcedExactly | diracx-logic/src/diracx/logic/auth/token.py:187-217 | for every set of VOs: all runs over configurations with these VOs keep that promise if and only if none of the VOs that a scope can name has a colon |
| AuthColons.ColonEscapes | diracx-logic/src/diracx/logic/auth/token.py:187-217 | for every VO with a colon that a scope can name, a run of logins and refreshes in which the reused subject is refreshed by a token of an older login |
| AuthColons.ReuseEscapes | diracx-logic/src/diracx/logic/auth/token.py:187-217 | that run for the VO "a:b" with users "u", "b:u" and "b:b:u" |
| AuthColons.UnregisteredRefused | diracx-logic/src/diracx/logic/auth/token.py:213-218 | the refresh of a user of a colon VO who is not also registered under the longer name is refused and changes nothing |
| AuthRuns.SubjectKeptExactly | diracx-logic/src/diracx/logic/auth/token.py:213-317 | a refresh keeps the subject of its row if and only if the VO has no colon |
| AuthRegistration.OnlyRegisteredClients | diracx-logic/src/diracx/logic/auth/authorize_code_flow.py:35-50 | over any run a code is only redeemed for the known client, at an allowed redirect URI |
| AuthRegistration.RevokesOnlyOwn | diracx-logic/src/diracx/logic/auth/management.py:22-34 | a revocation succeeds exactly for an existing token of the given subject, and touches only that one; the error of each other case |
| AuthCompleteness.CodeRedeemedExactly | diracx-logic/src/diracx/logic/auth/token.py:122-161 | a valid code mints if and only if its flow is READY, client, redirect URI and verifier match, the user is entitled to the scope and the jti is new; what is then minted, and the condition of each error |
| AuthCompleteness.UnknownCode | diracx-db/src/diracx/db/sql/auth/db.py:173-187 | a code that no flow holds, or whose flow is too old, is not found |
| AuthCompleteness.DeviceRedeemedExactly | diracx-logic/src/diracx/logic/auth/token.py:100-119 | the same for device codes, with pending and expired flows |
| AuthCompleteness.RefreshedExactly | diracx-logic/src/diracx/logic/auth/token.py:164-225 | a rotating token that may be presented is rotated if and only if it is not REVOKED, the user is entitled to its scope and the jti is new; the new row, the remaining lifetime, and each error |
| AuthCompleteness.LegacyRefreshedExactly | diracx-logic/src/diracx/logic/auth/token.py:207-225 | a legacy token gives an access token whenever the user is entitled to it, and changes no row |
| AuthCompleteness.NotPresentable | diracx-logic/src/diracx/logic/auth/token.py:168-173 | unsigned, expired and unknown tokens each have their error |
| AuthCompleteness.DeviceStartedExactly | diracx-db/src/diracx/db/sql/auth/db.py:87-119 | a device flow starts exactly for the known client and an acceptable scope, under new codes |
| AuthCompleteness.CodeStartedExactly | diracx-logic/src/diracx/logic/auth/authorize_code_flow.py:35-50 | a code flow starts exactly for the known client, an allowed redirect URI and an acceptable scope |
| AuthCompleteness.ApprovedExactly | diracx-db/src/diracx/db/sql/auth/db.py:70-171 | an ID token is stored exactly for a flow that waits and is still valid |
| AuthCompleteness.LegacyExactly | diracx-logic/src/diracx/logic/auth/token.py:231-270 | a legacy exchange mints exactly for an entitled user, with the lifetime asked for or the usual one |
| AuthCompleteness.CodeLoginSucceeds | diracx-logic/src/diracx/logic/auth/token.py:122-161 | start, approval and redemption in time by the known client with the right verifier always give the tokens of an entitled user |
| AuthCompleteness.DeviceLoginSucceeds | diracx-logic/src/diracx/logic/auth/token.py:100-119 | the same for a device login |
| AuthCompleteness.LoginCanBeRefreshed | diracx-logic/src/diracx/logic/auth/token.py:164-225 | the refresh token of any login can be rotated until it expires, while the user stays entitled and the VO has no colon |
| AuthObject.AuthDB.InsertDeviceFlow | diracx-db/src/diracx/db/sql/auth/db.py:87-119 | the first draw without conflict is inserted; all conflicting draws are an error and change nothing |
| AuthObject.FinishDeviceFlow | diracx-db/src/diracx/db/sql/auth/db.py:70-85 | storing the ID token of a device flow as one transaction: it commits what the state machine says, succeeds exactly when that does, moves the flow by one status step, and a second answer for the same user code is refused |
| AuthObject.FinishAuthorizationFlow | diracx-db/src/diracx/db/sql/auth/db.py:144-171 | the same for authorization flows; the code given out selects this flow and no other, and a second answer is refused |
| AuthObject.GetDeviceFlow | diracx-logic/src/diracx/logic/auth/token.py:406-425 | a READY, unexpired flow becomes DONE and is returned; every other state has its own error |
| AuthObject.MintLogin | diracx-logic/src/diracx/logic/auth/token.py:273-343 | the answer, the inserted row, and the jti and expiry of the signed part of the refresh token of a login |
| AuthObject.DeviceGrant | diracx-logic/src/diracx/logic/auth/token.py:100-119 | the device grant as one transaction commits and answers what the state machine says, the signed part of the token included |
| AuthObject.CodeGrant | diracx-logic/src/diracx/logic/auth/token.py:122-161 | the authorization-code grant, rolled back on every mismatch although the row was already marked DONE |
| AuthObject.RefreshGrant | diracx-logic/src/diracx/logic/auth/token.py:164-225 | the refresh grant, with the explicit commit before the reuse error and a rollback on every other |
| RefreshChain.ChainTheorem | diracx-logic/src/diracx/logic/auth/token.py:178-218 | any refresh of a chain gives the identity of the login, and its subject, if and only if the VO has no colon |
| RefreshChain.ChainTokens | diracx-logic/src/diracx/logic/auth/token.py:329-337 | the n-th token belongs to the n-th user behind the login, and expires at most the summed latencies after the first, and no more than a second for each request before that |
| RefreshChain.ChainWithinGroups | diracx-logic/src/diracx/logic/auth/token.py:286-314 | along the chain the properties stay within the groups of the user named, whatever the VO is called |
| RefreshChain.LinkCarries | diracx-logic/src/diracx/logic/auth/token.py:329-337 | one refresh hands on the scope, the subject of its answer, and the remaining lifetime cut to whole seconds |
| Credentials.GetToken | diracx-client/src/diracx/client/patches/client/common.py:59-112 | one call alone: a token in memory or in the file is given back exactly if it has more than 300 s left; else an unexpired refresh token in the file is presented and what comes back is saved, to be used until 15 s before it expires; else the empty token; the lock is released on every path and a failed refresh leaves the file as it was |
| Credentials.ExtractExactly | diracx-client/src/diracx/client/patches/client/common.py:147-195 | what the file is good for, by the time its tokens have left |
| CredentialsAlone.CallCanEnd | diracx-client/src/diracx/client/patches/client/common.py:59-112 | whenever the lock is free, a call that starts can run to its end among the other processes, and then has done to file and server what `GetToken` promises |
| CredentialsProtocol.PresentKeeps | diracx-client/src/diracx/client/patches/client/common.py:79-86 | presenting the token of the file, whatever the server answers, keeps the link between file, lock holder and server |
| CredentialsProtocol.RefreshExchanges | diracx-logic/src/diracx/logic/auth/token.py:183-206 | what a presentation does on the server, seen from the client |
| CredentialsProtocol.MoveKeeps | diracx-client/src/diracx/client/patches/client/common.py:70-112 | every move of every process, and of any other client, keeps that link |
| CredentialsProtocol.NeverPresentedTwice | diracx-client/src/diracx/client/patches/client/common.py:70-112 | in every interleaving no rotated refresh token is presented again |
| CredentialsProtocol.UnreadableExactly | diracx-client/src/diracx/client/patches/client/common.py:88-93 | in every interleaving the file is unreadable exactly while some process has truncated it and not written it yet |
| CredentialsProtocol.ReuseNeverDetected | diracx-client/src/diracx/client/patches/client/common.py:70-112 | unless somebody else revokes tokens of the file, the reuse detection of the server never fires |
| ConfigMerge.RecursiveMerge | diracx-core/src/diracx/core/utils.py:42-59 | the two loops compute the key-by-key merge |
| ConfigMerge.MergeAt | diracx-core/src/diracx/core/utils.py:48-58 | dicts merge key by key, an absent key counting as None |
| ConfigMerge.MergeIsUnique | diracx-core/src/diracx/core/utils.py:42-59 | None, the override and the key-by-key rule determine the merge: any function that keeps these rules is this one |
| ConfigMerge.NullIsIdentity | diracx-core/src/diracx/core/utils.py:45-46 | None is an identity on both sides |
| ConfigMerge.MergeIdempotent | diracx-core/src/diracx/core/utils.py:48-59 | a value merged with itself is itself |
| ConfigMerge.MergeTwice | diracx-core/src/diracx/core/utils.py:48-59 | merging the same base in again changes nothing |
| ConfigMerge.CoversMeans | diracx-core/src/diracx/core/utils.py:48-59 | the override hides all of the base exactly when its keys cover it |
| ConfigMerge.MergeAssociativeIff | diracx-core/src/diracx/core/utils.py:48-59 | two merges may be regrouped if and only if wherever dict, plain value, dict meet, the last dict covers the first |
| ConfigMerge.MergeAssociative | diracx-core/src/diracx/core/utils.py:48-59 | associative when no path holds a dict, a plain value and a dict in that order |
| ConfigMerge.EnsureOperationsDefaults | diracx-core/src/diracx/core/config/schema.py:247-261 | the loop over the registered VOs, in both modes |
| ConfigMerge.DefaultsMerged | diracx-core/src/diracx/core/config/schema.py:256-260 | each registered VO ends with merge(Defaults, own), others keep their entry, Defaults is gone |
| ConfigMerge.ConversionKeeps | diracx-core/src/diracx/core/config/schema.py:250-253 | in the conversion mode every entry stays, Defaults too, and only absent or null entries of registered VOs become empty |
| ConfigMerge.CompletedOnce | diracx-core/src/diracx/core/config/schema.py:247-261 | a second pass changes nothing, if and only if null defaults do not meet a null entry |
| Properties.BitwiseAt | diracx-core/src/diracx/core/properties.py:84-91 | each bit of a result is the operator applied to the bits of the operands |
| Properties.BitwiseAdds | diracx-core/src/diracx/core/properties.py:84-91 | `&` and `|` add up to the sum of the operands, and `^` is their difference |
| Properties.InvertComplements | diracx-core/src/diracx/core/properties.py:93-94 | `~x` shares no bit with x and completes it to -1 |
| Properties.TwoProperties | diracx-core/src/diracx/core/properties.py:76-110 | two properties joined by each operator, and one negated, in plain words |
| Properties.BitwiseOnPairs | diracx-core/src/diracx/core/properties.py:109-110 | on the values that occur, low bit and sign are computed apart |
| Properties.CallValue | diracx-core/src/diracx/core/properties.py:76-110 | the value has the boolean meaning as its low bit and is negative exactly when the expression holds of no property |
| Properties.GrantedMeans | diracx-core/src/diracx/core/properties.py:109-110 | the value lies in -2..1 and is truthy exactly when the meaning holds for the properties or for none |
| Properties.DecidedExactly | diracx-core/src/diracx/core/properties.py:93-110 | truthiness equals the meaning for all users if and only if an expression true of no property is always true |
| Properties.NegationFreeDecided | diracx-core/src/diracx/core/properties.py:84-91 | without `~` access is granted exactly as the expression says, and never to a user without properties |
| Properties.NegationGrantsAll | diracx-core/src/diracx/core/properties.py:93-94 | `~` on such an expression lets everybody through |
| SearchQuery.ApplySearchFilters | diracx-db/src/diracx/db/os/utils.py:249-303 | accepted filter lists compile to a query that matches exactly the documents on which all filters hold, missing fields included; refused ones fail at the first bad filter |
| SearchQuery.OneMoreFilter | diracx-db/src/diracx/db/os/utils.py:265-300 | one more filter, one more clause: the query matches exactly what it did and the filter |
| SearchQuery.FilterSelects | diracx-db/src/diracx/db/os/utils.py:265-300 | what each operator selects, missing fields included: ordering is of numbers and strict |
| SearchQuery.RefusalExactly | diracx-db/src/diracx/db/os/utils.py:257-303 | which filter is refused with which error, by the type of its field |
| SearchQuery.SortRefusalExactly | diracx-db/src/diracx/db/os/utils.py:205-217 | sorting needs a field that is indexed whole |
| SearchQuery.BuildRequest | diracx-db/src/diracx/db/os/utils.py:200-226 | the request selects what the filters say, checks the sort fields after them, and asks for the p-th page |
| Paging.PagesArePrefix | diracx-db/src/diracx/db/os/utils.py:219-222 | pages 1..k of a fixed hit list are its prefix, without loss or overlap |
| Paging.PagesCover | diracx-db/src/diracx/db/sql/utils/base.py:266-271 | enough pages give the whole list |
| Paging.RowHasOnePage | diracx-db/src/diracx/db/sql/utils/base.py:266-271 | each row is on exactly one page, at a known place |
| ContentRange.Response.SetContentRange | diracx-routers/src/diracx/routers/jobs/query.py:175-185 | header and status written into the response |
| ContentRange.HeaderDescribes | diracx-routers/src/diracx/routers/jobs/query.py:179-185 | the header names the positions of the rows sent, 0 <= first <= last < total, if and only if the page size is within the cap, the page is the first, or the page at the capped size starts beyond the last row (section 4.2 of RFC 7233) |
| ContentRange.HeaderKind | diracx-routers/src/diracx/routers/jobs/query.py:175-185 | no header exactly with the whole result, `*` exactly with an empty page of some rows, a range with any other part |
| ContentRange.HeaderCanLie | diracx-routers/src/diracx/routers/jobs/query.py:182 | with 20000 rows asked per page, the second page is announced at the wrong positions |
| ContentRange.PagesTile | diracx-routers/src/diracx/routers/jobs/query.py:179-185 | partial pages start at 0, follow each other without gap, and the last one is followed by `*/total` |
| RangeHeader.MatchMeans | diracx-cli/src/diracx/cli/jobs.py:91-96 | the pattern matches a text with given groups exactly when the text is made of them |
| RangeHeader.DecimalRoundTrip | diracx-cli/src/diracx/cli/jobs.py:93-95 | reading back a printed number |
| RangeHeader.ContentRangeFields.Init | diracx-cli/src/diracx/cli/jobs.py:90-97 | fields of every header; `int("*")` raises exactly for a `*` total |
| RangeHeader.HeaderRoundTrip | diracx-cli/src/diracx/cli/jobs.py:90-97 | the client recovers every header the server prints, `*/total` and no header included |
| RangeHeader.PrintExample | diracx-routers/src/diracx/routers/jobs/query.py:176-185 | the texts "jobs 0-99/1000" and "jobs */1000", and what the client reads |
| RangeHeader.ClientKnowsItsPage | diracx-cli/src/diracx/cli/jobs.py:90-97 | up to the cap the client learns the positions of the rows it received and the total |
| JulianDay.ClosedFormCounts | diracx-testing/src/diracx/testing/time.py:126-132 | the closed form equals a counter of single days, for every valid date from year 1 |
| JulianDay.DayAddsOne | diracx-testing/src/diracx/testing/time.py:126-132 | the next date has the next number, across month ends, leap days and century rules |
| JulianDay.YearLength | diracx-testing/src/diracx/testing/time.py:132 | the year term grows by 366 in leap years and 365 in others |
| JulianDay.NumberIsBijective | diracx-testing/src/diracx/testing/time.py:126-132 | each number from 1721426 on belongs to exactly one date |
| JulianDay.CountIncreases | diracx-testing/src/diracx/testing/time.py:132 | later dates have larger numbers |
| JulianDay.MeasuresSeconds | diracx-testing/src/diracx/testing/time.py:134-135 | the value counts days of 86400 seconds from noon |
| JulianDay.JulianDateIncreases | diracx-testing/src/diracx/testing/time.py:119-135 | the value orders instants exactly as (date, hour, minute, second) does |
| Priority.CalculatePriority | diracx-logic/src/diracx/logic/task_queues/priority.py:94-151 | succeeds exactly when nothing divides by zero and every row is known; then groups and result are those of the shares |
| Priority.Divide | diracx-logic/src/diracx/logic/task_queues/priority.py:110-122 | each new priority before grouping; division by zero exactly for a foreground queue with total 0 |
| Priority.GivenExactly | diracx-logic/src/diracx/logic/task_queues/priority.py:110-122 | before grouping a background queue, at most 0.1, has 0.001, and every other one its part of the share in proportion to its priority, but at least 0.001 |
| Priority.TotalExactly | diracx-logic/src/diracx/logic/task_queues/priority.py:112-114 | the divisor is the sum of the priorities that are not in the background |
| Priority.GroupRows | diracx-logic/src/diracx/logic/task_queues/priority.py:124-137 | queues grouped by the text of the fields that are not ignored |
| Priority.GroupSums | diracx-logic/src/diracx/logic/task_queues/priority.py:139-143 | every member of a group gets the sum of the group |
| Priority.Invert | diracx-logic/src/diracx/logic/task_queues/priority.py:145-151 | the dictionary from priority to queues |
| Priority.NeverDividesByZero | diracx-logic/src/diracx/logic/task_queues/priority.py:110-121 | with background queues allowed never, otherwise exactly with a positive priority |
| Priority.ForegroundGetsTheShare | diracx-logic/src/diracx/logic/task_queues/priority.py:116-122 | before grouping the foreground priorities sum to between the share and the share plus n minimums |
| Priority.SharesFollowPriorities | diracx-logic/src/diracx/logic/task_queues/priority.py:116-122 | background queues get exactly the minimum, and a higher priority never gets less |
| Priority.AtLeastMinimum | diracx-logic/src/diracx/logic/task_queues/priority.py:119-122 | no queue ends below TQ_MIN_SHARE |
| Priority.GroupsAreEqual | diracx-logic/src/diracx/logic/task_queues/priority.py:139-143 | queues whose kept fields (all but Jobs, Priority, Sites and BannedSites) have the same text end with the sum over all of these |
| Priority.GroupsSpendTheWhole | diracx-logic/src/diracx/logic/task_queues/priority.py:139-143 | the group sums, one for each group, add up to what all queues were given |
| Priority.ResultPartitions | diracx-logic/src/diracx/logic/task_queues/priority.py:145-151 | the lists of the result cover the queues, each once, under its own priority |
| Priority.SetPriorities | diracx-logic/src/diracx/logic/task_queues/priority.py:90-91 | the updates leave each queue with its own priority and other queues alone, in any order |
| Priority.RecalculateShares | diracx-logic/src/diracx/logic/task_queues/priority.py:27-71 | the whole share for a sharing group, else equal parts that sum to the job share, for one owner or for all |
| AccessPolicy.CountMeansOwned | diracx-routers/src/diracx/routers/jobs/access_policies.py:87-108 | for unique JobIDs the aggregated check holds exactly when every requested job exists and is the user's |
| AccessPolicy.NoIdsNoRow | diracx-routers/src/diracx/routers/jobs/access_policies.py:101-107 | an empty id list never passes the check |
| AccessPolicy.PolicyMeans | diracx-routers/src/diracx/routers/jobs/access_policies.py:39-111 | for calls as the routers make them the policy allows exactly what the user is entitled to |
| AccessPolicy.MisusesRefused | diracx-routers/src/diracx/routers/jobs/access_policies.py:57-85 | other calls pass only for pilots and administrators, and which refusal the rest get |
| AccessPolicy.PartsAllowed | diracx-routers/src/diracx/routers/jobs/access_policies.py:87-108 | who may act on a list of jobs may act on any part of it, in any order, repeated or not |
| JobStatus.UpdateOne | diracx-logic/src/diracx/logic/jobs/status.py:178-249 | the attributes set for one job, or why the batch fails |
| JobStatus.DecisionStored | diracx-logic/src/diracx/logic/jobs/status.py:206-230 | each decided status that is not empty goes to its own column, the extra attributes and the time with a new status; a stalled job is shown as running, and old updates are not shown |
| JobStatus.DecidedColumns | diracx-logic/src/diracx/logic/jobs/status.py:218-226 | decided status, minor status and application status each end in the column of that name, unless they are empty |
| JobStatus.NothingToDecide | diracx-logic/src/diracx/logic/jobs/status.py:193-202 | no outcome without a log, or without updates |
| JobStatus.WmsTimesAre | diracx-db/src/diracx/db/sql/job_logging/db.py:140-154 | for each status the time of its last row |
| JobStatus.HeartBeatIs | diracx-logic/src/diracx/logic/jobs/status.py:232-235 | a heartbeat is an update from "Heartbeat" or from a source that starts with "Job"; the last one counts |
| JobStatus.BeatOf | diracx-logic/src/diracx/logic/jobs/status.py:232-235 | HeartBeatTime is the last update that counts as a heartbeat |
| JobStatus.OldUpdatesKeepStatus | diracx-logic/src/diracx/logic/jobs/status.py:206-230 | updates all older than the last WMS timestamp never change the status |
| JobStatus.StatusNeedsDecision | diracx-logic/src/diracx/logic/jobs/status.py:218-226 | status and extra attributes change exactly when a new status was decided |
| JobStatus.TimesSetOnce | diracx-logic/src/diracx/logic/jobs/status.py:232-241 | start and end times are set once, to what DIRAC says, and then kept unless an extra attribute says otherwise; the heartbeat is the last one |
| JobBatch.JobDatabases.SetJobStatuses | diracx-logic/src/diracx/logic/jobs/status.py:99-286 | naive timestamps are refused first; otherwise a batch commits the outcome of every found job, or nothing, with the error of one of its jobs; the job parameters gain what was upserted in either case |
| JobBatch.JobDatabases.Collect | diracx-logic/src/diracx/logic/jobs/status.py:178-264 | the loop fills updates, skipped, killed and records as the outcomes say, and upserts a parameter row for each job it handles, decided or not |
| JobBatch.DecisionWritten | diracx-logic/src/diracx/logic/jobs/status.py:178-281 | what is decided for a job of a batch that succeeds is what its row holds, and Deleted or Killed sends Kill once and empties the queues |
| JobBatch.ParametersWritten | diracx-logic/src/diracx/logic/jobs/status.py:227 | the job parameters keep the status decided for each job that was decided on, and no other |
| JobBatch.StopsExactly | diracx-logic/src/diracx/logic/jobs/status.py:193-216 | a job stops its batch if it has no log, no updates, or no decision is taken on updates newer than its log |
| JobBatch.BatchPartitions | diracx-logic/src/diracx/logic/jobs/status.py:164-170 | success and failed partition the requested ids |
| JobBatch.LoggedOnce | diracx-logic/src/diracx/logic/jobs/status.py:252-263 | each update of a found job is logged exactly once, with "idem" for what it leaves out and long texts cut, and nothing else is |
| JobBatch.OnlyFoundChange | diracx-logic/src/diracx/logic/jobs/status.py:246-267 | only found jobs change, and old updates leave their status |
| JobBatch.KillsExactly | diracx-logic/src/diracx/logic/jobs/status.py:241-281 | Kill goes once to exactly the jobs whose new status is Deleted or Killed |
| JobBatch.RefusedExactly | diracx-logic/src/diracx/logic/jobs/status.py:193-216 | exactly which batches fail |
| Reschedule.RescheduleJobs | diracx-logic/src/diracx/logic/jobs/status.py:289-483 | when a call succeeds, its answer and tables; otherwise it raises the error that explains it and changes nothing but the job parameters |
| RescheduleOutcome.AnswerExactly | diracx-logic/src/diracx/logic/jobs/status.py:320-483 | each job asked for is rescheduled exactly if it is verified, within its maximum and passes the checks; otherwise the first reason against it is given, and unknown jobs are mentioned only if no job is known |
| RescheduleOutcome.RaisesExactly | diracx-logic/src/diracx/logic/jobs/status.py:350-394 | a verified job of an unconfigured VO raises first, then a job left without JDL, and nothing is written |
| RescheduleOutcome.AcceptedWritten | diracx-logic/src/diracx/logic/jobs/status.py:408-454 | an accepted job is logged as Received, and what is decided on that is stored with its site, priority, time and next counter |
| RescheduleOutcome.GivenUpWritten | diracx-logic/src/diracx/logic/jobs/status.py:355-367 | a job over its maximum is logged as Failed, and what is decided on that is stored, if some other job is left |
| RescheduleOutcome.SpoiledWritten | diracx-logic/src/diracx/logic/jobs/utils.py:76-80 | a submission error sets its attributes and the next counter at once |
| RescheduleOutcome.OthersKept | diracx-logic/src/diracx/logic/jobs/status.py:289-483 | every other job stays as it is, asked for or not |
| Reschedule.Screen | diracx-logic/src/diracx/logic/jobs/status.py:333-368 | the first loop: unverified jobs, jobs over the maximum, and those left |
| Reschedule.Prepare | diracx-logic/src/diracx/logic/jobs/status.py:396-454 | the second loop: accepted jobs, and those whose checks fail |
| RescheduleRuns.CounterAfter | diracx-logic/src/diracx/logic/jobs/status.py:346-367 | a stored counter is 0 or one more than before and within the maximum; otherwise it is unchanged |
| RescheduleRuns.CounterWithStatus | diracx-logic/src/diracx/logic/jobs/status.py:218-221 | what a call sets for a job: a counter exactly for accepted and decided jobs and for those whose submission check fails, and with a status if and only if the job was accepted or the failing check gives one |
| RescheduleAcceptance.CounterWithoutStatus | diracx-logic/src/diracx/logic/jobs/utils.py:76-80 | any job whose failing check sets nothing ends with the next counter and its old status |
| RescheduleAcceptance.CounterAlone | diracx-logic/src/diracx/logic/jobs/utils.py:76-80 | the same at an input: counter 1 beside "Failed", and nothing logged |
| RescheduleRuns.AnswersDisjoint | diracx-logic/src/diracx/logic/jobs/status.py:456-483 | success and failed are disjoint, and success is exactly the accepted jobs |
| RescheduleRuns.MarkedExactly | diracx-logic/src/diracx/logic/jobs/status.py:355-367 | a job over its maximum is logged as failed, and given what is decided for that, if and only if some other job of the call is left; otherwise nothing is written |
| RescheduleRuns.NobodyLeftNothingWritten | diracx-logic/src/diracx/logic/jobs/status.py:355-367 | jobs over the maximum are still reported when no other job is left, and nothing is written |
| RescheduleRuns.CounterNeverExceeds | diracx-logic/src/diracx/logic/jobs/status.py:346-367 | over any run a counter within MaxRescheduling stays within it |
| RescheduleRuns.AtMostMaxReschedulings | diracx-logic/src/diracx/logic/jobs/status.py:346-367 | between resets each stored counter is one more, so at most maximum minus the first value are stored |
| RescheduleRuns.AfterReset | diracx-logic/src/diracx/logic/jobs/status.py:346-349 | after a reset at most MaxRescheduling reschedules are stored |
| RescheduleAcceptance.AcceptedBalance | diracx-logic/src/diracx/logic/jobs/status.py:396-483 | over any run: acceptances plus spoiled counters equal stored counters plus undecided acceptances |
| RescheduleAcceptance.AcceptedWithinMaximum | diracx-logic/src/diracx/logic/jobs/status.py:346-483 | between resets a job is accepted at most as often as its maximum leaves room, if and only if no more acceptances go undecided than counters are left or spoiled; in particular when each is decided |
| RescheduleAcceptance.AcceptedAfterReset | diracx-logic/src/diracx/logic/jobs/status.py:346-483 | the same after a reset, with the whole maximum as room |
| RescheduleAcceptance.AcceptedForEver | diracx-logic/src/diracx/logic/jobs/status.py:456-483 | for every n, a run without reset in which a job below its maximum is accepted n times and keeps its counter |
| RescheduleAcceptance.MoreThanMaximumAccepted | diracx-logic/src/diracx/logic/jobs/status.py:456-483 | that run with maximum 3 and four acceptances |

## Left out

- HTTP wiring, telemetry, S3, git, the terminal interface and the generated client: nothing to prove there.
- Cryptography, JWT encoding, Fernet state, and the identity provider: only that signatures cannot be forged is used.
- `TwoLevelCache.clear`, `ConfigSource.clear_caches`: they replace the locks in the middle of a run.
- `write_credentials` and logout beside `get_token`: they truncate and unlink outside the lock.
- Schema of the SQL tables, statement execution and connection handling: a table is a map or a row list with the columns used.
- Time truncation and pattern operators of the SQL search: the OpenSearch side of the search language is modelled.
- The legacy API key: the caller of `LegacyExchange` is taken to be authenticated, with the subject found for its user name.
- JDL texts written by `reschedule_jobs`, and a job without `VerifiedFlag`, which the search always returns.
- `Config` validation other than the defaults, `batched_async`, key rotation, dotenv ordering: easy.
- ConfigProtocol.ContentNeverMissing: reads the revision and indexes its content in one step (ConfigRace has two), and does not model a worker that takes longer than hard minus soft lifetime between its two cache writes.
- AuthRuns.ReuseForcesNewLogin: is stated for VOs that are without a colon or that no scope can name; AuthColons.LoginForcedExactly shows that this is exact.
- CredentialsProtocol.ReuseNeverDetected: is stated for runs in which no other client revokes a token of the file, since that alone makes the server answer with the reuse error.
- CacheObject.TwoLevelCache.GetValue: describes a get with no other thread about; interleavings are those of CacheProtocol.
- CacheObject.TwoLevelCache.Await: describes the wait with no other thread about; interleavings are those of CacheProtocol.
- RangeHeader.MatchMeans: takes `\w` and `\d` over ASCII, which is all the server prints.
- JobBatch.JobDatabases.SetJobStatuses: rows that come back in no order are taken in some order, and the last row inserted for a status gives its time.
