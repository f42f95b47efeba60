# SkyTwin: verified models of the vault broker, process supervision and signal delivery

SkyTwin's desktop process keeps each user's vault key, hands it to no child, and answers the
encrypt and decrypt requests of its API and worker children. It supervises those children and a
database server. Its worker polls mailboxes and calendars. This project models the parts of it
whose correctness depends on interleavings, and the four algorithms with a simple specification,
and proves what they promise over every run.

JavaScript runs without interruption between two awaits, so each stretch of code between awaits is
one atomic event, and any pending call, timer, child message or child exit may take the next step.
Each protocol comes in two forms. A state machine on values (`VaultBarrier`, `ServiceSupervision`,
`CockroachSupervision`, `SignalDelivery`) carries the invariants and the theorems about every run.
A class with the source's own fields (`SessionBinding`, `DesktopKeyBroker`, `DesktopServiceManager`,
`ManagedProcess`, `DesktopCockroachManager`, `SignalDeduper`, `Connector`) performs the same
stretches of code in place, with the source's loops. In the three large ones (`DesktopKeyBroker`,
`DesktopServiceManager`, `DesktopCockroachManager`) the methods for whole events carry the run so
far: `Valid()` says that it is a run of the state machine ending in the object's fields, every such
method requires and keeps it (`Did(e)` is the event the call performed), so that the theorems about
runs hold of the object, and its `ensures` say what the event means for the caller.

Modules, by file:

- `Identifiers`: identifiers, options, iteration.
- `SessionAuthority`, `SessionBinding`: which owners a child may act for, and the helpers in place.
- `VaultBarrier`: the broker's state and events. `VaultCalls`, `VaultDrains`, `VaultSafety`,
  `VaultRuns`: the invariants, kept by every event. `VaultTheorems`: what follows for every run.
  `VaultSessions`, `VaultRequests`: how long a revocation and a grant last, and who is answered.
  `VaultProgress`: no call is ever stuck. `VaultExample`: a run that answers a request.
  `VaultRevocation`: a run in which a revoked session is granted again.
  `BrokerSteps`, `KeyBroker`: what single events mean, and the class.
- `ServiceSupervision`, `ServiceSafety`, `ServiceTheorems`, `ServiceProgress`: pause, resume,
  restarts, generations and terminations of the API and the worker, and what can still happen.
  `ServiceSteps`, `ServiceManager`: what single events mean, and the class.
- `RestartBudget`: the failure window and the restart budget.
- `CockroachSupervision`, `CockroachManager`: the managed database server.
- `SignalDedupe`: the bounded memory of forwarded signals against an unbounded one.
- `SignalDelivery`, `GmailConnector`: staged cursors and at-least-once delivery.
- `Base64`, `Utf8Truncate`, `ConflictSweep`: the algorithms.

Results that are not a plain yes:

- *Revocation.* An admitted revocation bars its session at that binding, or closes the binding, for
  eight days (`RevokedStaysBarred`), unless a lookup that was begun under a grant ending sooner
  answers `inactive` meanwhile: it writes its own, shorter tombstone over the revocation's. After a
  revocation the session can be freed before its eight days are over if and only if the binding is
  still open and such a lookup is pending when the revocation arrives (`RevocationLastsExactlyWhen`);
  `RevokedSessionIsGrantedAgain` is a run in which it is freed and granted again. A replayed request
  id is refused for eight days without exception (`ReplayIsRefused`).
- *Delivery.* The law "every message after the first cursor and at or below the durable cursor has
  been accepted" holds over every run in which no poll advances past a message it did not serve
  (`DeliveredUnlessPassedOver`), so in particular when every poll is complete: the history comes
  whole, every detail is served, and the mailbox is still during the poll (`DeliveredAtLeastOnce`).
  The code ensures none of the three. For any poll, whatever it served, reported or saw newest,
  that is then forwarded and committed, the law is kept exactly when every message between the base
  and the cursor it leads to was accepted already or served (`PollKeepsLawIff`). Each of the three
  fails in a run without one failed forward or save: a history of 101 messages, of which only the
  first page of 100 is ever asked for (`LongHistoryLosesMessage`); a detail that is not served while
  the cursor advances all the same (`FailedDetailLosesMessage`); a message that arrives between the
  list and a detail which already carries a newer history id (`LateDetailLosesMessage`).
  In the other direction every poll that is forwarded and committed stores the largest of the id
  reported and of the served details' ids (`PollStores`), and one that reports the newest id leaves
  nothing to fetch until another message arrives (`PollCatchesUp`).
- *First cursor.* The law speaks of the cursor last taken without a predecessor, the base. Once
  known it stays the same through any polls, failures and restarts until it expires
  (`FirstCursorStays`). It is the first cursor ever stored unless that expires, or its save is made
  durable and still reports failure: then the connector bootstraps again, and a message between the
  two is lost (`FailedFirstSaveLosesMessage`). For the first cursor ever stored the law holds exactly
  when what lies below the base has been accepted (`LawFromFirstIff`), and over every run in which
  neither happens (`DeliveredFromFirst`).
- *Pause.* A `startAll` that was already waiting when `pause` was called can undo the pause. In every
  run, some continuation without a later call for work ends unpaused if and only if a `startAll` was
  waiting, packaged or not (`PauseUndoneExactlyWhen`); without one, nothing forks a worker until a
  later `startAll` or `resume`.
- *Deduplication.* The bounded map agrees with the unbounded one while no write meets a full map of
  live keys; for a single write, by `mark` or by `hydrate`, `AgreementLostExactlyWhen` says exactly
  when it stops agreeing.
- *Conflict sweep.* What the sweep flags is pairwise overlap or a misleading pair: the later event
  starts before the earlier one ends, and ends no later than the earlier one starts
  (`FlaggedExactly`, `DetectConflicts`). When every event ends after it starts there is no such pair
  (`ProperIsNotMisled`); in general the answer is pairwise overlap if and only if both events of every
  misleading pair overlap something anyway (`AgreesWithOverlapExactlyWhen`). Events that end before
  they start (`ReversedEventIsFlagged`) and events of no length, for which the answer even depends on
  the order of the input (`ZeroLengthDependsOnOrder`), are flagged without overlapping anything.
- *Truncation.* The result fits the budget if and only if the text did or the budget has room for the
  ellipsis; below three bytes the source slices from the end of the text, which `Expected` says. A
  leading byte order mark is dropped by the platform's decoder when the text is truncated, and kept
  when it is not.

## Model

| member | source | states |
|---|---|---|
| `SessionAuthority.RemoveGrantsKeeps` | apps/desktop/src/key-broker.ts:1326-1335 | dropping grants keeps `users` equal to the static users plus the owners of the grants left, however owners and sessions overlap |
| `SessionAuthority.PruneKeeps` | apps/desktop/src/key-broker.ts:1337-1348 | pruning keeps the whole authority invariant and lets go exactly what has expired: every grant, tombstone and request id still in force stays, with its value, and no expired one does |
| `SessionAuthority.CloseKeeps` | apps/desktop/src/key-broker.ts:1350-1355 | closing leaves no session and keeps the invariant |
| `SessionAuthority.TombstoneKeeps` | apps/desktop/src/key-broker.ts:1312-1324 | after a tombstone and the removal of its session the invariant holds; either the tombstone is there or the authority is closed because 1024 were |
| `SessionAuthority.RememberKeeps` | apps/desktop/src/key-broker.ts:1301-1310 | remembering a request id, refusing a replay or closing at 1024 ids keeps the invariant |
| `SessionAuthority.RevokeKeeps` | apps/desktop/src/key-broker.ts:1139-1151 | an admitted revocation leaves the session without a grant and tombstoned, or the authority closed; closed authority stays closed |
| `SessionAuthority.InstallKeeps` | apps/desktop/src/key-broker.ts:1195-1246 | installing, repeating or refusing a grant keeps the invariant; only an installation enlarges `users`, and by the requested owner alone; the grant is there under its new id |
| `SessionAuthority.ExpireKeeps` | apps/desktop/src/key-broker.ts:1226-1229 | the expiry timer leaves the session without a grant and tombstoned, or the authority closed; the invariant and closedness are kept |
| `SessionAuthority.RecheckKeeps` | apps/desktop/src/key-broker.ts:1274-1283 | a session found inactive or superseded loses its grant, an inactive one is also tombstoned or the authority closed; active or unavailable changes nothing; the invariant holds and `users` only shrinks |
| `SessionBinding.SessionBinding.RemoveSessionGrant` | apps/desktop/src/key-broker.ts:1326-1335 | in place, with the search through the other grants: the new value is `RemoveGrant` of the old |
| `SessionBinding.SessionBinding.PruneSessionAuthority` | apps/desktop/src/key-broker.ts:1337-1348 | the three loops together compute `Prune` of the old value, and let go exactly the expired grants, tombstones and request ids |
| `SessionBinding.SessionBinding.CloseSessionAuthority` | apps/desktop/src/key-broker.ts:1350-1355 | the loop over all sessions computes `Close` of the old value |
| `SessionBinding.SessionBinding.TombstoneSession` | apps/desktop/src/key-broker.ts:1312-1324 | the new value is `Tombstone` of the old |
| `SessionBinding.SessionBinding.RememberAuthorityRequest` | apps/desktop/src/key-broker.ts:1301-1310 | the new value and the answer are those of `Remember`: an id is admitted if and only if no unexpired record of it is there and fewer than 1024 unexpired ids are |
| `SessionBinding.SessionBinding.HandleOwnerRevoke` | apps/desktop/src/key-broker.ts:1139-1151 | the new value is `Revoke` of the old; the invariant and closedness are kept |
| `SessionBinding.SessionBinding.InstallGrant` | apps/desktop/src/key-broker.ts:1195-1246 | the new value and outcome are those of `Install`, with everything `InstallKeeps` says of them |
| `SessionBinding.SessionBinding.ExpireGrant` | apps/desktop/src/key-broker.ts:1226-1229 | the timer leaves the session without a grant; the new value is `Expire` of the old, and the invariant and closedness are kept |
| `SessionBinding.SessionBinding.ApplyVerification` | apps/desktop/src/key-broker.ts:1274-1283 | the new value is `Recheck` of the old; the invariant and closedness are kept |
| `VaultCalls.LockKeeps` | apps/desktop/src/key-broker.ts:808-815 | a call of `lock` keeps the order of sections, the count of pending calls, the order of epochs and generations and the rule for stale keys |
| `VaultCalls.CacheKeeps` | apps/desktop/src/key-broker.ts:1455-1458 | a call of `cache`, joining the chain or refused for its epoch, keeps them |
| `VaultCalls.DrainLockKeeps` | apps/desktop/src/key-broker.ts:816-823 | a lock's section that begins to drain keeps them: its generation is newer than every drained one |
| `VaultCalls.DrainCacheKeeps` | apps/desktop/src/key-broker.ts:1460-1471 | so does a cache's section that has not been superseded: no later call of its user is a lock |
| `VaultCalls.EndKeeps` | apps/desktop/src/key-broker.ts:821-829 | the end of a section, with a complete barrier, an incomplete one, or superseded meanwhile, keeps them |
| `VaultCalls.ReturnKeeps` | apps/desktop/src/key-broker.ts:1498-1503 | the `finally` block of a call keeps them |
| `VaultSafety.ChildKeeps` | apps/desktop/src/key-broker.ts:1529-1625 | acknowledgements, timeouts, exits, releases and attachments keep the invariants of bindings, waits and coverage; acknowledgements and exits are never forgotten |
| `VaultRuns.Step` | apps/desktop/src/key-broker.ts:808-1702 | every event of the broker keeps the whole invariant and grows what never goes back |
| `VaultRuns.RunKeeps` | apps/desktop/src/key-broker.ts:808-1702 | the invariant holds in every state of every run, and each state grows from every earlier one |
| `VaultTheorems.SectionsRunInCallOrder` | apps/desktop/src/key-broker.ts:813-831 | when a section starts, every earlier call of its user has ended its section and every later one is still queued |
| `VaultTheorems.DrainedGenerationsIncrease` | apps/desktop/src/key-broker.ts:808-843 | of two drains for one user the later carries the larger generation, in every run |
| `VaultTheorems.DrainsAreLogged` | apps/desktop/src/key-broker.ts:1506-1514 | every section that drains appends its user and generation to the log the increase is stated about |
| `VaultTheorems.SupersededCacheNeverDrains` | apps/desktop/src/key-broker.ts:1460-1471 | a cache section that starts after a later `lock` call changes nothing but its own completion |
| `VaultTheorems.SupersededCacheNeverInstalls` | apps/desktop/src/key-broker.ts:1475-1486 | one that was draining when `lock` was called installs no key and publishes nothing |
| `VaultTheorems.InstallPublishesCurrentGeneration` | apps/desktop/src/key-broker.ts:1479-1494 | a cache that installs a key publishes exactly the current generation to every registered child that may act for the user, and the key carries it |
| `VaultTheorems.DepthCountsPendingCalls` | apps/desktop/src/key-broker.ts:810-842 | `lockDepth` is the number of unfinished `lock` and `cache` calls of the user |
| `VaultTheorems.NothingIsLeftBehind` | apps/desktop/src/key-broker.ts:1498-1503 | a user has a `lockDepth` entry exactly while a call is pending, and a `lockTails` entry only while the last call of the chain is; without one every call has ended its section |
| `VaultTheorems.StaleKeyHasLockPending` | apps/desktop/src/key-broker.ts:808-843 | a key read under an older epoch exists only while a lock section of its user is pending; one of the current epoch has the current generation |
| `VaultTheorems.ReplyIsCurrent` | apps/desktop/src/key-broker.ts:1066-1123 | a successful reply uses an unexpired key of the current epoch and generation, asked for under that generation, with no call pending and no containment failure |
| `VaultTheorems.NoLockSinceUnlock` | apps/desktop/src/key-broker.ts:1066-1123 | between the start of the unlock whose key a reply uses and the reply, `lock` was not called for that user |
| `VaultTheorems.CompleteDrainCovers` | apps/desktop/src/key-broker.ts:1506-1576 | when `drainChildren` returns true, every binding exposed at its start has acknowledged exactly that lock id, user and generation, or is out of the registry on exit or before its capability was sent |
| `VaultTheorems.IncompleteDrainContains` | apps/desktop/src/key-broker.ts:1473-1478 | when it returns false, an exposed child could not be proven to have exited and stays registered if it lives; the user is contained and has no key |
| `VaultTheorems.NoKeyUntilBarrierCompletes` | apps/desktop/src/key-broker.ts:1475-1479 | a contained user has no key until a later barrier for them completes |
| `VaultTheorems.LiveChildrenStayRegistered` | apps/desktop/src/key-broker.ts:1617-1625 | a child that was sent its capability and has not exited is in the registry |
| `VaultTheorems.NothingJoinsTheDrain` | apps/desktop/src/key-broker.ts:1162-1246 | while a drain runs, whatever exposes its user is waited for or was attached since with the user fixed; no session grant brings a binding in, however slow its verification |
| `VaultTheorems.ExposedHaveAcknowledged` | apps/desktop/src/key-broker.ts:1506-1514 | when the barrier completes, every child that may then act for the user has acknowledged this generation or was attached since the drain began |
| `VaultTheorems.AuthorityHolds` | apps/desktop/src/key-broker.ts:1134-1355 | in every state of every run each binding satisfies the authority invariant, with its bounds of 1024 |
| `VaultTheorems.ClosedForGood` | apps/desktop/src/key-broker.ts:1350-1355 | closed authority stays closed, without sessions, for the rest of the run |
| `VaultTheorems.GrantReplyIsCurrent` | apps/desktop/src/key-broker.ts:1183-1246 | a grant's success reply is sent only with no call pending for its owner and under the current generation, to a registered, open binding that may act for them |
| `VaultRequests.ReplyIsEntitled` | apps/desktop/src/key-broker.ts:1249-1290 | for every reply of every run there is the attachment of its binding and an earlier genuine arrival of that request there: without a session, its user is among those the child was attached with; with one, the grant it named was held by that user, unexpired and not tombstoned, and a later lookup answered `active` while the same grant was still held by the open, registered binding |
| `VaultRequests.AnsweredExactlyWhen` | apps/desktop/src/key-broker.ts:1045-1130 | and conversely: a request is answered if and only if its child was so entitled, its generation is current, no call is pending, an unexpired key is there and the cipher succeeds; one that meets an expired key locks the user instead |
| `VaultSessions.RevokedStaysBarred` | apps/desktop/src/key-broker.ts:1139-1151 | in every run, for eight days after an admitted revocation the session is tombstoned without a grant, or the binding closed, in every state before which no lookup of an earlier-ending grant has answered `inactive` |
| `VaultSessions.RevocationLastsExactlyWhen` | apps/desktop/src/key-broker.ts:1274-1324 | the session can be freed before the eight days are over if and only if the binding is still open and such a lookup is pending |
| `VaultRevocation.RevokedSessionIsGrantedAgain` | apps/desktop/src/key-broker.ts:1274-1324 | a run in which a session revoked at time 2 is granted again at time 101 |
| `VaultSessions.ReplayIsRefused` | apps/desktop/src/key-broker.ts:1301-1310 | in every run an id once carried by a grant or revocation message that was let through is refused for eight days; the refused message only lets go what has expired |
| `VaultSessions.GrantLeavesOnlyBy` | apps/desktop/src/key-broker.ts:1139-1283 | an unexpired grant leaves `sessions` only by a revocation, a replacement, a lookup, its own timer or the closing of the binding |
| `VaultSessions.ClosesOnlyBy` | apps/desktop/src/key-broker.ts:1350-1355 | a binding closes only by a malformed message, by leaving the registry, or because 1024 unexpired records of one kind were there |
| `VaultSessions.GrantGoesOnExactlyWhen` | apps/desktop/src/key-broker.ts:1139-1175 | a grant message leads to a session lookup if and only if all of its conditions hold, and the generation then read is the current one |
| `VaultSessions.GrantIsGivenExactlyWhen` | apps/desktop/src/key-broker.ts:1187-1246 | once the lookup has answered the grant is given if and only if the conditions still hold: then the session is held for the owner until the requested time, under its old grant id exactly when the request repeats an unexpired grant, and the reply names that id, otherwise nothing is replied and no session added |
| `BrokerSteps.ExposedExactly` | apps/desktop/src/key-broker.ts:1506-1514 | the children a drain waits for are exactly the registered ones that may act for the user, by attachment or by a held grant, or have a request of the user inside `state` |
| `VaultProgress.EveryCallCanReturn` | apps/desktop/src/key-broker.ts:808-843 | in every state of every run every call of `lock` or `cache` can still return, by sections and drain timers alone: no child has to acknowledge, exit or attach |
| `VaultProgress.NoCallIsStuck` | apps/desktop/src/key-broker.ts:1529-1576 | while a call is pending some section can go on or some drain timer is running |
| `VaultExample.SomeRequestIsAnswered` | apps/desktop/src/key-broker.ts:1066-1123 | the theorems are not about nothing: in some run an unlock waits for a child's acknowledgement, installs a key, and that child's request is answered with it |
| `KeyBroker.DesktopKeyBroker.Lock` | apps/desktop/src/key-broker.ts:808-831 | the fields after `lock`'s first stretch are those of `LockCall` |
| `KeyBroker.DesktopKeyBroker.Cache` | apps/desktop/src/key-broker.ts:1455-1496 | the fields after `cache`'s first stretch are those of `CacheCall` |
| `KeyBroker.DesktopKeyBroker.DrainChildren` | apps/desktop/src/key-broker.ts:1506-1550 | the loop over the registry sends to exactly the exposed bindings and records what is awaited from each |
| `KeyBroker.DesktopKeyBroker.StartLockSection` | apps/desktop/src/key-broker.ts:816-820 | the head of a lock's section is the state machine's `SectionStart` |
| `KeyBroker.DesktopKeyBroker.StartCacheSection` | apps/desktop/src/key-broker.ts:1460-1471 | the head of a cache's section, superseded or not, is the state machine's `SectionStart` |
| `KeyBroker.DesktopKeyBroker.AllDrained` | apps/desktop/src/key-broker.ts:1512-1513 | the answer is true exactly when no awaited child ended unproven |
| `KeyBroker.DesktopKeyBroker.PublishGeneration` | apps/desktop/src/key-broker.ts:1516-1527 | the loop sends to exactly the registered bindings that may act for the user |
| `KeyBroker.DesktopKeyBroker.FinishLock` | apps/desktop/src/key-broker.ts:821-829 | the end of a lock's section is `SectionEnd` |
| `KeyBroker.DesktopKeyBroker.FinishCache` | apps/desktop/src/key-broker.ts:1475-1494 | the end of a cache's section is `SectionEnd` |
| `KeyBroker.DesktopKeyBroker.Return` | apps/desktop/src/key-broker.ts:837-842 | the `finally` block is `OpReturn` |
| `KeyBroker.DesktopKeyBroker.Active` | apps/desktop/src/key-broker.ts:1678-1687 | the key, or none; an expired key starts a lock and nothing else does |
| `KeyBroker.DesktopKeyBroker.HandleLockAck` | apps/desktop/src/key-broker.ts:1022-1040 | an acknowledgement settles a wait only with its exact lock id, user and generation |
| `KeyBroker.DesktopKeyBroker.ReleaseChild` | apps/desktop/src/key-broker.ts:1617-1625 | the loop settles every acknowledgement awaited from the released binding and no other |
| `KeyBroker.DesktopKeyBroker.AttachChild` | apps/desktop/src/key-broker.ts:905-946 | the registry and the new binding are those of `Attach` |
| `KeyBroker.DesktopKeyBroker.AdmitOwnerGrant` | apps/desktop/src/key-broker.ts:1139-1175 | the grant request's admission is `GrantAdmit` |
| `KeyBroker.DesktopKeyBroker.FinishOwnerGrant` | apps/desktop/src/key-broker.ts:1187-1246 | what follows the session lookup is `GrantVerified` |
| `KeyBroker.DesktopKeyBroker.ResumeRequest` | apps/desktop/src/key-broker.ts:1066-1123 | the rest of a request's handling is `RequestResume` |
| `KeyBroker.DesktopKeyBroker.CallLock` | apps/desktop/src/key-broker.ts:808-815 | on every run: from the call on, every pending cache of the user is outdated and no key of theirs is active |
| `KeyBroker.DesktopKeyBroker.CallCache` | apps/desktop/src/key-broker.ts:1455-1458 | a cache joins the queue exactly when no lock has been called since its unlock read the epoch |
| `KeyBroker.DesktopKeyBroker.StartSection` | apps/desktop/src/key-broker.ts:1460-1471 | a drain runs alone, under a generation larger than every earlier one of its user, and waits for exactly the registered children that may act for the user or have a request of the user inside `state` |
| `KeyBroker.DesktopKeyBroker.FinishSection` | apps/desktop/src/key-broker.ts:1473-1494 | containment, installation and publication follow from whether the barrier was complete and the cache superseded; a publication goes to exactly the registered children that may act for the user |
| `KeyBroker.DesktopKeyBroker.FailSection` | apps/desktop/src/key-broker.ts:1473-1478 | a drain that throws contains its user, who has no key, and publishes nothing |
| `KeyBroker.DesktopKeyBroker.ReturnCall` | apps/desktop/src/key-broker.ts:837-842 | the depth stays the number of unreturned calls, and a tail is left only while its call is pending |
| `KeyBroker.DesktopKeyBroker.AckArrives` | apps/desktop/src/key-broker.ts:1022-1040 | a genuine acknowledgement of an open wait with its very user and generation settles that wait; any other message changes nothing |
| `KeyBroker.DesktopKeyBroker.ExitIsProven` | apps/desktop/src/key-broker.ts:1563-1570 | a child proven gone is out of the registry, has no authority, and nothing waits for its acknowledgement |
| `KeyBroker.DesktopKeyBroker.ExitIsObserved` | apps/desktop/src/key-broker.ts:1617-1625 | so is one whose exit is observed |
| `KeyBroker.DesktopKeyBroker.ValidatorsLoad` | apps/desktop/src/key-broker.ts:945-961 | the capability is sent only to a live, registered child; any other is released without it |
| `KeyBroker.DesktopKeyBroker.HandleOwnerRevoke` | apps/desktop/src/key-broker.ts:1139-1151 | a new, genuine revocation takes the session's grant and leaves the session tombstoned and the id remembered for eight days, or the binding closed |
| `KeyBroker.DesktopKeyBroker.HandleOwnerGrant` | apps/desktop/src/key-broker.ts:1139-1175 | a session is looked up for a grant if and only if the message is genuine and fresh, at an open API binding with a verifier, the session is not barred, the expiry within eight days, and no `lock` or `cache` is pending for its owner |
| `KeyBroker.DesktopKeyBroker.SessionIsVerified` | apps/desktop/src/key-broker.ts:1187-1246 | a grant is given if and only if the session is active, not barred and unexpired, the binding open and registered, no call pending for its owner and the owner's generation the one read at admission; then the session is held for the owner until the requested time, under its old grant id exactly when the request repeats an unexpired grant, and the reply names that id, and otherwise nothing is replied and no session added |
| `KeyBroker.DesktopKeyBroker.RequestIsVerified` | apps/desktop/src/key-broker.ts:1249-1290 | a request goes on if and only if its session is active and the very grant it named is still held, unexpired, by the open registered binding; an inactive or superseded session loses its grant; nobody gains authority by a lookup |
| `KeyBroker.DesktopKeyBroker.RequestResumes` | apps/desktop/src/key-broker.ts:1066-1123 | on every run a request is answered if and only if its child was entitled to ask for the user when it asked and by the lookup since, the generation is current, nothing is pending and the key is there and unexpired; nobody has called `lock` for the user since the unlock behind that key began |
| `KeyBroker.DesktopKeyBroker.StateReturns` | apps/desktop/src/key-broker.ts:1124-1128 | the in-flight counts stay exactly the numbers of requests inside `state` |
| `ServiceSafety.StopKeeps` | apps/desktop/src/service-manager.ts:2315-2387 | stopping, terminating, exits and recovery claims keep the supervision invariant |
| `ServiceSafety.StartKeeps` | apps/desktop/src/service-manager.ts:1556-2150 | every stretch of `startApi` and `startWorkerOwned` keeps it: nothing is held when a fork happens |
| `ServiceSafety.CallKeeps` | apps/desktop/src/service-manager.ts:2152-2310 | pause, resume and the serial queue keep it |
| `ServiceTheorems.AtMostOneOfEach` | apps/desktop/src/service-manager.ts:1556-2055 | every API child that lives is `api.process`, every worker child `worker.process`, so at most one of each lives |
| `ServiceTheorems.ReadyIsCurrent` | apps/desktop/src/service-manager.ts:1030-1066 | `readyApiGeneration` is null or `apiGeneration`; the current generation owns the API handle, whose child is not being terminated; every other generation has been revoked |
| `ServiceTheorems.RevokedForGood` | apps/desktop/src/service-manager.ts:1040-1046 | a revoked generation is never current or ready again |
| `ServiceTheorems.StopForStopsOnlyItsOwn` | apps/desktop/src/service-manager.ts:325-360 | stopping the services of a generation terminates only children forked for it |
| `ServiceTheorems.OldRecoverySparesSuccessor` | apps/desktop/src/service-manager.ts:325-360 | the cleanup of an old generation neither revokes its successor nor terminates its children |
| `ServiceTheorems.NoForkAfterPause` | apps/desktop/src/service-manager.ts:2152-2183 | after `pause` is called with no `startAll` waiting, nothing is unpaused and no worker is forked until a later `startAll` or `resume` |
| `ServiceTheorems.PauseReturnsWithoutWorker` | apps/desktop/src/service-manager.ts:2152-2175 | if that pause returns normally and nothing later was called, no worker child is alive |
| `ServiceTheorems.SomePauseReturns` | apps/desktop/src/service-manager.ts:2152-2175 | a run in which a living worker is paused, proven to have exited, and `pause` returns |
| `ServiceTheorems.WaitingStartAllUndoesPause` | apps/desktop/src/service-manager.ts:1270-1288 | a run in which a waiting `startAll` undoes a pause |
| `ServiceProgress.PauseUndoneExactlyWhen` | apps/desktop/src/service-manager.ts:2152-2156 | in every run, once `pause` has been called some continuation without a later call for work ends unpaused if and only if a `startAll` was waiting |
| `ServiceTheorems.SupersededResumeEndsPaused` | apps/desktop/src/service-manager.ts:2250-2309 | a resume superseded by a pause never ends unpaused |
| `ServiceTheorems.SupersededResumeAtItsTurn` | apps/desktop/src/service-manager.ts:2250-2259 | when its turn comes, a superseded resume leaves the manager unpaused exactly when it was unpaused and a worker handle makes it refuse at once; no child and no generation changes |
| `ServiceTheorems.ResumeSucceeds` | apps/desktop/src/service-manager.ts:2250-2290 | a resume that succeeds has not been superseded and leaves the manager unpaused; packaged, its worker is alive and bound to the ready, current generation, whose child is held and not being terminated |
| `ServiceManager.DesktopServiceManager.ClaimApiRecovery` | apps/desktop/src/service-manager.ts:1040-1052 | on every run: afterwards the generation is revoked, neither current nor ready, whoever claimed its recovery first, and no other current generation is touched |
| `ServiceManager.DesktopServiceManager.MarkApiGenerationReady` | apps/desktop/src/service-manager.ts:1062-1066 | a marked generation serves: it is current and not revoked, its child is alive and not being terminated; the current one is refused only when its child has exited or the API is external |
| `ServiceManager.DesktopServiceManager.StopDataServicesForApiGeneration` | apps/desktop/src/service-manager.ts:325-350 | exactly the living children forked for the generation are being terminated afterwards besides those that were; it is no longer current; a later current generation keeps its handle, worker and readiness |
| `ServiceManager.DesktopServiceManager.StopDataServicesOwned` | apps/desktop/src/service-manager.ts:301-323 | afterwards every living child is being terminated, and no generation is current or ready |
| `ServiceManager.DesktopServiceManager.FinishTermination` | apps/desktop/src/service-manager.ts:2315-2387 | with proof of exit no handle names the child, without it the handles are kept and it counts as alive; every living child is held; exactly the pauses that waited learn which |
| `ServiceManager.DesktopServiceManager.HandleApiExit` | apps/desktop/src/service-manager.ts:1616-1626 | the exit of the current generation's child, when nobody stopped it, drops the handle and revokes the generation at once; the exit of any other child leaves a current generation and everything else as they were |
| `ServiceManager.DesktopServiceManager.HandleWorkerExit` | apps/desktop/src/service-manager.ts:2063-2069 | a worker exit that nobody asked for drops the handle together with the generation it was bound to; the API is not touched |
| `ServiceManager.DesktopServiceManager.StartApiProcess` | apps/desktop/src/service-manager.ts:1556-1562 | it returns without doing anything exactly when the database check failed or a generation is current whose child lives, which is then left as it is; otherwise no generation is current or ready and the old child is being terminated |
| `ServiceManager.DesktopServiceManager.ForkApiProcess` | apps/desktop/src/service-manager.ts:1588-1608 | the forked child is the only living API child, under a generation above every earlier one, current and not ready |
| `ServiceManager.DesktopServiceManager.AttachApi` | apps/desktop/src/service-manager.ts:1636-1690 | the generation is current afterwards, its child held, alive and not being terminated, if and only if the attachment and the database check succeeded, the child was alive and held and the generation current; otherwise the child, if it is still the API, is being terminated |
| `ServiceManager.DesktopServiceManager.StartWorkerProcess` | apps/desktop/src/service-manager.ts:1966-2014 | a start goes on if and only if unpaused, with the database ready, no worker held and none in flight, and, packaged, for a generation that serves |
| `ServiceManager.DesktopServiceManager.ForkWorkerProcess` | apps/desktop/src/service-manager.ts:2041-2056 | a worker is forked if and only if unpaused, with the database ready and, packaged, for a generation that serves at that moment; it is the only living worker, bound to that generation |
| `ServiceManager.DesktopServiceManager.AttachWorker` | apps/desktop/src/service-manager.ts:2096-2141 | the worker stays, held, alive and not being terminated, if and only if its attachment and the database check succeeded, it was alive and bound as it was forked and its generation serves; any other is being terminated |
| `ServiceManager.DesktopServiceManager.PauseTwin` | apps/desktop/src/service-manager.ts:2152-2156 | from the call on every waiting or running resume is superseded, and every living worker is being terminated and awaited by this pause |
| `ServiceManager.DesktopServiceManager.ReturnFromPause` | apps/desktop/src/service-manager.ts:2157-2175 | when a pause returns no worker lives, unless a `startAll` was waiting at its call or work was asked for since |
| `ServiceManager.DesktopServiceManager.ContainFromPause` | apps/desktop/src/service-manager.ts:2158-2172 | a pause that cannot prove the worker's exit throws only after every living child is being terminated and no generation is current |
| `ServiceManager.DesktopServiceManager.BeginSection` | apps/desktop/src/service-manager.ts:2250-2262 | which job runs and in which state: a superseded resume leaves the manager unpaused only if a worker handle makes it refuse; packaged, a `startAll` runs exactly when nothing blocks it and no child is held |
| `ServiceManager.DesktopServiceManager.EnableWorker` | apps/desktop/src/service-manager.ts:2270-2274 | the manager is unpaused by it exactly when no pause has been called since the resume, and then a worker start goes on exactly when `StartWorkerProcess` would |
| `ServiceManager.DesktopServiceManager.ConcludeResume` | apps/desktop/src/service-manager.ts:2275-2290 | a resume succeeds if and only if no pause was called since and, packaged, its worker lives and is bound to a generation that serves; otherwise the manager is paused |
| `RestartBudget.RecentAppended` | apps/desktop/src/service-manager.ts:1481-1485 | trimming the kept list at each failure gives what trimming the whole history would |
| `RestartBudget.AfterKeeps` | apps/desktop/src/service-manager.ts:1481-1746 | over every history with a non-decreasing clock the kept failures are the recent ones and any five restarts in a row take a window |
| `RestartBudget.AtMostFourPerWindow` | apps/desktop/src/service-manager.ts:1700-1746 | between resets, any interval shorter than the window holds at most `MAX_RESTARTS - 1` scheduled restarts, whatever else failed |
| `RestartBudget.RestartsExactlyWhen` | apps/desktop/src/service-manager.ts:1700-1746 | over every history, a call schedules a restart if and only if it is not suppressed and fewer than `MAX_RESTARTS` failures since the last reset, this one included, are less than a window old |
| `RestartBudget.ManagedProcess.RecordFailure` | apps/desktop/src/service-manager.ts:1481-1492 | the filtering loop computes `Record`, and the process is failed when five failures are recent |
| `RestartBudget.ManagedProcess.ScheduleRestart` | apps/desktop/src/service-manager.ts:1700-1746 | a restart is scheduled if and only if not suppressed and fewer than `MAX_RESTARTS` failures, this one included, are recent; the new history is that of `Schedule` |
| `CockroachSupervision.Step` | apps/desktop/src/cockroach-manager.ts:179-430 | every event keeps: a living child is the one held, generations tell children apart, and a result's child is the authority while it lives |
| `CockroachSupervision.AtMostOneServer` | apps/desktop/src/cockroach-manager.ts:179-260 | at most one spawned server child is alive, and it is the one held |
| `CockroachSupervision.ResultIsCurrentWhileItsChildLives` | apps/desktop/src/cockroach-manager.ts:307-338 | a returned result is current if and only if its own child lives, `stop` has not revoked it and the startup files prove it |
| `CockroachSupervision.LostResultStaysLost` | apps/desktop/src/cockroach-manager.ts:307-317 | once its child has exited or `stop` has revoked it, a result is never current again, even after a new start |
| `CockroachSupervision.LossFiresOnce` | apps/desktop/src/cockroach-manager.ts:255-267 | the loss handler fires at most once per generation, only for an exited child, and never for a revoked generation |
| `CockroachSupervision.StartReturnsCurrentResult` | apps/desktop/src/cockroach-manager.ts:277-288 | a start that succeeds returns a result that is current at that moment |
| `CockroachManager.DesktopCockroachManager.HandleExit` | apps/desktop/src/cockroach-manager.ts:255-267 | on every run: a loss is reported for the child's own generation, never one reported before or revoked by `stop`, and whenever the child was the unrevoked authority; the child is neither held nor the authority afterwards, and no result of it is current |
| `CockroachManager.DesktopCockroachManager.BeginSection` | apps/desktop/src/cockroach-manager.ts:292-303 | once a stop has begun no result is current and the held child is being terminated; a start that only begins to probe makes none stale |
| `CockroachManager.DesktopCockroachManager.AfterProbe` | apps/desktop/src/cockroach-manager.ts:179-242 | with a server responding the own result is returned if and only if it is current, and an existing server reported at once if and only if no child is held; without one and with a binary a child is spawned, as the only one, if none is held, and the held one terminated first otherwise; without a binary nothing happens |
| `CockroachManager.DesktopCockroachManager.FinishTermination` | apps/desktop/src/cockroach-manager.ts:384-412 | with proof of exit no child of the manager lives and nobody has authority; without it child and authority stay and the operation fails |
| `CockroachManager.DesktopCockroachManager.AfterTermination` | apps/desktop/src/cockroach-manager.ts:187-212 | what follows a proven exit is the spawn of the only living server, or an end with none; an existing server is reported exactly when that was the reason |
| `CockroachManager.DesktopCockroachManager.OwnReady` | apps/desktop/src/cockroach-manager.ts:277-290 | a start returns a result exactly when its child is still held and alive and the startup files prove it, and that result is current; otherwise nobody has authority and the child is being terminated |
| `CockroachManager.DesktopCockroachManager.IsManagedStartCurrent` | apps/desktop/src/cockroach-manager.ts:307-338 | for a returned result the answer is true if and only if its own child lives, `stop` has not revoked it and the startup files prove it |
| `SignalDedupe.NeverAboveCap` | apps/worker/src/signal-dedupe.ts:142-177 | a user's map never exceeds `maxPerUser`, whatever is written and when |
| `SignalDedupe.HasAgreesWithUnbounded` | apps/worker/src/signal-dedupe.ts:62-105 | in every run where no write meets `maxPerUser` or more live keys, `has` answers as an unbounded map in which `mark` records the time and a row its stamp when that is within a time to live, filtered by the time to live |
| `SignalDedupe.AgreementLostExactlyWhen` | apps/worker/src/signal-dedupe.ts:62-177 | one write, by `mark` or by `hydrate`, keeps that agreement if and only if it was skipped or making room threw away no other entry still within its time to live |
| `SignalDedupe.HasOnlyWhatWasWritten` | apps/worker/src/signal-dedupe.ts:72-78 | `has` answers yes only for a key that a mark, or a row fresh enough to load, recorded less than a time to live ago |
| `SignalDedupe.ReplayRemembers` | apps/worker/src/signal-dedupe.ts:62-70 | after a restart with at most `maxPerUser` rows, `has` answers yes for a key exactly when its last row within a time to live of the load is less than a time to live old |
| `SignalDedupe.SignalDeduper.HasSeen` | apps/worker/src/signal-dedupe.ts:72-78 | the answer is `Has` of the user's map |
| `SignalDedupe.SignalDeduper.EvictFrom` | apps/worker/src/signal-dedupe.ts:160-177 | the two eviction loops compute `Evict` |
| `SignalDedupe.SignalDeduper.MarkForwarded` | apps/worker/src/signal-dedupe.ts:86-89 | only the user's own map changes, by one `Mark`, and the key just marked is known |
| `SignalDedupe.SignalDeduper.Replay` | apps/worker/src/signal-dedupe.ts:62-70 | the loop over the rows is the same run of writes, and other users' maps stay; into an empty map with room for every row, `has` answers yes for a key exactly when its last fresh row is less than a time to live old |
| `SignalDelivery.DeliveredUnlessPassedOver` | packages/connectors/src/gmail-connector.ts:165-455 | over every run of polls, forwards, failures and restarts in which no poll advances past a message it did not serve, each message after the first cursor and at or below the durable one has been accepted |
| `SignalDelivery.DeliveredAtLeastOnce` | packages/connectors/src/gmail-connector.ts:165-455 | so in every run whose polls are complete: whole history, every detail served, mailbox still during a poll |
| `SignalDelivery.FirstCursorStays` | packages/connectors/src/gmail-connector.ts:432-455 | between any two states of a run without an expiry in between, a known cursor stays known and the first cursor stays the same |
| `SignalDelivery.LawFromFirstIff` | packages/connectors/src/gmail-connector.ts:432-455 | for the first cursor ever stored the law holds if and only if what lies between it and the base has been accepted |
| `SignalDelivery.DeliveredFromFirst` | packages/connectors/src/gmail-connector.ts:432-455 | it holds over every run in which that cursor neither expires nor is forgotten by a save that fails after it was made durable |
| `SignalDelivery.FailedFirstSaveLosesMessage` | packages/connectors/src/gmail-connector.ts:432-455 | a run in which such a save loses a message although no poll passes over anything |
| `SignalDelivery.PollKeepsLawIff` | packages/connectors/src/gmail-connector.ts:284-355 | any poll that is forwarded and committed keeps the law if and only if every message between the base and the cursor it leads to was accepted already or served |
| `SignalDelivery.PollStores` | packages/connectors/src/gmail-connector.ts:330-355 | a poll that is forwarded and committed stores the one cursor that is at or above the reported id and every served detail's and is one of these or the start; everything served has been accepted and remembered |
| `SignalDelivery.PollCatchesUp` | packages/connectors/src/gmail-connector.ts:284-355 | one that reports the newest id leaves exactly that cursor stored, so the next poll serves only what arrived since; if it was complete, everything since the base has been accepted |
| `SignalDelivery.BootstrapStores` | packages/connectors/src/gmail-connector.ts:209-247 | a first poll that is forwarded and committed stores the profile's id for an empty mailbox and the newest listed otherwise, as cursor and base |
| `SignalDelivery.LongHistoryLosesMessage` | packages/connectors/src/gmail-connector.ts:289-295 | a run without failures in which the 101st waiting message is passed over |
| `SignalDelivery.FailedDetailLosesMessage` | packages/connectors/src/gmail-connector.ts:510-521 | a run without failed forwards or saves in which the cursor passes a message whose detail was not served |
| `SignalDelivery.LateDetailLosesMessage` | packages/connectors/src/gmail-connector.ts:330-349 | one in which a message that arrives between the list and a newer detail is passed over |
| `GmailConnector.CollectIds` | packages/connectors/src/gmail-connector.ts:318-330 | every added id once, and no other |
| `GmailConnector.FetchAndConvert` | packages/connectors/src/gmail-connector.ts:359-395 | exactly the served details in order, and the newest history id among them |
| `GmailConnector.Connector.PollSince` | packages/connectors/src/gmail-connector.ts:284-355 | the cursor a commit of this poll stores is the start, the reported id or a served detail's, and at or above the reported one and all of these; it is persisted at once when no signal was served and staged otherwise; the batch is exactly the served added messages |
| `GmailConnector.Connector.Persist` | packages/connectors/src/gmail-connector.ts:432-455 | memory moves only after the durable write has succeeded |
| `GmailConnector.Connector.Commit` | packages/connectors/src/gmail-connector.ts:165-169 | nothing staged, nothing done; otherwise the staged cursor is persisted |
| `GmailConnector.Connector.ForwardAll` | apps/worker/src/index.ts:276-288 | the worker's loop hands over, in order, exactly what is not remembered, nothing twice; it stops at the first failure, which is not remembered, and once it is through everything is |
| `Base64.DecodeEncode` | apps/desktop/src/key-broker.ts:292-303 | decoding inverts encoding, for every byte string |
| `Base64.EncodeInjective` | apps/desktop/src/key-broker.ts:292-303 | no two byte strings share an encoding |
| `Base64.Parse` | apps/desktop/src/key-broker.ts:271-303 | a value is accepted if and only if it is the canonical encoding of some bytes within `max` and of length `exact` when given, and those bytes are returned |
| `Base64.AcceptedDecodeApart` | apps/desktop/src/key-broker.ts:292-303 | no two accepted strings share a decoding |
| `Base64.CanonicalExactlyWhen` | apps/desktop/src/key-broker.ts:292-300 | a well-shaped string is the encoding of its own decoding if and only if its padding bits are zero |
| `Base64.StrayBitsAreRefused` | apps/desktop/src/key-broker.ts:292-300 | a well-shaped string is unacceptable, for every `max` and `exact`, if and only if its padding bits are not zero |
| `Utf8Truncate.DecodePrefix` | packages/assistant/src/context-builder.ts:194-202 | a cut through encoded text decodes to its whole characters and one replacement character exactly when it falls inside one |
| `Utf8Truncate.FourStepsReachBoundary` | packages/assistant/src/context-builder.ts:196-204 | a character boundary lies within three bytes below any cut |
| `Utf8Truncate.TruncateToBytes` | packages/assistant/src/context-builder.ts:187-206 | for every budget: text that fits is unchanged; the result fits if and only if the text did or there is room for the ellipsis; otherwise, without a replacement character in it, the result is the longest prefix that fits before the ellipsis |
| `ConflictSweep.SortSorted` | packages/connectors/src/google-calendar-connector.ts:312 | the sort orders by start and keeps the same events |
| `ConflictSweep.FlaggedExactly` | packages/connectors/src/google-calendar-connector.ts:312-324 | for every list, what the early exit leaves flagged is pairwise overlap or a misleading pair |
| `ConflictSweep.ProperIsNotMisled` | packages/connectors/src/google-calendar-connector.ts:314-324 | events that end after they start form no misleading pair |
| `ConflictSweep.AgreesWithOverlapExactlyWhen` | packages/connectors/src/google-calendar-connector.ts:314-324 | the answer is pairwise overlap if and only if both events of every misleading pair overlap some eligible event anyway |
| `ConflictSweep.ZeroLengthDependsOnOrder` | packages/connectors/src/google-calendar-connector.ts:312-324 | an event without length is flagged in one order of the input and not in the other |
| `ConflictSweep.Sweep` | packages/connectors/src/google-calendar-connector.ts:314-324 | the nested loops with early exit find exactly the flagged ids of any sorted list |
| `ConflictSweep.DetectConflicts` | packages/connectors/src/outlook-calendar-connector.ts:345-369 | for every list exactly the ids of eligible events that overlap another or are in a misleading pair; for events that end after they start, exactly those that overlap |
| `ConflictSweep.EligibleIs` | packages/connectors/src/outlook-calendar-connector.ts:347-357 | the swept intervals are exactly those of the events with both times that parse, for Outlook of those not cancelled |
| `ConflictSweep.ReversedEventIsFlagged` | packages/connectors/src/google-calendar-connector.ts:314-324 | an event that ends before it starts can be flagged although it overlaps nothing |

## Left out

- Cryptography: keys are opaque values with the unlock, epoch and generation they came from; whether encryption, decryption, unwrapping or a capability comparison succeeds is a parameter of the event.
- Clocks and timers: each stretch of code reads one time, given as a parameter, and a timer may fire at any step. Random ids (lock ids, grant ids) are fresh identifiers.
- Transport: whether a message reaches a child, is delivered or is lost is a parameter of the event; `drainChildren` may also throw.
- `state` replies: the request's entry into and return from the vault store are modelled, the state it reports is not.
- The order of `authorityTail`: grant requests of one binding may be handled in any order, which includes the source's.
- `DesktopKeyBroker` holds its bindings as values in a map under an identifier, and applies the functions of `SessionAuthority` to them; the class `SessionBinding` performs those in place. Two handlers sharing one binding object is sharing the identifier.
- Expiry of the key's own timer is a call of `lock` at any time.
- The web child: `startWeb` does not look for an existing handle, so single-child claims are for API and worker.
- Bodies of lifecycle sections: between its modelled checkpoints a section may call the modelled operations in any order and any number of times, which includes the source's order; database ownership checks are parameters.
- `preparePackagedResume`: its steps are such a body between `Begins` and `Enables`; what it establishes is stated by `ResumeSucceeds` for the worker and the API generation. The web child's binding is not.
- Status values, callbacks and logging: a status callback may call back in, which is a further event.
- Database writes of worker authority, sample ingestion, embedded archives and environments: not part of this model.
- `waitForOwnedReady`: its polling loop ends, ready or not, at any step; the proof files are a parameter.
- A poll is one event, taken at its end: what its list request and its detail requests returned are parameters that range over anything, and messages may have arrived between them before it.
- HTTP, OAuth and retries: a request is served, refused, or accepted and then reported as failed.
- Circuit breakers, health rows and the loop over connectors in `pollUser`: each connector's poll is modelled on its own.
- `pruneUsers` and the persistence callback of the deduper: removing a user's map is `Reset`; a failed durable mark only changes what a restart brings back.
- `TruncateToBytes`: text with unpaired surrogates is not part of this model; for text with a replacement character in it that is truncated, only whether the result fits is stated.
- `DetectConflicts`: for the Google connector a time that does not parse is treated as missing, because the order of a sort that compares with it is not determined.
- Idle pause, pairing tokens, dead-letter streaks, prune throttling and confidence scores would only add easy members.
