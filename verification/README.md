# paperboat-tunnel: a verified model

A Dafny 4.11 model of the control plane of paperboat-tunnel and of the registries it feeds. `dafny verify dfyconfig.toml` checks everything.

What is modelled, file by file:

- `SessionTypes`, `SessionRegistry`, `ServerSession`, `ClientSession`: the connector-v1 session protocol. Each session is a class whose methods are proved against step functions on values. `ServerTheorems`, `Fleet`, `ClientTheorems` and `ControlSession` reason about whole runs: one server session, many sessions on one registry, one client session, and a server and a client joined by two FIFO channels.
- `Rotation`, `RotationObjects`: credential rotation, its coordinator and its in-memory store. `RotationTheorems`, `RotationProgress`, `RotationRecovery`, `RotationGap`, `RotationRestart` and `RotationHistory` treat crashes, progress, exactly what reading the store back gives, and lives with restarts told by their history.
- `Preview`, `PreviewTheorems`, `PreviewRegistry`, `PreviewAliases`: preview routes, aliases and their indexes.
- `Ingress`, `IngressTheorems`, `IngressEviction`, `IngressObjects`: connection caps and token buckets with eviction.
- `CarrierIdentity`, `Replica`, `ReplicaChoice`: choosing one replica of a route.
- `Carrier`, `CarrierControl`: stream permits under every interleaving of opens, cancellations, closes and shutdown, and the one control stream of a carrier.
- `Admission`, `AdmissionRegistry`, `AdmissionWait`: two-phase preview admissions and waiting for one. `DurableAdmission`, `DurableRegistry`, `DurableOverlap`: durable admissions and overlapping replacements.
- `HeaderReader`: the bounded response-header reader, ending at the blank line of section 2.1 of RFC 9112.
- `Strings`, `Sequences`: string order, joined keys, decimal numerals and list prefixes, shared by the others.

How it is modelled. The clock is a parameter; where a theorem needs it, times are nondecreasing. Answers of the environment are parameters too: whether a message passes its field checks (`wellFormed`, `valid`), whether a signature verifies, whether a store call succeeds (a failing one writes nothing), how a preparation or an activation ends. Calls that release the lock while the runtime or the authenticator works are split at that point, so other calls may come in between. A configuration is its generation and content hash. A reference to an entry object is a stamp that is never used twice. Map iteration is a loop that picks keys in any order, so every result proved about it holds for every order.

Properties that the code does not have, with what holds instead:

- A server session alone can go back to an older configuration: `CarelessOfferRegresses`, and `CarefulRunNeverRegresses` for the offers that are safe. Joined to a client it cannot (`Monotonicity`).
- A closed client session is left by the reject tail of a drain and by the failure tail of an activation, and by nothing else (`ClosedIsLeftExactly`). After the first, closing again aborts a configuration that was activated (`TornDownExactly`, `LateRejectTearsDown`, `OvertakenIsReached`).
- The registry's process fence ends with the registration (`FenceForgottenOnDisconnect`).
- A client session closed by its lease or heartbeat keeps its staged handle without aborting it, and nothing aborts it later unless the session is reopened (`StagedHandleAtClose`, `HandleIsLeftBehind`, `OutlivedIsReached`).
- Reading rotation state back is exact if and only if no revoke is newer than the last result and every failed target has a revoke and stands in a later result (`RoundTripExactly`, `FailureSurvivesExactly`, `FailureIsLost`). A revoke after the last result makes resuming impossible (`ResumeExactly`, `RefusedAfterLateRevoke`). Resuming an unstarted coordinator discards what it held (`ResumeDiscards`). A failure that one restart forgot returns at a later one exactly when its target was revoked meanwhile and no result was recorded since (`FailureReturnsExactly`, `ForgottenFailureReturns`).
- A control stream never returns its permit, so every one that is closed costs the carrier one permit for good (`EachCloseCostsAPermit`, `BooksBalanceExactly`), and closing as many as there are permits disables it (`CyclesDisable`). The comment that a second control stream is admitted once the first is closed holds only while permits last and the slot is not stuck; it gets stuck when the accept is cancelled between wrapping and publishing the stream (`StuckExactly`, `EarlyAbortSticks`, `VacantUnlessStuck`).
- An acknowledgement with a repeated key admits the zero value (`MarkAdmittedExactly`).
- The clock of an ingress open is read before the lock is taken, so a window can hold more opens than burst plus rate times its length (`ClockBackPaysTwice`); they are paid by the forward steps of the clock (`OpensArePaidFor`).
- A waiter for an admission misses one published between its look and its subscription (`MissedExactly`).
- Two overlapping replacements of the durable list can lower a generation (`LowersExactly`, `OverlapLowers`).
- Replica order has cycles exactly through an idle entry without capacity that stands between two others the wrong way round (`CyclesExactly`), and then no replica may be the least (`LeastExistsExactly`). Preview order fails exactly where routes with and without an attachment generation are mixed so that progress is lost (`MutuallyNewerExactly`, `TransitiveExactly`), and then an old route can be attached again (`ResurrectsExactly`, `OldRouteReturns`).
- Attaching an alias directly may double a name within its route (`AttachAliasExactly`), and then removing one alias loses the other (`SharedNameIsLost`).

## Model

| member | source | states |
|---|---|---|
| `SessionRegistries.SessionRegistry.constructor` | internal/connectorprotocol/session.go:49-51 | an empty registry |
| `SessionRegistries.SessionRegistry.Attach` | internal/connectorprotocol/session.go:53-74 | a newer process of the same connector replaces the registered one and reports it; an equal or older one, another tunnel, or an invalid reference is refused and changes nothing |
| `SessionRegistries.SessionRegistry.Disconnect` | internal/connectorprotocol/session.go:76-91 | only the exact registered session is removed, a repeated disconnect is harmless |
| `SessionRegistries.RegistryStaysKeyed` | internal/connectorprotocol/session.go:53-91 | whatever operations a registry has seen, every reference it holds is valid and stands under its own connector |
| `ServerSessions.ServerSession.constructor` | internal/connectorprotocol/session.go:216-267 | an accepted session: first snapshot pending, lease within the credential and the lease duration |
| `ServerSessions.ServerSession.RestoreState` | internal/connectorprotocol/session.go:291-301 | ready exactly when serving the active configuration, otherwise awaiting a snapshot |
| `ServerSessions.ServerSession.EnsureActive` | internal/connectorprotocol/session.go:334-358 | closed, replaced, credential, lease and heartbeat checks in that order, each failing one closes the session and drops its own registration |
| `ServerSessions.ServerSession.CloseLocked` | internal/connectorprotocol/session.go:360-372 | closing removes only this session's own registration |
| `ServerSessions.ServerSession.AckLocked` | internal/connectorprotocol/session.go:391-458 | every combination of outstanding offer and acknowledgement status |
| `ServerSessions.ServerSession.HandleAck` | internal/connectorprotocol/session.go:374-458 | validation, liveness, identity, then the acknowledgement: the whole new state and the error |
| `ServerSessions.ServerSession.AckBound` | internal/connectorprotocol/session.go:388-458 | the acknowledgement of the bound identity, on the whole state |
| `ServerSessions.ServerSession.ReadinessLocked` | internal/connectorprotocol/session.go:495-516 | readiness promotes the candidate, or confirms the active configuration, and nothing else |
| `ServerSessions.ServerSession.HandleReadiness` | internal/connectorprotocol/session.go:481-516 | the same with validation, liveness and identity, and the acknowledgement sent |
| `ServerSessions.ServerSession.ReadinessBound` | internal/connectorprotocol/session.go:493-516 | the readiness of the bound identity, on the whole state |
| `ServerSessions.ServerSession.OfferSnapshot` | internal/connectorprotocol/session.go:518-564 | which snapshots become pending, and what they displace |
| `ServerSessions.ServerSession.OfferBound` | internal/connectorprotocol/session.go:530-564 | the offer under the bound identity, on the whole state |
| `ServerSessions.ServerSession.OfferLocked` | internal/connectorprotocol/session.go:536-564 | which configuration becomes pending, and what it displaces |
| `ServerSessions.ServerSession.OfferDelta` | internal/connectorprotocol/session.go:566-594 | a delta becomes pending only on top of the active configuration with nothing else outstanding |
| `ServerSessions.ServerSession.BeatLocked` | internal/connectorprotocol/session.go:609-666 | a heartbeat must name the expected configuration and be newer than the last; the lease extends within the credential |
| `ServerSessions.ServerSession.HandleHeartbeat` | internal/connectorprotocol/session.go:596-666 | the same with validation and liveness, and the lease it reports |
| `ServerSessions.ServerSession.DrainLocked` | internal/connectorprotocol/session.go:680-701 | a first drain is recorded, the same one repeated, another one refused |
| `ServerSessions.ServerSession.BeginDrain` | internal/connectorprotocol/session.go:668-702 | the same with validation and liveness |
| `ServerSessions.ServerSession.DrainAckLocked` | internal/connectorprotocol/session.go:724-751 | progress, completion and rejection of a drain, and the state each restores |
| `ServerSessions.ServerSession.HandleDrainAck` | internal/connectorprotocol/session.go:707-752 | the same with validation, liveness and identity |
| `ServerSessions.ServerSession.RenewBegin` | internal/connectorprotocol/session.go:787-812 | the renewal request must match the bound identity; the state is captured before the lock is released |
| `ServerSessions.ServerSession.RenewFinish` | internal/connectorprotocol/session.go:813-835 | the answer must match the captured identity and is applied only if credential and reference are unchanged since; the lease is capped by the duration from the request |
| `ServerSessions.ServerSession.RedeemLocked` | internal/connectorprotocol/session.go:813-835 | the renewed credential and lease, applied only to the session they were requested for |
| `ServerSessions.ServerSession.Close` | internal/connectorprotocol/session.go:837-849 | a closed session keeps its first reason |
| `ServerTheorems.AcceptedIsSound` | internal/connectorprotocol/session.go:216-267 | an accepted session satisfies the session invariant and the lease bound |
| `ServerTheorems.CallKeepsSound` | internal/connectorprotocol/session.go:334-849 | every call keeps the invariant, the lease bound, the bound identity, the credential order and closedness |
| `ServerTheorems.EveryRunIsSound` | internal/connectorprotocol/session.go:291-849 | after every sequence of calls: never both a pending snapshot and a pending delta, a pending delta sits on the active configuration with no candidate, ready means serving, lease at most the credential and at most last heartbeat plus duration, identity fixed, credential generation never falls, closed stays closed |
| `ServerTheorems.DeltaGapUnreachable` | internal/connectorprotocol/session.go:429-431 | no reachable session answers an acknowledgement with a generation gap |
| `ServerTheorems.BeatsIncrease` | internal/connectorprotocol/session.go:596-662 | the send times of accepted heartbeats strictly increase over every run |
| `ServerTheorems.CarefulRunNeverRegresses` | internal/connectorprotocol/session.go:481-594 | if no offer is older than the outstanding candidate, the active generation never falls, whatever the peer sends |
| `ServerTheorems.CarelessOfferRegresses` | internal/connectorprotocol/session.go:536-561 | every accepted offer older than the candidate lets a peer drive the active generation down: the four calls that do it |
| `Fleets.CallOnRefs` | internal/connectorprotocol/session.go:334-372 | a call of a session touches only its own registration, and none at all when it is not the registered one; then it also fails unless it is a close |
| `Fleets.StepCoherent` | internal/connectorprotocol/session.go:53-372 | every step of any number of sessions keeps the registry pointing at existing sessions, and never brings a replaced session back |
| `Fleets.RunCoherent` | internal/connectorprotocol/session.go:53-372 | the same over every run |
| `Fleets.ReplacedStaysReplaced` | internal/connectorprotocol/session.go:53-372 | a session that is not the registered one of its connector never is again |
| `Fleets.NewerProcessFencesOlder` | internal/connectorprotocol/session.go:53-91 | in every run, once another process has attached, no later call of an older session succeeds and none removes the newer registration |
| `Fleets.GenerationsClimb` | internal/connectorprotocol/session.go:53-74 | while a connector stays attached its process generation only moves up, within one tunnel |
| `Fleets.FenceForgottenOnDisconnect` | internal/connectorprotocol/session.go:76-91 | the fence is exactly a newer process of the same tunnel while registered, and is gone after a disconnect |
| `ClientSessions.ClientSession.constructor` | internal/connectorprotocol/session.go:913-936 | a new client session |
| `ClientSessions.ClientSession.AcceptWelcome` | internal/connectorprotocol/session.go:957-983 | the welcome fixes session, lease and heartbeat once |
| `ClientSessions.ClientSession.Open` | internal/connectorprotocol/session.go:957-983 | the welcomed session: identity, lease and capability set, waiting for a snapshot |
| `ClientSessions.ClientSession.EnsureActive` | internal/connectorprotocol/session.go:985-1003 | lease and heartbeat expiry close the session without aborting a stored handle |
| `ClientSessions.ClientSession.RestoreState` | internal/connectorprotocol/session.go:1574-1584 | the state implied by what is active and staged |
| `ClientSessions.ClientSession.AbortPrepared` | internal/connectorprotocol/session.go:1586-1593 | the abort of a prepared configuration is recorded against it |
| `ClientSessions.ClientSession.ApplySnapshot` | internal/connectorprotocol/session.go:1005-1046 | everything before the runtime prepares a snapshot: stale, duplicate, conflicting and accepted ones |
| `ClientSessions.ClientSession.ApplyDelta` | internal/connectorprotocol/session.go:1094-1132 | the same for a delta, with the snapshot demand on a gap |
| `ClientSessions.ClientSession.StoreHandle` | internal/connectorprotocol/session.go:1078-1091 | a prepared handle is stored with its candidate, or aborted when another is stored |
| `ClientSessions.ClientSession.StageHandle` | internal/connectorprotocol/session.go:1073-1092 | the same after liveness is checked again; a handle prepared for an ended session is aborted |
| `ClientSessions.ClientSession.FinishApply` | internal/connectorprotocol/session.go:1047-1092 | every outcome of a preparation, cancelled and failed ones included |
| `ClientSessions.ClientSession.MarkReady` | internal/connectorprotocol/session.go:1214-1239 | what may be activated: a candidate with all three readiness flags |
| `ClientSessions.ClientSession.FailActivation` | internal/connectorprotocol/session.go:1246-1256 | a failed activation is aborted and the candidate dropped if it is still that one |
| `ClientSessions.ClientSession.Promote` | internal/connectorprotocol/session.go:1262-1279 | an activated candidate becomes active unless the session ended or moved on meanwhile |
| `ClientSessions.ClientSession.FinishReady` | internal/connectorprotocol/session.go:1237-1279 | every outcome of an activation |
| `ClientSessions.ClientSession.SendHeartbeat` | internal/connectorprotocol/session.go:1281-1302 | which configuration a heartbeat names |
| `ClientSessions.ClientSession.AcceptHeartbeatAck` | internal/connectorprotocol/session.go:1304-1327 | an acknowledged heartbeat renews the lease |
| `ClientSessions.ClientSession.DrainAnswer` | internal/connectorprotocol/session.go:1345-1378 | unsupported, foreign, conflicting, repeated and premature drain requests |
| `ClientSessions.ClientSession.DrainLocked` | internal/connectorprotocol/session.go:1345-1385 | a new drain request starts stopping the streams |
| `ClientSessions.ClientSession.HandleDrain` | internal/connectorprotocol/session.go:1329-1385 | the same with validation and liveness |
| `ClientSessions.ClientSession.FailDrain` | internal/connectorprotocol/session.go:1393-1399 | the reject tail restores the state even of a session closed meanwhile |
| `ClientSessions.ClientSession.FinishStop` | internal/connectorprotocol/session.go:1390-1403 | streams stopped, or the drain rejected |
| `ClientSessions.ClientSession.FinishCount` | internal/connectorprotocol/session.go:1404-1429 | streams counted, or the drain rejected |
| `ClientSessions.ClientSession.ProgressLocked` | internal/connectorprotocol/session.go:1450-1477 | progress, completion and timeout of a drain |
| `ClientSessions.ClientSession.DrainProgress` | internal/connectorprotocol/session.go:1434-1478 | the same with liveness |
| `ClientSessions.ClientSession.RenewalLocked` | internal/connectorprotocol/session.go:1616-1636 | a renewal must keep the identity and never go back |
| `ClientSessions.ClientSession.ApplyRenewal` | internal/connectorprotocol/session.go:1610-1636 | the same with validation and liveness |
| `ClientSessions.ClientSession.CloseLocked` | internal/connectorprotocol/session.go:1702-1724 | closing drops the candidate and aborts its handle once |
| `ClientSessions.ClientSession.Close` | internal/connectorprotocol/session.go:1702-1724 | the same with the reason checked |
| `ClientTheorems.RunKeepsSound` | internal/connectorprotocol/session.go:985-1724 | over every run with a nondecreasing clock the client invariant holds, and strict handle order without late drain rejections |
| `ClientTheorems.HandlesAreTwoPhase` | internal/connectorprotocol/session.go:1047-1092 | in every run each prepared configuration is left alone, aborted, activated, or activated in vain then aborted, or activated and later torn down; a handle is stored exactly when a candidate is staged |
| `ClientTheorems.HandlesOrderlyWithoutLateReject` | internal/connectorprotocol/session.go:1237-1278 | without a drain rejected on a closed session the tear-down never happens |
| `ClientTheorems.TornDownExactly` | internal/connectorprotocol/session.go:1702-1724 | an activated configuration is torn down by exactly one kind of step: closing an open session that still stores it |
| `ClientTheorems.LateRejectTearsDown` | internal/connectorprotocol/session.go:1393-1399 | every session overtaken by its lease between activation and drain rejection is torn down by the next close |
| `ClientTheorems.OvertakenIsReached` | internal/connectorprotocol/session.go:992-996 | a concrete run that reaches such a session |
| `ClientTheorems.ClosedIsLeftExactly` | internal/connectorprotocol/session.go:1248-1256 | the closed state is left exactly by the reject tail of a drain or the failure tail of an activation |
| `ClientTheorems.StagedHandleAtClose` | internal/connectorprotocol/session.go:992-996 | a step that closes a session with a staged handle takes it out and aborts it exactly when it is a call of Close; lease expiry and heartbeat timeout leave it stored |
| `ClientTheorems.HandleIsLeftBehind` | internal/connectorprotocol/session.go:1709-1712 | a handle stored in a closed session is never aborted over any continuation in which no drain is rejected and no activation fails |
| `ClientTheorems.OutlivedIsReached` | internal/connectorprotocol/session.go:992-996 | such a session is reached, with a handle neither activated nor aborted |
| `ClientTheorems.DeadStaysDead` | internal/connectorprotocol/session.go:985-1003 | once lease or heartbeat has run out, no guarded call of the run succeeds, nothing is promoted and the lease never moves again |
| `ControlSessions.ServerMoves` | internal/connectorprotocol/session.go:374-594 | one server call changes active and candidate only by a positive acknowledgement or by readiness of the awaited configuration |
| `ControlSessions.ClientMoves` | internal/connectorprotocol/session.go:1005-1279 | one client call keeps the active configuration or promotes a newer one, and acknowledges nothing older |
| `ControlSessions.StepKeeps` | internal/connectorprotocol/consumer.go:278-331 | every step of both sessions and both channels keeps the channel invariant and never goes back |
| `ControlSessions.RunKeeps` | internal/connectorprotocol/consumer.go:118-331 | the same over every run |
| `ControlSessions.Agreement` | internal/connectorprotocol/session.go:374-1279 | in every run the server's active configuration is one the client has already activated, and not newer than the client's |
| `ControlSessions.Monotonicity` | internal/connectorprotocol/session.go:496-1278 | from every point of every run neither side goes back, and the client's activations strictly climb |
| `RotationTheorems.NewTracks` | internal/connectorprotocol/rotation.go:612-625 | a new coordinator tracks exactly the plan's targets, all idle |
| `RotationTheorems.MoveLawful` | internal/connectorprotocol/rotation.go:830-1090 | every move of a target, store failures and negative acknowledgements included, ends in a state recovery accepts, with its evidence written |
| `RotationTheorems.CallKept` | internal/connectorprotocol/rotation.go:627-1090 | every call keeps all evidence durable, never loses a record, and leaves only recoverable targets |
| `RotationTheorems.RevokeNeedsBarrier` | internal/connectorprotocol/rotation.go:952-994 | a revoke is recorded only when readiness of every target of the plan is already recorded |
| `RotationTheorems.BarrierHolds` | internal/connectorprotocol/rotation.go:649-994 | the barrier survives any calls, crashes and resumes |
| `RotationTheorems.RevokeBarrier` | internal/connectorprotocol/rotation.go:649-994 | in every run with any number of crashes, a recorded revoke implies a readiness record bound to its own install for every target of the plan |
| `RotationTheorems.EveryStateIsRecoverable` | internal/connectorprotocol/rotation.go:736-820 | every target of every reachable coordinator passes the resume check |
| `RotationProgress.CallLater` | internal/connectorprotocol/rotation.go:830-1090 | outside of recovery no call moves a target back, and recorded evidence never changes |
| `RotationProgress.LifeMovesForward` | internal/connectorprotocol/rotation.go:830-1090 | over the life of a started coordinator phases only move forward; failed and revoked are final |
| `RotationProgress.OutcomeIsFinal` | internal/connectorprotocol/rotation.go:1119-1140 | a failed operation stays failed and a succeeded one succeeded |
| `RotationProgress.SameRevokeAgain` | internal/connectorprotocol/rotation.go:971-973 | every later revoke call that answers returns the first request and writes nothing |
| `RotationProgress.NothingBeforeItsRecord` | internal/connectorprotocol/rotation.go:862-993 | no challenge, install, readiness or revoke is returned before its durable record |
| `RotationRecovery.CallSynced` | internal/connectorprotocol/rotation.go:830-1337 | every call keeps the last record of each kind equal to memory, and the last result equal to the phases except for revokes and unrecorded failures since |
| `RotationRecovery.LifeSynced` | internal/connectorprotocol/rotation.go:830-1337 | the same over every life of an operation |
| `RotationRecovery.RoundTripExactly` | internal/connectorprotocol/rotation.go:1268-1337 | in every life reading the store back gives exactly the coordinator's targets if and only if no revoke was issued after the last result and every failed target has a revoke and stands in a result recorded since it failed |
| `RotationRecovery.ResumeExactly` | internal/connectorprotocol/rotation.go:649-729 | a new process that resumes any started operation is refused exactly when a revoke came after the last result or the finishing time is in the future; otherwise it holds the lost coordinator with every unrecorded failure undone, which is the lost one itself exactly when no failure is lost |
| `RotationRecovery.EarlyFailureIsForgotten` | internal/connectorprotocol/rotation.go:1313-1327 | a failure before the revoke is never read back: the target returns in the phase its own records stand for |
| `RotationRecovery.FailureSurvivesExactly` | internal/connectorprotocol/rotation.go:1313-1327 | in every life a failed target is read back as failed with its code if and only if it has a revoke and a result was recorded after it failed, which a failed store call does not do |
| `RotationRecovery.FailureIsLost` | internal/connectorprotocol/rotation.go:1064-1090 | failing any target of any started operation is such a life: the store shows the target as pending |
| `RotationRecovery.ResumeDiscards` | internal/connectorprotocol/rotation.go:649-729 | whatever each target of an unstarted coordinator held, failures included, a successful resume replaces it by what the store shows for that target |
| `RotationRecovery.ResumeForgets` | internal/connectorprotocol/rotation.go:649-729 | over a store without records of the operation such a coordinator is all idle again |
| `RotationGap.RefusedAfterLateRevoke` | internal/connectorprotocol/rotation.go:1313-1327 | every plan of two targets has a failure-free run after which recovery is refused |
| `RotationRestarts.NextRecorded` | internal/connectorprotocol/rotation.go:649-729 | every call and every restart keeps the last record of each kind equal to memory |
| `RotationHistories.RoundTripAcrossRestarts` | internal/connectorprotocol/rotation.go:1268-1337 | over any number of restarts a target is read back exactly as it is if and only if: without a revoke, it has not failed; revoked after the last result, it has failed with the code of a failure that a restart dropped; otherwise, it did not break since the last result or restart |
| `RotationRestarts.RestartIsStable` | internal/connectorprotocol/rotation.go:649-729 | after any run with restarts, resuming again at any later time gives the same coordinator |
| `RotationRestarts.ForgottenFailureReturns` | internal/connectorprotocol/rotation.go:1313-1327 | every plan of one target has a life in which a restart forgets a failure and, once the target is being revoked, the store shows it as failed again |
| `RotationHistories.FailureReturnsExactly` | internal/connectorprotocol/rotation.go:1313-1327 | over any number of restarts a target that has not failed is shown as failed if and only if a restart dropped a failure of it that stands in the last result and it was revoked since |
| `RotationHistories.RestartExactly` | internal/connectorprotocol/rotation.go:649-729 | one more restart is refused exactly when some target was revoked after the last result with no dropped failure to stand for it, or the finishing time is in the future; otherwise every target comes back as the history says |
| `RotationHistories.NextAnnotated` | internal/connectorprotocol/rotation.go:649-729 | every call and every restart keeps the last result equal to what the history of the run says of each target |
| `RotationObjects.MemoryPersistence.constructor` | internal/connectorprotocol/rotation.go:1180-1190 | an empty store |
| `RotationObjects.MemoryPersistence.FindPlan` | internal/connectorprotocol/rotation.go:1274-1280 | the first plan begun under an operation |
| `RotationObjects.MemoryPersistence.Begin` | internal/connectorprotocol/rotation.go:1199-1215 | idempotent for the same plan, refused for a different one, nothing written on failure |
| `RotationObjects.MemoryPersistence.RecordChallenge` | internal/connectorprotocol/rotation.go:1217-1225 | one record appended, or none |
| `RotationObjects.MemoryPersistence.RecordProof` | internal/connectorprotocol/rotation.go:1227-1236 | proof and install appended together, or neither |
| `RotationObjects.MemoryPersistence.RecordReady` | internal/connectorprotocol/rotation.go:1238-1246 | one record appended, or none |
| `RotationObjects.MemoryPersistence.RecordRevoke` | internal/connectorprotocol/rotation.go:1248-1256 | one record appended, or none |
| `RotationObjects.MemoryPersistence.RecordResult` | internal/connectorprotocol/rotation.go:1258-1266 | one record appended, or none |
| `RotationObjects.MemoryPersistence.ScanChallenges` | internal/connectorprotocol/rotation.go:1290-1297 | the loop finds the last challenge of the target |
| `RotationObjects.MemoryPersistence.ScanProofs` | internal/connectorprotocol/rotation.go:1298-1306 | the loop finds the last proof and the install beside it |
| `RotationObjects.MemoryPersistence.ScanReadiness` | internal/connectorprotocol/rotation.go:1307-1312 | the loop finds the last readiness report |
| `RotationObjects.MemoryPersistence.ScanLines` | internal/connectorprotocol/rotation.go:1319-1324 | the loop finds the last line of a summary for the target |
| `RotationObjects.MemoryPersistence.ScanResults` | internal/connectorprotocol/rotation.go:1317-1326 | the nested loops find the last thing any result says about the target |
| `RotationObjects.MemoryPersistence.ScanRevocations` | internal/connectorprotocol/rotation.go:1313-1329 | the last revoke, overlaid by the results whenever there is one |
| `RotationObjects.MemoryPersistence.ScanFinished` | internal/connectorprotocol/rotation.go:1332-1336 | the completion time of the last successful result |
| `RotationObjects.MemoryPersistence.LoadOne` | internal/connectorprotocol/rotation.go:1288-1331 | one target as the records show it |
| `RotationObjects.MemoryPersistence.Load` | internal/connectorprotocol/rotation.go:1268-1337 | the whole operation as the records show it, or nothing for a missing or different plan |
| `RotationObjects.RotationCoordinator.constructor` | internal/connectorprotocol/rotation.go:612-625 | tracks exactly the plan's targets |
| `RotationObjects.RotationCoordinator.Start` | internal/connectorprotocol/rotation.go:627-644 | the plan is recorded before the coordinator starts |
| `RotationObjects.RotationCoordinator.Summarise` | internal/connectorprotocol/rotation.go:1119-1140 | one line per target in plan order; failed exactly when one failed, succeeded exactly when all are revoked |
| `RotationObjects.RotationCoordinator.AllReady` | internal/connectorprotocol/rotation.go:1142-1149 | whether every target is ready or further, in any order of the visit |
| `RotationObjects.RotationCoordinator.IssueChallenge` | internal/connectorprotocol/rotation.go:830-868 | a challenge for a pending target, or for a challenged one whose challenge expired; recorded before the target moves |
| `RotationObjects.RotationCoordinator.RecordProof` | internal/connectorprotocol/rotation.go:899-906 | the proof is recorded before the target moves, a store failure fails the target |
| `RotationObjects.RotationCoordinator.AcceptProof` | internal/connectorprotocol/rotation.go:870-907 | a proof that matches the open challenge installs the new key |
| `RotationObjects.RotationCoordinator.MarkReady` | internal/connectorprotocol/rotation.go:917-946 | a report that answers this target's own install |
| `RotationObjects.RotationCoordinator.MayRevoke` | internal/connectorprotocol/rotation.go:963-969 | nothing failed and every target ready or further |
| `RotationObjects.RotationCoordinator.RevokeReady` | internal/connectorprotocol/rotation.go:971-993 | a repeated revoke returns the first, a new one is recorded first |
| `RotationObjects.RotationCoordinator.Revoke` | internal/connectorprotocol/rotation.go:952-994 | the two together |
| `RotationObjects.RotationCoordinator.MarkFailed` | internal/connectorprotocol/rotation.go:1022-1030 | the failure is undone when its result cannot be recorded |
| `RotationObjects.RotationCoordinator.FailTarget` | internal/connectorprotocol/rotation.go:1074-1089 | the same for a target that is not yet terminal |
| `RotationObjects.RotationCoordinator.Fail` | internal/connectorprotocol/rotation.go:1064-1090 | failing a target from outside |
| `RotationObjects.RotationCoordinator.Complete` | internal/connectorprotocol/rotation.go:1050-1054 | the completion time is stamped exactly when the last target is revoked |
| `RotationObjects.RotationCoordinator.Refuse` | internal/connectorprotocol/rotation.go:1056-1058 | a result that cannot be recorded fails the target instead |
| `RotationObjects.RotationCoordinator.FinishTarget` | internal/connectorprotocol/rotation.go:1049-1061 | a target's last acknowledgement, with the store up or down |
| `RotationObjects.RotationCoordinator.AckTarget` | internal/connectorprotocol/rotation.go:1012-1061 | every status against every phase, from the right session only |
| `RotationObjects.RotationCoordinator.HandleAck` | internal/connectorprotocol/rotation.go:996-1062 | the same for an addressed target of this plan |
| `RotationObjects.RotationCoordinator.CheckTargets` | internal/connectorprotocol/rotation.go:675-685 | recovered targets are tracked, acceptable and named once |
| `RotationObjects.RotationCoordinator.CheckFinished` | internal/connectorprotocol/rotation.go:700-711 | a completion time needs a failed target or all revoked |
| `RotationObjects.RotationCoordinator.CheckRecovered` | internal/connectorprotocol/rotation.go:672-717 | the whole resume check |
| `RotationObjects.RotationCoordinator.AdoptTargets` | internal/connectorprotocol/rotation.go:718-727 | recovered records overwrite the tracked ones |
| `RotationObjects.RotationCoordinator.Resume` | internal/connectorprotocol/rotation.go:649-731 | idempotent; refuses another plan; adopts exactly what the store shows |
| `PreviewTheorems.OneOwner` | internal/edgehttp/preview_carrier_transport.go:150-153 | a host name has at most one owner |
| `PreviewTheorems.ScreenMeans` | internal/edgehttp/preview_carrier_alias.go:79-92 | a snapshot passes exactly when every alias is valid and no domain or name repeats |
| `PreviewTheorems.ScreenedIsWhole` | internal/edgehttp/preview_carrier_alias.go:79-92 | an accepted snapshot keeps every alias it lists |
| `PreviewTheorems.StepKeeps` | internal/edgehttp/preview_carrier_transport.go:128-355 | every operation keeps the invariant |
| `PreviewTheorems.RunKeeps` | internal/edgehttp/preview_carrier_transport.go:128-451 | in every run active aliases are desired ones at the exact lease of a current route, and no name is claimed twice |
| `PreviewTheorems.NewerIsStrictOrder` | internal/edgehttp/preview_carrier_transport.go:457-473 | where attachment generations are all absent or all present newer-than is a strict partial order |
| `PreviewTheorems.MutuallyNewerExactly` | internal/edgehttp/preview_carrier_transport.go:457-473 | two related routes are each newer than the other exactly when they share process, generation and session, one has no attachment generation and that one has the larger revision |
| `PreviewTheorems.TransitiveExactly` | internal/edgehttp/preview_carrier_transport.go:457-473 | two steps forward are one step forward except exactly where an attachment generation is lost on the way and with it the progress |
| `PreviewTheorems.RegistrationClimbs` | internal/edgehttp/preview_carrier_transport.go:142-170 | while a route stays registered, and its offers all have an attachment generation or none has, its entry only climbs in that order |
| `PreviewTheorems.NoResurrection` | internal/edgehttp/preview_carrier_transport.go:142-170 | a route replaced during such a registration is refused as stale for the rest of it |
| `PreviewTheorems.ResurrectsExactly` | internal/edgehttp/preview_carrier_transport.go:142-170 | after any run through which a route stayed registered, its first entry can be attached again if and only if both share process, generation and session and the old one still overhangs in attachment or revision |
| `PreviewTheorems.OldRouteReturns` | internal/edgehttp/preview_carrier_transport.go:142-170 | one such run, for every attached route: a later revision without an attachment generation, then the old route again |
| `PreviewTheorems.RemovedIsGone` | internal/edgehttp/preview_carrier_transport.go:261-355 | an entry that any step removes or replaces is no longer current |
| `PreviewTheorems.LateCallbackIsHarmless` | internal/edgehttp/preview_carrier_transport.go:261-270 | its carrier's callback never removes anything again, in any later state of any run |
| `PreviewRegistries.HostsDecide` | internal/edgehttp/preview_carrier_alias.go:197-207 | the host index answers exactly who owns a name |
| `PreviewRegistries.ActivatedMore` | internal/edgehttp/preview_carrier_alias.go:110-112 | publishing for one route after others is publishing for all at once |
| `PreviewRegistries.PreviewRegistry.constructor` | internal/edgehttp/preview_carrier_transport.go:102-122 | an empty registry |
| `PreviewRegistries.PreviewRegistry.DropAlias` | internal/edgehttp/preview_carrier_alias.go:218-227 | an alias leaves the three maps |
| `PreviewRegistries.PreviewRegistry.RemoveAlias` | internal/edgehttp/preview_carrier_alias.go:218-227 | the same keeps both indexes exact |
| `PreviewRegistries.PreviewRegistry.EnterAlias` | internal/edgehttp/preview_carrier_alias.go:136-143 | an alias enters the three maps |
| `PreviewRegistries.PreviewRegistry.PublishAlias` | internal/edgehttp/preview_carrier_alias.go:116-145 | a desired alias is published exactly when its route is current at its lease and its name is free |
| `PreviewRegistries.PreviewRegistry.RemoveAliasesForRoute` | internal/edgehttp/preview_carrier_alias.go:209-216 | exactly the aliases of the route go, in any order of the visit |
| `PreviewRegistries.PreviewRegistry.RemoveAll` | internal/edgehttp/preview_carrier_alias.go:104-108 | exactly the listed aliases go, in any order of the visit |
| `PreviewRegistries.PreviewRegistry.ActivateDesired` | internal/edgehttp/preview_carrier_alias.go:147-153 | exactly the eligible desired aliases of the route are published, in any order of the visit |
| `PreviewRegistries.PreviewRegistry.RemoveRoute` | internal/edgehttp/preview_carrier_transport.go:261-270 | a route goes with its names and aliases |
| `PreviewRegistries.PreviewRegistry.PlaceRoute` | internal/edgehttp/preview_carrier_transport.go:165-166 | an entry takes its route and its name |
| `PreviewRegistries.PreviewRegistry.Attach` | internal/edgehttp/preview_carrier_transport.go:128-172 | closed, same, stale, conflicting and full registries; otherwise the new entry replaces the old one and its desired aliases follow |
| `PreviewRegistries.PreviewRegistry.CarrierDone` | internal/edgehttp/preview_carrier_transport.go:261-270 | only the very entry whose carrier ended is removed |
| `PreviewRegistries.PreviewRegistry.Detach` | internal/edgehttp/preview_carrier_transport.go:274-294 | only the exact identity and revision is removed |
| `PreviewRegistries.PreviewRegistry.DetachAdmission` | internal/edgehttp/preview_carrier_transport.go:300-321 | only the exact admission is removed |
| `PreviewRegistries.PreviewRegistry.ScreenSnapshot` | internal/edgehttp/preview_carrier_alias.go:77-92 | the first fault of a snapshot in list order, or the snapshot keyed by domain |
| `PreviewRegistries.PreviewRegistry.CheckStale` | internal/edgehttp/preview_carrier_alias.go:98-103 | no kept alias may change its binding or go back |
| `PreviewRegistries.PreviewRegistry.SetDesired` | internal/edgehttp/preview_carrier_alias.go:104-109 | aliases not listed unchanged are removed, the snapshot becomes the desired state |
| `PreviewRegistries.PreviewRegistry.ActivateAll` | internal/edgehttp/preview_carrier_alias.go:110-112 | every eligible desired alias of every current route is published, in any order of the visit |
| `PreviewRegistries.PreviewRegistry.Reconcile` | internal/edgehttp/preview_carrier_alias.go:73-114 | the whole snapshot or nothing |
| `PreviewRegistries.PreviewRegistry.DetachAlias` | internal/edgehttp/preview_carrier_alias.go:157-176 | only the exact current projection is removed |
| `PreviewRegistries.PreviewRegistry.Close` | internal/edgehttp/preview_carrier_transport.go:432-451 | everything goes and nothing can be attached again |
| `PreviewRegistries.PreviewRegistry.Lookup` | internal/edgehttp/preview_carrier_alias.go:197-207 | the result is the unique route a plain scan finds: the exact name first, then the one-label wildcard |
| `PreviewAliases.AttachAliasExactly` | internal/edgehttp/preview_carrier_alias.go:116-145 | a direct attach keeps the registry clear except exactly when it goes through under a name that another active alias of the same route already has |
| `PreviewAliases.SharedNameIsLost` | internal/edgehttp/preview_carrier_alias.go:133-145 | two domains under one name of one route: removing either one makes the other unreachable while still active |
| `Ingress.KeyInjective` | internal/edgehttp/ingress_limits.go:88 | publications of different accounts never share an entry |
| `IngressTheorems.StepBalanced` | internal/edgehttp/ingress_limits.go:86-156 | every acquire, release and byte charge keeps counts equal to outstanding leases |
| `IngressTheorems.RunBalanced` | internal/edgehttp/ingress_limits.go:86-156 | in every run the active counts are the outstanding leases, per publication and per account, within both caps |
| `IngressTheorems.RefusalTakesNothing` | internal/edgehttp/ingress_limits.go:102-113 | a refused acquire takes no token and no connection |
| `IngressTheorems.SweepKeepsTokens` | internal/edgehttp/ingress_limits.go:127-138 | evicting an idle entry never changes the tokens of its key |
| `IngressTheorems.StepTokens` | internal/edgehttp/ingress_limits.go:111-119 | an open takes exactly one token and leaves the bucket nonnegative; nothing else takes any |
| `IngressTheorems.TokensPayForOpens` | internal/edgehttp/ingress_limits.go:86-138 | whatever the clock does, tokens at the end plus opens are at most tokens at the start plus the refill of every forward step |
| `IngressTheorems.OpensArePaidFor` | internal/edgehttp/ingress_limits.go:86-138 | in every window of every run that starts without accounts, for any clock, opens are at most burst plus the refill of every forward step of the clock |
| `IngressTheorems.ClockBackPaysTwice` | internal/edgehttp/ingress_limits.go:86-119 | three calls that read the clock out of order open three times in no time from a burst of two |
| `IngressTheorems.OpensAreBounded` | internal/edgehttp/ingress_limits.go:86-138 | with a clock that never goes back, opens of an account in any window are at most burst plus rate times its length, across evictions |
| `IngressTheorems.OpensAreBoundedInEveryWindow` | internal/edgehttp/ingress_limits.go:86-138 | the same for every window of every run that starts without accounts |
| `IngressEviction.StepSimulates` | internal/edgehttp/ingress_limits.go:86-138 | one step of the evicting table and of one that never evicts agree on the decision and stay matched |
| `IngressEviction.EvictionIsInvisible` | internal/edgehttp/ingress_limits.go:127-138 | as long as no acquire meets a full table, evicting changes no decision of the run |
| `IngressEviction.EvictionIsInvisibleFromEmpty` | internal/edgehttp/ingress_limits.go:127-138 | the same from the empty table |
| `IngressObjects.IngressLimits.constructor` | internal/edgehttp/ingress_limits.go:53-61 | an empty table |
| `IngressObjects.IngressLimits.ExpireSide` | internal/edgehttp/ingress_limits.go:128-132 | exactly the idle entries go, in any order of the visit |
| `IngressObjects.IngressLimits.ExpireIdle` | internal/edgehttp/ingress_limits.go:127-138 | the same on both sides |
| `IngressObjects.IngressLimits.Open` | internal/edgehttp/ingress_limits.go:105-120 | both caps and both buckets are examined before either is charged |
| `IngressObjects.IngressLimits.Acquire` | internal/edgehttp/ingress_limits.go:86-121 | the whole acquire, entry cap included |
| `IngressObjects.IngressLimits.Release` | internal/edgehttp/ingress_limits.go:144-156 | one connection back on both sides, once |
| `IngressObjects.IngressLimits.Charge` | internal/edgehttp/ingress_limits.go:213-218 | the bytes of a chunk are taken from both byte buckets of an outstanding lease |
| `CarrierIdentities.KeyInjective` | internal/edgehttp/durable_carrier_transport.go:357-359 | different carrier sessions never share a key |
| `Replicas.LoadTransitive` | internal/edgehttp/durable_carrier_transport.go:458-462 | cross-multiplied load is transitive, with an entry without capacity as the most loaded |
| `Replicas.LessIsStrictTotal` | internal/edgehttp/durable_carrier_transport.go:454-471 | replica order is asymmetric and total on any two valid identities, and transitive on entries that have capacity or are visibly busy |
| `Replicas.CyclesExactly` | internal/edgehttp/durable_carrier_transport.go:454-471 | three replicas are in a cycle exactly when one of them is idle without capacity and stands, by score and key, between the other two against the order of their loads at equal latency |
| `ReplicaChoices.Search` | internal/edgehttp/durable_carrier_transport.go:441-442 | binary search returns the first index not below the wanted key |
| `ReplicaChoices.SortedContains` | internal/edgehttp/durable_carrier_transport.go:449-452 | binary search on the sorted list is membership |
| `ReplicaChoices.FindBinding` | internal/edgehttp/durable_carrier_transport.go:441-447 | the binding of a route if and only if there is one |
| `ReplicaChoices.SortIsSorted` | internal/edgehttp/durable_carrier_transport.go:247-255 | sorting gives an ordered permutation |
| `ReplicaChoices.NormalizeKeepsEligible` | internal/edgehttp/durable_carrier_transport.go:247-255 | sorting an observation does not change whether a replica is eligible |
| `ReplicaChoices.IsEligible` | internal/edgehttp/durable_carrier_transport.go:369-396 | the code's tests are eligibility in terms of membership |
| `ReplicaChoices.LeastIsUnique` | internal/edgehttp/durable_carrier_transport.go:401-402 | there is at most one least eligible replica, whatever the entries |
| `ReplicaChoices.OneUnranked` | internal/edgehttp/durable_carrier_transport.go:369-396 | at most one eligible entry has a load that cannot be compared: the one of the rule's own assignment |
| `ReplicaChoices.LeastExistsExactly` | internal/edgehttp/durable_carrier_transport.go:401-402 | a replica strictly before every other eligible one exists if and only if one is eligible and that entry does not close a cycle with the least of the others |
| `ReplicaChoices.EntryFor` | internal/edgehttp/durable_carrier_transport.go:361-403 | none exactly when none is eligible; otherwise an eligible one, which is the least, whatever the order of the visit, if and only if there is no such cycle |
| `Carriers.StepBalanced` | internal/datacarrier/carrier.go:414-522 | every atomic step of every goroutine keeps permits, slots and the counter balanced |
| `Carriers.RunBalanced` | internal/datacarrier/carrier.go:414-522 | the same over every interleaving |
| `Carriers.PermitsAreConserved` | internal/datacarrier/carrier.go:282-479 | permits held are calls in progress, cancelled opens not finished, open streams and closed control streams, never more than the maximum; slots likewise |
| `Carriers.ReleasedAtMostOnce` | internal/datacarrier/carrier.go:1066-1100 | however often a stream is closed or aborted and whatever is cancelled, its permit is returned at most once |
| `Carriers.EveryCallCanEnd` | internal/datacarrier/carrier.go:414-522 | from every reachable state every call but an accepted control stream can still end, returning its permit and its slot and changing nothing else |
| `CarrierControls.OneControlStream` | internal/datacarrier/carrier.go:325-355 | in every interleaving at most one control stream is being accepted or open |
| `CarrierControls.LeakIsCounted` | internal/datacarrier/carrier.go:408-412 | over every run the leaked permits grow by exactly one for each control stream closed |
| `CarrierControls.EachCloseCostsAPermit` | internal/datacarrier/carrier.go:343-412 | in every run the permits held beyond those in use are as many as the control streams closed in it |
| `CarrierControls.BooksBalanceExactly` | internal/datacarrier/carrier.go:343-412 | the permits held are those in use if and only if no step of the run closed a control stream |
| `CarrierControls.CyclesTakePermits` | internal/datacarrier/carrier.go:325-412 | after accepting and closing n control streams n permits are gone with nothing open and the slot free |
| `CarrierControls.CyclesDisable` | internal/datacarrier/carrier.go:325-412 | after as many such rounds as there are permits, no call gets a permit in any continuation |
| `CarrierControls.StuckExactly` | internal/datacarrier/carrier.go:343-353 | the control slot gets stuck by exactly one step: publishing a stream whose abort has already run |
| `CarrierControls.StuckForEver` | internal/datacarrier/carrier.go:325-333 | once stuck, no control stream is accepted again in any continuation |
| `CarrierControls.VacantUnlessStuck` | internal/datacarrier/carrier.go:325-333 | otherwise, with no accept under way and no control stream open, the next accept is let in |
| `CarrierControls.EarlyAbortSticks` | internal/datacarrier/carrier.go:343-412 | every carrier that can accept a control stream can get stuck: the accept's context ends between wrapping and publishing |
| `AdmissionRegistries.KeyInjective` | internal/datacarrier/admission.go:134-136 | pairs of identifiers never collide as keys |
| `Admissions.StagingChangesNothingUsable` | internal/datacarrier/admission.go:269-306 | staging a pull never changes what a carrier may use |
| `Admissions.MarkAdmittedExactly` | internal/datacarrier/admission.go:311-337 | an accepted acknowledgement admits exactly what it lists if and only if its keys are distinct |
| `Admissions.PullEndsExactly` | internal/datacarrier/admission.go:269-370 | after an accepted pull the acknowledgement and the commit are accepted and the registry holds exactly the pull, admitted |
| `Admissions.UnchangedStaysUsable` | internal/datacarrier/admission.go:269-370 | an admission repeated unchanged stays usable with the same content at every step |
| `Admissions.UsableUntilCommit` | internal/datacarrier/admission.go:269-370 | nothing usable is lost before the commit and nothing changes before the acknowledgement |
| `AdmissionWaits.StrandedNeedsGap` | internal/datacarrier/admission.go:474-498 | in every run a waiter sleeps beside an admission only after a change between its look and its subscription, with none since |
| `AdmissionWaits.MissedExactly` | internal/datacarrier/admission.go:482-491 | one wait with any changes: it is stranded if and only if nothing changed after it subscribed, something did before, the last such change left an admission and none closed the registry |
| `AdmissionWaits.StrandedStays` | internal/datacarrier/admission.go:491-496 | a stranded waiter stays so until the next change or its own cancellation |
| `AdmissionWaits.NextChangeServes` | internal/datacarrier/admission.go:491-496 | the next change that leaves an admission ends the wait |
| `AdmissionRegistries.ExpectedAdmissionRegistry.constructor` | internal/datacarrier/admission.go:195-203 | an empty registry |
| `AdmissionRegistries.ExpectedAdmissionRegistry.Stage` | internal/datacarrier/admission.go:276-290 | the first fault of a pull in list order, or the staged map |
| `AdmissionRegistries.ExpectedAdmissionRegistry.InstallPending` | internal/datacarrier/admission.go:269-306 | staged values go in wherever nothing admitted stands, in any order of the visit |
| `AdmissionRegistries.ExpectedAdmissionRegistry.MarkAdmitted` | internal/datacarrier/admission.go:311-337 | all listed admissions must match before any is marked |
| `AdmissionRegistries.ExpectedAdmissionRegistry.Commit` | internal/datacarrier/admission.go:342-370 | the registry becomes the list, only if every entry of it is admitted and equal |
| `AdmissionRegistries.ExpectedAdmissionRegistry.Remove` | internal/datacarrier/admission.go:412-433 | only the exact admission is removed |
| `DurableAdmissions.IndexIsScan` | internal/datacarrier/durable_admission.go:180-191 | the index of an accepted list answers like a scan of the list, because keys determine identities |
| `DurableAdmissions.ScanFinds` | internal/datacarrier/durable_admission.go:351-385 | the scan finds a listed admission, and finds one whenever there is one |
| `DurableAdmissions.AuthorizeIsScan` | internal/datacarrier/durable_admission.go:351-385 | a stream is authorized exactly as the scan decides, error cases included |
| `DurableAdmissions.AuthorizeIsScanOfLast` | internal/datacarrier/durable_admission.go:154-385 | after any calls, refused ones included, authorization is the scan of the last accepted list |
| `DurableAdmissions.ReplaceNeverLowers` | internal/datacarrier/durable_admission.go:163-179 | a replacement that nothing overtakes never lowers the assignment generation of a route it keeps |
| `DurableAdmissions.GenerationsNeverFall` | internal/datacarrier/durable_admission.go:154-203 | over replacements one at a time a lower bound on a route's generations holds for as long as the route stays assigned |
| `DurableOverlaps.UndisturbedIsSequential` | internal/datacarrier/durable_admission.go:163-203 | an interleaving in which no call finds another table at its second lock than at its first is a sequence of such replacements |
| `DurableOverlaps.LowersExactly` | internal/datacarrier/durable_admission.go:163-203 | an install lowers some route's generation if and only if its list is behind what the table holds now, which needs another install since its own read |
| `DurableOverlaps.OverlapLowers` | internal/datacarrier/durable_admission.go:163-203 | any two valid lists for one route can be installed the wrong way round |
| `DurableRegistries.DurableAdmissionRegistry.constructor` | internal/datacarrier/durable_admission.go:125-136 | an empty registry |
| `DurableRegistries.DurableAdmissionRegistry.RaiseEntry` | internal/datacarrier/durable_admission.go:165-170 | the highest generation per route over one entry |
| `DurableRegistries.DurableAdmissionRegistry.CurrentGenerations` | internal/datacarrier/durable_admission.go:163-171 | the nested loops find exactly the highest stored generation per route |
| `DurableRegistries.DurableAdmissionRegistry.Build` | internal/datacarrier/durable_admission.go:173-192 | the first fault of a list in order, or its index |
| `DurableRegistries.DurableAdmissionRegistry.Replace` | internal/datacarrier/durable_admission.go:154-203 | the whole list or nothing |
| `DurableRegistries.DurableAdmissionRegistry.AuthorizeStream` | internal/datacarrier/durable_admission.go:351-385 | closed, missing, unusable, expired or allowed |
| `DurableRegistries.DurableAdmissionRegistry.HasIdentity` | internal/datacarrier/durable_admission.go:231-250 | whether some route of exactly this identity is usable now |
| `DurableRegistries.DurableAdmissionRegistry.Close` | internal/datacarrier/durable_admission.go:387-396 | everything goes |
| `HeaderReaders.TakeSplits` | internal/edgehttp/preview_carrier_transport.go:661-685 | two deliveries are one, unless the first is refused |
| `HeaderReaders.ChunkingIsInvisible` | internal/edgehttp/preview_carrier_transport.go:661-685 | however the stream is cut into reads, state and verdict are the same |
| `HeaderReaders.MatchMoves` | internal/edgehttp/preview_carrier_transport.go:672-682 | the matcher always holds the longest suffix that starts the separator |
| `HeaderReaders.TakeDecides` | internal/edgehttp/preview_carrier_transport.go:661-685 | from any point of a stream: finished exactly at its first separator, refused exactly when that is beyond the maximum |
| `HeaderReaders.HeaderEndsExactly` | internal/edgehttp/preview_carrier_transport.go:653-685 | for every stream and every cut: finished exactly at the first CR LF CR LF if that ends within the maximum, refused exactly when more than the maximum arrives without one |
| `HeaderReaders.HeaderReader.constructor` | internal/edgehttp/preview_carrier_transport.go:653-659 | a fresh reader |
| `HeaderReaders.HeaderReader.Read` | internal/edgehttp/preview_carrier_transport.go:661-685 | the loop over one delivery; the caller's buffer is not changed, and the count is what was delivered unless refused |

## Left out

- TLS, X.509, signatures, digests, JSON, regular expressions and URL parsing: only their verdicts are parameters.
- Configuration payloads: a configuration is its generation and content hash, so equal hashes stand for equal payloads.
- Integer widths: generations, counters and durations are unbounded, so a wrap at 64 bits or the 32-bit truncation of a stream count is not modelled.
- Floating point in the token buckets: tokens, rates and times are reals.
- Error texts and the retry flag of protocol errors; rotation calls report only success or failure.
- Frame encoding, request identifiers and the acknowledgement retry of the consumer: the composed system sends results in the order in which session calls return, for one session identity.
- CompleteDrain, the waiting side of drains, and every timeout as such: only the steps they take are modelled.
- Server.Accept before the session exists: authentication and welcome are summarised by the state an accepted session starts in.
- RotationObjects.RotationCoordinator: a target's record is a value in a map, not a shared record; calls take the store's state as it is, so a store that fails between two records of one call is not modelled.
- RotationHistories.RoundTripAcrossRestarts: a process that could not resume is taken to serve nothing; starting an operation afresh over its old records is covered by RotationTheorems.RevokeBarrier only.
- PreviewRegistries.PreviewRegistry.Attach: removes the old route's aliases before its host entry instead of after; both happen under one lock.
- PreviewAliases.AttachAliasExactly: AttachAlias is modelled on values with the host index, without the per-route index.
- IngressObjects.IngressLimits: a lease is a number, not a reference to its entries, and byte charges after a release are not modelled; the pacing loop of a stream, its usage records and its copy are I/O.
- ReplicaChoices.EntryFor: taking the first of a sorted list is modelled as a scan that keeps the smaller entry; in a cycle, where no entry is least, nothing is said about which one is returned.
- Attaching, updating and measuring replicas: each replaces or removes one map entry, and the choice is proved for every table they can produce.
- Carriers: goroutines are steps on values, not an object updated in place; the client side of a carrier is symmetrical and not repeated.
- Replace and Upsert of preview admissions: not part of the two-phase pull.
- AdmissionWaits.MissedExactly: whether a look finds an admission is a flag each change sets, so expiry while waiting is not modelled.
- DurableRegistries.DurableAdmissionRegistry.Replace: the object reads the stored generations and installs the list in one step; the two locks of the code are separate steps in DurableOverlaps.
- DurableRegistries.DurableAdmissionRegistry.AuthorizeStream: the stream's own identity check and context come before and are not modelled.
- HeaderReaders.HeaderReader.Read: the underlying reader's own error is passed on unchanged and not modelled.
- HTTP proxying, listeners, stream copying, telemetry, health and configuration generation: not part of this model.
