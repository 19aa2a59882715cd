# Backstop, verified

Backstop gates the SQL that AI agents send to PostgreSQL and keeps recovery points for it. This project
models its three linked components in Dafny and proves what they promise, over all inputs and all runs.

**Gateway release protocol.** `SqlAnalysis` classifies a parsed batch, `Policy` turns the classification
into a decision and a recovery target, `Classification` says what both mean of the statements themselves, `Verifier` finds and checks the latest sidecar snapshot. `Gateway`
is a step relation over any number of interleaved `toolExecuteQuery` calls, operator signals, timers,
cancellations, pauses and the snapshot sidecar; `GatewayInvariant`, `GatewaySteps` and `GatewayRuns` build
its inductive invariant, `GatewaySafety` states what follows for every run, `GatewayProgress` what every run can still
lead to, and `GatewayScenarios` which runs there must be. `Approval` and `Audit` are
the engine and the log as objects, `Behavior` the quarantine of misbehaving agents.

**Snapshot sidecar.** `Sidecar` is the commit protocol of `CaptureTable` with crashes, failed puts and
concurrent captures, and `SidecarHistory` says what its published snapshots are. `Poller` is the polling loop as an object, proved against a specification of one poll;
`PollerRuns` says what its counters mean over whole runs.

**Before-image and restore.** `BeforeImage` is the UPDATE/DELETE to SELECT transformation with its parameter
selection, `Savepoint` the protective capture inside the user's transaction, `Restore` the transactional
restore under three conflict policies, `Undo` the round trip of both, and `ConcurrentRestore` restores that
race for one target.

`Options`, `Text`, `Tables` and `Manifests` hold what these share. Time is an integer clock, SHA-256 an
injective function, the object store a map from structured keys, and a table a map from primary key to row.
Everything that can fail by itself (puts, reads, metadata writes, database errors, the impact estimate, an
operator's answer) is an arbitrary input or step.

Where code and documentation disagree, the model follows the code:

- README.md:332 says every discovered table is captured on startup and changed tables on later polls. Outside
  every-poll mode both happen if and only if the fingerprints cannot be read
  (`PollerRuns.StartupCapturesOnErrorOnly`, `PollerRuns.ChangedIsCapturedOnErrorOnly`): stability needs a
  fingerprint seen before, and a stable table is by definition unchanged. `PollerRuns.ChangedTableKeepsOldPoint`
  is a run.
- The comment on `_capture_with_savepoint` promises that the user's transaction is never left aborted. On an
  autocommit connection no savepoint is set, so a failed capture query aborts a transaction the user opened
  with an explicit BEGIN (`Savepoint.ExplicitBeginIsAborted`); that is the only such connection
  (`Savepoint.NoCaptureFailureLeaks`).
- Overlapping requests of one agent can lift its quarantine in two ways, by resetting the window and by a lost
  update, because the row is loaded and saved in separate calls (`Behavior.OverlapLiftsQuarantine`,
  `Behavior.LostUpdateLiftsQuarantine`); `Behavior.OverlapKeepsQuarantine` says exactly when it survives.
- A batch that only the impact estimate makes critical is covered through the table of its first write alone
  (`Classification.ImpactTargetIsTheFirstWrite`, `Classification.ImpactMissesLaterWrites`).
- A manifest put that is stored but reported as failed leaves a manifest without data if and only if the cleanup
  that follows deletes the data object (`Sidecar.CommittedIffNoLostDelete`).

`dafny verify dfyconfig.toml` checks the whole project.

## Model

| member | source | states |
|---|---|---|
| `SqlAnalysis.ScanBatch` | gateway/sql_analyzer.go:53-77 | the one-pass loop collects the analysis of the first statement of maximal risk, exactly the tables CRITICAL statements can be restored for, whether some CRITICAL statement has none, and the last schema given for each table |
| `SqlAnalysis.AnalyzeSql` | gateway/sql_analyzer.go:33-97 | the imperative classifier equals the declarative reading of the batch, including empty and unparseable text |
| `SqlAnalysis.Dominant` | gateway/sql_analyzer.go:274-292 | the chosen statement has maximal risk and every earlier one strictly less |
| `SqlAnalysis.BatchRiskIsMaximum` | gateway/sql_analyzer.go:53-97 | batch risk is the maximum over all statements, and the operation is that of the first statement reaching it |
| `SqlAnalysis.BatchCritical` | gateway/sql_analyzer.go:53-97 | a batch is CRITICAL if and only if one of its statements is |
| `SqlAnalysis.CriticalBatchIgnoresOrder` | gateway/sql_analyzer.go:53-97 | reordering or repeating statements of a CRITICAL batch changes neither risk, table nor recoverability |
| `SqlAnalysis.ExplainAnalyzeIsTransparent` | gateway/sql_analyzer.go:212-219 | EXPLAIN ANALYZE has the risk, table and recoverability of the statement it wraps |
| `SqlAnalysis.StatementNeverImpactCritical` | gateway/sql_analyzer.go:100-154 | no statement is classified IMPACT_CRITICAL by itself, at any nesting of EXPLAIN ANALYZE |
| `SqlAnalysis.CriticalIsAccountedFor` | gateway/sql_analyzer.go:67-94 | a CRITICAL verdict always leaves a table or an unrecoverable mark behind |
| `Classification.CriticalMeans` | gateway/sql_analyzer.go:100-219 | a statement is CRITICAL if and only if it is DELETE or UPDATE without WHERE, DROP TABLE, TRUNCATE, DROP DATABASE, DROP SCHEMA or not understood, at any nesting of EXPLAIN with an analyze option |
| `Classification.SafeMeans` | gateway/sql_analyzer.go:100-169 | a statement is SAFE if and only if it changes nothing: SELECT, SHOW, SET, plain transaction control, EXPLAIN, and EXPLAIN ANALYZE of one of these |
| `Classification.RecoverableMeans` | gateway/sql_analyzer.go:171-210 | a CRITICAL statement is recoverable for a relation if and only if that relation is the one named table it wipes |
| `Classification.AnalyzeOption` | gateway/sql_analyzer.go:221-232 | the option is the word analyze in any case, anywhere in the list |
| `Classification.BatchSafeMeans` | gateway/sql_analyzer.go:274-297 | a batch is SAFE if and only if every statement in it changes nothing |
| `Classification.BatchRiskMeans` | gateway/sql_analyzer.go:53-97 | a batch is CRITICAL if and only if a statement in it wipes tables or goes beyond table snapshots |
| `Classification.TargetMeans` | gateway/sql_analyzer.go:234-248 | for any impact result, such a batch has recovery target t if and only if nothing in it goes beyond table snapshots and every wiping statement wipes t alone, t not blank and without a comma |
| `Classification.ImpactTargetIsTheFirstWrite` | gateway/mcp_server.go:545-555 | a batch that only the impact estimate makes critical has the table of its first write as recovery target, and no other |
| `Classification.ImpactMissesLaterWrites` | gateway/mcp_server.go:545-555 | a literal batch of two writes whose second table is not covered |
| `Classification.DecideMeans` | gateway/policy.go:126-195 | exactly what is blocked, what goes to approval and what requires recovery, for every policy and analysis |
| `Classification.ListedIsBlocked` | gateway/policy.go:187-195 | an operation on the block list is always blocked |
| `Classification.UnknownIsBlocked` | gateway/policy.go:126-176 | rejected text and statements of unknown kind are blocked by every policy that blocks the unknown |
| `Classification.ReadOnlyIsExecuted` | gateway/policy.go:126-176 | a batch that changes nothing is executed without approval unless the policy lists it or SAFE |
| `Classification.DefaultRunsReadOnly` | gateway/policy.go:49-72 | under the default policy it always is |
| `Classification.WriteNeedsNoRecovery` | gateway/policy.go:126-176 | a batch that writes without wiping is HIGH and requires no recovery point |
| `Classification.WipeIsApproved` | gateway/policy.go:126-176 | DELETE without WHERE on a named table goes to approval with recovery through that table under every guarded policy that does not block it |
| `Policy.RecoveryTargetCoversBatch` | gateway/sql_analyzer.go:234-248 | for any impact result, a batch with a CRITICAL statement has recovery target t if and only if t alone is the recoverable target of every CRITICAL statement, not blank and without a comma |
| `Policy.CriticalBatchNeedsRecovery` | gateway/policy.go:126-176 | under a policy requiring approval and recovery, a batch with a CRITICAL statement is blocked or needs both |
| `Policy.DefaultPolicyIsGuarded` | gateway/policy.go:49-72 | the default policy is one of those, sends HIGH but not SAFE to approval, blocks DROP DATABASE, DROP SCHEMA, the unknown and the unrecoverable, and limits snapshot and heartbeat age to 300 and 120 seconds |
| `Policy.BeyondIsUnrecoverable` | gateway/sql_analyzer.go:171-219 | DROP DATABASE, DROP SCHEMA and unclassified statements, also inside EXPLAIN ANALYZE, are CRITICAL and unrecoverable |
| `Policy.BeyondHasNoTarget` | gateway/mcp_server.go:545-583 | a batch containing one of them has no recovery target, whatever the impact step switches on |
| `Verifier.Latest` | gateway/snapshot_verifier.go:147-195 | the search fails exactly when a readable sidecar manifest of the table is invalid or none is eligible, and otherwise finds the earliest-listed manifest of maximal timestamp |
| `Text.TrimMeans` | gateway/snapshot_verifier.go:114-145 | trimming a status leaves what stands between its leading and trailing space |
| `Text.SafeTableKeyMeans` | gateway/snapshot_verifier.go:251-254 | a key component has only safe characters, and a safe table name is its own |
| `Verifier.LatestSidecarManifest` | gateway/snapshot_verifier.go:147-195 | the loop over pages computes that answer on the concatenated listing, so page boundaries do not matter |
| `Verifier.LatestIsUnique` | gateway/snapshot_verifier.go:184-188 | at most one listed entry is the earliest of maximal timestamp |
| `Verifier.OtherTablesAreInvisible` | gateway/snapshot_verifier.go:162-174 | removing an entry of another table or writer that shares the key prefix never changes the answer |
| `Verifier.SearchFailsMeans` | gateway/snapshot_verifier.go:114-195 | the search fails if and only if one of the sidecar's readable manifests of the table is unsound or none has a timestamp |
| `Verifier.VerifyLatestMeans` | gateway/snapshot_verifier.go:66-112 | the verification succeeds with a manifest if and only if the caller names a snapshot, no manifest of the table is unsound, this one is the latest and the one named, and its data object is present with its hash |
| `Verifier.VerifyLatest` | gateway/snapshot_verifier.go:66-112 | a verified snapshot is the latest of its table, the one the caller named, and its data object hashes to the recorded digest |
| `GatewayRuns.StepInv` | gateway/mcp_server.go:288-538 | every step of any request, operator, timer, pause or sidecar keeps the protocol's invariant |
| `GatewayRuns.RunInv` | gateway/mcp_server.go:288-538 | the invariant holds at every moment of every run |
| `GatewaySafety.ReleaseOrder` | gateway/mcp_server.go:370-500 | each execution of an approve-action query is preceded, for the same request and in this order, by recovery verification when required, a durable pending row when there is a store, the pending entry, acceptance and consumption of an approval that was the first value its channel took, a pause check that did not block it, and its audit entry |
| `GatewaySafety.PauseStopsReleases` | gateway/pause.go:47-83 | after a pause that is not lifted, only requests already past their last pause check can run, SAFE ones excepted unless the pause blocks them too; where policy sends all non-SAFE risk to approval that check is for non-SAFE queries the one after the approval |
| `GatewaySafety.ReleasedPointIsBacked` | gateway/mcp_server.go:373-392 | for every policy and every text, IMPACT_CRITICAL batches included: when an approved query that requires recovery has been executed, the manifest verified for its recovery target, the one its caller named, and the matching data object are still in the store, and the verification came first |
| `GatewaySafety.ReleaseIsRecoverable` | gateway/mcp_server.go:373-392 | under a guarded policy an executed batch with a CRITICAL statement moreover has one table name covering every CRITICAL statement, and the verified manifest is for that name |
| `GatewaySafety.WipeIsRecoverable` | gateway/mcp_server.go:373-392 | the same of the statements themselves: an executed batch with a statement that can wipe tables wipes one table only, holds nothing beyond table snapshots, and the verified manifest, still stored with its data, is for that table |
| `GatewaySafety.RejectedTextIsNeverReleased` | gateway/mcp_server.go:557-583 | under such a policy text the parser rejects is never executed |
| `GatewaySafety.QuarantinedNeverRuns` | gateway/mcp_server.go:320-331 | over every run a request found to come from a quarantined agent is never executed |
| `GatewaySafety.ListedNeverRuns` | gateway/mcp_server.go:333-347 | over every run no query whose operation is on the block list is executed |
| `GatewaySafety.ExpiresOnTime` | gateway/approval.go:90-101 | over every run a wait times out exactly its timeout after it began |
| `GatewaySafety.MismatchIsRefused` | gateway/mcp_server.go:455-468 | a request whose text, table or risk is not what was approved is refused |
| `GatewaySafety.BeyondSnapshotsIsNeverReleased` | gateway/policy.go:126-176 | no batch containing DROP DATABASE, DROP SCHEMA or an unclassified statement is ever executed |
| `GatewaySafety.RecoveryPointAge` | gateway/mcp_server.go:585-618 | for every request that entered its wait: check, start of the wait and return come in that order, and at every moment of the wait and when the approval returned the recovery point was no older than the age limit plus the set-up delay plus the approval timeout |
| `GatewaySafety.Conservation` | gateway/mcp_server.go:300-538 | each completed request leaves exactly one audit entry and one counter increment, the entry is marked approved iff the query was executed and precedes it, and the in-memory log is the last 10000 entries of the history |
| `GatewaySafety.ApprovalEngineLinearizes` | gateway/approval.go:77-132 | the pending map is always exactly the requests between store and delete, a received value is the first its channel accepted, no signal blocks, only an approval gets past the wait, and each request returns at most once |
| `GatewaySafety.OutcomeNeverChanges` | gateway/approval.go:77-132 | over every run the first accepted value stays first, a received resolution is never replaced, and once a wait has ended its outcome and time of return are fixed and the request is never pending again |
| `GatewaySafety.ReturnsOnce` | gateway/approval.go:87-105 | no run has two returns of the same request |
| `GatewaySafety.LaterSignalsChangeNothing` | gateway/approval.go:119-132 | over every run, a signal sent at any moment after the first accepted one leaves trace, phase, resolution and recorded moments as they are |
| `GatewayProgress.EveryRequestCanFinish` | gateway/mcp_server.go:288-538 | every run extends to one in which the request has finished, without operator, cancellation or failed write, and with a failed verification only if nothing can be verified |
| `GatewayProgress.WaitEnds` | gateway/approval.go:90-105 | every wait can end by itself: by the answer in the channel, or by its timer once all earlier timers have fired |
| `GatewayProgress.ApprovedRequestCanRun` | gateway/mcp_server.go:455-500 | every run in which a request holds an approval, or needs none, and the gateway is not paused for its risk extends without help to one in which the query is executed |
| `GatewayProgress.EveryAllowedQueryCanRun` | gateway/mcp_server.go:288-538 | from every moment of every run any query the policy does not block can still be submitted and executed, at once or with an operator's approval, provided a paused gateway finds it SAFE and does not block SAFE, and a required recovery point verifies against the complete listing |
| `GatewayScenarios.ReadsRunThroughPause` | gateway/pause.go:73-83 | from every moment of every run, paused or not, a batch that changes nothing can be submitted and executed when the pause does not block SAFE queries |
| `GatewayScenarios.ExecuteRunsUnpaused` | gateway/mcp_server.go:349-368 | from every unpaused moment any query the policy executes without approval can be submitted and executed |
| `GatewayScenarios.CaptureThenDelete` | gateway/mcp_server.go:288-538 | there is a run from the start in which the sidecar captures a table, DELETE without WHERE on it is submitted with that snapshot's id, approved and executed, for every table name without comma, id, contents, clock and guarded policy that does not block DELETE |
| `GatewayScenarios.DefaultPolicyReleases` | gateway/policy.go:49-72 | in particular under the default policy for DELETE FROM users |
| `GatewaySafety.DecisionIsKept` | gateway/mcp_server.go:300-305 | a request's analysis and policy decision never change once made |
| `GatewaySafety.DeliverIsASend` | gateway/approval.go:124-130 | delivery in the protocol is the engine's non-blocking send on a one-slot channel |
| `Approval.FirstSignalWins` | gateway/approval.go:119-132 | whatever sequence of answers operators send, the channel holds the first |
| `Approval.ApprovalEngine.Enroll` | gateway/approval.go:77-88 | a request without id is refused; any other gets a fresh, empty channel under its id |
| `Approval.ApprovalEngine.Signal` | gateway/approval.go:119-132 | reports whether the id is pending, fills an empty channel, leaves a full one and all others alone |
| `Approval.ApprovalEngine.Approve` | gateway/approval.go:108-111 | sends an approval in the actor's name |
| `Approval.ApprovalEngine.Deny` | gateway/approval.go:113-116 | sends a denial in the actor's name |
| `Approval.ApprovalEngine.Await` | gateway/approval.go:90-105 | a grant is returned exactly for an approval taken from the channel, with its actor, and the entry is removed on every path |
| `Approval.ApprovalEngine.PendingList` | gateway/approval.go:134-157 | lists every pending approval exactly once with its own details |
| `Audit.TrimmedAppend` | gateway/agent_identity.go:189-197 | trimming at every append keeps the same window as trimming the whole history once |
| `Audit.AgentRegistry.constructor` | gateway/agent_identity.go:73-100 | a loaded log is cut to its most recent entries |
| `Audit.AgentRegistry.RecordDetailed` | gateway/agent_identity.go:118-144 | the entries stay the last 10000 of everything ever recorded, ending in the new one |
| `Audit.ByAgentMeans` | gateway/agent_identity.go:163-177 | the entries of one agent are exactly the agent's, all of them, in the order of the log |
| `Audit.AgentRegistry.GetHistory` | gateway/agent_identity.go:163-177 | returns one agent's entries of the window |
| `Behavior.AgentStates.AgentQuarantined` | gateway/behavior.go:9-21 | blocks exactly the requests of an agent whose quarantine has not ended, SAFE ones only if configured |
| `Behavior.AgentStates.RecordRiskAttempt` | gateway/behavior.go:23-56 | a non-SAFE attempt replaces the agent's row by the window rule applied to the row it loaded, over whatever others wrote between load and save; no other row changes |
| `Behavior.CountIsExact` | gateway/behavior.go:23-56 | over every run of one request at a time, the stored count is the number of attempts recorded since the window start, all within the window, and quarantine is set exactly when it reaches the maximum, from the last attempt |
| `Behavior.QuarantineHolds` | gateway/mcp_server.go:320-331 | from then until its end inclusive every non-SAFE request is refused and the row does not change |
| `Behavior.RowsStayOk` | gateway/behavior.go:30-50 | in every interleaving of loads and saves a row carries a quarantine exactly when its count has reached the maximum |
| `Behavior.OverlapKeepsQuarantine` | gateway/behavior.go:30-50 | in every interleaving a quarantine survives a save if and only if the row that request had loaded was in its window and one attempt short at most, or one attempt is enough, and the load is not older than the quarantine time |
| `Behavior.QuarantineSurvives` | gateway/behavior.go:30-50 | over every interleaving a quarantine stays in force iff every save in it meets that condition |
| `Behavior.AloneIsRecord` | gateway/behavior.go:30-50 | a load followed at once by its save is the record of a request handled alone |
| `Behavior.FreshLoadKeepsQuarantine` | gateway/behavior.go:31-43 | an overlapping request that loads the quarantined row itself keeps the quarantine iff the counting window is still open or one attempt sets it |
| `Behavior.OverlapLiftsQuarantine` | gateway/behavior.go:31-43 | with the default limits, a concrete late record that lifts a quarantine by resetting the window |
| `Behavior.LostUpdateLiftsQuarantine` | gateway/behavior.go:30-50 | with the default limits, a concrete lost update that lifts a quarantine inside an open window |
| `Sidecar.CommitInvariant` | sync/snapshot.go:141-292 | after every step of any interleaving with crashes and lost puts, every stored manifest names a present data object with the recorded hash and every published one is stored, as long as no cleanup has deleted what a lost put refers to |
| `Sidecar.CommittedForever` | sync/snapshot.go:141-292 | a committed snapshot is still backed at every later moment of the run |
| `Sidecar.CleanupSparesManifests` | sync/snapshot.go:91-107 | cleanup never deletes an object a manifest refers to |
| `Sidecar.PutManifestCommits` | sync/snapshot.go:264-286 | the manifest put is the commit point: from then on the snapshot is backed |
| `SidecarHistory.LatestIsTheLastPublished` | sync/snapshot.go:109-139 | over every run, lost deletes included, a table has a published snapshot if and only if a capture of it was published since the last crash, and it is then the one of the last such capture, with its id, hash, row count and timestamp, verified last at the last successful re-verification since, which found the data object with its hash, or else when it was put |
| `SidecarHistory.CaptureCanSucceed` | sync/snapshot.go:141-292 | whatever is in flight, a table nobody works on can be captured under any unused id, which publishes its manifest and stores it with its data and changes nothing else |
| `SidecarHistory.RecheckCanSucceed` | sync/snapshot.go:116-139 | a published snapshot whose data is in place can be re-verified, which moves its verification time and nothing else |
| `Sidecar.StepKeepsLatest` | sync/snapshot.go:116-139 | every step that is not a deletion after a lost put leaves only stored valid manifests of the right table in the published map, up to the verification time |
| `Sidecar.CommittedIffNoLostDelete` | sync/snapshot.go:269-280 | over every run the store is committed at every moment if and only if no cleanup after a manifest put that was stored but reported as failed deleted its data object, whatever steps come between |
| `Sidecar.LostDeleteBreaksCommit` | sync/snapshot.go:93-107 | that deletion leaves a manifest without its data |
| `Sidecar.LostPutMayBeDeleted` | sync/snapshot.go:269-280 | a lost put itself keeps the invariant, and the cleanup it leads to breaks it iff its delete succeeds |
| `Poller.Poller.TableStableForSnapshot` | sync/poller.go:250-269 | updates one table's counter by the repetition rule and judges stability; no other table changes |
| `Poller.Poller.SnapshotTable` | sync/poller.go:328-380 | capture failure counts up, success clears and publishes, a failed metadata write leaves one failure |
| `Poller.Poller.RefreshSnapshotVerification` | sync/poller.go:382-418 | likewise for re-verification of the published snapshot |
| `Poller.Poller.UpdateRecoveryReadiness` | sync/poller.go:420-472 | healthy exactly when every monitored table is without failures and has a valid, checksummed, fresh recovery point |
| `Poller.Poller.VisitTables` | sync/poller.go:184-211 | a regular poll visits every monitored table exactly once, added ones first, and touches no other |
| `Poller.Poller.Poll` | sync/poller.go:131-240 | the whole poll, with its early exits, refines the specification of one poll |
| `PollerRuns.Run` | sync/poller.go:102-129 | the polling loop refines the specification of a run, its first poll being the startup poll |
| `PollerRuns.CountsAreHistory` | sync/poller.go:250-269 | over every run the stored fingerprint is the last one read and the counter counts its repetitions, when both catalogue reads agree on the table |
| `PollerRuns.StableMeansSteady` | sync/poller.go:250-269 | a table judged stable showed one non-empty fingerprint over at least the last minStablePolls + 1 successful unpaused polls |
| `PollerRuns.ThreeWays` | sync/poller.go:190-211 | stable implies not changed, and a known table is captured iff stable without recovery point or with failures, re-verified iff stable with one and none, deferred iff not stable |
| `PollerRuns.ChangedIsCapturedOnErrorOnly` | sync/poller.go:190-211 | an observing poll captures a known table as changed if and only if the fingerprints could not be read |
| `PollerRuns.StartupCapturesOnErrorOnly` | sync/poller.go:176-183 | the startup poll captures a table if and only if it is configured to and the fingerprints could not be read |
| `PollerRuns.NothingNewIsCaptured` | sync/poller.go:176-189 | a table without a fingerprint from an earlier poll is captured if and only if the fingerprints cannot be read, and deferred otherwise |
| `PollerRuns.ChangesAreNotRecaptured` | sync/poller.go:190-211 | polls without errors never replace an existing recovery point, however the table changes |
| `PollerRuns.RecaptureNeedsError` | sync/poller.go:190-211 | over every run, a table whose sound recovery point stays and verifies is captured again if and only if some poll cannot read the fingerprints |
| `PollerRuns.ChangedTableKeepsOldPoint` | sync/poller.go:131-240 | a literal run in which a table changes for good and keeps the recovery point from before |
| `PollerRuns.FailuresAreTheLastOutcome` | sync/poller.go:328-418 | over every run a table has failures iff its most recent capture, re-verification or metadata write failed |
| `PollerRuns.HealthyIsSound` | sync/poller.go:420-472 | a poll publishes healthy iff no watched table's last attempt failed and each has a valid, checksummed recovery point whose last verification, or capture, is at most the maximum age before the poll's time when one is set |
| `PollerRuns.EveryPollCaptures` | sync/poller.go:203-204 | in every-poll mode every observing poll captures every watched table, the startup poll if configured to, and what it captured is the recovery point from then on |
| `PollerRuns.LatestIsHistory` | sync/poller.go:328-418 | over every run a table has a recovery point iff some poll captured it, and it is what the last such poll took, verified last at the time of the last poll that found its data in place |
| `PollerRuns.WatchedIsMonitored` | sync/poller.go:315-326 | a table is monitored iff it is in the catalogue and on the allowlist, if there is one |
| `BeforeImage.BeforeImageIsExact` | sdk/python/backstop/parser.py:278-357 | for every UPDATE or DELETE with WHERE, every table and every meaning of operators, the generated SELECT with the selected parameters returns exactly the rows the statement touches; a driver that refuses unused parameters fails in one case only |
| `BeforeImage.EvalShift` | sdk/python/backstop/parser.py:337-349 | an expression means the same when the parameters before and after its own are dropped and its placeholders renumbered |
| `BeforeImage.IndexesAreTheWhereRange` | sdk/python/backstop/parser.py:337-357 | both ways of computing the indexes give the consecutive positions after the SET placeholders, or none without WHERE placeholders |
| `BeforeImage.SelectionBinds` | sdk/python/backstop/parser.py:325-334 | parameters that bind to the statement still bind to the SELECT after selection, with that one exception |
| `BeforeImage.StrictDriverLosesTheBeforeImage` | sdk/python/backstop/parser.py:343-357 | the concrete exception: all positional parameters belong to SET |
| `BeforeImage.ScopedOnlyForOneStatement` | sdk/python/backstop/parser.py:294-312 | a scoped query is built if and only if the text is one UPDATE or DELETE with WHERE |
| `BeforeImage.WhereKeepsTrueOnly` | sdk/python/backstop/parser.py:314-322 | a condition that is false, NULL or no truth value touches nothing |
| `BeforeImage.ParametersGoInOrder` | sdk/python/backstop/parser.py:337-349 | positional parameters go to placeholders in the order of the text, across nested calls |
| `BeforeImage.ParametersReachTheirPlace` | sdk/python/backstop/parser.py:325-334 | named parameters go by name, and SET takes its parameters in its own order |
| `BeforeImage.ParametersMustFit` | sdk/python/backstop/parser.py:325-334 | parameters of the wrong number or kind are refused |
| `Savepoint.GuardedConnection.CaptureWithSavepoint` | sdk/python/backstop/guard.py:188-235 | for every starting state and every point of failure the user's statement runs with the same status, savepoint stack and tables as without the guard, if and only if no leak condition holds |
| `Savepoint.NoCaptureFailureLeaks` | sdk/python/backstop/guard.py:195-235 | when the savepoint commands themselves go through, no failure of the capture is visible to the user if and only if the connection is not an autocommit connection inside a transaction |
| `Savepoint.ExplicitBeginIsAborted` | sdk/python/backstop/guard.py:195-200 | the failing input: on an autocommit connection inside an explicit transaction one failed capture query aborts it |
| `Savepoint.CapturesDoNotLeak` | sdk/python/backstop/guard.py:223-226 | a successful capture is never visible |
| `Savepoint.GuardedConnection.Capture` | sdk/python/backstop/guard.py:202-221 | the capture succeeds iff nothing in it fails and the transaction can run its queries; it changes nothing but the status, and that only when its first failure is a server error in an open transaction |
| `Savepoint.GuardedConnection.CleanUp` | sdk/python/backstop/guard.py:227-235 | rollback and release give back the user's state exactly when both succeed |
| `Savepoint.GuardedConnection.BeforeExecute` | sdk/python/backstop/guard.py:152-186 | refuses exactly CRITICAL statements in block mode and tableless ones in protect mode; a manifest is recorded exactly when nothing fails, and a failed capture never stops the statement |
| `Restore.Connection.InsertBatch` | sdk/python/backstop/restore.py:149-153 | inserting a batch row by row has the effect of its insert statement on each row in order, and fails iff one is refused |
| `Restore.Connection.InsertBatches` | sdk/python/backstop/restore.py:146-155 | the batch loop leaves what inserting all rows at once would, so batch boundaries do not matter, and fails iff a batch or a row does |
| `Restore.Connection.Transact` | sdk/python/backstop/restore.py:120-183 | the transaction body refines its specification, count and validation included |
| `Restore.TransactionTouchesOneTable` | sdk/python/backstop/restore.py:112-183 | a successful transaction changes the named target, or else the table name with _recovered, which it leaves in the database, and no other table; its manifest was valid, of this table and a known scope, the data had the recorded hash, and nothing failed |
| `Restore.Connection.RestoreTable` | sdk/python/backstop/restore.py:112-198 | a restore commits exactly what its transaction did, or leaves the committed database as it was; without a target every table but the one with suffix _recovered is as it was, the original included; a bad policy, a missing manifest and a dry run touch nothing |
| `Restore.CommittedRestoreIsExact` | sdk/python/backstop/restore.py:434-461 | a committed table-scope restore leaves exactly the snapshot's keys; overwrite and fail leave the snapshot's values, fail only into an empty target, skip keeps present rows and fills missing ones; no other table changes |
| `Restore.CountedInsertsAreExact` | sdk/python/backstop/restore.py:434-461 | the cardinality argument from the row-count check |
| `Restore.CommittedRestoreIsTheSnapshot` | sdk/python/backstop/restore.py:130-198 | with the snapshot's columns, overwrite and fail leave the snapshot itself |
| `Restore.InsertRowsStores` | sdk/python/backstop/restore.py:295-329 | what is stored under each snapshot key, by conflict policy |
| `Restore.InsertRowsKeeps` | sdk/python/backstop/restore.py:295-329 | rows whose keys the snapshot does not mention are kept |
| `Undo.UndoDelete` | sdk/python/backstop/guard.py:188-226 | inserting the before-image of a DELETE into what it left gives the original table under every policy |
| `Undo.UndoUpdate` | sdk/python/backstop/guard.py:188-226 | overwriting with the before-image of an UPDATE gives the original table if and only if the keys it assigned are keys of rows it touched |
| `Undo.NoKeyColumnSet` | sdk/python/backstop/guard.py:188-226 | an UPDATE that sets no key column keeps every key, on every table and with every parameter |
| `Undo.KeyChangeIsNotUndone` | sdk/python/backstop/restore.py:295-329 | a literal key-changing UPDATE that overwriting with its before-image leaves as two rows |
| `Undo.UndoUpdateNeedsOverwrite` | sdk/python/backstop/restore.py:295-329 | for an UPDATE that keeps keys, skip leaves the new rows and fail refuses unless nothing was touched |
| `Undo.UndoWipe` | sdk/python/backstop/snapshot.py:171-210 | a table-scope snapshot brings back every row after DELETE without WHERE, TRUNCATE or DROP TABLE, under every policy, counted |
| `Undo.DeleteThenRestore` | sdk/python/backstop/restore.py:120-189 | every committed restore of a guarded DELETE gives back the whole original database, and it commits iff the data is intact and nothing fails |
| `Undo.UpdateThenRestore` | sdk/python/backstop/restore.py:120-189 | the same for UPDATE under overwrite, iff its keys stay among the touched rows |
| `Undo.KeylessUpdateThenRestore` | sdk/python/backstop/restore.py:120-189 | every committed overwrite restore of a guarded UPDATE that sets no key column gives back the whole original database |
| `ConcurrentRestore.ConcurrentRestores` | sdk/python/backstop/restore.py:132-183 | in every schedule only the lock holder is inside its transaction, which fills an absent target with a prefix of the snapshot and adds nothing to a present one |
| `ConcurrentRestore.ExactlyOneRestores` | sdk/python/tests/test_restore.py:470-513 | if any restore commits, the target is exactly the snapshot, one committed restore returned every row and all others 0 |
| `ConcurrentRestore.ValidationNeverFails` | sdk/python/backstop/restore.py:434-461 | under the lock the row-count validation of a finished insert loop never fails, whoever filled the target |
| `ConcurrentRestore.WaitingCanCommit` | sdk/python/backstop/restore.py:132-183 | from every moment of every schedule a restore waiting for a free lock can go on to commit |
| `ConcurrentRestore.SkippingIsAnInsert` | sdk/python/backstop/restore.py:295-309 | the interleaved insert is the sequential skip insert on what the transaction sees |

## Left out

- The PostgreSQL and sqlglot parsers, secret scrubbing, DDL rewriting and identifier quoting: text plumbing; the model starts from statement trees.
- The row estimate behind the impact analysis: its outcome is an arbitrary input, and the results hold for every value.
- Reason texts, alerts, response payloads, metric labels and the ignored errors of approval-row resolutions: they decide nothing.
- Heartbeat, metadata-record and recovery-group readiness checks: in the protocol they are further reasons for a verification to fail.
- The quarantine check inside the protocol: an arbitrary outcome there; its own rule and runs are in Behavior.
- Pause-file persistence, auth tokens and scopes, bypass detection and drop alerts: easy members.
- Schema-qualified recovery: tables are keyed by bare name throughout the source, and so is coverage here.
- Case folding outside ASCII: `EqualFold` folds ASCII letters only.
- The sidecar inside the gateway's runs: it makes no deletion after a lost put, which would take away verified recovery points.
- GatewaySafety.RecoveryPointAge: assumes timers fire on time; the model lets no time pass beyond the end of a waiting request's timeout.
- Behavior.CountIsExact: requests of one agent one at a time; with overlapping requests updates are lost and the count is not exact, and OverlapKeepsQuarantine says what is left of the quarantine.
- Sidecar.CommitInvariant: assumes fresh snapshot ids, no outside writer, and no deletion after a lost put; CommittedIffNoLostDelete shows the last is needed exactly.
- PollerRuns.CountsAreHistory: assumes both catalogue reads of a poll agree on whether the table exists, and a poller not in every-poll mode.
- Stale-snapshot alerts of the poller: they feed nothing back into its decisions.
- BeforeImage.BeforeImageIsExact: statements over one table with placeholders only in SET and WHERE; UPDATE ... FROM, DELETE ... USING, subqueries and RETURNING placeholders are not modelled, and whether a driver refuses parameters sent with a text that has no placeholder (psycopg2 ignores them) is a parameter.
- `executemany`: only the first parameter set of an UPDATE is captured, so no coverage holds.
- Restore targets without a primary key or with further unique constraints: a table has one key; overwrite is refused without one, and skip would insert every row.
- Sequence resets, DDL adaptation, constraint and index DDL: each may fail and roll the restore back, and none changes rows.
- ConcurrentRestore.ConcurrentRestores: READ COMMITTED isolation and no writers besides the restores.
- `assess_risk` of the SDK: the same maximum over statements as the gateway's classifier; the guard takes its result as an input.
- Metadata tables as SQL: a write either goes through or fails.
- packages, the command line, native backup wrappers, scripts and deployment files.
