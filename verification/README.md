# Verification model of the GPU shopper

A Dafny model of the session/instance protocol, the offer failure tracker and the smaller cores of the GPU
shopper, with proofs about all inputs, all runs and all schedules. `dafny verify dfyconfig.toml` checks it.

What is modelled, by module:

- **Session rows and providers.** `Sessions`, `SessionStorage` (a store whose reads are copies, with the partial unique
  index on active sessions), `Providers` (an instance table behind calls that may fail, succeed late or go unreported).
- **The session/instance protocol.** `Provisioner` (two-phase creation, verified destroy with retries),
  `LifecycleManager` over `Enforcement` (the periodic checks), `Reconciler` over `Reconciliation` (orphans, ghosts,
  recovery, startup sweep). Each class works step by step on the store and the providers and is proved equal to a
  function of the two tables; the lemmas are about those functions, and what a pass, a sweep and a round of checks make of
  each row and instance is stated in the fields of the tables as well. `Protocol` and `ProtocolTiming` interleave all of
  it in any order, with a crash between any two writes; `ProtocolPasses` shows that the code stays inside that protocol.
  `ProtocolOrphans` says exactly which instances a reconciliation pass can destroy. `DestroyLock` is the race on the
  per-session destroy lock.
- **The failure tracker.** `FailureLog` answers from the full log of failures and never forgets; `FailureTracker` prunes,
  suppresses, writes through to `FailureStorage` and is reloaded from it. The first is the meaning of the second, over
  all runs of failures and restarts.
- **Retry chains.** `Offers` (adjusting, filtering, ranking, picking), `OfferLists` (the comma-separated column of failed
  offers), `RetryChain` (a request and all its retries).
- **Smaller cores.** `OfferCache` (stale-while-revalidate), `Manifest`, `BenchmarkRunner` (the code of a run
  on the manifest) and `BenchmarkRun` (its concurrent workers under every schedule), `CostStorage` and `CostTracker` (hourly billing and summaries), `InstanceNames` (IDs carried in VM names).

Time is an integer number of nanoseconds; prices and confidence are reals. A method argument `now` is the clock reading
the code takes; a pass takes one reading.

Where a property one would expect is false of the code, the model keeps the code, shows an input and states exactly when
the property holds:

- A failure that brings an offer to the threshold of three does not hide it if an earlier suppression has run out but
  was not cleared yet, although the threshold is documented as the count at which an offer is suppressed
  (`FailureLog.ThresholdSuppresses`, `FailureLog.ThresholdCanMiss`). A restart changes an answer exactly in that case
  (`FailureTracker.RestartMattersExactlyWhen`).
- With a deployment ID set, a provider whose listing carries no tag loses every session older than ten minutes, and none
  of its instances is ever found to be an orphan (`Reconciliation.LiveSessionGhosted`, `Reconciliation.UntaggedListing`).
- A reconciliation pass can destroy the instance of an active session. It can exactly when the instance's ID is not in
  the session's row when the pass reads the table: the create call is past the provider call and has not stored the ID,
  ended without storing it, or the ID was cleared again (`ProtocolOrphans.PassDestroysActiveExactlyWhen`;
  `ProtocolTiming.InFlightInstanceCanBeLost` is such a run).
- With listings that are complete and carry the deployment's tag, live sessions are safe from the ghost check exactly
  when creation and judgement together stay under the grace period (`ProtocolTiming.GracePeriodIsExact`).
- The destroy lock is documented to admit one destroy operation at a time per session. Since it leaves the lock table
  before it is released, it does so, and admits one over the whole life of a session, exactly when no store call fails
  and no other writer makes the row ready for destruction again (`DestroyLock.OneAtATimeExactlyWhen`,
  `DestroyLock.DestroyOnceExactlyWhen`). The manager is such a writer: after a destroy that could not be verified it
  writes back its running copy (`DestroyLock.ReopenedRowLetsTwoIn`, `LifecycleManager.Manager.EndSession`).
- A failed session lets go of its instance after one destroy call, whatever came of it. The instance is sure to be dead
  then exactly when its provider is registered and reliable, or it was dead before (`Enforcement.LetGoIsDeadExactlyWhen`;
  `Enforcement.Survives` is the run in which it lives on). A survivor is an orphan for the next reconciliation
  (`Enforcement.SurvivorIsOrphan`).
- One request can use an offer twice, exactly when the offer's ID is empty or has a comma
  (`RetryChain.UsedTwiceExactlyWhen`; `RetryChain.RunComeback` is such a run).
- Failures do not lower the confidence a buyer sees of a fresh offer whose confidence is zero, since zero reads as
  certainty (`Offers.FailuresLowerConfidence`). A Vast.ai listing gives zero exactly to a spot offer without a positive
  price on a host without any reliability (`Offers.ZeroConfidence`); the other clients never do.
- Summary breakdowns ignore the session and provider conditions of a query (`CostStorage.ConservedExactlyWhen`).
- No benchmark entry of an undisturbed run ends as a timeout (`BenchmarkRun.DoneIsComplete`), and an entry being
  benchmarked no longer tells which worker claimed it (`BenchmarkRun.LaunchForgetsWorker`).
- Two background refreshes of a key can overlap: the staleness check and the request for a refresh take the lock
  separately. They never do exactly when no time passes between the two and a provider call takes no longer than three
  quarters of the TTL (`OfferCache.OneRefreshExactlyWhen`).
- VM names do not carry a deployment tag that starts with `deploy-`, and names whose tag is cut after a hyphen are not
  acceptable (`InstanceNames.NameRoundTrip`, `InstanceNames.NameAccepted`).

## Model

| member | source | states |
|---|---|---|
| SessionStorage.UpdateGoesThrough | internal/storage/db.go:199-206 | an update that does not make an inactive row active never violates the unique index |
| SessionStorage.SessionStore.Create | internal/storage/sessions.go:24-81 | inserts exactly when the ID is new and no active row has the same consumer and offer; tells a duplicate from other errors |
| SessionStorage.StaleCopyUndoes | internal/storage/sessions.go:125-189 | reads give copies and updates write every mutable column, so writing back a copy undoes whatever was written to the row since it was read |
| SessionStorage.SessionStore.Update | internal/storage/sessions.go:140-189 | writes the mutable columns of one row, and fails exactly when the row is missing or the unique index would break |
| SessionStorage.SessionStore.ListInternal | internal/storage/sessions.go:192-255 | every matching row once, and nothing else |
| SessionStorage.SessionStore.GetActiveSessions | internal/storage/sessions.go:258-266 | the pending, provisioning and running rows |
| SessionStorage.SessionStore.GetActiveSessionsByProvider | internal/storage/sessions.go:269-278 | those of one provider |
| SessionStorage.SessionStore.GetExpiredSessions | internal/storage/sessions.go:281-288 | the running rows past their expiry |
| SessionStorage.SessionStore.GetFailedSessionsWithInstances | internal/storage/sessions.go:292-297 | the failed rows that still name an instance |
| SessionStorage.SessionStore.GetSessionsByStatus | internal/storage/sessions.go:300-304 | the rows with one of the given statuses |
| Provisioner.Provisioner.CreateSession | internal/service/provisioner/service.go:409-697 | two-phase creation with failing writes and provider calls: for each way it can end, the exact tables; the row is written before the provider is asked, at most one instance appears, tagged with the session, only a launched row names it, and one that cannot be recorded is destroyed again, surely if the provider is reliable |
| Provisioner.Provisioner.DestroyWithVerification | internal/service/provisioner/service.go:1272-1337 | under any provider faults success means the instance is missing, not running or was never there; nothing but that instance is touched; a reliable provider needs one round |
| Provisioner.Provisioner.DestroySession | internal/service/provisioner/service.go:1175-1269 | the exact outcome for every status under any faults: an active row ends stopped and dead, or is left stopping with an error; a failed one lets go of its instance; other rows are untouched |
| Provisioner.Provisioner.FailSession | internal/service/provisioner/service.go:1477-1508 | one attempt on the instance, then the row is failed and goes on naming it |
| Enforcement.ChecksCompose | internal/service/lifecycle/manager.go:279-308 | the four checks in order equal one pass with one case per row: nothing is handled twice or missed between checks |
| Enforcement.PassEnforces | internal/service/lifecycle/manager.go:311-602 | after a fault-free pass no row is overdue, stuck too long or failed with an instance; enforced rows are terminal and their instances gone; every other row is as before |
| Enforcement.OthersKeepInstances | internal/service/lifecycle/manager.go:311-602 | the instance of a row that is not enforced is untouched |
| Enforcement.EnforcesExactlyWhen | internal/service/lifecycle/manager.go:311-602 | what a pass enforces is, in the fields of the row: running past the expiry, or past the hard limit without the override; stopping or provisioning beyond the timeout; failed with an instance; nothing else |
| Enforcement.EnforcedInFields | internal/service/lifecycle/manager.go:311-602 | what becomes of a row in each of these cases, with and without faults |
| Enforcement.InstanceInFields | internal/service/lifecycle/manager.go:311-602 | the instance of a row in order is untouched under any faults; without faults that of any other row is gone |
| Enforcement.ActedFourTimes | internal/service/lifecycle/manager.go:279-308 | under any faults the four checks leave an overdue row stopped and dead, or as it was but for the error text, and every other row as a fault-free pass does |
| Enforcement.KeptIsStillOverdue | internal/service/lifecycle/manager.go:535-557 | a row written back after a failed destroy is overdue again at every later pass |
| Enforcement.LetGoIsDeadExactlyWhen | internal/service/provisioner/service.go:1187-1214 | over all a provider may do, the instance of a failed row is dead once the row lets go of it if and only if the provider is registered and reliable, or it was dead before |
| Enforcement.Survives | internal/service/provisioner/service.go:1192-1206 | a run in which the row lets go of a running instance |
| Enforcement.SurvivorIsOrphan | internal/service/lifecycle/reconciler.go:286-292 | a survivor is named by no active row, and the next fault-free reconciliation of a tagged listing destroys it |
| Enforcement.LetGoIsOrphan | internal/service/lifecycle/manager.go:567-602 | whatever a whole pass lets go of, if its instance survives and is tagged, is an orphan |
| LifecycleManager.Manager.EndSession | internal/service/lifecycle/manager.go:535-557 | the destroy call ends the row, or the stale running copy is written back with the error; that write always passes the unique index |
| LifecycleManager.Manager.RunCheck | internal/service/lifecycle/manager.go:311-476 | one check over all listed rows: exact without faults, each row ended, kept or as prescribed with them; a row whose own fields are in order is as before under any faults |
| LifecycleManager.Manager.CheckOrphans | internal/service/lifecycle/manager.go:392-420 | reports exactly the running rows past expiry and grace period, and changes nothing |
| LifecycleManager.Manager.RunChecks | internal/service/lifecycle/manager.go:279-308 | under any faults a row in order is as before, and so is its instance; a running row past its expiry, or past the hard limit without the override, is stopped with its instance dead or is as it was but for the error text; a row stuck longer than the timeout fails or lets go of its instance; without faults every row that is not in order ends and its instance goes, and the whole pass is the function Enforce |
| Reconciler.Save | internal/storage/sessions.go:140-189 | a copy that keeps its row active or ends it is written as it is |
| Reconciler.Reconciler.BuildLocalMap | internal/service/lifecycle/reconciler.go:262-268 | maps exactly the instance IDs that active rows of the provider name, each to such a row |
| Reconciler.Reconciler.BuildProviderMap | internal/service/lifecycle/reconciler.go:270-284 | the listed instances that are ours, all of them if the listing is complete; none whose tag and the deployment ID disagree before the shorter of them ends |
| Reconciler.Reconciler.HandleOrphans | internal/service/lifecycle/reconciler.go:286-350 | only seen instances that no active row names are destroyed, all of them without faults |
| Reconciler.Reconciler.HandleGhosts | internal/service/lifecycle/reconciler.go:293-413 | exactly the unseen rows past the grace period are stopped |
| Reconciler.Reconciler.ReconcileProvider | internal/service/lifecycle/reconciler.go:245-302 | whatever the provider does, instances of other deployments, without a tag, of other providers or named by an active row are as before, and only rows running or provisioning for ten minutes are stopped; without faults the result is Reconcile for that provider |
| Reconciler.Reconciler.RunReconciliation | internal/service/lifecycle/reconciler.go:221-302 | the same for a pass over all providers under any faults; without faults exactly the tagged instances that no active row names go, exactly the old rows without a tagged instance are stopped, and the pass is Reconcile for all providers at once |
| Reconciler.Reconciler.RecoverStuckSession | internal/service/lifecycle/reconciler.go:415-489 | the settlement of one provisioning or stopping row: what it becomes for every answer, with and without faults, and that only a stopping one may lose its instance |
| Reconciler.Reconciler.RecoverFailedSession | internal/service/lifecycle/reconciler.go:491-543 | the settlement of one failed row that names an instance, for every answer, with and without faults |
| Reconciler.Reconciler.RecoverStuckSessions | internal/service/lifecycle/reconciler.go:415-543 | both halves of recovery, row by row, are Recover without faults |
| Reconciler.Reconciler.RunStartupSweep | internal/service/lifecycle/startup.go:117-161 | crash recovery: from any tables, without faults and with distinct instance IDs, the exact fate of every row and every instance in the fields of the tables (a provisioning row whose instance runs ends running with the reported connection, one without an ID fails, one whose instance is missing fails or stops, and so on); every own instance is named by an active row, every old row has its instance, nothing is provisioning, no failed row names an instance, and healthy sessions are untouched |
| Reconciler.ReconcileOneMore | internal/service/lifecycle/reconciler.go:221-242 | reconciling one provider does not disturb the result for others |
| Reconciler.RecoverStep | internal/service/lifecycle/reconciler.go:426-543 | settling one row never changes what a later row sees of its own instance |
| Reconciliation.ReconcileCleans | internal/service/lifecycle/reconciler.go:245-302 | after a fault-free pass no orphan and no ghost is left, from any tables |
| Reconciliation.BackedRowIsUntouched | internal/service/lifecycle/reconciler.go:245-302 | a row whose instance is listed as ours, and that instance, are left as they are |
| Reconciliation.NothingStuckAfterRecovery | internal/service/lifecycle/reconciler.go:415-543 | after recovery no row is provisioning and no failed row names an instance |
| Reconciliation.HealthyAfterRecovery | internal/service/lifecycle/reconciler.go:415-543 | recovery leaves every healthy session and its instance as they were |
| Reconciliation.SweepRecovers | internal/service/lifecycle/startup.go:117-161 | what the sweep achieves, as a property of the tables it produces |
| Reconciliation.SweepInFields | internal/service/lifecycle/reconciler.go:415-543 | row by row, for each status and each state of the instance: what the sweep makes of the row, and whether the instance it names stays as it is or goes |
| Reconciliation.SweepTakesUnnamed | internal/service/lifecycle/startup.go:117-161 | an instance no row names is destroyed if and only if its provider is registered and its tag is the deployment's |
| Reconciliation.ClaimsExactlyWhen | internal/provider/interface.go:188-198 | an instance counts as ours if and only if there is no deployment ID, or it has a tag and one of tag and ID begins with the other |
| Reconciliation.PassInFields | internal/service/lifecycle/reconciler.go:245-413 | a fault-free pass leaves the instances of other deployments and without a tag as they are, takes exactly the tagged ones that no active row names, and stops exactly the rows running or provisioning for ten minutes whose instance is missing or not tagged |
| Reconciliation.KeptOthers | internal/provider/interface.go:188-198 | whatever a pass does to tagged instances, those whose tag neither begins the deployment ID nor begins with it are as before |
| Reconciliation.KeepsNamedStep | internal/service/lifecycle/reconciler.go:221-242 | one more faulty provider touches nothing that the pass as a whole may not touch |
| Reconciliation.LiveSessionGhosted | internal/service/lifecycle/reconciler.go:353-393 | a live listed session is stopped as a ghost if and only if it is old enough and its listed tag is not the deployment's |
| Reconciliation.UntaggedListing | internal/provider/vastai/client.go:454-463 | with a deployment ID and untagged listings, every old session is stopped as a ghost and no instance is ever an orphan |
| Protocol.StepKeeps | internal/service/provisioner/service.go:446-712 | every step of every actor keeps all rows, copies and instances tied to the session they were made for |
| Protocol.NothingUntracked | internal/service/provisioner/service.go:446-712 | in every reachable state, with crashes between any two writes, each instance is tagged with an existing row, no session has two instances and no two rows name one |
| Protocol.AnyRunIsRecovered | internal/service/lifecycle/startup.go:117-161 | after any run a fault-free pass leaves no unreferenced own instance, and a fault-free sweep recovers everything |
| ProtocolPasses.EnforcementStaysInside | internal/service/lifecycle/manager.go:279-308 | a manager pass with any faults keeps the invariant of every reachable state |
| ProtocolPasses.SweepStaysInside | internal/service/lifecycle/startup.go:117-161 | so does a startup sweep |
| ProtocolPasses.LaunchIsARun | internal/service/provisioner/service.go:446-712 | however a creation ends, what it did is a run of protocol steps |
| ProtocolOrphans.PassDestroysExactly | internal/service/lifecycle/reconciler.go:245-292 | a pass about to read the table can destroy a listed instance if and only if no active row names it at that moment, whatever happens before, between and after |
| ProtocolOrphans.UnnamedExactlyWhen | internal/service/provisioner/service.go:592-697 | over all runs a row fails to name its session's instance if and only if the create call is past the provider call without having stored the ID, ended without storing it, or the row's last writer cleared it |
| ProtocolOrphans.ReferencedExactlyWhen | internal/service/lifecycle/reconciler.go:256-268 | in every reachable state an instance is referenced exactly by the active row of its own session naming it |
| ProtocolOrphans.PassDestroysActiveExactlyWhen | internal/service/lifecycle/reconciler.go:245-292 | both together: exactly when a pass can destroy an instance it has seen |
| ProtocolTiming.LiveSessionNeverGhosted | internal/service/lifecycle/reconciler.go:353-393 | if creation plus judgement take less than ten minutes, no row is stopped as a ghost while its instance exists |
| ProtocolTiming.GracePeriodIsExact | internal/service/lifecycle/reconciler.go:353-393 | and only then |
| ProtocolTiming.InFlightInstanceCanBeLost | internal/service/lifecycle/reconciler.go:287-292 | a run of that kind: a pass destroys the instance of an active session because its ID was not recorded yet |
| DestroyLock.DestroyedOnce | internal/service/provisioner/service.go:1154-1269 | with a working store, for any number of concurrent calls in any order and whatever other writers do short of making the row ready again: at most one destruction is started, and never two at once |
| DestroyLock.FailedReadLetsTwoIn | internal/service/provisioner/service.go:1154-1185 | after a failed read two calls with different locks are in their destructions at once |
| DestroyLock.FailedWriteLetsTwoIn | internal/service/provisioner/service.go:1222-1246 | so they are after a failed write of the stopping status, on top of the destruction of the call whose write failed |
| DestroyLock.ReopenedRowLetsTwoIn | internal/service/lifecycle/manager.go:535-557 | and so they are without any store fault, after another writer put the row back to running |
| DestroyLock.DestroyOnceExactlyWhen | internal/service/provisioner/service.go:1154-1217 | over all runs one destruction at most, if and only if no store call fails and no other writer makes the row ready again |
| DestroyLock.OneAtATimeExactlyWhen | internal/service/provisioner/service.go:1154-1173 | the documented promise, never two destroy operations at once, under exactly the same condition |
| FailureLog.SuppressionIsJustified | internal/service/inventory/failure_tracker.go:227-239 | an open suppression began with at least three failures in the thirty minutes before it |
| FailureLog.ConfidenceRange | internal/service/inventory/failure_tracker.go:426-465 | the multiplier is 0 exactly when suppressed and otherwise between 0.05 and 1 |
| FailureLog.ConfidenceIsMultiplier | internal/service/inventory/failure_tracker.go:426-465 | in terms of the failures themselves: 0 for a hidden offer; without own failures in the last half hour 0.3 if three distinct offers of the provider and type failed in the last hour and 1 otherwise; and 0.7 of that per own failure, down to 0.05 |
| FailureLog.MultiplierOfLog | internal/service/inventory/failure_tracker.go:280-324 | the multiplier read off the whole log is that one |
| FailureLog.OneMoreFailure | internal/service/inventory/failure_tracker.go:296-323 | a failure that leaves its offer visible takes the multiplier to 0.7 of what it was, times 0.3 if it makes the third offer of the type fail, but not below 0.05 |
| FailureLog.RecentAreFailures | internal/service/inventory/failure_tracker.go:411-424 | the recent count is the number of log entries of the offer in the window |
| FailureLog.SuppressionStep | internal/service/inventory/failure_tracker.go:227-247 | one failure at a time: the third failure of an offer in half an hour begins a suppression if none is open, the first failure of any offer more than half an hour later ends it |
| FailureLog.RecordingNeverRaises | internal/service/inventory/failure_tracker.go:204-274 | recording a failure raises no offer's multiplier at that instant |
| FailureLog.FullRecovery | internal/service/inventory/failure_tracker.go:280-324 | an hour after the last failure every multiplier is 1 |
| FailureLog.ThresholdSuppresses | internal/service/inventory/failure_tracker.go:227-239 | a failure that reaches the threshold hides the offer if and only if no earlier suppression has run out uncleared |
| FailureLog.SecondRoundMisses | internal/service/inventory/failure_tracker.go:227-239 | three failures hide an offer, two more come during the cooldown and one after it: three in the window, and the offer is not hidden |
| FailureLog.ThresholdCanMiss | internal/service/inventory/failure_tracker.go:21-38 | so the documented threshold alone does not suppress |
| FailureStorage.OfferFailureStore.SetSuppression | internal/storage/failures.go:52-64 | afterwards the offer has one row with the new time and its first provider and type; every other row is as it was |
| FailureStorage.OfferFailureStore.CleanupOldFailures | internal/storage/failures.go:132-139 | deletes exactly the failures older than a time |
| FailureStorage.OfferFailureStore.LoadRecentFailures | internal/storage/failures.go:77-102 | the failures newer than a time, oldest first |
| FailureStorage.OfferFailureStore.LoadActiveSuppressions | internal/storage/failures.go:105-129 | exactly the suppressions that have not run out |
| FailureTracker.RecordKeepsCoupling | internal/service/inventory/failure_tracker.go:204-274 | one more failure, with its pruning, keeps the tracker in step with the past: the log that never forgets, and since when each offer is suppressed |
| FailureTracker.SameAnswers | internal/service/inventory/failure_tracker.go:280-342 | a tracker in step with the past gives its counts, suppressions, degraded types and multipliers at every later time |
| FailureTracker.PrunedRunAnswersAsLog | internal/service/inventory/failure_tracker.go:204-342 | for every sequence of failures the pruned tracker answers every query as the full log does |
| FailureTracker.PrunedRecordJustifies | internal/service/inventory/failure_tracker.go:468-493 | as long as an offer is suppressed its pruned record still holds the three failures that justify it |
| FailureTracker.HiddenOffersAreJustified | internal/service/inventory/failure_tracker.go:227-239 | in every run |
| FailureTracker.WriteThroughMirrors | internal/service/inventory/failure_tracker.go:252-274 | writing through keeps the database a mirror of the past |
| FailureTracker.MirrorAges | cmd/server/main.go:125-163 | and it is still one at any later restart |
| FailureTracker.ReloadKeepsCoupling | internal/service/inventory/failure_tracker.go:125-183 | replaying the stored rows gives a tracker in step with the past, less the suppressions that have run out, and the rows still mirror it |
| FailureTracker.RunWithRestartsAnswers | internal/service/inventory/failure_tracker.go:125-342 | for every run of failures and restarts the tracker answers every query as the log of all failures and the suppressions of the past do |
| FailureTracker.HiddenIsJustifiedAcrossRestarts | internal/service/inventory/failure_tracker.go:125-239 | also across restarts an offer is hidden only while its record holds three failures that justify it |
| FailureTracker.RestartIsInvisible | internal/service/inventory/failure_tracker.go:125-183 | a restart changes no answer until the next failure |
| FailureTracker.RestartMattersExactlyWhen | internal/service/inventory/failure_tracker.go:150-239 | the next failure is answered alike with and without the restart, except exactly when the offer's suppression had run out uncleared and this failure reaches the threshold |
| FailureTracker.OfferFailureTracker.CleanupLocked | internal/service/inventory/failure_tracker.go:468-530 | prunes events, suppressions and types in place, and clears the same suppressions and failures in the database |
| FailureTracker.OfferFailureTracker.RecordFailure | internal/service/inventory/failure_tracker.go:204-274 | the new state is the specified one, and the tracker stays in step with the past and the database a mirror of it |
| FailureTracker.OfferFailureTracker.IsSuppressed | internal/service/inventory/failure_tracker.go:327-342 | the answer of the whole past: hidden for half an hour from the beginning of the open suppression |
| FailureTracker.OfferFailureTracker.GetConfidenceMultiplier | internal/service/inventory/failure_tracker.go:280-324 | the multiplier of the whole past, in terms of its failures: 0 exactly when suppressed; otherwise 0.3 or 1 by whether three offers of the type failed in the last hour, times 0.7 for each own failure of the last half hour, and at least 0.05 |
| FailureTracker.OfferFailureTracker.LoadFromStore | internal/service/inventory/failure_tracker.go:125-183 | replay restores a tracker in step with the lost past |
| FailureTracker.LoadFailureData | cmd/server/main.go:125-163 | the restart: load both tables at slightly different times, replay, and go on in step with the past |
| Offers.FailuresLowerConfidence | internal/service/inventory/service.go:429-451 | failures lower the confidence seen of an offer if and only if it is not zero or the offer is stale |
| Offers.StalenessIsLinear | internal/service/inventory/service.go:468-493 | the staleness factor falls from 1 at two minutes to a half at five, by a sixth a minute |
| Offers.AdjustedInFields | internal/service/inventory/service.go:432-448 | only the confidence of an offer is adjusted: times the staleness factor, and times the multiplier if that is below 1 |
| Offers.ReturnedExactlyWhen | pkg/models/gpu.go:56-85 | an offer is shown if and only if it is available, not suppressed and meets each condition of the filter that is set |
| Offers.ComparableExactlyWhen | internal/service/inventory/service.go:669-725 | a replacement is one of the original's provider and type, or of its provider and at least its memory, or of at least its memory, by the scope, within 1.2, 1.5 or 2 times its price, and none of those to avoid |
| Offers.ZeroConfidence | internal/provider/vastai/types.go:137-153 | a Vast.ai listing gives zero confidence exactly to a spot offer without a positive price on a host without reliability |
| Offers.SortedRanked | internal/service/inventory/service.go:454-462 | ranking is by confidence, then price, and loses no offer |
| Offers.FilterAndSort | internal/service/inventory/service.go:429-465 | returns exactly the adjusted offers that are available, not suppressed and meet each condition of the filter, by confidence downwards and then price upwards |
| Offers.FindComparableOffers | internal/service/inventory/service.go:669-754 | at most five candidates, best first; each meets the conditions of its scope and price in fields of both offers, none is excluded by ID, machine or suppression, and no offer that meets them is passed over for a worse one |
| Offers.SelectFromTopN | pkg/models/gpu.go:100-124 | picks one of the first few, within the run of offers no dearer than the tolerance above the first; nothing from nothing; panics exactly when several offers leave an empty run |
| OfferLists.ListSurvives | internal/service/provisioner/service.go:795-800 | the list of failed offers survives its column if and only if no ID has a comma and it is not one empty ID |
| OfferLists.ExclusionSurvives | internal/service/provisioner/service.go:795-800 | an ID is still excluded after the round trip if and only if it has no comma, whatever the other IDs are |
| RetryChain.Normalized | internal/service/provisioner/service.go:366-379 | no request may use more than five retries |
| RetryChain.RetriesAllowed | internal/service/provisioner/service.go:366-379 | none without auto-retry, three by default, else as many as asked for up to five |
| RetryChain.Retrier.CreateSessionWithRetry | internal/service/provisioner/service.go:384-712 | whatever the calls answer, the sessions form a chain, each found as a comparable offer avoiding what the one before it was told to avoid; on success all sessions of the go link to the last one; after a retryable launch failure with retries left the only comparable offer seen is launched and linked |
| RetryChain.Retrier.TriggerAsyncRetry | internal/service/provisioner/service.go:785-853 | a retry after failed verification, from the list read back from the row's column, extends the chain; when none is created only a permanent failure changes the column |
| RetryChain.Retrier.RunRequest | internal/service/provisioner/service.go:769-782 | whatever the world answers, a request with all its retries ends, with at most six sessions, and no offer with a clean ID is used twice; it ends with a session only if that is verified or no retries are left |
| RetryChain.FailedRemembers | internal/service/provisioner/service.go:1115-1122 | adding the row's own offer to the column forgets none, although it tests for a substring |
| RetryChain.OffersUsedOnce | internal/service/provisioner/service.go:615-662 | in every chain no offer with a clean ID is used twice, nor any offer within one go |
| RetryChain.MachinesUsedOnce | internal/service/provisioner/service.go:618-622 | within one go no machine is used twice |
| RetryChain.RunComeback | internal/service/provisioner/service.go:785-853 | a run of a request and two later retries that uses an offer, another one, and the first one again, and the exact rows it leaves |
| RetryChain.ComebackIsAChain | internal/service/provisioner/service.go:795-800 | those rows are a chain in which one offer is used twice |
| RetryChain.UsedTwiceExactlyWhen | internal/service/provisioner/service.go:795-800 | some request uses an offer twice if and only if the offer's ID is empty or has a comma |
| RetryChain.PriceBound | internal/service/inventory/service.go:677-698 | in one go on the same GPU type, with positive prices, the k-th offer costs at most 1.2 to the k times the first |
| OfferCache.OfferCache.GetOffersWithCache | internal/service/inventory/service.go:249-288 | by the age of the entry: its offers as fresh for three quarters of the TTL, as stale until the TTL if there are any, the error of a failed fetch during the backoff, nothing otherwise; and the refresh a stale answer asks for |
| OfferCache.OfferCache.TriggerBackgroundRefresh | internal/service/inventory/service.go:292-315 | starts a refresh unless the entry says one is under way |
| OfferCache.OfferCache.FinishRefresh | internal/service/inventory/service.go:335-369 | a success replaces the entry, a failure keeps its offers; other keys are untouched |
| OfferCache.OfferCache.FetchOffersSync | internal/service/inventory/service.go:374-426 | success and failure both replace the entry, with the TTL of the provider or the backoff |
| OfferCache.KeyHasProvidersTTL | internal/service/inventory/service.go:235-244 | every key of a provider gets that provider's TTL |
| OfferCache.FailuresAndOffers | internal/service/inventory/service.go:341-403 | a failed background refresh changes no later answer; a failed waited-for fetch answers an error until the backoff ends |
| OfferCache.StepKeeps | internal/service/inventory/service.go:249-426 | every step keeps a running refresh covered by its entry |
| OfferCache.SlowProviderOverlaps | internal/service/inventory/service.go:374-426 | a run with two refreshes of one key at once, because a provider call outlasts the time an entry is fresh |
| OfferCache.SlowCallerOverlaps | internal/service/inventory/service.go:257-315 | another one, however fast the provider, because a caller asks for the refresh after the entry it saw was replaced |
| OfferCache.OneRefreshExactlyWhen | internal/service/inventory/service.go:249-426 | over all runs at most one refresh per key is under way if and only if no time passes between seeing a stale entry and asking for its refresh, and the call timeout is at most three quarters of the TTL |
| Manifest.FirstClaimWins | internal/benchmark/manifest.go:291-309 | of any sequence of attempts to claim entries exactly the first on each pending entry wins, and the entry keeps that worker |
| Manifest.ManifestStore.GetPendingByPriority | internal/benchmark/manifest.go:214-230 | the pending entries of the run, each once, by priority and then creation; what the limit cuts off does not come before what is listed |
| Manifest.ManifestStore.GetSummary | internal/benchmark/manifest.go:250-271 | counts the entries of a run by status |
| Manifest.AllSettled | internal/service/benchmark/runner.go:369-393 | when all entries succeeded or failed the two counts add up to all and the others are zero |
| BenchmarkRunner.Runner.ProcessEntry | internal/service/benchmark/runner.go:400-456 | tried again once, exactly after a failure that allows it; the entry ends in success exactly when its last attempt succeeded, otherwise in failure |
| BenchmarkRunner.Runner.ProcessRun | internal/service/benchmark/runner.go:258-396 | the dispatch loop ends; each entry of the run is claimed exactly once and settled, the first count is that of the successes and both add up to all entries, and other runs are untouched |
| BenchmarkRun.StepKeeps | internal/service/benchmark/runner.go:258-479 | every step of the dispatcher and of any worker keeps the invariant of the run |
| BenchmarkRun.OneAtATime | internal/service/benchmark/runner.go:400-479 | under every schedule at most one worker is behind the gate, no entry is claimed twice and none is tried a third time |
| BenchmarkRun.DoneIsComplete | internal/service/benchmark/runner.go:361-396 | when the run is done each entry was claimed once and succeeded or failed, never timed out; the counts add up to the total and the status is final |
| BenchmarkRun.LaunchForgetsWorker | internal/service/benchmark/runner.go:625-632 | while an entry is benchmarked its row no longer names the worker that claimed it, since the launch writes back the copy fetched before the claim |
| BenchmarkRun.NeverStuck | internal/service/benchmark/runner.go:258-358 | a run that is not done always has a step it can take |
| BenchmarkRun.RunTerminates | internal/service/benchmark/runner.go:258-456 | every schedule of n entries ends within 9n + 4 steps, and only with the run done |
| CostStorage.CostStore.Record | internal/storage/costs.go:25-60 | inserts or overwrites the row of the session and hour, which stays the only one |
| CostStorage.UpsertedRows | internal/storage/costs.go:30-42 | after recording the table holds the new row and every row of other sessions and hours |
| CostStorage.TotalIsPriceTimesHours | internal/storage/costs.go:63-73 | with one price the total of a session is that price times its number of recorded hours |
| CostStorage.CostStore.GetSummary | internal/storage/costs.go:93-136 | total, hours and sessions of the matching rows, and both breakdowns, in the fields of rows and query |
| CostStorage.CostStore.AggregateCostsByColumn | internal/storage/costs.go:198-229 | one group per value that occurs, with the sum of its rows; the groups add up to all rows of the consumer and period |
| CostStorage.ConservedExactlyWhen | internal/storage/costs.go:138-195 | the breakdowns add up to the total on every table if and only if the query names no session and no provider, or covers no time |
| CostStorage.BreakdownExcess | internal/storage/costs.go:138-195 | otherwise they exceed it by exactly the rows of other sessions and providers |
| CostTracker.Tracker.RecordFinalCost | internal/service/cost/tracker.go:284-321 | afterwards the table holds a row of the session for exactly each clock hour from creation to the end, with its price and owner, and the rows of other sessions and hours; nothing changes without a price or a duration |
| CostTracker.Tracker.RecordCostsForRunningSessions | internal/service/cost/tracker.go:241-279 | afterwards every running session of the table has its row for the present clock hour, with its price, consumer, provider and GPU type; every row of another session or hour is as before, and there is no other |
| CostTracker.EventLeads | internal/storage/costs.go:232-245 | a tick or a final charge writes exactly the rows it owes and keeps those of other sessions and hours |
| CostTracker.HoursOfRun | internal/service/cost/tracker.go:241-321 | after any run, settled or not, the hours charged to a session are exactly those in which a tick found it running and those its final charges touch |
| CostTracker.ExactBilling | internal/service/cost/tracker.go:241-321 | after any mix of ticks and final charges a session's total is its price times the clock hours it touched, more than its duration and less than two hours more |
| CostTracker.ChargingAgainChangesNothing | internal/storage/costs.go:25-60 | further ticks and final charges do not change a settled total |
| InstanceNames.SanitizeInstanceName | internal/provider/bluelobster/types.go:269-281 | the loop computes the specified name |
| InstanceNames.SanitizedIsAccepted | internal/provider/bluelobster/types.go:265-281 | the result always matches the provider's pattern, and names that match are exactly the ones left unchanged |
| InstanceNames.SanitizedIsCore | internal/provider/bluelobster/types.go:269-281 | the result is what is allowed between the first and the last letter or digit of the name, or the fallback if that has no two characters |
| InstanceNames.NameRoundTrip | internal/provider/bluelobster/client.go:346-365 | session ID and deployment tag come back from the generated name if and only if the tag does not start with the separator's word |
| InstanceNames.ListedInstanceIsOurs | internal/provider/interface.go:188-198 | and the listed instance is recognized as the deployment's |
| InstanceNames.NameWithoutDeployment | internal/provider/bluelobster/client.go:346-365 | without a deployment ID the session ID comes back if and only if it does not contain the separator |
| InstanceNames.NameAccepted | internal/provider/bluelobster/client.go:424-438 | the name matches the provider's pattern and its 64 characters if and only if session ID and tag have at most 48 characters together and the tag was not cut right after a hyphen |

## Left out

- HTTP handlers, the CLI, provider HTTP clients, SSH, key generation and cloud-init text: input and output. A provider is
  an instance table behind create, destroy, status and list calls.
- SQL text, migrations and JSON: each table is a map or a sequence with its keys and its unique index. Rows with equal
  sort keys may come in any order.
- Metrics, audit logs, event handlers and the health reports of the tracker: they change no state that is modelled.
- Clock details: one reading of the clock per pass, no time zones, and a tracker whose write-through is applied in order
  with the tracker's own time stamps.
- Context cancellation and timeouts, except where a destroy is abandoned.
- The SSH and API verification loops beyond their outcomes (running, or failed and destroyed), and the classification
  of error texts. Error texts leave out the identifiers in them.
- Circuit breakers, backoff, disk estimation, cron matching, template filters and benchmark statistics: nothing proved
  here turns on them.
- ExtendSession, SetHardMaxOverride, SignalDone and graceful shutdown: single-row updates, covered by the writes any
  actor may make in `Protocol`.
- EvictOffer and InvalidateCache: the cache is modelled without them, so its overlap result is for a cache nothing
  invalidates. Shutdown of background refreshes is not modelled.
- OfferCache.OfferCache.GetOffersWithCache: looks and asks in one call; the two are separate steps where refreshes overlap.
- The budget stop and cancellation of a benchmark run, the exclusion of failed offers between its two attempts and the
  final cleanup of its sessions. `BenchmarkRunner` runs the workers one after the other; concurrency is in `BenchmarkRun`, whose
  steps they are.
- The budget alerts of the cost tracker and the orchestrator behind the CLI.
- Provisioner.Provisioner.CreateSession: the write that marks a row failed always goes through; the other two are given
  as parameters.
- ProtocolPasses.LaunchIsARun: a launch that runs alone; the protocol interleaves its steps with everything else.
- FailureTracker.WriteThroughMirrors: the database is written in order and without loss, where the code writes in the
  background and only logs an error.
- FailureTracker.OfferFailureTracker.RecordFailure: the same for its last clause.
- RetryChain.PriceBound: holds within one go only, because a later retry compares with the offer's price of that moment.
- RetryChain.Retrier.CreateSessionWithRetry: rows of the chain stand for session rows with the columns retries use; the
  check for an existing session is one of the ways a creation is refused.
- LifecycleManager.Manager.RunChecks: the pass runs alone on the two tables; interleavings of all actors are in
  `Protocol`, and of destroy calls with each other and with any other writer of the row in `DestroyLock`.
- SessionStorage.SessionStore.ListInternal: without the consumer condition, the limit and the order by creation time; no
  caller that is modelled uses the first two or depends on the third.
- Provisioner.Provisioner.DestroySession: provider faults only; failing store calls are in `DestroyLock`.
- ProtocolTiming.LiveSessionNeverGhosted: the listing step of `Protocol` reports every instance of the provider, and the
  instances carry a tag the deployment claims. Listings that are incomplete are in `Reconciler.Reconciler.ReconcileProvider`
  only, which then promises no more than that unreferenced instances and old rows are touched.
- BenchmarkRunner.Runner.ProcessEntry: the second attempt may be given the first one's offer again, so the claim holds
  with and without the exclusion of failed offers.
- BenchmarkRunner.Runner.ProcessRun: the workers run one after the other, without budget stop or cancellation.
- Reconciler.Reconciler.RunStartupSweep: listings are complete and each instance ID is named by one row, which
  `Protocol.NothingUntracked` proves for every reachable state; the clauses about orphans, ghosts and stuck rows left
  over also take every provider named by a row to be registered. With faults, recovery is stated row by row only.
