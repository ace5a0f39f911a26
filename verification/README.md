# DBUpgrade operator: a verified model

The operator migrates databases. A user stores a `DBUpgrade` object; the operator checks the running pods
and metrics, creates one Kubernetes Job for the spec, follows the Job, waits for the bake time, checks
metrics again and reports `Ready` or the reason why not. Reconciles of many objects, an admission webhook,
users, the Job controller, garbage collection and crashes of the operator interleave freely.

The model has three layers.

* **The gates and the decision.** `Semver`, `ImageRef`, `VersionGate`, `MetricGate`, `Conditions`,
  `Webhook` and `Decision` model what one call computes. Loops of the source are methods with loops,
  proved against a declarative meaning of what they compute.
* **The protocol.** `Protocol` is the state machine: stored objects, Jobs, reconciles under way, the clock
  and a history of events. A reconcile is five steps (read the object, look up the Job, act, create,
  write the status) and anything may come between two of them, a crash included. `Step` is total, so
  every sequence of actions is a run; a theorem about `Run(p, INIT, actions)` is about every reachable
  state. `StoreSafety`, `Isolation`, `StatusSafety`, `History`, `SpecHistory`, `Reruns`, `Victims`,
  `Uninterrupted`, `Serial`, `Wakeups`, `Bake` and `CompletionHistory` prove what all runs keep; `Deletions` says exactly
  when a migration is cut short, and `Counterexamples` builds the runs that show where a promise stops.
* **The controller.** `Atomic` proves that the five steps taken together are one atomic reconcile.
  `Reconciler` is the controller as it is written, a class whose methods change the API server's objects
  in place; its `Reconcile` does exactly what the five steps do. `OwnJobs` and `Progress` measure what an
  atomic reconcile achieves, and `Settling` proves that objects settle although others act between all steps.

## What the environment is taken to do

There is one active controller and reconciles of one object are serialized. Listing the Jobs answers all
Jobs of the namespace as they are, in any order. A status update is refused when the stored resource
version is not the one that was read. Times in a stored status are in whole seconds. A call that changes
something is answered, or it takes effect and its answer is lost, or it fails without effect; the operator
cannot tell the last two apart. Only the operator writes the status and only the operator creates Jobs that a `DBUpgrade` owns; others create and delete Jobs of their own, under
any name. A Job that is complete, or failed, stays so; what else its status says (active pods, completion
time) may change at any time. UIDs and resource versions are never issued twice. The spec hash is an
arbitrary function to eight characters: two specs may collide, and every claim about hashes is by hash. The
webhook may be installed or not (`Params.webhook`); a theorem that needs it says so.

## What the model shows about the code

These are consequences of the code as it is, each with a lemma.

* Migrations are not cut short if the webhook is installed, the spec changes only while no reconcile of the
  object is under way and only once the status of its Job's creation has landed, an unfinished Job can always be
  looked up, and no Job is created behind a lost answer (`Uninterrupted`). Each of these five is needed: for each,
  `Counterexamples` has a run that lacks it alone and deletes an unfinished Job. `Deletions` says exactly when a
  reconcile, and when a change of the spec, takes an unfinished Job away: a stale Job without active pods counts
  as over, although it may be pending.
* When the answer to a creation is lost, the status says `JobFailed` and `Progressing=False` while the Job runs, and
  the webhook lets the spec change (`Counterexamples.ChangeAfterLostAnswer`).
* Migrations of one object are serial: between two creations the first Job was always removed
  (`Reruns.MigrationsAreSerial`), and in orderly runs it had finished (`Serial.EachFinishesFirst`).
* Waiting for a running Job does not protect it to the end. The operator deletes what it has listed as not
  active: a stale Job that was active once is deleted as soon as it has no active pods, finished or not
  (`Counterexamples.DeletedAfterWaiting`), and one that becomes active between listing and deletion is deleted
  while it is active (`Counterexamples.DeletedWhileActive`). The comments at controllers/dbupgrade_controller.go:212
  and 227 promise more.
* Deletion is by name. What is deleted is the object's own Job, exactly unless that was garbage collected and a
  foreign Job took its name (`Victims.VictimIsOwnUnlessCollected`), which can happen
  (`Counterexamples.ForeignJobIsDeleted`).
* An unchanged spec is not migrated twice while its object exists. A reconcile that has read an object which
  is then deleted can create the same Job again after garbage collection (`Counterexamples.RerunAfterDeletion`).
* One wait for the bake time is enough unless the Job's completion time lies in the future by a fraction of a
  second; then one more second is waited for (`Bake.OneWaitIsEnough`). Seconds are truncated toward zero.
* The bake time left is computed in 32 bits. If it does not fit, the delay is negative and the object is not looked
  at again by itself. That takes a completion time in the future: at least two to the power of 31 less the bake
  time, in seconds (`Decision.OverflowIff`). For the longest bake time that the webhook admits one second is
  enough (`Counterexamples.BakeOverflowsInARun`).
* A Job without a completion time of its own is counted from the time that the operator saw it complete. The next
  reconcile reads that time in whole seconds, so up to a second earlier (`CompletionHistory.BakeSurvivesRestarts`).
* An AWS database with only a connection secret is admitted by the webhook, but the controller never migrates
  it and does not come back to it (`SpecHistory.AdmittedButNeverMigrated`).
* The repository's README gives a post-check with the threshold value "0" (README.md:378-380). The webhook
  takes zero for an empty value and rejects it (`Webhook.ZeroThresholdIsRejected`).
* The comment at internal/checks/version.go:36 says that a pass means that all matching pods have at least the minimum
  version. They do exactly if every one of them has a container that the check is about and, in non-strict mode,
  none was skipped (`VersionGate.PassMeansEveryPodMeets`). A pod without the named container is never compared,
  whether other pods have it (`VersionGate.UncomparedPodPasses`) or none has
  (`VersionGate.MissingContainerPasses`).
* The post-checks are made again at every reconcile, so a settled object stays settled exactly as long as they
  pass (`Progress.RankFalls`).
* Metric checks are skipped when there is no client configuration (`Params.restConfig`): "every check passed"
  always means every check that the operator can make.
* `jobCompletedAt` in the status is never cleared. The bake time counts from the Job's own completion time when
  it has one, which Kubernetes sets on complete Jobs; a complete Job without one counts from what an earlier
  Job left (`Decision.CompletedAt`, `CompletionHistory.BakeSurvivesRestarts`).

## Model

| member | source | states |
|---|---|---|
| Reconciler.DBUpgradeReconciler.Reconcile | controllers/dbupgrade_controller.go:102-134 | Working in place on the API server, a whole reconcile leaves it as the five protocol steps do, whatever the order of listing. It answers exactly the positive delay of the result that landed, an error unless the status write is answered, and no delay for a stored object exactly if the AWS settings are missing or its own current Job is complete with open gates or an overflowing bake time, or has failed |
| Reconciler.DBUpgradeReconciler.ReconcileDBUpgrade | controllers/dbupgrade_controller.go:138-309 | Through all branches in source order, the Jobs afterwards and the result are those of the atomic outcome for the one Job that the object owns |
| Reconciler.DBUpgradeReconciler.UpdateStatus | controllers/dbupgrade_controller.go:312-328 | Setting the conditions in place and updating stores the specified status under a fresh resource version, or nothing at all |
| Reconciler.DBUpgradeReconciler.GetJobForDBUpgrade | controllers/dbupgrade_controller.go:463-478 | The nested loops find the first listed Job with the object's UID among its owners |
| Reconciler.DBUpgradeReconciler.CreateMigrationJob | controllers/dbupgrade_controller.go:491-586 | A Job named after the object and the hash, owned by the object alone, appears unless the name is taken, which is reported as such |
| Reconciler.DBUpgradeReconciler.SyncJobStatus | controllers/dbupgrade_controller.go:589-676 | Ready only with a true Complete condition; a true Failed condition without one is not ready, not progressing, JobFailed, no requeue; with neither it progresses, by active pods; and as specified throughout |
| Decision.SyncMeaning | controllers/dbupgrade_controller.go:603-675 | For each combination of a Job's true conditions and active pods the whole result: flags, reasons, delay and the completion time it counts from |
| Decision.ConditionsDecide | controllers/dbupgrade_controller.go:678-707 | Succeeded, failed and running mean exactly a true Complete condition, a true Failed condition, and more than zero active pods |
| Decision.EarlyMeaning | controllers/dbupgrade_controller.go:141-186 | Before the Jobs are looked at: which Secret or AWS problem gives which reason and which delay |
| Atomic.OutcomeMeaning | controllers/dbupgrade_controller.go:188-304 | What a reconcile that reaches the Jobs does to them and says: list errors, waiting for active stale Jobs, deletion, pre-checks, creation, name taken, lost answers, with reasons and delays |
| Decision.PreChecksSay | controllers/dbupgrade_controller.go:752-829 | Which pre-check that does not pass gives which reason and which delay |
| Decision.PostChecksSay | controllers/dbupgrade_controller.go:848-920 | The post-checks wait exactly while some check's own bake time has not passed; otherwise errors and failures give their reason and delay |
| Reconciler.DBUpgradeReconciler.RunPreChecks | controllers/dbupgrade_controller.go:744-832 | Both gates run by their loops give the specified verdict on the pre-checks |
| Reconciler.DBUpgradeReconciler.RunPostChecks | controllers/dbupgrade_controller.go:836-924 | The loop for the longest bake time, the 32-bit arithmetic and the metric gate give the specified verdict on the post-checks |
| Reconciler.Client.UpdateStatus | controllers/dbupgrade_controller.go:326-327 | The API's optimistic concurrency: the status is stored exactly if the call takes effect on the version that was read; success is reported exactly if it is also answered |
| Reconciler.Client.ListJobs | controllers/dbupgrade_controller.go:464-467 | Lists every Job once the call succeeds |
| Reconciler.Client.DeleteJob | controllers/dbupgrade_controller.go:230-232 | Deletes by name if the call takes effect; the caller is told of success, or that there was nothing, only if it is answered |
| Reconciler.Client.CreateJob | controllers/dbupgrade_controller.go:580-582 | Creates only under a free name and if the call takes effect; the caller is told of success, or that the name is taken, only if it is answered |
| Reconciler.AbsentIsLeftAlone | controllers/dbupgrade_controller.go:106-113 | Reconciling an object that does not exist changes nothing |
| Atomic.ReconcileIsAtomic | controllers/dbupgrade_controller.go:102-134 | The interleavable steps without interference equal one atomic reconcile: Jobs of the outcome, the status written, nothing else |
| Uninterrupted.NoMigrationIsCutShort | api/v1alpha1/dbupgrade_webhook.go:240-254 | In every orderly run with the webhook, every owned Job that the operator deletes has a true Complete or Failed condition |
| Uninterrupted.UnfinishedMeansProgressing | api/v1alpha1/dbupgrade_webhook.go:240-254 | In every orderly run with the webhook, an unfinished owned Job is named for the current spec, and the object says Progressing or its status is still outstanding |
| Uninterrupted.CalmAlways | controllers/dbupgrade_controller.go:209-305 | The invariant behind both, kept by every orderly step, from any state that has it |
| Uninterrupted.OrderlyIffAllKept | api/v1alpha1/dbupgrade_webhook.go:237-254 | A run is orderly exactly when it keeps the four conditions |
| Counterexamples.ChangeDuringReconcile | controllers/dbupgrade_controller.go:209-256 | With the webhook, a run that keeps every condition of an orderly run but that no reconcile is under way when the spec changes, and deletes an unfinished Job |
| Counterexamples.ChangeAfterCrash | controllers/dbupgrade_controller.go:115-122 | The same with only the condition broken that the status of the Job's creation has landed, after a crash |
| Counterexamples.ChangeAfterSecretIsLost | controllers/dbupgrade_controller.go:141-156 | The same with only the condition broken that unfinished Jobs are looked up: after a lost Secret the landed status denies Progressing under the unfinished Job, and the spec is changed |
| Counterexamples.ChangeAfterLostAnswer | controllers/dbupgrade_controller.go:283-293 | The same with only the condition broken that no creation takes effect behind a lost answer: the landed status denies Progressing under the unfinished Job, and the spec is changed |
| Counterexamples.ChangeWithoutWebhook | api/v1alpha1/dbupgrade_webhook.go:246-251 | Without the webhook, an orderly run in which the spec is changed while the status says Progressing, and an unfinished Job is deleted |
| Counterexamples.ForeignJobIsDeleted | controllers/dbupgrade_controller.go:230-232 | A run in which a reconcile deletes a foreign Job that has taken the name of the collected one |
| Counterexamples.DeletedWhileActive | controllers/dbupgrade_controller.go:212-232 | A run in which the Job becomes active between listing and deletion and is deleted active and unfinished |
| Counterexamples.DeletedAfterWaiting | controllers/dbupgrade_controller.go:212-232 | A run in which a reconcile sees the stale Job active and a later one deletes it unfinished |
| Counterexamples.BakeOverflowsInARun | controllers/dbupgrade_controller.go:858-872 | A run with an admitted spec in which a complete Job whose post-checks were not made lands a status with a negative delay |
| Deletions.ReconcileCutsIff | controllers/dbupgrade_controller.go:209-256 | A whole reconcile takes the object's unfinished Job away exactly when its name is not the expected one, it has no active pods, the Jobs are reached and deletion succeeds |
| Deletions.UpdateCutsIff | api/v1alpha1/dbupgrade_webhook.go:48-63 | Changing the spec under an unfinished current Job and reconciling takes the Job away exactly when the change is admitted (sound, same target, not Progressing, where there is a webhook), has another hash, and the reconcile gets to delete a Job without active pods |
| Deletions.DeletedIff | controllers/dbupgrade_controller.go:209-243 | A run deletes an own Job that is unfinished, or one that is active, exactly when at some point a reconcile acts on a Job it had listed as stale and inactive while the owned one of that name is unfinished, or active, by then |
| Victims.VictimIsOwnUnlessCollected | controllers/dbupgrade_controller.go:230-232 | In every run the deleted Job is the object's own, exactly unless a Job of the object was garbage collected before; then it is foreign and the object is gone |
| Counterexamples.RerunAfterDeletion | controllers/dbupgrade_controller.go:463-478 | A run in which one object's Job is created twice for one hash and no reconcile ever deleted it |
| StoreSafety.StoreInvStep | controllers/dbupgrade_controller.go:138-309 | Every action of anyone keeps: names and owners fit, one Job per DBUpgrade at most, what reconciles hold is not outdated in the ways that matter |
| StoreSafety.StoreInvAlways | controllers/dbupgrade_controller.go:138-309 | All runs keep it |
| StoreSafety.LookupIsUnambiguous | controllers/dbupgrade_controller.go:462-478 | In every run each DBUpgrade owns at most one Job and the lookup finds the same one for every order of listing |
| StoreSafety.StaleStatusNeverLands | controllers/dbupgrade_controller.go:326-327 | In every run a status write that lands finds the object exactly as the reconcile read it |
| Isolation.StepIsIsolated | controllers/dbupgrade_controller.go:463-478 | A step of a reconcile changes no other DBUpgrade and none of its Jobs, even one of the same name |
| Isolation.ReconcilesAreIsolated | controllers/dbupgrade_controller.go:227-232 | Any sequence of operator steps for one name leaves every DBUpgrade of another name and its Jobs as they were |
| StatusSafety.NewStatusIsOk | controllers/dbupgrade_controller.go:312-328 | A written status is well formed, observes the current generation, carries both conditions with the flags and reasons of the result, and keeps the completion time, new or old, in whole seconds |
| StatusSafety.StatusInvStep | controllers/dbupgrade_controller.go:312-328 | Every action keeps every status well formed |
| StatusSafety.StatusAlwaysOk | controllers/dbupgrade_controller.go:312-328 | In every run: unique types, never both Ready and Progressing, one observed generation no later than the object's |
| StatusSafety.WriteKeepsStatus | controllers/dbupgrade_controller.go:312-328 | A write that lands makes the stored conditions those of the result, on the object that was read |
| StatusSafety.NeverGoesBack | controllers/dbupgrade_controller.go:313-314 | Observed generation and generation never decrease along a run, and an object that is gone never comes back |
| History.HistoryAlways | controllers/dbupgrade_controller.go:102-309 | In every run every recorded event has its reasons: creations their passed pre-checks, deletions their stale inactive Job, Ready its success |
| History.ReadyIsNeverALie | controllers/dbupgrade_controller.go:603-638 | In every run, Ready=True means a reconcile read that generation, found a true Complete condition on the Job of that very spec, baked and checked; and the Job had been created and had completed |
| History.ReadyMeansPassed | controllers/dbupgrade_controller.go:603-638 | Reading a Job off is ready exactly when the Job is complete and every post gate is open |
| History.EveryJobWasChecked | controllers/dbupgrade_controller.go:258-269 | In every run each Job was created for a stored spec in a reconcile in which, for every version check, pods were listed, at least one, and the gate was open for them, and every metric gate was open where there is a client |
| History.OnlyInactiveStaleJobsAreDeleted | controllers/dbupgrade_controller.go:209-243 | In every run, with or without the webhook, a reconcile that deletes had listed under that name a Job of its object, for another spec and not active; what it deletes is a later state of it or a foreign Job |
| SpecHistory.GenerationsAreUnambiguous | api/v1alpha1/dbupgrade_types.go:334-336 | In every run a generation of an object stands for one spec |
| SpecHistory.UpdatesKeepTarget | api/v1alpha1/dbupgrade_webhook.go:256-317 | With the webhook, over any admitted updates, all specs of an object have one database target |
| SpecHistory.TargetNeverMoves | api/v1alpha1/dbupgrade_webhook.go:48-63 | And every Job ever created for the object is for that target, from a sound spec |
| SpecHistory.AdmittedButNeverMigrated | controllers/dbupgrade_controller.go:158-171 | An AWS object admitted with a connection only never gets a Job, in any run |
| SpecHistory.AttainableIffReached | controllers/dbupgrade_controller.go:141-204 | Exactly attainable targets get to their Jobs, with the Secrets in order and listing answered |
| SpecHistory.ConnectionInsteadOfAwsIsAdmitted | api/v1alpha1/dbupgrade_webhook.go:121-125 | Such an object is admitted |
| Reruns.MigrationsAreSerial | controllers/dbupgrade_controller.go:206-304 | In every run, between any two creations for one object, whatever the specs, the first Job was deleted as stale or collected when the object was gone |
| Serial.EachFinishesFirst | controllers/dbupgrade_controller.go:206-304 | In every orderly run with the webhook the first Job was deleted complete or failed, or one was collected and the object is gone |
| Reruns.UnchangedSpecIsNotMigratedTwice | controllers/dbupgrade_controller.go:206-304 | In every run, between two creations of a Job for one object and hash, a reconcile with another hash deleted the first, or it was collected and the object is gone |
| Reruns.RerunAlways | controllers/dbupgrade_controller.go:206-304 | The invariant behind it: what became of every created Job |
| Wakeups.NoLostWakeup | controllers/dbupgrade_controller.go:129-133 | In every run a landed result has no requeue exactly when the AWS settings are missing, or a Job was read off that is complete with every post gate open, or failed, or whose bake time overflows |
| Wakeups.WakeInvAlways | controllers/dbupgrade_controller.go:138-309 | The invariant behind it, over all interleavings |
| Bake.MetricsWaitForBake | controllers/dbupgrade_controller.go:848-895 | In every run, a reconcile of a complete Job that does not wait, so that it evaluates the post metrics whatever they say, comes after each single bake time since completion |
| Bake.CompletionIsKept | controllers/dbupgrade_controller.go:604-623 | One reconcile: all later ones count from exactly the same completion time exactly when the Job has its own or the status left, old or written, is that time in whole seconds |
| CompletionHistory.BakeSurvivesRestarts | controllers/dbupgrade_controller.go:313-319 | In every run, once a status with a completion time has landed, every later reconcile of a complete Job without its own counts from the stored time, less than a second before the reported one, until a Job with its own was read off |
| CompletionHistory.OneWaitInEveryRun | controllers/dbupgrade_controller.go:856-873 | In every run, a reconcile that comes after another's landed bake wait finds it over, through any crashes, restarts and other reconciles; a second later at most if completion was in the future |
| CompletionHistory.RemembersAlways | controllers/dbupgrade_controller.go:313-319 | The invariant behind both: every stored and every read status carries the completion time that landed last |
| Bake.OneWaitIsEnough | controllers/dbupgrade_controller.go:856-873 | A wait is at least a second and ends less than a second late; the first reconcile after it does not wait again, whatever else has changed, if completion is not in the future or a whole number of seconds away, and otherwise waits exactly one second more |
| Bake.BakesIff | controllers/dbupgrade_controller.go:848-873 | A reconcile waits for the bake time exactly when there are post-checks to make and it is not over, for the time left |
| Progress.RankFalls | controllers/dbupgrade_controller.go:209-305 | For all answers of the API: a reconcile lowers the rank (stale Job, none, unfinished, unreported, settled) exactly when nothing holds it up, never raises it, and leaves a settled state exactly when it writes and the post-checks do not pass or the Job cannot be looked up |
| Settling.EventuallySettled | controllers/dbupgrade_controller.go:138-309 | Whatever the API answers, whatever crashes and whatever others do before, between and after the steps of the reconciles, updates of the object that leave its spec alone included, an object whose spec rests is settled after no more unhindered reconciles than its rank, at most four; an update that makes the status write conflict hinders |
| Settling.SettledFromAnywhere | controllers/dbupgrade_controller.go:138-309 | The same from any state, after a reconcile that was under way on an older read has ended, with four unhindered reconciles |
| Settling.RestingNeverRises | controllers/dbupgrade_controller.go:138-309 | No action of others, updates that leave the spec alone included, nor any step or crash of the object's own reconciles raises the rank before the object is settled, and afterwards never above one |
| Settling.RoundLowers | controllers/dbupgrade_controller.go:138-309 | A reconcile with others between its steps lowers the rank when nothing holds it up, as it read and saw things; reporting an end needs that the write lands |
| Settling.ReplacedInTwo | controllers/dbupgrade_controller.go:227-304 | After two unhindered reconciles, with others between all steps, the object has the Job of its spec, whatever stale Job it had |
| Settling.BystanderLeavesAlone | controllers/dbupgrade_controller.go:463-478 | No step of users who leave the spec alone, cluster or other reconciles touches the object but for its version, its reconcile, or its Job but for running it on |
| Decision.JobNameIsInjective | controllers/dbupgrade_controller.go:487-493 | Different objects or different hashes have different Job names, because the hash has a fixed length |
| Decision.PreChecksMeaning | controllers/dbupgrade_controller.go:744-832 | The pre-checks let a migration start exactly when every one that can be made passes; otherwise they say when to come back |
| Decision.PostChecksMeaning | controllers/dbupgrade_controller.go:836-924 | The post-checks pass exactly when every bake time is over and every check that can be made passes |
| Decision.SyncComesBack | controllers/dbupgrade_controller.go:589-676 | Reading a Job off asks for no requeue exactly when it is complete with every post gate open, failed, or complete with a bake time that overflows |
| Decision.OverflowIff | controllers/dbupgrade_controller.go:858-872 | The delay is negative exactly when completion is at least two to the power of 31 less the bake time in seconds ahead |
| Decision.BakeIsNeverShort | controllers/dbupgrade_controller.go:848-878 | An open bake gate means every check's own bake time has passed, not just a truncated maximum |
| Decision.BakeIsOneWait | controllers/dbupgrade_controller.go:856-873 | The wait ends within a second after the bake time, and is enough exactly when completion is not in the future or a whole number of seconds away |
| Decision.MaxBake | controllers/dbupgrade_controller.go:848-854 | The longest bake time: an upper bound that some check attains, or zero |
| Protocol.FirstOwned | controllers/dbupgrade_controller.go:469-477 | The Job found is listed and owned; if none is found, none listed is owned |
| Conditions.ConditionList.SetCondition | api/v1alpha1/conditions.go:46-59 | In place: replaced where it is or appended, with the transition time kept unless the status changes |
| Conditions.ConditionList.SetReady | api/v1alpha1/conditions.go:62-64 | The same for Ready |
| Conditions.ConditionList.SetProgressing | api/v1alpha1/conditions.go:67-69 | The same for Progressing |
| Conditions.SetConditionMeaning | api/v1alpha1/conditions.go:46-59 | Setting keeps types unique, makes this condition what was asked for with its transition time kept exactly if the status does not change, and touches no other |
| Webhook.UpdateAdmittedIff | api/v1alpha1/dbupgrade_webhook.go:48-63 | An update is admitted exactly when the spec is sound, keeps the database target, and is no change while Progressing |
| Webhook.ImmutableIffSameTarget | api/v1alpha1/dbupgrade_webhook.go:259-317 | The immutability check accepts exactly equal targets: type, secret name and key, all six AWS fields |
| Webhook.RefusedBecause | api/v1alpha1/dbupgrade_webhook.go:48-63 | An update is refused first for a migration in progress, then for the field that moves the target, then for what is unsound |
| Webhook.UnsoundBecause | api/v1alpha1/dbupgrade_webhook.go:71-97 | An unparsable minimum version, and an unsound metric, are reported exactly if there is one |
| Webhook.AdmittedIffSound | api/v1alpha1/dbupgrade_webhook.go:71-97 | A spec is admitted exactly when it is sound |
| Webhook.DatabaseAdmittedIff | api/v1alpha1/dbupgrade_webhook.go:115-172 | The database part is accepted exactly when its declarative soundness holds |
| Webhook.MinVersionsAdmittedIff | api/v1alpha1/dbupgrade_webhook.go:100-109 | Accepted exactly when every minimum version parses |
| Webhook.MetricsAdmittedIff | api/v1alpha1/dbupgrade_webhook.go:175-235 | Accepted exactly when every metric check has the one target of its type and a threshold other than zero |
| Webhook.ZeroThresholdIsRejected | api/v1alpha1/dbupgrade_webhook.go:229-232 | A threshold "above zero" is never admitted |
| VersionGate.CheckSinglePodVersion | internal/checks/version.go:54-185 | An error exactly if listing fails or some pod matches and the minimum does not parse; an empty list does not pass; else it passes exactly if the gate is open for the listed pods; the reported lists are the failed and the skipped containers |
| VersionGate.PassedMeaning | internal/checks/version.go:54-185 | The verdict used by the pre-checks is a pass, and an error, under exactly these conditions |
| VersionGate.GateMeaning | internal/checks/version.go:80-184 | The gate by what is read off the images: a pod matches, no version comes before the minimum, what has none fails unless strict mode is switched off, and something has a version unless there is nothing to consider |
| VersionGate.EqualVersionReaches | internal/checks/version.go:142-145 | A version equal to the minimum reaches it |
| VersionGate.ConsideredMeaning | internal/checks/version.go:92-151 | All containers of a pod, regular before init, or only the first with the name asked for |
| VersionGate.FirstNotPassedDecides | internal/checks/version.go:38-46 | The first check that is not passed gives the verdict on the list, error or refusal |
| VersionGate.CheckPods | internal/checks/version.go:86-152 | The nested loops with continue and break gather exactly the failed, skipped and counted among the containers considered |
| VersionGate.CheckContainer | internal/checks/version.go:106-145 | Without a version a container is failed or skipped, by strict mode, shown with its text or as unknown; with one it is counted, and failed exactly if it comes before the minimum |
| VersionGate.CheckMinPodVersions | internal/checks/version.go:37-52 | The loop with early exits gives the verdict of the first check that is not passed |
| VersionGate.TallyDecides | internal/checks/version.go:154-184 | The gate is open exactly when some pod matches, nothing considered fails and not everything considered was skipped: what the final tests of the three accumulators decide |
| VersionGate.TallyConserves | internal/checks/version.go:86-152 | Nothing considered is lost: skipped plus compared is all in non-strict mode, nothing is skipped in strict mode |
| VersionGate.GateIsMonotone | internal/checks/version.go:142-145 | A gate that is open for a minimum is open for every lower one |
| VersionGate.PassMeansEveryPodMeets | internal/checks/version.go:36-52 | That every matching pod has containers to compare and all of them reach the minimum is exactly an open gate for which every pod has such a container and none was skipped |
| VersionGate.OpenGateReaches | internal/checks/version.go:86-184 | Given an open gate, every pod has a compared container that reaches the minimum exactly if every pod has a container that the check is about, in non-strict mode one with a version |
| VersionGate.UncomparedPodPasses | internal/checks/version.go:95-97 | A pod without the named container goes through any open gate, and is not compared |
| VersionGate.MissingContainerPasses | internal/checks/version.go:95-97 | In particular a container name that no pod has opens the gate for any pods: nothing is compared |
| VersionGate.PassesIffAllPass | internal/checks/version.go:37-52 | The list passes exactly when every check passes |
| Semver.CompareFlips | internal/checks/version.go:229-246 | The order of section 11 of Semantic Versioning 2.0.0 is total: swapping flips it, ties are equality up to build metadata |
| Semver.CompareTransitive | internal/checks/version.go:229-246 | It is transitive, prerelease lists included |
| Semver.FieldsDecide | internal/checks/version.go:229-246 | What CompareVersions answers by the fields that differ, as section 11 of Semantic Versioning 2.0.0 orders them: major, minor, patch, prerelease before none, prerelease identifiers; nothing else |
| Semver.IdentifiersMeaning | internal/checks/version.go:245 | Identifier lists: the first that differ decide, numbers by value and before text, text by characters, and of a common beginning the longer list is later |
| Semver.CompareVersionsFlips | internal/checks/version.go:229-246 | Fails exactly when a text does not parse; swapping the arguments flips the answer; a leading v makes no difference |
| Semver.ReachesLowerMinimum | internal/checks/version.go:142-145 | Reaching a minimum is reaching every lower one |
| Semver.StandardExample | internal/checks/version.go:229-246 | The chain of prereleases in section 11.4 of the standard is in order |
| ImageRef.TaggedReferenceReadsBack | internal/checks/version.go:193-213 | Repository, tag and optional digest, printed and read back, give the scan of the tag alone |
| ImageRef.UntaggedReferenceHasNoVersion | internal/checks/version.go:199-206 | A reference whose last colon is before its last slash has no version, with or without digest |
| ImageRef.VersionComesFromATag | internal/checks/version.go:193-213 | A tag is only ever read from a reference that is a repository, a colon, that tag and at most a digest |
| ImageRef.Match | internal/checks/version.go:215-219 | What the scanner matches is in the grammar and begins the tag |
| ImageRef.MatchIsLongest | internal/checks/version.go:215-219 | No text of the grammar that begins the tag is longer than the match |
| ImageRef.ScanIsLongestPrefix | internal/checks/version.go:208-219 | The scan returns the longest prefix of the tag in the version grammar whenever there is one |
| ImageRef.ScanWithoutVersion | internal/checks/version.go:208-226 | When there is none, a tag led by a digit is kept and any other dropped |
| ImageRef.ScanKeepsVersions | internal/checks/version.go:215-219 | A tag of the grammar is returned whole |
| ImageRef.ScanIsIdempotent | internal/checks/version.go:208-226 | Scanning a scan changes nothing, the digit-led fallback included |
| ImageRef.GrammarMeaning | internal/checks/version.go:215-216 | The version grammar written out, with its characters |
| ImageRef.ScanExamples | internal/checks/version.go:187-226 | The tags of the documented references are returned whole; latest, empty and plain words are no versions; a lone number is |
| MetricGate.ReduceValues | internal/checks/metrics.go:240-288 | The loops compute the least, the greatest, the sum or the average |
| MetricGate.SumValues | internal/checks/metrics.go:255-267 | The accumulated sum is the total |
| MetricGate.MaxValue | internal/checks/metrics.go:269-287 | The accumulated maximum is in the list and above all of it |
| MetricGate.CheckSingleMetric | internal/checks/metrics.go:93-152 | An error exactly if the API that source and target name cannot be asked or does not answer; no values do not pass; else every reduction, an omitted one being Max, and every operator means its plain comparison of the answered thousandths with a thousand times the threshold |
| MetricGate.CheckMetrics | internal/checks/metrics.go:75-91 | The loop with early exits gives the verdict of the first check that is not passed |
| MetricGate.PassesIffAllOpen | internal/checks/metrics.go:75-91 | The list passes exactly when every check obtains values and passes on them |
| MetricGate.ThresholdMeaning | internal/checks/metrics.go:290-303 | Max below a threshold is all values strictly below, Max at most it all at most, Max above it some value above, and dually for Min: eight equivalences with plain comparisons |
| MetricGate.ReductionIsUnique | internal/checks/metrics.go:240-288 | A list has one reduction |
| MetricGate.OrderIndependent | internal/checks/metrics.go:240-288 | The order in which values arrive does not matter |
| MetricGate.SumOfPermutation | internal/checks/metrics.go:255-267 | Sums of permutations are equal |
| MetricGate.TotalOfParts | internal/checks/metrics.go:255-260 | The sum of a list is the sum of the sums of its parts, of one value the value |
| MetricGate.FirstNotPassedDecides | internal/checks/metrics.go:76-85 | The first check that is not passed gives the verdict on the list, error or refusal |
| MetricGate.SumBounds | internal/checks/metrics.go:255-260 | n times the least, and the greatest, value bound the sum |
| MetricGate.AverageBounds | internal/checks/metrics.go:262-267 | The average lies between the minimum and the maximum |

## Left out

- Bake.MetricsWaitForBake: only for elapsed times whose seconds fit an int32; what the conversion yields beyond is not defined by Go and is a parameter (`Answers.outOfRange`).
- Bake.OneWaitIsEnough: where the elapsed seconds and the bake time left fit an int32; Decision.OverflowIff says when the latter does not.
- Decision.JobNameIsInjective: takes the hash as eight characters; the empty hash after a failed marshalling of the spec is not modelled, because marshalling this type cannot fail.
- Uninterrupted.NoMigrationIsCutShort: for orderly runs with the webhook; `Counterexamples` shows that each part of that is needed, and `Deletions` when Jobs are cut short otherwise.
- Isolation.ReconcilesAreIsolated: about what DBUpgrades own; for Jobs of others Victims.VictimIsOwnUnlessCollected says when one is deleted.
- Settling.EventuallySettled: the spec rests and no failed Job turns complete meanwhile (in Kubernetes a Job ends only one way); a reconcile under way at the start has read the spec as it is, and Settling.SettledFromAnywhere covers the others.
- Conditions.WithCondition: transition times of conditions are not cut to whole seconds; nothing reads them.
- Protocol.Step: a reconcile reads the clock once at each step; the time may pass between steps but not within one.
- Reconciler.Client.ListJobs: the order that a server lists in is left open, not modelled.
- Methods of `Reconciler` run without interference; interference between two API calls is the protocol's subject, and the two are tied together by the same five steps.
- Objects as they were read are values, so the source's mutation of its local copy of the object in the status update is modelled only for the list of conditions.
- Several namespaces: everything the operator does stays in the object's namespace.
- Failed reads of the object itself: they end the reconcile with an error before anything happens.
- The Secrets: reading the customer's and keeping the operator's own are reduced to whether they succeed; the URL, AWS tokens and the client manager of internal/aws are foreign calls.
- The Job's pod template, deadlines, the crane shell command and the Atlas arguments: strings without logic.
- Events and log messages, texts and counts in messages.
- JSON, SHA-256 and `reflect.DeepEqual`: specs are equal as values (nil and empty lists are not told apart), the hash is arbitrary.
- The parser of the semver library: an arbitrary partial function from texts to versions.
- The regular expression engine: its greedy match is written out as a scanner.
- Rounding of float64 and of quantities: values are thousandths and exact reals.
- Label selectors and the metrics and pod APIs: arbitrary functions from a check to its answer.
- Validation patterns of the API schema, `disallowDowngrade`, `intervalSeconds` and deletion admission: not decided by this code.
- Stale informer caches and two active controllers: outside the assumptions above.
