# The SSP operator, modelled in Dafny

The operator deploys common templates, golden-image DataSources and a few other operands on
behalf of one `SSP` object, keeps them in order, and removes them again. This project models
the parts whose correctness spans many functions or a whole run, and proves what they promise.

- **Reconcile engine** (`Kube`, `ApiServer`, `UpdateFuncs`, `Engine`, `Reconciler`): an API
  server with uids, versions, generations, defaulting and finalizers; one pass of the reconcile
  builder as a function; the same pass as classes and loops, proved equal to it.
- **Version cache and convergence** (`Ssp`, `CacheSoundness`, `CacheAgreement`, `Convergence`, `SpecDrift`):
  every run of passes, client writes, SSP edits, restarts, stale reads and failed calls.
- **Controller lifecycle** (`Lifecycle`, `LifecycleSafety`, `LifecycleRuns`, `StatusTruth`,
  `StatusHistory`, `OperandGate`, `PassEffect`, `Cleanup`, `CleanupRuns`, `CleanupScope`, `LaggingCleanup`, `Teardown`): each API
  call of a pass is a step, and between any two steps users edit the object, the informer lags,
  replies get lost or the operator restarts. The lists and gets of cleanup may lag too.
- **DataSource planner** (`Sequences`, `Architecture`, `Bundle`, `CronPlan`, `ArchLists`, `DataSourcePlan`,
  `ManagerExclusivity`, `References`, `ReferenceGraph`, `CommonTemplates`, `AdmittedSpecs`,
  `DataSourceOperand`, `HandOverDecision`, `HandOverRuns`, `GarbageCollection`, `StickyHandOver`,
  `KeptCrons`, `CronContents`, `SourceContents`, `CronNames`, `CollidingCrons`, `PlannedPasses`, `GoldenImages`): who manages each DataSource, and what passes make of it.
- **Old templates** (`Semver`, `OldTemplates`, `OldTemplateRuns`, `DeprecationRuns`).
- **Template validator** (`VmCache`, `TemplateProtection`, `Rules`, `Evaluator`, `RuleMeaning`).
- **CRD watch** (`CrdWatch`).

Objects whose fields the source updates are classes (`Reconciler.Cluster`,
`Reconciler.VersionCache`, `VmCache.VmStore`, `CrdWatch.CrdWatcher`,
`Evaluator.EvaluationResult`); their methods are proved equal to functions on values, and the
run theorems are about those functions. Go map iteration is an arbitrary choice or an explicit
`order`. Reads through an informer return any version that was ever published, unless a
statement says that the cluster is quiet. Failing calls and lost replies are `Fault` values.
Regular expressions, version parsing and path lookup are parameters. Texts that rules look at
have one character for each byte.

`dafny verify dfyconfig.toml` checks the whole project.

## Where the code differs from what one would expect

Each of these is stated as a lemma next to the property it limits.

- The version cache is emptied only when the SSP spec changes, but the validator's deployment
  repeats labels of the SSP object in its pod template (`CacheAgreement.RelabellingIsMissed`).
  Skipping agrees with the slow path exactly if those labels are unchanged and an immutable spec
  is one the server stores as written (`CacheAgreement.CacheIsSoundOverRuns`).
- `Deployed` speaks about the last pass whose report was accepted. If a later pass fails and its
  status write is lost, the claim stays (`StatusTruth.LostReportLeavesClaim`,
  `LifecycleRuns.LostReportIsReachable`); what the last completed pass then says is settled by
  `StatusTruth.CompletedPassVouchesIff`.
- An object that is deleted while it carries only the finalizer of an old release is never
  cleaned up: the server refuses a new finalizer on an object that is being deleted, and the
  rename runs before the deletion branch (`Teardown.OldFinalizerBlocksCleanup`).
- The ownership test of cleanup reads the first owner reference of the expected object without
  looking whether there is one (`Cleanup.PanicsIff`), and a live object on which it panics keeps
  the finalizer in place for good (`Teardown.PanicBlocksCleanup`). With `Teardown.FinalizerGoesIff`
  these two cases are all in which cleanup by quiet passes does not end.
- Cleanup lists and reads through the informer. A clear sweep means that everything was *found*
  absent or not owned (`LaggingCleanup.SweepSeenIsClearIff`), and the cluster is clean then exactly
  if every object still owed was shown (`LaggingCleanup.SweptClusterIsCleanIff`). If not, the
  finalizer goes and the objects stay (`LifecycleRuns.OrphansAreReachable`), a DataSource can be
  deleted before its cron (`LaggingCleanup.MissedCronsAreOvertaken`), and an old version that names
  the SSP object gets a newer one deleted that does not (`LaggingCleanup.StaleVersionIsTaken`).
- Cleanup compares an object that it finds by a label with itself, so a deprecated template that
  belongs to somebody else by an owner reference is deleted
  (`CleanupScope.ForeignDeprecatedTemplateIsDeleted`); `CleanupScope.SparedIff` says which foreign
  objects are spared.
- A bundle name that equals another one with an architecture suffix gives one DataSource two
  managers (`ManagerExclusivity.CollisionBreaks`).
- Cron templates whose crons share a name but not a DataSource plan the same cron object twice, and
  admission does not look for that (`CronNames.SameNameCollides`, `CronNames.SuffixedNameCollides`;
  exactly when is `CronNames.OwnNamesIff`). While the version cache is kept, the cron that created
  the object keeps its spec there and the other DataSource is not imported
  (`CollidingCrons.FirstCronWins`); once the cache is emptied, the next two items replace the object
  (`CollidingCrons.EmptiedCacheTurnsOver`).
- The ready condition of a DataSource never takes part in the decision about auto-update, because
  two pointers are compared instead of what they point to (`HandOverDecision.PlainDecision`).
- The decision reads DataSources through an informer. A plan from a version that does not show the
  label yet takes a handed-over DataSource back and overwrites its spec
  (`StickyHandOver.StaleReadingTakesBack`); a hand-over sticks exactly if no plan reads one
  (`StickyHandOver.HandOverSticksIff`).
- A reference that was left in the place of a default DataSource without a ready condition is
  planned again as it is (`References.BundleReferencesResolve`), and if it points back at the bundle
  name, two planned references lead to each other (`References.StrayReferenceCycles`). A custom cron
  template for another namespace gets a reference that nothing resolves unless something else
  supplies its target (`References.ForeignTemplateDangles`). Exactly when a planned reference dangles
  is `ReferenceGraph.NoneDanglesIff`, exactly when references go in a circle `ReferenceGraph.CycleIff`.
- With a single architecture the admission webhook also rejects specs that the operator could
  use (`Architecture.RejectedButUsableIff`).
- `vmCache.Add` leaves a stale index entry behind for a known VM with another template, and a
  list with the same VM twice can do so too (`VmCache.AddKeepsSoundIff`,
  `VmCache.ReplaceIsSoundIff`). The equality test in `vmCache.Update` compares a value with a
  pointer, so its early return is never taken; the result is the same.
- A VM that arrives with an empty `vm.kubevirt.io/validations` annotation reads its rules from a
  template that may then be deleted (`TemplateProtection.EmptyAnnotationEscapes`).
- If the list of old templates is older than the template that is then read, and that template
  is in the version cache, labels that deprecation removed come back and stay until the cache is
  emptied (`DeprecationRuns.StaleListSpoils`). `DeprecationRuns.PassDeprecatesListedIff` and
  `DeprecationRuns.CacheIsHonestIff` say exactly when that happens.
- The comment on `Evaluate` says that the order of reports is not guaranteed; the code gives one
  report per rule in order, and that is what `Evaluator.Evaluate` states.

## Model

| member | source | states |
|---|---|---|
| `ApiServer.WritesKeepConsistent` | internal/common/resource.go:293-330 | every write a client can send keeps the server's versions, uids and generations coherent, which is all that optimistic concurrency relies on |
| `UpdateFuncs.UpdateSettles` | internal/common/resource.go:442-499 | every update function is idempotent on what the server stores of its result, also after server defaulting |
| `UpdateFuncs.ReworkedIsMerged` | internal/common/resource.go:358-381 | an update function never undoes the owner references, labels and annotations that were merged before it |
| `UpdateFuncs.PredefinedIff` | internal/operands/common-templates/reconcile.go:372-378 | which keys of a template are dropped when the shipped one no longer has them: three names, one vendor domain, and the template domain with any subdomain |
| `UpdateFuncs.SelectorIff` | internal/operands/common-templates/reconcile.go:316-335 | which labels deprecation removes: operating system, flavor and workload of any value |
| `Engine.TerminatingIsLeftAlone` | internal/common/resource.go:173-214 | an object that is being deleted is never written, and its cache entry goes |
| `Engine.OtherKeysUntouched` | internal/common/resource.go:293-330 | a pass can change no object but its own |
| `Engine.CacheEffect` | internal/common/resource.go:154-215 | a failed pass leaves the version cache alone, a deletion forgets the entry, any other success records exactly the object it leaves |
| `Reconciler.UpdateStringMap` | internal/common/resource.go:374-381 | the loop gives the union in which expected entries win |
| `Reconciler.MutateFound` | internal/common/resource.go:173-205 | owner, labels and annotations are merged always, the update function runs unless the cache recognises the object |
| `Reconciler.ReconcileOne` | internal/common/resource.go:154-215 | the imperative pass over cluster and cache has exactly the engine's effect, for every read, cache and fault |
| `CacheSoundness.HitIsFixed` | internal/common/cache.go:23-36 | in a sound state, a version that the cache recognises is one the update function leaves alone |
| `CacheSoundness.BlankIsNeverCached` | internal/common/cache.go:23-36 | a create is never skipped because of a left-over entry |
| `CacheSoundness.StepKeepsSound` | internal/controllers/ssp_controller.go:266-278 | soundness survives passes with any read and fault, client writes, deletion and re-creation, SSP edits and restarts |
| `CacheSoundness.RunKeepsSound` | internal/controllers/ssp_controller.go:266-278 | the cache is sound in every reachable state |
| `CacheAgreement.SkippingAgrees` | internal/common/resource.go:173-214 | on a hit, skipping and running the update function end in the same server, for stale reads and lost replies too |
| `CacheAgreement.SkippingDiffers` | internal/operands/template-validator/reconcile.go:151-157 | where pod labels changed or an immutable spec is defaulted, the two really end differently |
| `CacheAgreement.CacheIsSoundOverRuns` | internal/common/cache.go:23-53 | over every run: agreement on every hit under the two conditions, and for a fresh fault-free pass if and only if they hold |
| `CacheAgreement.RelabellingIsMissed` | internal/operands/template-validator/reconcile.go:151-157 | for every such resource and every change of its labels, a run after which the cached pass leaves the spec out of date |
| `Convergence.TwoPassesSettle` | internal/common/resource.go:293-330 | from absence, metadata drift, spec drift or immutable drift, two quiet passes settle the object |
| `Convergence.Converges` | internal/common/resource.go:154-215 | every pass from the third on returns "unchanged" and writes nothing |
| `Convergence.ComesToRestIff` | internal/common/resource.go:173-214 | for every builder and whatever was stored and recorded: from the third pass on the result is "unchanged" if and only if the cache can serve the object or every field that the server fills in is one the update function sets or keeps; nothing is written then, and the object is in order if and only if the cache did not vouch for one that was not |
| `Convergence.UpheldOrGone` | internal/common/resource.go:293-330 | without any trust in the cache, a pass leaves an object that carries everything expected and is recorded, or a deleted one that the next pass creates |
| `Convergence.ExpectedWins` | internal/common/resource.go:358-499 | a settled object has every expected owner, label and annotation, and field by field the expected spec: any other field is one the update function keeps or a default of the server |
| `SpecDrift.MissWritesSpec` | internal/common/resource.go:442-499 | a quiet pass that the cache does not stop leaves, whatever was there: every expected field with the expected value, every kept field as it was found, defaults of the server, and nothing else; or the found spec where the update function does not own it |
| `SpecDrift.CreationWritesSpec` | internal/common/resource.go:154-215 | so does a pass that creates the object, as if it had found an empty one |
| `SpecDrift.DeletedIff` | internal/common/resource.go:293-330 | a pass deletes an object if and only if its spec may not be changed, is not the expected one and the cache does not vouch for it |
| `SpecDrift.DriftIsCorrected` | internal/common/resource.go:173-214 | whoever changed the spec of a recorded object, the cache no longer recognises it, and the next quiet pass puts every expected field back or deletes an object whose spec may not be changed |
| `SpecDrift.SettledSpecIff` | internal/common/resource.go:173-214 | being settled implies a spec in order, and for a recorded object with the expected metadata it takes no more than that |
| `SpecDrift.AppLabelsAreThere` | internal/common/labels.go:35-73 | a settled object says which operand and component it belongs to and who manages it, and repeats part-of and version of the SSP object if that has labels |
| `Convergence.ExtrasSurvive` | internal/common/resource.go:358-381 | for every update function: finalizers, status and identity survive, and of the labels and annotations that nobody asked for exactly those change that the update function owns, and only when it runs |
| `Convergence.TrustedIff` | internal/common/cache.go:23-53 | in a sound state the cache is right about a resource if and only if the labels it was deployed under still ask for the same spec |
| `Convergence.ConvergesFromEveryState` | internal/controllers/ssp_controller.go:266-278 | after every run of passes, client writes, SSP edits, restarts, stale reads and failed calls, three quiet passes bring a resource to rest, in order if and only if that is so |
| `LifecycleSafety.StepKeepsSafe` | internal/controllers/ssp_controller.go:156-264 | the lifecycle invariant survives every step of operator, users, informer and cluster |
| `LifecycleSafety.LifecycleIsSafe` | internal/controllers/ssp_controller.go:196-215 | over every run in which nobody else takes the finalizer, with failing calls, lost replies, lagging reads and restarts: operands are reconciled only after the finalizer write was accepted, never after the final sweep, and the object stays protected until a sweep found each cleanup object of each operand absent or not owned, whatever versions the informer showed it |
| `LifecycleSafety.OperandsComeInTime` | internal/controllers/ssp_controller.go:196-248 | over the same runs: whenever operands run, the object they run for still exists, carries a finalizer and has not been swept |
| `LifecycleSafety.SweptIsCleanIff` | internal/controllers/ssp_controller.go:341-407 | over the same runs: the cluster under the sweep that released the object held nothing of it if and only if the lists and gets of that sweep showed every object that was still owed |
| `OperandGate.OperandsRunOnlyWhenAllowed` | internal/controllers/ssp_controller.go:196-248 | over every run, operands run only for a version that is not deleted and not paused, with its CRDs present, its finalizer written and its generation announced |
| `PassEffect.NewObjectIsAdopted` | internal/controllers/ssp_controller.go:196-201 | an undisturbed pass over a new object stores the finalizer and "deploying" at its generation and nothing else |
| `PassEffect.OldFinalizerIsReplaced` | internal/controllers/ssp_controller.go:308-330 | with the finalizer of an old release it replaces that one likewise; for a deleted object without the new one it changes nothing |
| `PassEffect.DeletedIsSwept` | internal/controllers/ssp_controller.go:341-407 | a deleted object with the finalizer is told to be on its way out and swept; if the sweep is clear the finalizers go, and with the last one the object, otherwise they stay; paused or not |
| `PassEffect.UnprotectedIsMarkedDeleted` | internal/controllers/ssp_controller.go:398-407 | a deleted object without a finalizer of the operator is only marked as deleted |
| `PassEffect.PausedIsMarkedOnce` | internal/controllers/ssp_controller.go:217-226 | a paused object is marked, and once marked nothing is written |
| `PassEffect.MissingCrdsAreReported` | internal/controllers/ssp_controller.go:228-231 | missing CRDs change the three conditions and nothing else |
| `PassEffect.OthersAreReconciled` | internal/controllers/ssp_controller.go:233-264 | in all other cases operands run, after a new generation was announced, and what is stored in the end is the report on their results, the announced version after a conflict, or the conditions of an error |
| `PassEffect.FailedAnnouncement` | internal/controllers/ssp_controller.go:604-646 | an announcement that meets a newer version ends the pass, one that fails is told in the status |
| `LifecycleRuns.ReachesRest` | internal/controllers/ssp_controller.go:156-264 | for every spec and every healthy result, a run from the empty cluster ends with the object deployed, reported and nothing under way |
| `LifecycleRuns.BlindSweepOrphans` | internal/controllers/ssp_controller.go:341-407 | from every such state: a deletion whose sweep reads before the informer has seen the operands removes the SSP object and leaves the cluster as it was |
| `LifecycleRuns.OrphansAreReachable` | internal/controllers/ssp_controller.go:103-105 | so there is a whole legal run after which everything that was deployed outlives the SSP object |
| `StatusTruth.UpdateStatus` | internal/controllers/ssp_controller.go:464-566 | for every list of results: available unless some result is not, progressing and degraded if some result is, and deployed if all are successes, deploying otherwise |
| `StatusHistory.StatusIsTraced` | internal/controllers/ssp_controller.go:326-646 | over every run: conditions, phase, observed generation and pause mark are those of the accepted writes that last set them; conditions from a report say, healthy or not, exactly which troubles occur among the results of a pass of this run, the last whose report was accepted; after missing CRDs, an error, a new generation or a started cleanup they say not available, progressing and degraded |
| `StatusTruth.StatusIsTrue` | internal/controllers/ssp_controller.go:424-566 | over every run, `Deployed` at the current generation means that the last reported pass ran on exactly this spec with success throughout, and the conditions agree unless missing CRDs were reported since |
| `StatusTruth.CompletedPassVouchesIff` | internal/controllers/ssp_controller.go:217-264 | over every run: if the report of the last completed pass was accepted, the claim speaks about that pass; if it was lost, it does if and only if that pass was healthy and ran for this very object and generation |
| `StatusTruth.LostReportLeavesClaim` | internal/controllers/ssp_controller.go:604-646 | from every deployed state at rest, a run in which the claim outlives a failed pass |
| `LifecycleRuns.LostReportIsReachable` | internal/controllers/ssp_controller.go:604-646 | and such a state is reachable for every spec, so there is a whole run that ends in a false claim |
| `Cleanup.PanicsIff` | internal/common/resource.go:400-427 | the ownership test panics exactly if the found object has owner references and the expected one, outside the SSP's namespace, has none to compare with |
| `Cleanup.CleanupObject` | internal/common/resource.go:233-278 | whatever version was read, one object is found absent, not owned or pending by that version, and only one that it shows as live and owned is deleted, in the state the server holds it |
| `Cleanup.DeleteObjects` | internal/common/resource.go:280-290 | the loop over a list with any sequence of reads, which a panic ends, proved equal to its specification |
| `Cleanup.NothingFollowsCrash` | internal/common/resource.go:280-290 | whatever was read, what comes after a panic is neither looked at nor written |
| `Cleanup.CountPending` | internal/controllers/ssp_controller.go:371-388 | something is pending exactly if some finding is not "deleted" |
| `CleanupRuns.ListIsClearIff` | internal/common/resource.go:280-290 | in a quiet cluster, a list leaves nothing pending if and only if each of its objects was absent or not owned at the start, and then nothing was written |
| `CleanupRuns.SecondPhaseWaits` | internal/operands/data-sources/reconcile.go:138-186 | in a quiet cluster, while an owned DataImportCron remains, cleanup deletes nothing else of that operand |
| `CleanupRuns.SweepIsClearIff` | internal/controllers/ssp_controller.go:371-388 | a quiet sweep over known, owned and labelled objects is clear if and only if each operand had nothing of its own left in the cluster, and then it changes nothing |
| `CleanupRuns.SweepLeaves` | internal/controllers/ssp_controller.go:371-388 | an object that no operand is due to delete at the start of a quiet sweep is left as it is, in spite of all that is deleted around it |
| `CleanupRuns.SweepProgress` | internal/controllers/ssp_controller.go:371-388 | where no comparison panics, a quiet sweep reaches its end and every operand gets on |
| `CleanupRuns.ThreePassesSuffice` | internal/controllers/ssp_controller.go:341-407 | if requested deletions complete between quiet passes and no comparison panics, the third sweep is clear, for every list of operands |
| `CleanupScope.OwnedIff` | internal/common/resource.go:400-427 | an object that does not name this SSP object is taken for owned if and only if it is expected elsewhere with owner references of which it has the first |
| `CleanupScope.SparedIff` | internal/operands/common-templates/reconcile.go:162-183 | an object that does not name this SSP object is left alone by a whole quiet sweep if and only if no label search finds it, or it has no owner references, or it lies in the namespace of the SSP object |
| `CleanupScope.ListedTemplatesIff` | internal/operands/common-templates/reconcile.go:162-190 | cleanup of the common templates lists exactly the templates marked as deprecated in its namespace and the owned ones anywhere |
| `CleanupScope.ForeignDeprecatedTemplateIsDeleted` | internal/operands/common-templates/reconcile.go:162-183 | every deprecated template that somebody else owns by reference, outside that namespace, is deleted by a quiet sweep |
| `LaggingCleanup.SweepSeenIsClearIff` | internal/controllers/ssp_controller.go:371-388 | for all lists and gets that the informer may answer with: the finalizer may go if and only if every listed object was found absent or not owned, and then the sweep wrote nothing |
| `LaggingCleanup.SweptClusterIsCleanIff` | internal/common/resource.go:233-290 | after a clear sweep the cluster holds nothing that belongs to the SSP object if and only if the informer showed every object that was still owed |
| `LaggingCleanup.SecondPhaseWaitsIff` | internal/operands/data-sources/reconcile.go:138-186 | with any reads: an object that the second phase would take stays if and only if some listed cron is still pending, by the version that was read and the answer to its deletion |
| `LaggingCleanup.SparedBySweepIff` | internal/controllers/ssp_controller.go:371-388 | with any reads: a live object, whoever owns it, survives a whole sweep if and only if no get that is reached shows a live owned version under its name |
| `LaggingCleanup.ForeignVersionIsTakenIff` | internal/common/resource.go:400-427 | exactly which versions that do not name the SSP object are read as owned |
| `LaggingCleanup.MissedCronsAreOvertaken` | internal/operands/data-sources/reconcile.go:138-186 | in every cluster with an owned cron: a list that misses it lets the second phase delete what should have waited, with the cron still there |
| `LaggingCleanup.StaleVersionIsTaken` | internal/common/owner.go:32-53 | every old version that names the SSP object gets today's object of that name deleted, whoever owns it today |
| `LaggingCleanup.FreshSweepIsQuiet` | internal/common/resource.go:233-290 | a sweep whose reads are up to date is the quiet one, so the two families of statements are about the same operation |
| `Teardown.FinalizerGoesIff` | internal/controllers/ssp_controller.go:341-407 | on the controller protocol itself, for every deleted object with either or both finalizers: four quiet passes take the finalizer off if it carries the one of this release and no live object makes the comparison panic, and otherwise no number of quiet passes does |
| `Teardown.QuietSweepIsAStep` | internal/controllers/ssp_controller.go:371-388 | the quiet sweep of these statements is one of the steps of the lifecycle protocol |
| `Teardown.WaitingIsReleased` | internal/controllers/ssp_controller.go:341-407 | three quiet passes are enough for an object that carries only the finalizer of this release |
| `Teardown.PanicBlocksCleanup` | internal/common/resource.go:400-427 | while a live object makes the ownership comparison panic, no number of quiet passes releases the finalizer |
| `Teardown.OldFinalizerBlocksCleanup` | internal/controllers/ssp_controller.go:308-324 | a deleted object with only the finalizer of an old release is never released, over every run without user edits: stale reads, failing calls, lost replies, cluster changes and restarts |
| `Architecture.ToArchInvertsName` | internal/architecture/architecture.go:19-30 | parsing accepts exactly "amd64", "arm64" and "s390x" and inverts printing |
| `Architecture.SuffixedIsInjective` | internal/operands/data-sources/reconcile.go:385-407 | name and architecture can be read back from a suffixed name |
| `Architecture.ConcatWithoutRepetitions` | internal/architecture/architecture.go:83-95 | the nested loops give the order-preserving de-duplication of the concatenated lists |
| `Architecture.GetSSPArchs` | internal/architecture/architecture.go:40-81 | control-plane before workload architectures, only the first without multi-arch, and which error otherwise |
| `Architecture.ValidateCluster` | webhooks/ssp_webhook.go:110-135 | the early-return loops accept exactly the non-empty lists of known names |
| `Architecture.AdmissionIsSound` | webhooks/ssp_webhook.go:110-135 | whatever the webhook accepts gives the operator a non-empty, duplicate-free list that is the de-duplicated concatenation, or its head |
| `Architecture.ArchsInListedOrder` | internal/architecture/architecture.go:40-95 | with multi-arch the operator uses each listed name once, those of the control plane first, in the order in which they are listed |
| `Architecture.AdmissionIsExactForMultiArch` | webhooks/ssp_webhook.go:110-135 | with multi-arch the webhook rejects exactly what the operator cannot use |
| `Architecture.RejectedButUsableIff` | internal/architecture/architecture.go:40-81 | without it, a spec that the webhook rejects would have worked if and only if the first name is known and another one is not |
| `AdmittedSpecs.AdmittedInputIsWellFormed` | webhooks/ssp_webhook.go:110-135 | admission and bundle collection provide all that the planner relies on |
| `AdmittedSpecs.AdmittedSpecsWork` | internal/operands/data-sources/reconcile.go:216-262 | for every admitted spec, bundle, cluster state and map order: one manager per DataSource, and every deployed template finds its DataSource planned |
| `Bundle.CollectDataSources` | internal/template-bundle/bundle.go:47-84 | the loop over templates with its three errors, proved equal to its specification |
| `Bundle.CollectIsExact` | internal/template-bundle/bundle.go:47-92 | the collection holds a name with an architecture exactly if some template contributes it, each once |
| `Bundle.CollectedIff` | internal/template-bundle/bundle.go:47-140 | a name with an architecture is collected, once, if and only if some template has a VM with a source reference, the first name parameter, or else the first old one, has that value, the namespace parameter, if any, is that of the golden images, and the architecture label is that architecture, or empty for amd64 |
| `CronPlan.DefaultArch` | internal/operands/data-sources/reconcile.go:780-788 | the first cluster architecture that is offered, or none if they share none |
| `CronPlan.CronMapIsExact` | internal/operands/data-sources/reconcile.go:264-349 | crons are filed under the DataSource they manage, each comes from a template, and no template's place is lost |
| `ArchLists.ListedIff` | internal/operands/data-sources/reconcile.go:790-804 | an architecture is taken from the annotation if and only if some entry between commas spells its name, up to space around it |
| `CronContents.ImportsIff` | internal/operands/data-sources/reconcile.go:385-407 | the copy for an architecture is called after template and architecture, manages the DataSource of that architecture, asks the same registry for that architecture, is labelled with it and with the unsuffixed DataSource, and is otherwise the template without the list |
| `CronContents.PlannedCronsIff` | internal/operands/data-sources/reconcile.go:264-342 | a cron is planned for a DataSource if and only if some template claims it and bundle and cluster leave it to a cron; with a list, templates claim exactly the listed architectures of the cluster, without one the first architecture that the bundle offers; the planned cron is that of the last template that claims it |
| `CronPlan.CollectCrons` | internal/operands/data-sources/reconcile.go:264-342 | both loops over cron templates, proved equal to the specification |
| `CronNames.OwnNamesIff` | internal/operands/data-sources/reconcile.go:282-342 | in both modes, planned crons are objects of their own if and only if no two of the crons that survive in the map and in the plan share a name but not a DataSource |
| `CronNames.ApartNamesAreApart` | internal/operands/data-sources/reconcile.go:282-342 | templates with names of their own, up to suffixes, are enough for that |
| `CronNames.PlannedWorkIsWellFormedIff` | internal/operands/data-sources/reconcile.go:216-262 | a plan can be carried out as the statements about passes ask for if and only if that holds |
| `KeptCrons.KeptIff` | internal/operands/data-sources/reconcile.go:444-505 | in both modes, told from bundle, spec and cluster alone: the plan keeps a cron if and only if no DataSource of the bundle that it would manage stays with the operator |
| `CollidingCrons.SlotTracksAll` | internal/operands/data-sources/reconcile.go:707-757 | over every sequence of items for one cron object, in any order and number, other items and cache resets: what is stored there and recorded in the cache is what a machine of one slot says, empty or holding a spec with or without an entry |
| `CollidingCrons.FirstCronWins` | internal/operands/data-sources/reconcile.go:707-757 | of any number of crons that are one object, the one that creates it keeps its spec there over any number of passes in any order, while the cache is kept |
| `CollidingCrons.EmptiedCacheTurnsOver` | internal/controllers/ssp_controller.go:266-278 | once the cache is emptied, the next cron with another spec deletes the object and the one after it takes the place |
| `CronNames.SameNameCollides` | webhooks/ssp_webhook.go:195-203 | one architecture: two templates with one name for two DataSources, which admission lets pass, plan two crons that are the same object |
| `CronNames.SuffixedNameCollides` | internal/operands/data-sources/reconcile.go:385-407 | many architectures: so do a template that lists one and another whose name already ends in it |
| `DataSourcePlan.CollectSingle` | internal/operands/data-sources/reconcile.go:409-442 | the loop over the bundle in any order, single architecture |
| `DataSourcePlan.CollectMulti` | internal/operands/data-sources/reconcile.go:444-505 | the loop over the bundle in any order, one reference and one entry per architecture |
| `DataSourcePlan.AddReferences` | internal/operands/data-sources/reconcile.go:351-383 | references for custom cron templates, none for a name that is already planned |
| `DataSourcePlan.DropManaged` | internal/operands/data-sources/reconcile.go:252-256 | crons of DataSources that the operator manages itself are deleted from the map |
| `DataSourcePlan.MakePlan` | internal/operands/data-sources/reconcile.go:216-262 | all of these together give the plan that the theorems are about |
| `SourceContents.ArchEntryContents` | internal/operands/data-sources/reconcile.go:444-505 | a planned entry has the suffixed name, the architecture label, the image it should point to and the name of the cron of the last template that claims it |
| `SourceContents.SingleEntryContents` | internal/operands/data-sources/reconcile.go:409-442 | with one architecture, the plain name, no labels, the image of that name and that cron |
| `ManagerExclusivity.PlanIsExclusive` | internal/operands/data-sources/reconcile.go:216-262 | for every bundle, spec and cluster state with non-colliding names: auto-update is on if and only if the final plan holds a cron for the DataSource, and the recorded name is that cron's |
| `ManagerExclusivity.CollisionBreaks` | internal/operands/data-sources/reconcile.go:444-505 | every collision of names has a spec and a cluster in which a DataSource gets two managers |
| `ManagerExclusivity.ExclusiveIffNonColliding` | internal/operands/data-sources/reconcile.go:344-383 | names do not collide if and only if all plans are exclusive |
| `References.BundleReferencesResolve` | internal/operands/data-sources/reconcile.go:444-505 | a bundle name resolves to the single entry of the first supported architecture; in one hop if and only if no stray reference was left there |
| `References.ProvidedIff` | internal/operands/data-sources/reconcile.go:252-256 | a plan provides a name if and only if bundle or cron templates supply it; dropping crons of managed DataSources loses none |
| `References.AddedReferencesIff` | internal/operands/data-sources/reconcile.go:351-383 | which references for custom templates are added, however many templates share a DataSource |
| `References.ReferencesLeadOnIff` | internal/operands/data-sources/reconcile.go:351-383 | every planned reference leads to something provided with a longer name if and only if the targets of custom templates and of references left in the cluster do; this is sufficient for no reference to dangle or cycle |
| `ReferenceGraph.StepIff` | internal/operands/data-sources/reconcile.go:351-383 | a reference is planned if and only if the bundle, a custom template or a reference left in the cluster asks for it |
| `ReferenceGraph.NoneDanglesIff` | internal/operands/data-sources/reconcile.go:444-505 | no planned reference dangles if and only if bundle and spec supply the targets of all custom templates and of all references left in the cluster |
| `ReferenceGraph.CycleIff` | internal/operands/data-sources/reconcile.go:577-624 | planned references go in a circle if and only if some reference left in the cluster is led back to from its own target |
| `References.LocalTemplateIsSupplied` | internal/operands/data-sources/reconcile.go:351-383 | a custom template for the golden images namespace always supplies the target of its own reference |
| `References.NoWayBack` | internal/operands/data-sources/reconcile.go:444-505 | and then no path of references comes back |
| `References.StrayReferenceCycles` | internal/operands/data-sources/reconcile.go:577-624 | a reference left in the cluster that points back at the bundle name is planned again, and two planned references lead to each other |
| `References.ForeignTemplateDangles` | internal/operands/data-sources/reconcile.go:351-383 | in every bundle and spec, a custom template outside the golden images namespace whose target nothing else supplies gets a reference to nothing |
| `CommonTemplates.New` | internal/operands/common-templates/reconcile.go:48-59 | templates grouped by architecture in bundle order, failing exactly on an unknown architecture |
| `CommonTemplates.GetTemplatesForArchs` | internal/operands/common-templates/reconcile.go:108-127 | which templates are deployed, and how they are adapted |
| `CommonTemplates.DeployedIsSupported` | internal/operands/common-templates/reconcile.go:108-127 | every bundle template whose architecture the cluster has is deployed, as often as the bundle has it, and nothing else is |
| `CommonTemplates.AdaptedOnlyThere` | internal/operands/common-templates/reconcile.go:129-137 | a deployed template is the shipped one but for the first data source parameter, which with many architectures gets the suffix |
| `CommonTemplates.SuffixShows` | internal/operands/common-templates/reconcile.go:129-137 | the suffix changes what one parameter reads as and nothing else |
| `CommonTemplates.DeployedTemplatesNamePlannedSources` | internal/operands/common-templates/reconcile.go:108-137 | whatever DataSource a deployed template names is planned by the other operand for the same spec, with multi-arch the entry of the template's own architecture |
| `DataSourceOperand.HandOverHandles` | internal/operands/data-sources/reconcile.go:673-695 | a pass labels a DataSource and leaves its spec alone, or takes it back with the planned spec |
| `DataSourceOperand.TakenBackIsLabelled` | internal/operands/data-sources/reconcile.go:673-695 | a DataSource that is taken back carries the labels of the application |
| `DataSourceOperand.OneItemDecides` | internal/operands/data-sources/reconcile.go:626-671 | in a pass with distinct keys one item alone decides about an object |
| `HandOverRuns.PlanIsFixedPoint` | internal/operands/data-sources/reconcile.go:509-624 | the plan computed after carrying out a plan is that plan |
| `HandOverDecision.PlainDecision` | internal/operands/data-sources/reconcile.go:509-554 | CDI takes over if and only if there is a cron and either the label or no image; the ready condition never decides |
| `HandOverDecision.ArchDecision` | internal/operands/data-sources/reconcile.go:577-624 | for the default architecture, if and only if in addition nothing from before multi-arch is in its place |
| `GoldenImages.ExistingImageIsUsed` | internal/operands/data-sources/reconcile.go:509-575 | after a quiet pass, an image that was there first is what the DataSource points to, and no cron is planned for it |
| `GoldenImages.MissingImageIsImportedIff` | internal/operands/data-sources/reconcile.go:509-575 | after a quiet pass, an image that is not there is left to CDI exactly if a cron is configured |
| `GoldenImages.DefaultImageIsKept` | internal/operands/data-sources/reconcile.go:577-624 | after a quiet pass, the default architecture still points to an image from before multi-arch, to what CDI has not seen yet, or to its own image, and is imported only if there is none of these |
| `GarbageCollection.OwnedSourcesAreExactlyPlanned` | internal/operands/data-sources/reconcile.go:626-671 | after a quiet pass the owned live DataSources in the golden images namespace are exactly the planned names that were not on their way out before |
| `GarbageCollection.OwnedCronsArePlanned` | internal/operands/data-sources/reconcile.go:707-757 | after a quiet pass every owned live cron is planned |
| `GarbageCollection.OwnedCronsAreExactAfterTwoPasses` | internal/operands/data-sources/reconcile.go:707-757 | after a second quiet pass the owned live crons are exactly the planned ones, except those that were on their way out at the start or held by a finalizer while their spec had to be replaced; what the cache believed does not matter |
| `GarbageCollection.CronUpheldInTwoPasses` | internal/common/resource.go:293-330 | such a cron then carries everything expected, and has the planned spec if and only if the cache did not vouch for another one |
| `GarbageCollection.UpheldCronIsLabelled` | internal/operands/data-sources/reconcile.go:707-757 | and so does a cron that is kept |
| `PlannedPasses.OwnedCronsAreThePlannedOnes` | internal/operands/data-sources/reconcile.go:216-262 | after every run of passes, client writes, SSP edits, restarts, stale reads and failed calls, two quiet passes, each planned from what it finds, leave as owned live crons exactly those of the plan, with the same two exceptions |
| `GarbageCollection.OthersSurvive` | internal/common/owner.go:11-53 | an object that is neither planned nor owned is left as it is by a quiet pass |
| `DataSourceOperand.OwnersAreToldApart` | internal/common/owner.go:11-53 | no object is owned by two SSP objects |
| `StickyHandOver.QuietPassReplansTheSame` | internal/operands/data-sources/reconcile.go:216-262 | planning, acting and planning again gives the same plan |
| `StickyHandOver.PlannedAutoIff` | internal/operands/data-sources/reconcile.go:509-554 | a DataSource with a cron is planned as handed over if and only if the version that was read carries the label or leaves the import to CDI |
| `StickyHandOver.ActingHandsOver` | internal/operands/data-sources/reconcile.go:673-695 | carrying out an auto-update entry establishes the handed-over state |
| `StickyHandOver.OperatorKeepsHandOverIff` | internal/operands/data-sources/reconcile.go:673-695 | the one step of the operator that can end a hand-over is planning from a version that does not show it; no step changes the spec |
| `StickyHandOver.HandOverSticksIff` | internal/operands/data-sources/reconcile.go:509-554 | over every run with CDI rewriting specs, PVCs coming and going and stale reads, a hand-over sticks if and only if no plan reads such a version |
| `StickyHandOver.HandOverLeavesSpec` | internal/operands/data-sources/reconcile.go:673-695 | and all the while only others change the spec |
| `StickyHandOver.StaleReadingTakesBack` | internal/operands/data-sources/reconcile.go:509-554 | every plan from such a version, carried out with fresh reads, drops the label and overwrites the spec |
| `Semver.PrecedenceIsOrdered` | vendor/github.com/blang/semver/v4/semver.go:125-174 | precedence is a strict order up to build metadata, as section 11 of Semantic Versioning 2.0.0 asks |
| `Semver.CompareIdentifiers` | vendor/github.com/blang/semver/v4/semver.go:411-434 | numbers before words, numbers as numbers, words by characters |
| `Semver.Compare` | vendor/github.com/blang/semver/v4/semver.go:125-174 | the three-way comparison is exactly that order |
| `OldTemplates.Decide` | internal/operands/common-templates/reconcile.go:255-284 | deleted, deprecated or left alone by architecture and version |
| `OldTemplates.LookedAtIff` | internal/operands/common-templates/reconcile.go:222-254 | a template is looked at if and only if its name is not deployed and it is the last owned one of that name, or there is none and it is the last old one |
| `OldTemplates.FateIff` | internal/operands/common-templates/reconcile.go:255-284 | told from labels: gone through deletion, of no architecture of the cluster, outdated because the version is missing, unreadable or before the shipped one, or up to date |
| `OldTemplates.DeprecateOrDelete` | internal/operands/common-templates/reconcile.go:222-287 | in any map order: one action for every template that calls for one, none for a deployed name |
| `OldTemplateRuns.ReprocessedIsDeprecatedIff` | internal/operands/common-templates/reconcile.go:316-335 | merging labels before stripping them leaves a deprecated template if and only if the cache does not vouch for one that is not |
| `OldTemplateRuns.PassPartitionsTemplates` | internal/operands/common-templates/reconcile.go:222-352 | in the cluster after a quiet pass, whatever the cache held: gone, processed or untouched, exactly by the template's fate; everything else is as it was |
| `OldTemplateRuns.PassDeprecatesIff` | internal/operands/common-templates/reconcile.go:222-352 | an outdated template is deprecated by a quiet pass if and only if the cache did not vouch for it as it was |
| `OldTemplateRuns.SecondPassWritesNothing` | internal/operands/common-templates/reconcile.go:316-335 | a second quiet pass writes nothing, whatever the cache held |
| `DeprecationRuns.PassDeprecatesListedIff` | internal/operands/common-templates/reconcile.go:316-335 | for every listed and every found version: the pass leaves a deprecated template if and only if the cache does not recognise the found one, or what the merge leaves has no selector label and says "deprecated" in labels and annotations |
| `DeprecationRuns.CacheIsHonestIff` | internal/operands/common-templates/reconcile.go:289-335 | over every run of passes that deprecate or deploy a template in one place, client writes, stale reads, failed calls and cleared caches: the cache vouches only for deprecated versions of it if and only if no pass records another one, told from what the pass lists or ships, what it finds and the cache |
| `DeprecationRuns.DeployedIsDeprecatedIff` | internal/operands/common-templates/reconcile.go:289-313 | a deploying pass leaves a deprecated template if and only if the shipped one is deprecated itself or, on a cache hit, the merge leaves one |
| `DeprecationRuns.SameVersionIsFine` | internal/operands/common-templates/reconcile.go:316-335 | a pass that reads the version it listed never does |
| `DeprecationRuns.OutdatedIsDeprecatedOverRuns` | internal/operands/common-templates/reconcile.go:222-352 | after every run without such a pass, a quiet pass deprecates every outdated template |
| `DeprecationRuns.StaleListSpoils` | internal/operands/common-templates/reconcile.go:316-335 | for every template with a selector label, a run that deprecates it, lists the old version and reads the new one: the label is back, the cache vouches for it, and no further quiet pass changes that |
| `VmCache.UpdateKeepsSound` | internal/template-validator/virtinformers/vmcache.go:124-156 | an update keeps the index the exact inverse of the store |
| `VmCache.DropKeepsSound` | internal/template-validator/virtinformers/vmcache.go:158-176 | so does a removal, without leaving an empty set |
| `VmCache.AddKeepsSoundIff` | internal/template-validator/virtinformers/vmcache.go:103-122 | an addition does if and only if it does not bring a known VM with another template |
| `VmCache.ReplaceIsSoundIff` | internal/template-validator/virtinformers/vmcache.go:217-240 | a list does if and only if it names no VM with two templates |
| `VmCache.VmStore.constructor` | internal/template-validator/virtinformers/vmcache.go:95-101 | the cache starts empty and not synced |
| `VmCache.VmStore.UnindexVm` | internal/template-validator/virtinformers/vmcache.go:57-67 | the index loses one VM, and its set when it becomes empty |
| `VmCache.VmStore.AddVm` | internal/template-validator/virtinformers/vmcache.go:103-122 | filtered insertion into store and index |
| `VmCache.VmStore.UpdateVm` | internal/template-validator/virtinformers/vmcache.go:124-156 | a VM that no longer passes the filter is removed; a sound cache stays sound |
| `VmCache.VmStore.DeleteVm` | internal/template-validator/virtinformers/vmcache.go:158-176 | the stored entry, not the argument, decides what leaves the index; a sound cache stays sound |
| `VmCache.VmStore.ReplaceVms` | internal/template-validator/virtinformers/vmcache.go:217-240 | a bad element changes nothing, any other list replaces everything without the filter |
| `VmCache.VmStore.GetVmsForTemplate` | internal/template-validator/virtinformers/vmcache.go:251-255 | each stored VM of the template once, and no other |
| `TemplateProtection.IndexIsExactOverRuns` | internal/template-validator/virtinformers/vmcache.go:103-240 | after every run of watch events, a VM is filed under a template if and only if it was shown, its labels or else its annotations name that template, and it has no rules of its own unless a list brought it |
| `TemplateProtection.FiledUnderIff` | internal/template-validator/labels/labels.go:17-80 | the key of a VM is that of a template if and only if the labels name it, or they name none and the annotations do; the current namespace entry wins over the old one, and a name without a namespace counts for nothing |
| `TemplateProtection.TakesRulesIff` | internal/template-validator/webhooks/uplink.go:15-94 | a VM takes its rules from a stored template if and only if it refers to it, is not being deleted, does not skip validation and has no rules of its own |
| `TemplateProtection.AdmitTemplate` | internal/template-validator/webhooks/hook.go:104-144 | deletion is refused exactly for a common template with rules that a cached VM refers to, and the refusal names exactly those VMs |
| `TemplateProtection.ReaderIsKeptIff` | internal/template-validator/webhooks/uplink.go:15-94 | a VM whose rules come from a template is cached unless an event brought it with an empty annotation |
| `TemplateProtection.ReadTemplatesAreProtected` | internal/template-validator/webhooks/hook.go:104-144 | after every run, a template that such a VM refers to and reads its rules from cannot be deleted |
| `TemplateProtection.RefusedIff` | internal/template-validator/virtinformers/informers.go:81-88 | deletion is refused if and only if the template has the type label and validations, and some VM that was shown refers to it and has no rules of its own unless a list brought it |
| `TemplateProtection.HolderReadsIff` | internal/template-validator/webhooks/uplink.go:73-94 | which of the VMs that hold a template do read its rules |
| `TemplateProtection.EmptyAnnotationEscapes` | internal/template-validator/virtinformers/informers.go:81-88 | every VM with an empty annotation of its own escapes the protection |
| `Rules.ContainsOnly` | internal/template-validator/validation/specialized.go:347-358 | the labelled loops decide whether every value is listed |
| `Rules.DecodeValues` | internal/template-validator/validation/specialized.go:321-331 | all decoded values, or the first error |
| `Rules.ApplyInteger` | internal/template-validator/validation/specialized.go:199-228 | the loop over numbers and its errors, proved equal to the meaning that `RuleMeaning` spells out |
| `Rules.ApplyString` | internal/template-validator/validation/specialized.go:266-295 | the loop over lengths and its errors, likewise |
| `Rules.ApplyEnum` | internal/template-validator/validation/specialized.go:321-345 | every value is one of the listed ones, or which error comes first |
| `Rules.ApplyRegex` | internal/template-validator/validation/specialized.go:379-410 | every value matches, or which error comes first |
| `RuleMeaning.VerdictIff` | internal/template-validator/validation/specialized.go:80-410 | a rule with something to judge is satisfied if and only if every value fits: a number or length at least the minimum and at most the maximum, a text among the listed ones or matching; values and limits are looked up in the VM and, where the path is missing there, in the defaults, and a limit is its literal or the only number at its path |
| `RuleMeaning.ErrorIff` | internal/template-validator/validation/specialized.go:80-410 | and it ends with an error if and only if an argument cannot be decoded, the first of them, or else the path leads nowhere, to nothing or to something that is no number |
| `RuleMeaning.RejectedIff` | internal/template-validator/validation/eval.go:147-210 | a VM is rejected if and only if two rules share a name or some rule is malformed, or is about something the VM has and cannot be judged or has a value that does not fit and is more than a warning |
| `Evaluator.EvaluationResult.ToStatusCauses` | internal/template-validator/validation/eval.go:104-120 | there are causes exactly if the evaluation failed, and then one for every report with an error or an unsatisfied rule, with path and message of its rule |
| `Evaluator.Evaluate` | internal/template-validator/validation/eval.go:147-210 | one report per rule in order; failure if and only if two rules share a name or some rule is malformed, errors, or is applicable, unsatisfied and more than a warning |
| `Evaluator.FailureIsOrderFree` | internal/template-validator/validation/eval.go:147-210 | leaving out rules with repeated names loses no verdict |
| `Evaluator.MoreRulesRejectMore` | internal/template-validator/validation/eval.go:147-210 | rules added anywhere never turn a rejection into an acceptance |
| `Evaluator.OrderIsIrrelevant` | internal/template-validator/validation/eval.go:147-210 | permuting the rules does not change the verdict |
| `Evaluator.ValidateVm` | internal/template-validator/webhooks/admission.go:13-46 | a VM is turned away, with causes, exactly if the rules reject it as it looks with the omitted numbers of its CPU topology taken as one |
| `CrdWatch.CrdWatcher.constructor` | internal/crd-watch/crd-watch.go:34-48 | everything required is missing at first |
| `CrdWatch.CrdWatcher.CrdAdded` | internal/crd-watch/crd-watch.go:180-193 | the counters find exactly the addition of the last missing name |
| `CrdWatch.CrdWatcher.CrdDeleted` | internal/crd-watch/crd-watch.go:195-212 | the counter finds exactly the first removal of a required name |
| `CrdWatch.CrdWatcher.Sync` | internal/crd-watch/crd-watch.go:131-178 | in any order of names: existing becomes the listed snapshot, missing the required rest, and the calls are determined |
| `CrdWatch.CrdWatcher.Init` | internal/crd-watch/crd-watch.go:50-57 | the first successful list makes no calls |
| `CrdWatch.CrdWatcher.MissingCrds` | internal/crd-watch/crd-watch.go:71-84 | each required name that does not exist, once |
| `CrdWatch.CallbacksFollowReadiness` | internal/crd-watch/crd-watch.go:131-212 | over every run the callbacks alternate, the last one tells whether something is missing, and their counts differ by the change in "nothing is missing" |
| `CrdWatch.SilentUntilInitialized` | internal/crd-watch/crd-watch.go:180-212 | nothing is called before initialization |
| `CrdWatch.SyncCallsBothIff` | internal/crd-watch/crd-watch.go:131-178 | a sync calls each handler at most once, additions first, and both exactly if it passes through completeness |

## Left out

- LifecycleSafety.LifecycleIsSafe: the controller is a small-step state machine on values, not a class, because its steps interleave with others; one cleanup sweep is one step, each of whose lists and gets may show any version, while its deletes meet one state of the cluster.
- CleanupRuns.ThreePassesSuffice: the check at the start of the data-sources cleanup whether the CRDs exist is taken as passed.
- CleanupScope.SparedIff: operands are taken as the source writes them, that is, objects that they build themselves carry no owner references.
- Teardown.FinalizerGoesIff: operands are taken as the source writes them, that is, known objects carry no owner references and no search by label or owner is about their kind and name; the reads of its passes are up to date.
- TemplateProtection.RefusedIff: speaks about templates whose names have no slash, as the API server guarantees.
- Semver.Compare: parsing of version strings is a parameter, and numbers are unbounded where the source has 64 bits.
- Rules.ApplyInteger: conversion of quantities, floats and unsigned values to 64 bits is part of the looked-up value.
- Evaluator.Evaluate: rules whose JSON leaves out the path, and message texts of reports.
- CrdWatch.CrdWatcher.Sync: informer tombstones, for which the delete handler's type assertion panics.
- Update functions on labels (`syncPredefinedAnnotationsAndLabels`, the deprecation closure) are functions on maps, not loops over them.
- JSON, YAML and JSONPath decoding, regular expressions, TLS, certificates, HTTP serving, metrics, logging and event predicates.
- The metrics, template-validator, console-proxy and delete-protection operands appear only as lists of desired objects.
- Role bindings, network policies and other resource literals, placement merging, version conversion and the CSV generator.
