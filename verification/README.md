# Multicloud workload deploy: a verified model

This project models, in Dafny, the parts of the repository whose behaviour is spread over several functions or
several runs, and proves what they promise:

- **The reconcile protocol** (`Objects`, `Workloads`, `Protocol`, `ProtocolInvariants`, `ChildSafety`,
  `ProtocolTheorems`, `StatusHonesty`, `Convergence`, `QuietRun`, `QuietRuns`, `UndisturbedRuns`, `StaleReports`,
  `Leftovers`, `Apply`, `DeepCopy`, `Reconciler`). The controller, the users, the autoscaler, the API server and the
  cache are one step system over versioned histories. Every interleaving of their steps is a run; a create fails when
  the object exists, an update fails when the version read is not the last, the cache is stale but monotone, any step
  may fail or lose its reply, and the status patch is a JSON merge patch that names neither uid nor resource version.
  `Apply`, `DeepCopy` and `Reconciler` are the imperative code of one reconcile, proved against the functions that the
  protocol is built from.
- **The queue around it** (`WakeUp`): events, timers, retries, restarts. `Controller` puts queue and protocol together.
- **The preflight runner** (`Severity`, `Preflight`, `PreflightTheorems`): buckets, short-circuit, mask, folds.
- **The deploy gate** (`Gate`): command, report and Terraform expressions end to end; `Aws` adds the cloud checks that
  feed it, `Text` and `Arm` the parsers of their inputs.
- **The two tiers** (`Chart`, `Tiers`, `Parity`, `Rendering`): one document, two routes into one chart, and what each
  renders; `Decode` reads the rendered files back into objects.

`Values` holds the document trees, the merge patch and Helm's overlay; `Sequences` the list lemmas.

To verify: `dafny verify dfyconfig.toml`.

## What turned out otherwise than the comments say

- `workload_controller.go:101-102` says a conflicting status patch is returned and requeued. The patch carries no
  resource version, so it never conflicts. Two consequences are proved, each with a run to it from every reachable world
  whose children can be applied, and each with its exact condition. A reconcile that outlives its Workload reports on
  the next Workload of the same name (`PatchCrossesIncarnations`; `ChartCrossesIncarnations` is the run for the objects
  the chart renders): every stored claim of readiness is honest throughout a run iff no patch in the run carries one to
  another incarnation (`HonestThroughoutIff`). And a success is not stored iff the snapshot said all of it already and what is
  stored no longer does (`SuccessIsStoredIff`, `SuccessIsLost`).
- `apply.go:22-24` says the target is empty on create. It is a copy of the rendered object, so a created Deployment
  starts with whatever replica count the rendering states.
- The apply loop trusts what a get returns. When nobody else writes, a delivered success finds a child as it should be iff
  the reconcile did not overlook it, that is, keep a stale version that needs no write while the last one does
  (`SuccessIsCompleteIff`). And it never deletes: a child that the current spec no longer renders stays owned
  (`OwnedAreRenderedIff`).
- `modules/workload/main.tf:5-6` says the two tiers cannot drift. They render the same objects iff the document is
  aligned: the budget knob is 1, an ingress block switches itself on, no resources block holds claims alone, and no
  security context holds nothing but empty lists (`ParityIff`). The last one is the conversion of `render.go:145-158`,
  which omits empty lists: with `podSecurityContext: {supplementalGroups: []}` tier A renders the hardened context and
  tier B an empty one (`EmptyListHardensOneTier`). An ingress block that does not say `enabled: true` gives tier A one
  object more (`IngressIsTheDifference`). The CRD does not declare `enabled`, and tier A is applied with
  `server_side_apply = true`, under which an API server refuses undeclared fields: so of the documents that both tiers
  accept, none with an ingress block renders the same in both (`ParityOfDeclaredIff`).
- `modules/preflight/main.tf:42-44` says a malformed report falls to the floor. A skipped stage 4 has null results, over
  which the plan iterates, iff red does not block, the mode is agnostic, and a cloud stage is red (`GateDecides`).
- `main.go:129-132` says that empty references yield red checks. For AWS an empty key, list of secrets or VPC yields an
  amber one, and nothing else of them (`NeverRedIff`).
- `identity.go:46-48` gives the empty list of concerns a meaning (nothing is provisioned) that the command line cannot
  express: the empty list comes back from the environment as nil, which means everything is (`ConcernsSurviveIff`).
- `identity.go:105-127`: the green message says that the deploy identity holds the probed actions. It does iff the answer
  speaks of each of them by name (`GreenHoldsIff`). A denial that names no action is not counted
  (`NamelessDenialIsGreen`), and neither is an action that the answer leaves out, up to an answer that is empty
  (`EmptyAnswerIsGreen`): in both cases the check is green although nothing was allowed.
- `egress.go:14-25` (Azure): the last match wins, so a resource group that is itself called "resourceGroups" parses as
  "providers" (`ParsesVNetIdIff`).

## Model

| member | source | states |
|---|---|---|
| Values.DiffThenMerge | operator/internal/controller/workload_controller.go:103-105 | patching the snapshot with the difference to the new document (section 2 of RFC 7396) gives the new document, for all null-free documents |
| Values.MergeMember | operator/internal/controller/workload_controller.go:103-105 | applied to any other document, the patch leaves a member on which snapshot and new document agree as that document has it, and otherwise installs or removes it |
| Workloads.SetThenFind | operator/internal/controller/workload_controller.go:72-88 | a condition just set is the one found under its name; every other name finds what it found before |
| Workloads.SuccessTells | operator/internal/controller/workload_controller.go:69-88 | after a success RolloutDegraded holds iff the strategy is "Canary", with reason CanaryUnsupported or RollingUpdate, Ready holds, both at the generation read; the ready count is the live one if it was read; other conditions are found as before |
| Workloads.FailureTells | operator/internal/controller/workload_controller.go:50-66 | after a failure Ready does not hold, at the generation read and with the reason of the exit; conditions of other names, the observed generation and the ready count are as before |
| Workloads.PatchStatusIsMergePatch | operator/internal/controller/workload_controller.go:103-105 | the field-by-field patch of a status is the merge patch of the encoded statuses, whatever is stored when it arrives |
| Workloads.EncodedStatus | operator/api/v1/workload_types.go:107-113 | on the wire empty fields of a status are left out |
| Objects.MutateThenAdmit | operator/internal/controller/apply.go:29-72 | what an update stores conforms to the rendered object and preserves addresses, selector, replicas, foreign metadata and ownership of the live one |
| Objects.StoredFields | operator/internal/controller/apply.go:38-70 | the stored selector, replica count, addresses, labels and annotations of any kind, from those of the live and the rendered object |
| Objects.CreatedIsRendered | operator/internal/controller/apply.go:22-72 | a created object has exactly the rendered labels and annotations, and the rendered selector and replica count |
| Objects.UnchangedConforms | operator/internal/controller/apply.go:29-73 | an object that the mutate step leaves unchanged, so that nothing is sent, conforms already |
| Objects.MutateAdmitIdempotent | operator/internal/controller/apply.go:29-73 | a second mutate-and-write reproduces what the first one stored |
| Apply.MergeStringMaps | operator/internal/controller/apply.go:84-96 | desired entries win, no other entry changes or goes, nil only from two nils |
| Apply.Target.ReconcileMetadata | operator/internal/controller/apply.go:79-82 | labels and annotations become the old ones overridden by the desired ones |
| Apply.Target.MutateInPlace | operator/internal/controller/apply.go:29-72 | the closure's in-place steps leave the target as the mutate function says, or reject it when another owner controls it or its kind is unsupported |
| DeepCopy.WorkloadObject.DeepCopy | operator/api/v1/zz_generated.deepcopy.go:63-79 | the copy is equal and every cell it reaches is new |
| DeepCopy.SpecObject.DeepCopyInto | operator/api/v1/zz_generated.deepcopy.go:122-151 | the struct assignment followed by one replacement per pointer leaves an equal spec that shares no cell |
| DeepCopy.SpecObject.DeepCopy | operator/api/v1/zz_generated.deepcopy.go:154-161 | the copy is equal and every cell it reaches is new |
| DeepCopy.StatusObject.DeepCopy | operator/api/v1/zz_generated.deepcopy.go:164-183 | the slice of conditions is copied element by element into a new one |
| DeepCopy.DeepCopyItems | operator/api/v1/zz_generated.deepcopy.go:90-111 | every item of a list is copied, with equal uid, generation, spec and status, and everything it consists of is new |
| DeepCopy.StatusObject.SetStatusCondition | operator/internal/controller/workload_controller.go:72-88 | overwriting in place or growing the slice is setting the first condition of that name, or appending |
| DeepCopy.SetConditionAt | operator/internal/controller/workload_controller.go:72-88 | the position the loop stops at decides between replacing and appending |
| DeepCopy.SnapshotThenUpdate | operator/internal/controller/workload_controller.go:46-91 | the snapshot keeps its value through any number of in-place updates of the status it was copied from |
| Reconciler.Cluster.SetOwnerAndApply | operator/internal/controller/apply.go:21-74 | get, mutate, create or update leaves exactly the store that the sequential model computes, for every fault, and returns which call failed and why: refused as owned iff the live object has a controller of another kind or name; an error after a write is a lost reply |
| Reconciler.Cluster.ApplyAll | operator/internal/controller/workload_controller.go:59-67 | the loop stops at the first failure and has changed exactly what the sequential model says |
| Reconciler.Cluster.ReportFailure | operator/internal/controller/workload_controller.go:48-66 | what is stored tells the failure: Ready=False at the generation read with the reason given, nothing else of the status, in one patch |
| Reconciler.Cluster.ReportSuccess | operator/internal/controller/workload_controller.go:69-93 | what is stored tells the success: the rollout condition for the strategy asked for, Ready, the ready count if readable, and the observed generation, in one patch |
| Reconciler.Cluster.Reconcile | operator/internal/controller/workload_controller.go:35-99 | one reconcile, for every rendering, order and failure, a failing read of the Workload included: the store, the result (done, requeue after 30 seconds, failed), and what the stored status then tells, by the exit taken |
| Convergence.FinishedSettled | operator/internal/controller/workload_controller.go:59-67 | every finished child did not fail and is stored settled |
| Convergence.OthersUntouched | operator/internal/controller/workload_controller.go:59-67 | no key outside the children up to the failing one is touched |
| Convergence.StopsAtFailure | operator/internal/controller/workload_controller.go:59-67 | the loop stops at the first failing child; that child is untouched, or settled when only the reply was lost, and later ones are untouched |
| Convergence.CompletesIff | operator/internal/controller/apply.go:68-72 | without faults every child is applied iff no child is unsupported or controlled by another owner |
| Convergence.RunEffect | operator/internal/controller/workload_controller.go:59-67 | any run, stopped anywhere and in any order, leaves each key as it was or as a complete run would |
| Convergence.ReconcilesConverge | operator/internal/controller/workload_controller.go:59-67 | after any attempts, stopped anywhere, in any orders, a complete run reaches the store that a complete run in any order would have reached at once |
| Convergence.CompleteTwice | operator/internal/controller/apply.go:21-74 | a further complete run, in any order, completes and changes nothing |
| Convergence.CompleteRunConforms | operator/internal/controller/apply.go:29-72 | at the fixpoint every rendered child conforms and preserves what it must; other keys are untouched |
| ProtocolTheorems.Always | operator/internal/controller/workload_controller.go:35-99 | the invariant of the step system holds in every reachable world |
| ProtocolTheorems.ObservedGenerationIsHonest | operator/internal/controller/workload_controller.go:87-91 | over one incarnation the observed generation never exceeds the generation and never decreases |
| ProtocolTheorems.ReadyIsHonest | operator/internal/controller/workload_controller.go:59-91 | a stored Ready=True at a generation implies that the observed generation is that one, and that one reconcile which read it had every child it renders to stored as asked for |
| ProtocolTheorems.OperatorNeverDisturbs | operator/internal/controller/apply.go:31-59 | in every run, every version the operator stores is of a rendered child, conforms to it, and preserves addresses, selectors, replicas, foreign metadata and foreign ownership |
| ProtocolTheorems.AutoscalerWritesSurvive | operator/internal/controller/apply.go:53-59 | in every interleaving, the stored replica count is the last one stated by anyone but the operator, or the one a create started with |
| StatusHonesty.HonestThroughoutIff | operator/internal/controller/workload_controller.go:87-105 | for every run: every stored claim of readiness is honest at every moment iff no step delivers a report that carries a claim of readiness to another incarnation than the one read |
| StatusHonesty.FlagIsRaised | operator/internal/controller/workload_controller.go:101-105 | the history flag of the world says whether some step of the run did so |
| StatusHonesty.CrossingReportIsHonestIff | operator/internal/controller/workload_controller.go:101-105 | in every reachable world, a report that lands on another incarnation is honest iff the conditions it carries do not claim readiness |
| StatusHonesty.CrossingObservedGenerationIff | operator/internal/controller/workload_controller.go:87-105 | and leaves an honest observed generation iff it claims nothing, or the generation read had been observed already, or lies between the successor's observed generation and its generation |
| StaleReports.PatchCrossesIncarnations | operator/internal/controller/workload_controller.go:101-105 | from every reachable world with an unreported Workload whose children can be applied, a run leads to its successor, at generation 1, claiming readiness at the generation of the one that is gone |
| StaleReports.ChartCrossesIncarnations | operator/internal/controller/workload_controller.go:101-105 | such a run from the start, for the six objects the chart renders: create, edit, delete and recreate while the edit is reconciled |
| StaleReports.SuccessIsStoredIff | operator/internal/controller/workload_controller.go:101-105 | in every reachable world, a delivered report of success leaves Ready=True at the generation read, unless the snapshot said all of it already and what is stored does not |
| StaleReports.SuccessIsLost | operator/internal/controller/workload_controller.go:59-105 | from every reachable world whose children can be applied, a run in which a reconcile applies every child, its report of success is delivered, and the Workload is left not ready |
| Workloads.SameConditionsIff | operator/internal/controller/workload_controller.go:72-88 | a success changes no condition iff both of its conditions are found already |
| ProtocolInvariants.ReportIsHonest | operator/internal/controller/workload_controller.go:87-91 | a report merged onto whatever the incarnation it read has stored by then leaves an honest claim of readiness |
| ChildSafety.CreateOrUpdateIsSafe | operator/internal/controller/apply.go:29-73 | compare-and-swap after a get of any version stores only safe versions |
| QuietRun.FreshWriteSettles | operator/internal/controller/apply.go:29-73 | with the last version in hand, the protocol's step and the sequential one agree |
| QuietRun.QuietReconcile | operator/internal/controller/workload_controller.go:35-99 | one reconcile (one begin, gets and writes that succeed, one delivered report, nobody else's steps) stores what the sequential run stores and a ready status |
| QuietRun.EveryWorldConverges | operator/internal/controller/workload_controller.go:35-99 | from every reachable world, a restart or an advance of the cache and then one such reconcile, in any order of the children, reach ready and the fixpoint |
| QuietRuns.QuietRunsConverge | operator/internal/controller/workload_controller.go:35-99 | with nothing under way and the cache caught up, every list of steps in which nobody else writes, no call for a child fails and every get of a child returns its last version, and which ends in a delivered report, has converged, however often the controller restarts or rereads the Workload in between |
| UndisturbedRuns.SuccessIsCompleteIff | operator/internal/controller/apply.go:29-73 | with nothing under way and the cache caught up, in every run in which nobody else writes, with any failed calls, lost replies, crashes and stale gets: once a success is delivered, a child is where a complete run puts it iff the latest reconcile did not overlook it |
| UndisturbedRuns.OverlooksIff | operator/internal/controller/apply.go:29-73 | a child is overlooked iff the version held needs no write and the last version does |
| UndisturbedRuns.FreshSuccessIsComplete | operator/internal/controller/workload_controller.go:59-93 | so with fresh gets, whatever else failed on the way, a delivered success finds every rendered child as asked for and every other key as it was |
| Leftovers.OwnedAreRenderedIff | operator/internal/controller/workload_controller.go:59-67 | after convergence the children that the Workload owns are exactly the rendered ones iff it owned nothing else before |
| Leftovers.OwnedIffStored | operator/internal/controller/apply.go:29-33 | when only the operator writes children, one is owned iff its last version was stored by a reconcile of this Workload whose rendering named it |
| Leftovers.OwnedAreRenderedUnlessDroppedIff | operator/internal/controller/workload_controller.go:59-67 | so after convergence the owned children are the rendered ones iff no earlier rendering was the last to store another |
| WakeUp.RunKeepsInvariant | operator/internal/controller/workload_controller.go:35-42 | the queue's invariant holds after every run of events, timers, failures and restarts |
| WakeUp.NoLostWakeUp | operator/internal/controller/workload_controller.go:39-98 | an existing Workload always has its key queued, on a timer or with a worker, or its creation is still undelivered |
| WakeUp.NoOverlookedChange | operator/internal/controller/workload_controller.go:39-98 | unless another read is coming, the last read saw what the cache shows |
| WakeUp.ChildEventIsRead | operator/internal/controller/workload_controller.go:117-122 | after an event of a watched child another read is coming until one succeeds, whatever else happens short of a restart |
| WakeUp.QueueMoves | operator/internal/controller/workload_controller.go:35-99 | the key is queued only by an event or an expired timer and leaves the queue only to an idle worker or by a restart |
| WakeUp.WorkerMoves | operator/internal/controller/workload_controller.go:36-99 | a failing read sets the timer, a successful one finds what the cache shows, and a finished reconcile sets the timer iff it found the Workload |
| WakeUp.OnlyNotFoundDropsKey | operator/internal/controller/workload_controller.go:39-42 | a running controller drops a key iff a reconcile that found nothing finishes and nothing else asked for it |
| Controller.AlwaysSound | operator/internal/controller/workload_controller.go:35-99 | queue and protocol as one system: in every state, an existing Workload that the cache shows has its key queued, on a timer or with the worker, and the protocol's invariant holds |
| Controller.ChildEventIsRead | operator/internal/controller/workload_controller.go:117-122 | the same in the combined system |
| Controller.QueueMoves | operator/internal/controller/workload_controller.go:35-99 | in the combined system the key is queued only by an event, the first list or an expired timer, leaves the queue only to an idle worker or by a restart, and a timer is set only by a failed read or a reconcile that ends |
| Controller.QueueConverges | operator/internal/controller/workload_controller.go:39-98 | from every state of that system, once everyone else falls silent, moves of the queue and its worker (a reconcile under way being given up) lead to convergence |
| WakeUp.AlwaysReconciledAgain | operator/internal/controller/workload_controller.go:91-98 | from every reachable state, delivering the outstanding events gets a worker to read the newest revision |
| Severity.Worse | operator/internal/preflight/report.go:74-97 | the result is at least as severe as both and never skipped |
| Severity.StageStatus | operator/internal/preflight/report.go:101-107 | red iff some result is red, else amber iff some is amber, else green |
| Severity.ComputeVerdict | operator/internal/preflight/report.go:118-132 | red iff a blocking stage is red; else amber iff a stage is amber or an informational one red; else green |
| Preflight.Runner.constructor | operator/internal/preflight/check.go:35-45 | buckets hold the checks of their stage in the order supplied, and no others |
| Preflight.Runner.RunWithProvisionedStages | operator/internal/preflight/check.go:65-119 | the loop's report, verdict and executed checks are those of the specification, for every list of provisioned stages; six stages in order, informational iff provisioned and blocking iff not |
| Preflight.Runner.Run | operator/internal/preflight/check.go:50-52 | the same with every stage blocking and none informational |
| PreflightTheorems.ShortCircuitRefines | operator/internal/preflight/check.go:78-119 | the report is the exhaustive one with exactly the stages after the least blocking red one skipped, and the verdict is the same |
| PreflightTheorems.VerdictMeaning | operator/internal/preflight/report.go:109-132 | the verdict in terms of the checks alone, run or not |
| PreflightTheorems.RaisingNeverLowers | operator/internal/preflight/report.go:72-132 | raising results never lowers the verdict |
| PreflightTheorems.MaskingNeverRaises | operator/internal/preflight/check.go:65-119 | provisioning more stages never raises the verdict |
| PreflightTheorems.MaskingKeepsPassingRuns | operator/internal/preflight/check.go:65-119 | and changes nothing at all for a run that was not red |
| PreflightTheorems.ExecutionTrace | operator/internal/preflight/check.go:82-114 | the checks executed are those of the stages up to the first blocking red one, stage by stage, in order, each as often as supplied |
| PreflightTheorems.OrderDoesNotMatter | operator/internal/preflight/check.go:35-45 | permuting the checks keeps every status, the verdict, and each stage's results as a multiset |
| Gate.PrintReport | operator/cmd/preflight/main.go:54-119 | a report is always printed: the run's, or a red one for every internal failure; and its verdict in terms of the providers' and the cluster's answers |
| Gate.PrintedTells | operator/cmd/preflight/main.go:54-119 | the verdict is red iff a check of the cluster other than the reviews is red, a review fails or they allow neither tier, or, in agnostic mode, a cloud check is red; with a cluster it is otherwise amber |
| Gate.StagesTell | operator/internal/preflight/k8sstages.go:68-88 | which results each of the six stages carries unless it was skipped, and which block in which mode |
| Gate.CheckInstallTier | operator/internal/preflight/k8sstages.go:387-418 | green iff all reviews are answered and CRDs and cluster roles may be created; red iff one fails or neither tier is allowed |
| Gate.Stage4Ran | operator/internal/preflight/check.go:82-114 | stage 4 is skipped with null results iff the mode is agnostic and a cloud check is red, and otherwise carries the install-tier result |
| Gate.GateDecides | modules/preflight/main.tf:26-66 | over the cluster's answers: the plan is blocked iff red blocks and a check, the namespace or the reviews are red, or in agnostic mode a cloud check; it iterates over null iff red does not block and the cloud stops an agnostic run; otherwise its tier |
| Gate.PlanOfReachedCluster | modules/preflight/main.tf:45-66 | from a report that carries the install-tier result, the expressions take the tier that the cluster's answers allow |
| Gate.PassingPlanIsDeployable | modules/preflight/main.tf:25-66 | with red blocking and no override, a plan that goes on ran stage 4, is tier A or B, and the cluster allows what that tier creates |
| Gate.NoClusterIsRed | operator/internal/preflight/k8sstages.go:35-46 | without a cluster the verdict is red, and what a plan told to go on does |
| Text.SplitJoin | operator/cmd/preflight/main.go:183 | splitting the join of separator-free parts returns them |
| Text.TrimSpaceMeaning | operator/cmd/preflight/main.go:184 | trimming takes blanks off both ends and nothing else |
| Text.SpacesAre | operator/cmd/preflight/main.go:184 | which code points are blanks |
| Text.SplitNonEmpty | operator/cmd/preflight/main.go:178-189 | the loop computes the trimmed non-empty entries in order, nil for none |
| Text.NamesRoundTrip | operator/cmd/preflight/main.go:178-189 | splitting the join of clean names returns them, and of no names nil |
| Text.SplitIsStable | operator/cmd/preflight/main.go:178-189 | joining what a split returned and splitting again returns the same |
| Text.NilIff | operator/cmd/preflight/main.go:178-189 | the split is nil iff the text holds only commas and blanks |
| Arm.GroupAndName | operator/internal/cloud/azure/egress.go:13-25 | the loop's group, and the last segment |
| Arm.GroupFollowsLastMark | operator/internal/cloud/azure/egress.go:16-20 | the group is the segment after the last "resourceGroups" that has one, and empty without one |
| Arm.ParsesVNetIdIff | operator/internal/cloud/azure/egress.go:13-25 | parsing an identifier returns its group and name, in whatever case its marker is written, iff the group is not called "resourceGroups" in some case |
| Arm.EqualFoldIff | operator/internal/cloud/azure/egress.go:17 | a segment counts as the marker iff it spells "resourceGroups" letter by letter in either case, or with a long s |
| Aws.RequiredDeployActions | operator/internal/cloud/aws/identity.go:33-61 | kms, secrets, iam and cluster stand for their four actions, in that order, each iff it is provisioned |
| Aws.CheckIdentityPermissions | operator/internal/cloud/aws/identity.go:67-127 | red iff something is provisioned and the caller is unknown, the simulation fails, or it names a denied action; amber iff nothing is provisioned; green otherwise |
| Aws.GreenHoldsIff | operator/internal/cloud/aws/identity.go:90-127 | a green check means that every probed action is allowed by name iff the answer speaks of each of them by name |
| Aws.NamelessDenialIsGreen | operator/internal/cloud/aws/identity.go:105-127 | an answer that denies without naming the action is green, although nothing is allowed |
| Aws.EmptyAnswerIsGreen | operator/internal/cloud/aws/identity.go:105-127 | an empty answer is green, although nothing is allowed |
| Aws.CheckKMSKey | operator/internal/cloud/aws/kms.go:16-67 | red iff a key is configured and is not known to be enabled; green iff it is and rotates |
| Aws.CheckSecretsBackend | operator/internal/cloud/aws/secrets.go:15-53 | one result per secret, red iff it cannot be described or is not encrypted with the configured key |
| Aws.CheckFirewallInPath | operator/internal/cloud/aws/egress.go:123-196 | with tables to read: green iff some table has a route to 0.0.0.0/0 through a gateway whose name begins with "vpce-", red otherwise; amber iff some route goes to 169.254.169.254/32 |
| Aws.CheckEgress | operator/internal/cloud/aws/egress.go:36-117 | the whole list of results, for every answer |
| Aws.EgressTells | operator/internal/cloud/aws/egress.go:36-117 | over AWS's answers: red and nothing else without an available VPC; NAT green iff a gateway is available; then the firewall's results and the targets |
| Aws.CheckFqdnReachability | operator/internal/cloud/aws/egress.go:202-227 | every target that is named is amber, in the order visited, and two more always are |
| Aws.EgressRedIff | operator/internal/cloud/aws/egress.go:36-196 | red iff a VPC is configured and is not available or has no firewall in its path |
| Aws.EgressFailsIff | operator/internal/cloud/aws/egress.go:36-196 | which is: the VPC is not answered as available, or an egress path is configured and no table that can be read routes 0.0.0.0/0 through a VPC endpoint |
| Aws.CheckCloud | operator/internal/preflight/cloudstages.go:41-48 | each of the four lists is red iff its check fails |
| Aws.NeverRedIff | operator/internal/cloud/aws/identity.go:33-76 | no answer of AWS can turn anything red iff no concern, key, secret or VPC is configured |
| Aws.BringsItsOwnReachesKubernetes | operator/internal/preflight/check.go:91-114 | such a deployment always reaches stage 4 |
| Aws.ConcernsFromText | operator/internal/cloud/aws/identity.go:33-61 | a variable of separators only stands for all four actions; it stands for none iff it has an entry but no known one |
| Aws.ConcernsSurviveIff | operator/internal/cloud/aws/identity.go:46-61 | a list of concerns survives the environment iff it is not empty |
| Aws.BringsItsOwnFromTextIff | operator/cmd/preflight/main.go:132-144 | which environments bring everything of their own |
| Tiers.AddResources | operator/internal/render/render.go:130-142 | resources are passed on iff a list of requests or of limits is present and some list is not empty; otherwise the values stay as they were |
| Tiers.ValuesFromSpec | operator/internal/render/render.go:91-160 | the map the operator fills in, one conditional after another, is the one that OperatorRenders and the parity theorems speak of |
| Rendering.OperatorRenders | operator/internal/render/render.go:91-160 | tier A, field by field from the spec: image, port, probes, replica bounds, CPU target, budget, resources, security contexts, policies, and the Ingress iff the spec has the block |
| Rendering.ReleaseRenders | charts/workload/templates/deployment.yaml:1-67 | tier B, field by field from the document: the budget is the knob, and the Ingress is there iff the block says enabled |
| Rendering.DefaultsRender | charts/workload/values.yaml:1-46 | what the chart renders from its own defaults |
| Rendering.OperatorSupplies | operator/internal/render/render.go:108-142 | the operator passes resources on iff some list is left, and an ingress block that says enabled, with nothing left to default |
| Rendering.DegradedIff | operator/internal/controller/workload_controller.go:69-78 | a document's success is reported as degraded iff it asks for a canary; one without a strategy asks for rolling updates |
| Rendering.TypedMember | operator/internal/render/render.go:145-158 | a typed security context keeps every member but nulls and empty lists |
| Parity.ReadsCoalesced | charts/workload/values.yaml:1-46 | what a template reads once user values overlay the defaults |
| Parity.OptionalMember | operator/internal/render/render.go:104-158 | which optional entry is found under which key |
| Parity.ResourcesAgreeIff | operator/internal/render/render.go:130-142 | the Deployments of the two tiers have the same resources iff no block of claims stands alone |
| Parity.ContextsAgreeIff | charts/workload/templates/deployment.yaml:25-46 | both routes give a Deployment the same security context iff the block does not hold nothing but empty lists |
| Parity.TypedIdempotent | operator/internal/render/render.go:145-158 | converting a security context twice is converting it once |
| Parity.EmptyListHardensOneTier | operator/internal/render/render.go:152-158 | an empty list of supplemental groups gives tier A the hardened context and tier B an empty one |
| Parity.RoutedIff | charts/workload/templates/ingress.yaml:1-24 | tier A renders an Ingress iff the document has the block, tier B iff the block also says enabled |
| Parity.SameIngress | charts/workload/templates/ingress.yaml:9-24 | where both render it, it is the same Ingress |
| Parity.ParityIff | modules/workload/main.tf:5-33 | the tiers render the same objects iff the document is aligned |
| Parity.ParityOfDeclaredIff | modules/workload/main.tf:12-20 | of the documents that declare only CRD fields, exactly the aligned ones without an ingress block render the same in both tiers |
| Parity.IngressIsTheDifference | modules/workload/main.tf:5-33 | an ingress block that does not switch itself on is the whole difference: one Ingress more in tier A, none in tier B |
| Decode.DecodeFile | operator/internal/render/render.go:178-198 | succeeds iff the file is blank, or is read to its end and every non-empty document types; then it gives as many objects as there are non-empty documents, those of FileTranscribes |
| Decode.FileTranscribes | operator/internal/render/render.go:178-197 | the objects of a file are its non-empty documents, each typed, at increasing positions, and no document at another position is non-empty |
| Decode.Decode | operator/internal/render/render.go:162-201 | success iff every file that is not blank decodes; then the objects are the typed non-empty documents in order; an error names a file that does not |
| Decode.DocumentsAreConserved | operator/internal/render/render.go:162-201 | an object occurs as often as non-empty documents of files that are not blank become it, in every order of visiting the files |

## Left out

- Resource versions are positions in a history; server defaulting is any idempotent function and address allocation any function of the key; writes that change nothing store no new version.
- Owner references other than the controller's, owner comparison by API group, finalizers, garbage collection, and version conflicts between API versions.
- Condition transition times, remediation texts, stage names, logging, metrics, exit codes and the static fallback of `emitError`.
- The JSON, YAML and Helm engines and the chart's schema validation: documents are trees, rendering is the set of typed objects, and a file is whatever the decoder makes of it. Number formatting inside templates, resource quantities that are not canonical, and documents with null members are not modelled.
- The Service, autoscaler, disruption budget and network policy templates beyond the values they read.
- Errors in converting resources and security contexts to unstructured content.
- Fields outside the CRD in a document, other than `enabled` of the ingress block.
- Empty strings in the string fields of a security context: both tiers keep them, and typed objects do not tell them from absent ones.
- DeepCopy.WorkloadObject.DeepCopy: metadata other than uid and generation is left out, and copying a status or a Workload into an existing object is modelled as constructing it; nil and empty condition lists are not told apart.
- Reconciler.Cluster.Reconcile: nobody else writes during the call; interleavings are the subject of the step system, whose children are rendered in any order.
- ProtocolTheorems.ReadyIsHonest: speaks of runs in which no patch carried a claim of readiness to another incarnation, because it is false of exactly the others (`HonestThroughoutIff`).
- ProtocolTheorems.ObservedGenerationIsHonest: speaks of the same runs; of the first such patch in a run, `CrossingObservedGenerationIff` says when the observed generation it leaves is honest.
- WakeUp.NoLostWakeUp: the number of timers and the length of back-offs are left out; a timer is set or not.
- Gate.GateDecides: the seven other checks of stage 4 and the namespace check of stage 5 are arbitrary results; access reviews and discovery are inputs.
- Aws.CheckCloud: the SDK's answers are arbitrary functions of what is asked; pages after the first and answers that change between calls are not modelled.
- Arm.GroupAndName: folding covers comparison with ASCII text, which is all the parser compares with.
- Text.SplitNonEmpty: strings are sequences of code points; invalid UTF-8 is not modelled.
- The GCP provider and the rest of the Azure provider, which have the same shapes of branches as AWS.
- The Terraform modules for networks, keys, roles and clusters, firewall rules, release tooling, and end-to-end scripts.
