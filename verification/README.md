# A verified model of the Orchestrator operator

The operator reconciles one Orchestrator resource: it installs the serverless logic (OSL), Knative and
RHDH operators through OLM and creates their resources, network policies and GitOps resources; when the
resource is deleted it cleans up behind a finalizer.  This project models its controller against an
abstract API server and proves what whole runs of it do: under any faults and any interference where
nothing else is said, and exactly where the calls go well.

## How it is built

- `Kubernetes.dfy`, `Desired.dfy`: objects, errors, the resource, the names and objects the operator wants.
- `ApiServer.dfy`: every API call as a function on a world (store, resource, clock, log).  At each call an
  oracle lets others act first, rejects the call, or loses its reply after it took effect, and orders lists.
- `Audit.dfy`: what may stand in the operator's log after what.  `Client.dfy`: the client, a class whose
  fields are the world; each call agrees with its function and adds justified entries, of its failure, too.
- `KubeOperations.dfy`, `ServerlessLogic.dfy`, `Knative.dfy`, `DeveloperHub.dfy`, `NetworkPolicies.dfy`,
  `GitOps.dfy`, `Reconcile.dfy`, `Runs.dfy`: the handlers.  A module `XSpec` has them as functions on the
  world, module `X` as methods on the client with the source's loops and early returns; each method ends in
  the world and with the result of its function.
- `History.dfy`, `Phases.dfy`: consequences for every run: deletions, Completed, the finalizer, approvals,
  contents, the order of stages and of clean-ups, which failures matter, the status machine.
- `Verdicts.dfy`: what every pass tells the work queue and writes to the status.
- `Quiet.dfy`, `Calmness.dfy`: without faults and interference every handler is a function of the store.
- `Goals.dfy`, `Convergence.dfy`, `Progress.dfy`, `Fixpoint.dfy`, `Outcome.dfy`, `PassBound.dfy`: progress
  together with OLM, the fixpoint, where runs end, and the exact number of passes.
- `Idleness.dfy`, `Limits.dfy`: handlers that find what they want, and what a pass does not guarantee.
- `Solitude.dfy`, `BulkRemoval.dfy`, `PolicyEffects.dfy`, `ConfigMapOrder.dfy`, `GitOpsRoundTrip.dfy`,
  `CleanUpRestart.dfy`: exact effects of single stages, and of retrying.
- `Installer.dfy`, `Serializability.dfy`, `ApprovalSafety.dfy`: the installer call by call, interleaved.

`dafny verify dfyconfig.toml` checks everything.

## What is assumed

- Reads are linearizable.  An update replaces the object that was read, and fails with Conflict if it has
  changed; that an object changes and changes back in between is covered by an injected Conflict.
- Deleting a namespace removes its contents at once.  Existing namespaces have a label map.
- A NotFound answer is an answer, true or injected; an unregistered kind appears only as an injected error.
- There is one Orchestrator resource.  Nobody but the operator writes its status, where a lemma says so
  (`StatusIsOurs`); an edit of its spec or metadata is always possible.
- OLM resolves a Subscription to a plan of a version, records both together, never changes a plan's version
  and installs approved plans only; in `Progress` it resolves to the version the Subscription asks for.
- The log is bookkeeping of the model, not of the operator: what one worker read, wrote and attempted, in order.
- For convergence the things nobody makes must be there (`Convergence.Ready`): the cluster Ingress, the RHDH
  namespace, the workflow namespace if OSL is off, the GitOps namespace and CRDs if both flags are on.
  A plan of the pinned version that a Subscription has resolved to exists.  Subscriptions of other versions
  are allowed; `Outcome.ConvergesExactly` says when they stand in the way.

## Findings

- A process that has once failed on a network policy never completes a resource again, even after the policy
  has been repaired: the map of errors is never cleared (`PolicyEffects.NothingIsForgotten`, `Runs.Operate`).
- A Subscription that has resolved to another version while the definitions of its operator are missing stays
  so: the operator repairs its spec and does not approve its plan, and waits for ever
  (`Outcome.OlderReleaseIsStuck`, `Outcome.StuckForGood`).
- The second read in a first pass may show a deletion that the pass does not notice; it then installs
  (`Limits.LateDeletionIsMissed`); no other path does (`Limits.BlindExactly`).
- The pass that completes a deletion always ends with an error, because it goes on and tries to put the
  finalizer back (`CleanUpRestart.DeletionPass`).
- A pass that has run all stages is finished even if it could not write the phase Completed
  (`Verdicts.CompletingPass`).
- An installer that cannot make the namespace of the OSL or RHDH operator reports success
  (`History.CompletedDespite` lists this among the failures that Completed does not exclude).
- Completed does not say that Knative resources, ConfigMaps or Tekton Tasks are there
  (`Limits.CompletedWithoutThem`); when exactly a stage leaves them there is `Limits.KnativeIsExact`,
  `Limits.ConfigMapsAreExact` and `Limits.TasksAreExact`.
- The RHDH clean-up adopts the RHDH namespace whoever made it, and deletes it if it holds exactly one labelled
  Backstage; with none, the RHDH operator's namespace stays and no error is reported
  (`CleanUpRestart.CleanUpIsExact`).  docs/main/README.md:481-486 tells users to delete the RHDH namespace
  themselves.  The model follows the code.
- Switching GitOps off deletes a foreign labelled AppProject or Pipeline if it is the only one, and keeps the
  operator's own if there is another; all labelled Tasks go (`GitOpsRoundTrip`).
- The condition Available stays Unknown for ever, and Completed=True stays when the phase turns Failed
  (`Phases.Legal`, `Phases.Succeeds`).
- The caller passes the two GitOps flags to the ConfigMap templates in the opposite order of the parameters'
  names: each file is rendered with the flag of the other (`Audit.ProperConfigMap`).

## Model

| member | source | states |
|---|---|---|
| `KubeOperations.CheckNamespaceExist` | internal/controller/kube/kube_operations.go:43-60 | success means that the namespace existed; adoption writes the label only, and an error of that write is swallowed; justified for namespaces that are fixed or named in the resource |
| `KubeOperations.GetOperatorGroup` | internal/controller/kube/kube_operations.go:155-176 | every error of the look-up, not just NotFound, leads to a creation |
| `KubeOperations.InstallSubscriptionAndOperatorGroup` | internal/controller/kube/kube_operations.go:75-101 | success means that the Subscription was made, after its group, and that no call failed but perhaps the look-up of the group; what it says is in History.CreationsAreProper |
| `KubeOperations.ApproveInstallPlan` | internal/controller/kube/kube_operations.go:103-128 | approves a plan only if it was not approved; justified in the log when the worker has seen the Subscription refer to it at the pinned version |
| `KubeOperations.CheckSubscriptionExists` | internal/controller/kube/kube_operations.go:202-221 | NotFound is the answer "no", any other error is one |
| `KubeOperations.CleanUpNamespace` | internal/controller/kube/kube_operations.go:232-257 | deletes a namespace only with the operator's label on it; success means gone or foreign |
| `KubeOperations.RemoveAll` | internal/controller/kube/kube_operations.go:356-366 | the loop tries every item and collects the errors in order |
| `KubeOperations.RemoveCustomResourcesInNamespace` | internal/controller/kube/kube_operations.go:336-368 | success means that all that was listed is gone |
| `KubeOperations.HandleOperatorInstallation` | internal/controller/sonataflow.go:56-116 | the installer, with the early returns in which its three copies differ (knative.go and backstage.go have the other two) |
| `ServerlessLogic.ReconcileServerlessLogic` | internal/controller/orchestrator_controller.go:251-302 | success is evidence of the CRD and both SonataFlow resources; a namespace that had to be made is still reported missing |
| `ServerlessLogic.HandleRemovalOfOSLCRs` | internal/controller/sonataflow.go:339-389 | both kinds are tried; success means that both lists are cleared |
| `ServerlessLogic.HandleServerlessLogicCleanUp` | internal/controller/sonataflow.go:299-315 | the namespace goes only after both kinds are cleared |
| `Knative.EnsureKnativeNamespace` | internal/controller/knative/knative.go:142-158 | any error of the namespace check leads to a creation of the namespace |
| `Knative.HandleKnativeResource` | internal/controller/knative/knative.go:142-230 | one of the two resources in its namespace; an error of creating it is swallowed |
| `Knative.ReconcileKnative` | internal/controller/orchestrator_controller.go:304-327 | success is evidence of the Subscription and both CRDs, and of no Knative resource |
| `Knative.HandleKnativeCleanUp` | internal/controller/knative/knative.go:232-251 | success means that the three namespaces are gone or foreign |
| `DeveloperHub.EnsureConfigMaps` | internal/controller/rhdh/backstage.go:212-246 | the loop in the order given: existing ConfigMaps are left alone, failing look-ups passed over, a failing creation ends the loop and is told; each creation is judged: its text is rendered for the domain of the Ingress last seen |
| `DeveloperHub.ReconcileRHDH` | internal/controller/orchestrator_controller.go:329-375 | success is evidence of the Ingress, the Secret, the CRD and the Backstage |
| `DeveloperHub.HandleRHDHCleanUp` | internal/controller/rhdh/backstage.go:273-299 | success means that the operator's namespace is gone or foreign, or that there was no Backstage |
| `NetworkPolicies.PolicyErrors.HandleNetworkPolicy` | internal/controller/network_policy.go:39-96 | the loop goes on after a failure, which stays in the map of the process; a policy that is not in the map has been seen with the wanted spec |
| `NetworkPolicies.PolicyErrors.ReconcileNetworkPolicy` | internal/controller/orchestrator_controller.go:436-460 | succeeds only with an empty map, so never again in a process that has failed once |
| `GitOps.HandleArgoCDProject` | internal/controller/gitops/argocd.go:50-110 | success means that the AppProject was seen or written with the wanted spec |
| `GitOps.EnsureTasks` | internal/controller/gitops/tasks.go:48-76 | failing look-ups are passed over, a failing creation ends the loop |
| `GitOps.HandleTektonPipeline` | internal/controller/gitops/pipeline.go:28-233 | a Pipeline that had to be made is still reported missing |
| `GitOps.RemoveSingle` | internal/controller/gitops/argocd.go:112-139 | deletes only if exactly one is labelled (the Pipeline copy is pipeline.go:235-262); success means that the one is gone, or that the namespace or the list could not be read; a failing deletion is told |
| `GitOps.HandleTektonTaskCleanUp` | internal/controller/gitops/tasks.go:337-364 | deletes all labelled Tasks, failures are swallowed |
| `GitOps.ReconcileGitOps` | internal/controller/orchestrator_controller.go:462-485 | both flags on: evidence of AppProject and Pipeline; otherwise evidence of the clean-up: a single labelled AppProject or Pipeline is gone, every labelled Task is gone or could not be deleted |
| `Reconcile.Reconciler.HandleDeletion` | internal/controller/orchestrator_controller.go:119-132 | the finalizer is taken off only with evidence that all three clean-ups are complete, and after no failure but around the RHDH namespace |
| `Reconcile.Reconciler.AddFinalizers` | internal/controller/orchestrator_controller.go:395-403 | fails on a resource that is being deleted and has lost the finalizer |
| `Reconcile.Reconciler.Prepare` | internal/controller/orchestrator_controller.go:119-157 | a pass that starts from a resource being deleted ends here, under any faults |
| `Reconcile.Reconciler.RunStages` | internal/controller/orchestrator_controller.go:163-239 | the stages in order; running to the end is evidence of all of them, with tolerated failures only; the error of a stage is that of its last call |
| `Reconcile.Reconciler.Reconcile` | internal/controller/orchestrator_controller.go:97-249 | one pass: clean log, legal status moves, no status change when it waits, no completion once a policy has failed; its verdicts are in Verdicts |
| `Reconcile.Reconciler.ReconcileSubscription` | internal/controller/orchestrator_controller.go:487-510 | the watch handler installs two of the three operators and enqueues nothing |
| `Runs.Operate` | internal/controller/orchestrator_controller.go:97-249 | all of this over any run of passes, watch events and restarts |
| `History.DeletionFrame` | internal/controller/kube/kube_operations.go:232-257 | every deletion: label seen at the last look, namespaces only from the fixed five and the RHDH one, and only while the resource is being deleted |
| `History.CompletedCertifies` | internal/controller/orchestrator_controller.go:159-248 | what a pass that attempts Completed has shown, by literal name: of every stage that is switched on its CRDs, Subscription or resources, every applicable policy with its ingress rules, AppProject with its spec, Pipeline; with GitOps off, that a single labelled AppProject or Pipeline is gone |
| `History.CompletedDespite` | internal/controller/orchestrator_controller.go:159-248 | the only calls that may have failed in a pass that attempts Completed, one by one: every other failure keeps a pass from completing |
| `History.RemovedDespite` | internal/controller/orchestrator_controller.go:119-132 | the only calls that may have failed in a pass that takes its finalizer off: the look-up and the labelling of the RHDH namespace |
| `History.CleanUpComesInOrder` | internal/controller/orchestrator_controller.go:405-420 | a clean-up deletes platforms only after the Knative part is shown complete, the OSL namespace only after both kinds are shown cleared, and RHDH namespaces only after that |
| `History.FinalizerIsLast` | internal/controller/orchestrator_controller.go:119-132 | the finalizer goes only in a pass that found the resource being deleted and has shown all clean-ups complete |
| `History.DeletionInstallsNothing` | internal/controller/orchestrator_controller.go:119-157 | a pass that found the resource being deleted creates nothing and never completes |
| `History.ApprovalsAreJustified` | internal/controller/kube/kube_operations.go:103-128 | each approval is of a plan last seen in a managed Subscription at its pinned version, when that operator may be installed, and changes nothing else |
| `History.StagesComeInOrder` | internal/controller/orchestrator_controller.go:159-239 | whatever a pass creates, repairs or approves, namespaces, groups, Subscriptions and plans included, belongs to a stage that is switched on, and comes after the same pass has shown the whole evidence of every earlier stage that is switched on, CRDs included |
| `History.CreationsAreProper` | internal/controller/orchestrator_controller.go:159-239 | every object the operator creates, over any run: key and content belong together and are what the resource asks for, literal where they are fixed: Subscriptions with catalog, package, channel and version, both SonataFlow services in the configured database, each file from the template of its name for the domain of the Ingress last seen in the pass, policies with their rules, ... |
| `History.RepairsArePinned` | internal/controller/sonataflow.go:88-105 | every change of a Subscription gives it the same literal spec and keeps status and labels |
| `History.LabelsAreKept` | internal/controller/kube/kube_operations.go:318-332 | updates keep all labels; only a namespace that is fixed or named in the resource gains one; a repaired policy has the wanted spec |
| `Limits.CompletedWithoutThem` | internal/controller/orchestrator_controller.go:159-248 | a settled cluster from which any Knative resources, ConfigMaps and Tasks are taken away: with the right calls failing, a whole pass still attempts Completed, reports it, and leaves the cluster without them |
| `Limits.KnativeResourceIsExact` | internal/controller/knative/knative.go:142-230 | under any faults: when the handler succeeds, the resource is there if and only if it was, or the one call that creates it is not rejected; all but it and its namespace is framed |
| `Limits.KnativeIsExact` | internal/controller/knative/knative.go:142-230 | the same for both resources of the stage |
| `Limits.NamespaceDespite` | internal/controller/knative/knative.go:142-158 | the Knative namespace is had if and only if its look-up goes well, or it is missing and its creation goes well, whatever error the look-up met |
| `Limits.GroupDespite` | internal/controller/kube/kube_operations.go:155-176 | an installer has the operator group if and only if its look-up goes well, or it is missing and its creation goes well, whatever error the look-up met |
| `Limits.SingleRemovalIsExact` | internal/controller/gitops/argocd.go:112-139 | with one labelled AppProject or Pipeline listed: success if and only if the deletion goes well, its error otherwise, and the object stays if and only if the deletion is rejected |
| `Limits.ConfigMapsAreExact` | internal/controller/rhdh/backstage.go:212-246 | under any faults: when the loop succeeds, existing ConfigMaps are kept, missing ones made unless their look-up failed with anything but NotFound, and all else is framed |
| `Limits.TasksAreExact` | internal/controller/gitops/tasks.go:48-76 | the same for the Tasks |
| `Limits.AllThereExactly` | internal/controller/gitops/tasks.go:57-75 | so all are there after a success if and only if no missing one was passed over |
| `Limits.LateDeletionIsMissed` | internal/controller/orchestrator_controller.go:137-155 | a deletion between the two reads of a first pass goes unnoticed, whether the finalizer was there or was added |
| `Limits.OnlyTheSecondReadIsBlind` | internal/controller/orchestrator_controller.go:119-155 | in no other way do the stages run for a resource being deleted |
| `Limits.BlindExactly` | internal/controller/orchestrator_controller.go:119-155 | some turns let the stages run for a resource being deleted if and only if the pass began with one that is not, and that has no conditions |
| `Idleness.SettledStagesOnlyRead` | internal/controller/orchestrator_controller.go:159-239 | on a settled cluster the stages of a pass without faults write nothing: they only read |
| `Verdicts.WaitingPass` | internal/controller/orchestrator_controller.go:163-239 | for every oracle: stages that fail with NotFound, or the RHDH stage with NoMatch, make the pass wait, with no further call and no error |
| `Verdicts.FailingPass` | internal/controller/orchestrator_controller.go:163-239 | with any other error the pass attempts Failed last and tells that error; stored without disturbance, the Degrading condition names the stage, by literal reason, and the error |
| `Verdicts.CompletingPass` | internal/controller/orchestrator_controller.go:241-248 | stages that all succeed make the pass attempt Completed last and be finished, even if that attempt fails |
| `Verdicts.UnreadPass` | internal/controller/orchestrator_controller.go:107-117 | a resource that is gone ends the matter, any other error of the first read is told and tried again |
| `Verdicts.FailedCleanUp` | internal/controller/orchestrator_controller.go:119-123 | a clean-up that fails: its error is told and tried again |
| `Verdicts.SucceededCleanUp` | internal/controller/orchestrator_controller.go:124-137 | a clean-up that succeeds: the pass tells an error anyhow |
| `Verdicts.UnpreparedPass` | internal/controller/orchestrator_controller.go:134-155 | finalizer, first status and second read: which error ends the pass, and how it is told |
| `Verdicts.NoPassIsForgotten` | internal/controller/orchestrator_controller.go:97-249 | a pass is finished only if the resource is gone or Completed was attempted last; every other one tells an error or waits |
| `Phases.SettingACondition` | internal/controller/orchestrator_controller.go:422-434 | a condition takes the place of the first of its type, or the last place |
| `Phases.StampKeepsLegal` | internal/controller/orchestrator_controller.go:422-434 | the statuses a pass writes keep the types distinct and drawn from three, never take a type or Completed=True back, and fit the phase |
| `BulkRemoval.RemovalIsExact` | internal/controller/kube/kube_operations.go:356-366 | for any pattern of failures: the survivors, the errors in order, and successes plus errors make the number of items |
| `BulkRemoval.BulkRemovalIsExact` | internal/controller/kube/kube_operations.go:336-368 | success if and only if the list and all deletions went well, or the list was NotFound; the survivors are exactly those whose deletion was rejected |
| `BulkRemoval.BothKindsAreTried` | internal/controller/sonataflow.go:339-389 | the second kind is removed whatever became of the first |
| `PolicyEffects.ErrorsAccumulate` | internal/controller/network_policy.go:34-96 | one call: the map gains exactly the policies that failed |
| `PolicyEffects.LoopIsExact` | internal/controller/network_policy.go:43-93 | under any faults: policies whose calls succeed end with the wanted spec and their old labels, all other objects are framed |
| `PolicyEffects.MonitoringPolicyStays` | internal/controller/network_policy.go:43-48 | the monitoring policy is not removed when its flag is off |
| `PolicyEffects.SecondCallIsIdle` | internal/controller/network_policy.go:43-93 | after a call without faults another one makes no call but one look-up of the namespace and of each applicable policy |
| `PolicyEffects.NothingIsForgotten` | internal/controller/network_policy.go:34 | the keys of the map are the union of the failures of all passes since the process began |
| `PolicyEffects.FinishingNeedsACleanRecord` | internal/controller/orchestrator_controller.go:447-457 | so the stages run to the end only in a process without any failure |
| `PolicyEffects.EffectiveIngress` | internal/controller/network_policy.go:99-212 | exactly which namespaces are let in after a stage without faults |
| `PolicyEffects.IntraNamespacePolicyIsIdle` | internal/controller/network_policy.go:164-176 | dropping allow-intra-namespace changes nobody's access |
| `ConfigMapOrder.OrderDoesNotMatter` | internal/controller/rhdh/backstage.go:212-246 | for any names and any two orders: the same store, the same outcome, a permutation of the names without the dynamic plugins |
| `ConfigMapOrder.FilledKeeps` | internal/controller/rhdh/backstage.go:212-246 | existing ConfigMaps are kept as they are, and every name is there |
| `Calmness.CalmInstall` | internal/controller/sonataflow.go:56-116 | without faults the installer is a function of the store |
| `Calmness.CalmCleanUp` | internal/controller/orchestrator_controller.go:405-420 | without faults the clean-up is a function of the store and always succeeds |
| `Calmness.CalmStages` | internal/controller/orchestrator_controller.go:163-239 | without faults the stages are a function of the store and the ConfigMap order |
| `Calmness.CalmPass` | internal/controller/orchestrator_controller.go:97-249 | the whole pass, with the resource it leaves |
| `Convergence.InstallEvolves` | internal/controller/sonataflow.go:56-116 | whatever Subscription the installer finds, it loses no goal; it waits only for a namespace it has just made or a plan that is not there; if it changes nothing, the plan of the pinned version is approved, or OLM has not resolved to one |
| `Convergence.StagesEvolve` | internal/controller/orchestrator_controller.go:159-248 | a pass on any cluster reaches goals and loses none; where what nobody makes is there, it fails only to wait, and waits in vain only for OLM |
| `Progress.EveryStepCounts` | internal/controller/orchestrator_controller.go:97-249 | every pass or OLM step that changes anything strictly decreases the rank and keeps the prerequisites |
| `Progress.PassIsReconcile` | internal/controller/orchestrator_controller.go:97-249 | the passes of that system are the operator's |
| `Outcome.StandstillIsExact` | internal/controller/orchestrator_controller.go:97-249 | where no pass and no OLM step changes anything, the cluster has converged if and only if no component is stuck: resolved to another version with a definition missing |
| `Outcome.StuckForGood` | internal/controller/sonataflow.go:56-116 | no pass and no OLM step gets a component unstuck |
| `Outcome.Converges` | internal/controller/orchestrator_controller.go:97-249 | runs of changing steps are no longer than the rank, and one that cannot go on ends converged if and only if no component is stuck |
| `Outcome.ConvergesExactly` | internal/controller/orchestrator_controller.go:97-249 | every such run ends converged if and only if at its start every component has its definitions, or a Subscription, if any, that is resolved to the pinned version or asks for it |
| `Outcome.OlderReleaseIsStuck` | internal/controller/knative/knative.go:76-104 | the start an earlier release can leave: from it, no run converges |
| `Fixpoint.ConvergedIsFixed` | internal/controller/orchestrator_controller.go:97-249 | on a converged cluster a pass changes neither the cluster nor the resource, conditions included |
| `Fixpoint.FinishingConverges` | internal/controller/orchestrator_controller.go:97-249 | a pass that finishes leaves a converged cluster, whatever it has found |
| `Fixpoint.ConvergedExactly` | internal/controller/orchestrator_controller.go:97-249 | a pass without faults finishes and changes nothing if and only if the cluster has converged |
| `PassBound.OnePass` | internal/controller/orchestrator_controller.go:267-277 | a pass goes through, or makes exactly one of the objects it waits for |
| `PassBound.ExactPassCount` | internal/controller/gitops/pipeline.go:218-231 | the pass that finishes is the one after as many as blocking objects were missing |
| `GitOpsRoundTrip.StageSwitchesOn` | internal/controller/gitops/gitops.go:39-68 | what the stage makes of any store |
| `GitOpsRoundTrip.ProjectsReturn` | internal/controller/gitops/argocd.go:112-139 | the AppProjects return if and only if: name unused and none labelled, or name used for the wanted spec and not exactly one labelled |
| `GitOpsRoundTrip.PipelinesReturn` | internal/controller/gitops/pipeline.go:235-262 | the Pipelines return if and only if: name unused and none labelled, or name used and not exactly one labelled |
| `GitOpsRoundTrip.TasksReturn` | internal/controller/gitops/tasks.go:337-364 | the Tasks return if and only if none was labelled |
| `GitOpsRoundTrip.RoundTrip` | internal/controller/orchestrator_controller.go:462-485 | the same for whole passes up to one that finishes, and then the stage with a flag off |
| `CleanUpRestart.CleanUpIsExact` | internal/controller/orchestrator_controller.go:405-420 | exactly what a clean-up removes, for any store |
| `CleanUpRestart.AttemptIsHarmless` | internal/controller/orchestrator_controller.go:405-420 | an attempt, whether it fails at some call or succeeds, does not change where a later clean-up ends |
| `CleanUpRestart.CleanUpCanBeRetried` | internal/controller/orchestrator_controller.go:405-420 | any number of failed attempts and then one without faults end where the one without faults ends |
| `CleanUpRestart.DeletionPass` | internal/controller/orchestrator_controller.go:119-135 | the whole pass of a deletion without faults: the cluster cleaned up exactly, the resource gone with its last finalizer, an error reported, nothing installed |
| `CleanUpRestart.DeletionPassIsHarmless` | internal/controller/orchestrator_controller.go:119-135 | a deletion pass under any faults: harmless, and the resource is as it was, or without the finalizer, or gone |
| `CleanUpRestart.DeletionCanBeRetried` | internal/controller/orchestrator_controller.go:119-135 | any number of deletion passes under any faults, and then one without, end where the one without faults ends |
| `CleanUpRestart.EmptyHubMatters` | internal/controller/rhdh/backstage.go:273-299 | the one exception: a lost reply while the RHDH namespace stands without a Backstage |
| `Installer.InstallerSteps` | internal/controller/sonataflow.go:56-116 | the installer call by call is the installer |
| `Serializability.InstallersAreSerializable` | internal/controller/orchestrator_controller.go:487-510 | every interleaving of two installers in different namespaces ends as both sequential orders do |
| `Serializability.WatchAndPassAreSerializable` | internal/controller/orchestrator_controller.go:487-510 | the handler of the watch, for the OSL Subscription, against the Knative installer of a pass, though both groups have one name |
| `Serializability.WatchIsLocal` | internal/controller/orchestrator_controller.go:487-510 | under any faults, an event of one of the two watched Subscriptions changes nothing outside that operator's namespace |
| `Serializability.WatchInstalls` | internal/controller/orchestrator_controller.go:487-510 | without faults it installs that operator |
| `Serializability.WatchIgnores` | internal/controller/orchestrator_controller.go:487-510 | any other event, of the RHDH Subscription or of an unlabelled one, makes no call |
| `ApprovalSafety.CallKeepsHonesty` | internal/controller/kube/kube_operations.go:103-128 | a call of any installer, with what it remembers, approves no other version |
| `ApprovalSafety.OnlyPinnedVersions` | internal/controller/sonataflow.go:107-114 | however any number of installers, OLM and others interleave: in managed namespaces every plan approved in the run is of the pinned version, and so is every version installed in it, unless from a plan approved before |
| `ApprovalSafety.ApprovalsStay` | internal/controller/kube/kube_operations.go:103-128 | no call of an installer withdraws an approval |

## Left out

- Templates, plugin lists, shell scripts, Pipeline and Task bodies: opaque values; the rendered text is a function of the template's inputs.
- The patch of a Backstage's deployment and resource quantities: part of opaque specs.
- internal/controller/knative.go: an unused older copy of the Knative handlers.
- CheckCSVExists and CleanUpSubscriptionAndCSV: no modelled path calls them.
- SetupWithManager, events, logging, RBAC and delays: only that passes and watch handlers can overlap, and that a pass may be followed by another.
- Informer staleness and namespaces that terminate slowly: see the assumptions on reads and namespaces.
- Serializability.InstallersAreSerializable: the two workers meet faults of their own but no third party; interference is covered by `ApprovalSafety` and the audit.
- CleanUpRestart.CleanUpIsExact: requires an RHDH namespace that is none of the five fixed ones; with one of those names an earlier step may delete what a later step counts.
- History.CompletedCertifies: says what the pass has shown at its calls; others may have removed it since.
- Outcome.ConvergesExactly: OLM resolves a Subscription once; that it may later offer an upgrade plan is not modelled.
- CleanUpRestart.DeletionCanBeRetried: requires that the RHDH namespace does not stand without a Backstage; `CleanUpRestart.EmptyHubMatters` shows why.
