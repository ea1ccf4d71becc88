# AI Gateway operator: a verified model

This project models the ai-gateway-operator in Dafny and proves what its reconcile pass, and three
smaller algorithms around it, guarantee.

The centre is the reconcile pass as a step machine (`Pipeline.dfy`). Every API call of the operator
is one step over a shared store. Between any two of them the user may edit the spec, maas-controller
may mark its Deployment `teardown-completed`, and any other client may update, delete or create any
object. Any call may fail, which ends the pass. A run is any such interleaving, and the main theorems
hold for every run. Reads of the maas-controller Deployment go through a cache, so each operator step
carries what its read returned; freshness is a hypothesis where a theorem needs it and absent where it
does not.

| file | about |
|---|---|
| `Wrappers.dfy` | a value that may be absent |
| `Cluster.dfy` | objects, the pure decisions about them, apply, rendering |
| `Pipeline.dfy` | the pass as steps, runs, history |
| `Safety.dfy` | teardown safety over runs |
| `Hazards.dfy` | for each hypothesis of safety, a family of runs that breach only it and become unsafe |
| `SweepOrder.dfy` | what a garbage-collection sweep removes, and when its order matters |
| `Teardown.dfy` | teardown progresses, finishes, and is always requested |
| `Rollout.dfy` | every sub-module: what a pass plans, has in place when it reports, and collects |
| `ReEnable.dfy` | passes that keep the bundle install it; going back to Managed converges |
| `Migration.dfy` | the selector migration under interference |
| `InfraRbac.dfy` | the infra namespace and RBAC follow the spec; the database secret survives |
| `Conditions.dfy` | initialize, the teardown request, the reported conditions |
| `Releases.dfy` | the platform version handshake |
| `Sources.dfy` | the reported manifest sources |
| `GridNamespace.dfy` | the AI Grid namespace name |
| `Tls.dfy` | TLS profile resolution and the restart watcher |
| `Strip.dfy` | stripping withheld env blocks when vendoring |

Teardown safety is stated for disciplined runs (`Safety.Disciplined`): reads are fresh; no pass runs
with MaaS unset; no pass breaks off between a migration delete and deploy; and nobody else deletes an
unmarked maas-controller Deployment, creates one behind a running pass, rewrites the operator's stamp
on it, or touches an object between the sweep's verdict and its deletion. `Hazards.dfy` breaches each
of these alone. Without any discipline, `Safety.DecisionUnsafeIffLost` says exactly when a decision
taken on a fresh read is unsafe.

The other theorems ask of the rest of the world only what they need, and let it update the objects in
question: the end of a teardown (`Teardown.TearingDown`) asks that nobody recreates a bundle object,
takes its component label off or removes the completed mark; installation (`ReEnable.Keeping`) that
nobody creates, deletes, unlabels, restamps or marks one; the request (`Teardown.LeavesController`)
that nobody deletes the Deployment or takes the request off it. Failures of the operator are allowed
wherever a theorem does not speak of an error-free pass.

## What the proofs found

- **A missing Deployment counts as completed.** Teardown safety therefore depends on no unmarked
  Deployment disappearing. A decision taken on a fresh read is unsafe exactly when an earlier step
  deleted an unmarked Deployment - somebody else's delete, the migration's, or the sweep's - and there
  has been none since (`Safety.DecisionUnsafeIffLost`). Two paths inside the operator do that with no
  foreign writer: a pass that breaks off between the migration delete and deploy, by a failure or by an
  apply the API server refuses (`Hazards.BrokenOffPassIsUnsafe`, `Hazards.RefusedApplyIsUnsafe`), and a
  pass with MaaS unset, whose sweep collects the Deployment for its old stamp
  (`Hazards.UnsetPassIsUnsafe`).
- **The sweep's order can matter.** It does exactly when the Deployment is unmarked, stale and listed
  together with a bundle object that is not stale: deleting the Deployment first makes teardown look
  done (`SweepOrder.OrderIrrelevantIff`). A pass with MaaS unset gets there
  (`Hazards.UnsetPassMeetsSensitiveSweep`); in a disciplined run only a pass that left the bundle out
  can, after somebody took the mark off again (`SweepOrder.SensitiveSweepsAreUnmarkings`).
- **The sweep does not look at the spec.** A MaaS set back to Managed while still marked is applied and
  collected in the same pass; the second pass installs it (`ReEnable.ReEnableConverges`).
- **The migration can leave a Deployment stuck.** A live selector that passes the check but differs
  from the rendered one stays until somebody deletes the Deployment: no migration step of any later
  pass removes it, and no pass that plans to deploy it gets as far as reporting
  (`Migration.StuckForever`).
- **The hash does not keep grid namespaces unique.** Every valid long applications namespace has a valid
  short one that derives the same grid namespace (`GridNamespace.EveryLongNameHasAShortTwin`).
- **A metadata entry named platform would show up** after a failed pass when no platform version was
  recorded before (`Releases.FailedPassKeepsVersionIff`).
- **A TLS change can be missed.** If the adherence is not found at startup, its watch is never
  registered, and a later change to a strict policy leaves outdated options served with no watch left to
  fire (`Tls.StaleHistory`). `Tls.QuietIsOutdatedIff` gives the exact condition over all histories, by
  what the two reads of the last startup returned. An internal server error is transient for the
  adherence read but fatal for the profile read.

Where documentation and code disagree the model follows the code: docs/architecture.md speaks of four
AI Grid CRDs and of the grid operator in the applications namespace; the code lists five CRDs and uses
the derived grid namespace.

## Model

| member | source | states |
|---|---|---|
| Safety.TeardownSafety | internal/controller/aigateway/aigateway_remove.go:125-175 | In every disciplined run, whatever the operator removes outside the migration is stale, or the latest maas-controller Deployment was marked completed. |
| Safety.UnmarkedControllerIsSpared | internal/controller/aigateway/aigateway_remove.go:152-175 | In disciplined runs no call outside the migration removes a Deployment that was never marked, however old its stamp. |
| Safety.RemovalFollowsMark | internal/controller/aigateway/aigateway_infra_rbac.go:62-80 | The same in terms of the cluster: a removal of something not stale comes after an instant at which the latest Deployment was live and marked. |
| Safety.RunIsSafe | internal/controller/aigateway/aigateway_controller.go:233-259 | The safety invariant holds in every state of every disciplined run. |
| Safety.StepIsSafe | internal/controller/aigateway/aigateway_controller.go:233-259 | Every step of the pass, of maas-controller, the user and other writers keeps the safety invariant. |
| Safety.DecisionUnsafeIffLost | internal/controller/aigateway/aigateway_remove.go:122-140 | In every run, with no discipline, acting on "completed" after a fresh read is unsafe exactly when an earlier step deleted an unmarked Deployment (another client, the migration or the sweep) and none has existed since. |
| Safety.LossIff | internal/controller/aigateway/aigateway_migrate_selector.go:124-137 | Which steps lose a Deployment unmarked, and that only its recreation undoes the loss. |
| Safety.UnaccountedIffLost | internal/controller/aigateway/aigateway_remove.go:131-139 | A Deployment is missing unmarked in a state of a run exactly when such a step precedes it with no Deployment since. |
| Safety.MarkWasLive | internal/controller/aigateway/aigateway_remove.go:122-140 | Every recorded mark was on the live Deployment at an earlier instant of the run. |
| Safety.ResourcesHaveController | internal/controller/aigateway/aigateway.go:280-336 | The rendered resources contain the Deployment exactly when the bundle is kept. |
| Hazards.BrokenOffPassIsUnsafe | internal/controller/aigateway/aigateway_migrate_selector.go:124-137 | From the same states with a stale selector, one failure right after the migration delete does. |
| Hazards.RefusedApplyIsUnsafe | internal/controller/aigateway/aigateway_controller.go:248-251 | From the same states, with no failing call: a rendered resource with another live selector, applied first, breaks the pass off there. |
| Hazards.CreationBehindPassIsUnsafe | internal/controller/aigateway/aigateway_migrate_selector.go:70-137 | Separate infrastructure, MaaS Removed, no Deployment: one created with a stale selector behind the pass is migrated away and not deployed again. |
| Hazards.UnsetPassIsUnsafe | internal/controller/aigateway/aigateway.go:280-289 | Separate infrastructure, MaaS unset, an unmarked Deployment with an old stamp and a current selector, and a plan that applies: one pass and an edit to Removed lead to the same. |
| Hazards.RestampIsUnsafe | internal/controller/aigateway/aigateway_remove.go:147-150 | Separate infrastructure, MaaS Removed, an unmarked Deployment with a current selector, and a plan that applies: one rewrite of its stamp before the sweep does. |
| Hazards.TouchAfterVerdictIsUnsafe | internal/controller/aigateway/aigateway_remove.go:142-175 | From such states one update of a stale object between verdict and deletion makes the sweep remove an object that is not stale while the Deployment is unmarked. |
| Hazards.UnsetPassMeetsSensitiveSweep | internal/controller/aigateway/aigateway_remove.go:142-175 | A run in which a pass with MaaS unset reaches an order-sensitive sweep. |
| Hazards.StaleReadIsUnsafe | cmd/operator/operator.go:124-136 | Separate infrastructure, MaaS Removed, Deployment live and unmarked: one read that does not show it yet commits the pass to deleting RBAC. |
| Hazards.OutsideDeleteIsUnsafe | internal/controller/aigateway/aigateway_remove.go:131-132 | From the same states, one delete by another client leads the next pass to delete RBAC unmarked. |
| SweepOrder.SweepStepsComputeSweepAll | internal/controller/aigateway/aigateway_remove.go:152-175 | The pipeline's undisturbed sweep steps compute the sweep function. |
| SweepOrder.SweepRemovesCondemned | internal/controller/aigateway/aigateway_remove.go:152-175 | A sweep that is not order sensitive removes exactly what was deletable at its start. |
| SweepOrder.CompletedSweepIsTotal | internal/controller/aigateway/aigateway_remove.go:142-175 | Once completed, every enumeration order collects every listed object with a bundle component label, no CRD named *.grid.praxis.fast and nothing unlisted. |
| SweepOrder.GridCrdsSurvive | internal/controller/aigateway/aigateway_remove.go:153-156 | No pass of any run, whatever its spec, reads or failures, deletes a grid CRD. |
| SweepOrder.SweepSparesGridCrds | internal/controller/aigateway/aigateway_remove.go:153-156 | No sweep, whatever its stamp, order or signal, removes or changes a grid CRD. |
| SweepOrder.OrderIrrelevantIff | internal/controller/aigateway/aigateway_remove.go:152-175 | All permutations of a candidate list leave the same store exactly when the list is not order sensitive. |
| SweepOrder.OrderMatters | internal/controller/aigateway/aigateway_remove.go:132-133 | An order-sensitive list has two permutations that leave different stores. |
| SweepOrder.SensitiveSweepsAreUnmarkings | internal/controller/aigateway/aigateway_remove.go:142-175 | In a disciplined run a sweep is order sensitive only in a pass that left the bundle out, and only if the mark was taken off again. |
| Teardown.TeardownNeverReverts | internal/controller/aigateway/aigateway.go:280-290 | After completion under Removed no step, of failing passes too, renders or recreates a bundle object, and each collection strictly shrinks what is left, while others may update the objects but not unlabel, unmark or recreate them. |
| Teardown.TeardownFinishes | internal/controller/aigateway/aigateway_remove.go:142-175 | One error-free pass whose sweep lists the bundle leaves nothing of it in any later state. |
| Teardown.NothingReturns | internal/controller/aigateway/aigateway_remove.go:38-47 | What remains of the bundle later is a subset of what remained before. |
| Teardown.NoStuckTeardown | internal/controller/aigateway/aigateway_remove.go:60-87 | When a Removed pass has deployed, it left the bundle out or the live Deployment carries the teardown request. |
| Teardown.PlanRequests | internal/controller/aigateway/aigateway_remove.go:65-84 | Every planned controller Deployment of a Removed pass carries the request, in any apply order. |
| Teardown.LeftOutPlan | internal/controller/aigateway/aigateway.go:289-336 | A pass that does not keep MaaS plans no bundle key. |
| ReEnable.ReEnableConverges | internal/controller/aigateway/aigateway_controller.go:233-259 | After an error-free pass that sweeps the Deployment and a later error-free pass, the bundle is installed and unmarked in every later state, as long as every pass begins with MaaS Managed, or Removed with a live unmarked Deployment. |
| ReEnable.PassReaches | internal/controller/aigateway/aigateway_remove.go:152-175 | An error-free pass that keeps the bundle and sweeps the Deployment ends with it gone or unmarked. |
| ReEnable.UnmarkedPassInstalls | internal/controller/aigateway/aigateway.go:289-336 | An error-free pass that keeps the bundle, Managed or not yet completed, ends with all of it installed when nothing is marked. |
| ReEnable.RunStaysInstalled | internal/controller/aigateway/aigateway_remove.go:159-175 | What is installed stays installed and is never migrated, through failing passes too, also while a Removed MaaS has not completed its teardown. |
| ReEnable.SweepSparesBundle | internal/controller/aigateway/aigateway_remove.go:159-175 | Without a mark the sweep spares everything stamped by this pass, Managed or Removed. |
| Rollout.ReportingPassHasRolledOut | internal/controller/aigateway/aigateway_controller.go:233-259 | In every run, when a pass reports, every manifest of a Managed batch gateway or AI Grid, and of the kept bundle, is in the cluster with this pass's stamp and the rendered selector, unless somebody else deleted or restamped it. |
| Rollout.UnwantedIsNotDeployed | internal/controller/aigateway/aigateway.go:249-339 | In every run no deploy touches an object that no Managed sub-module asks for. |
| Rollout.UnwantedIsCollected | internal/controller/aigateway/aigateway_remove.go:152-161 | One error-free pass whose sweep lists it removes what a sub-module that is no longer Managed left behind, with reads of any age and in any order, except grid CRDs. |
| Migration.RemovesOnlyStale | internal/controller/aigateway/aigateway_migrate_selector.go:97-137 | Under any interference and with reads of any age, the migration removes only a Deployment whose selector is stale at that moment; current or recreated ones and all other objects survive. |
| Migration.VersionIdentifies | internal/controller/aigateway/aigateway_migrate_selector.go:124-131 | A resourceVersion names one version of the Deployment for the whole run. |
| Migration.PendingDeleteIsJustified | internal/controller/aigateway/aigateway_migrate_selector.go:97-111 | A pending delete names a version that was live with a stale selector. |
| Migration.MigrationSettles | internal/controller/aigateway/aigateway_migrate_selector.go:93-137 | Once the Deployment is gone or its selector current, it stays so, and no later migration step of any pass removes anything, unless somebody creates one with an old selector. |
| Migration.MigratesAtMostOnce | internal/controller/aigateway/aigateway_migrate_selector.go:70-91 | After a migration delete no later migration step of the run deletes, under the same proviso. |
| Migration.UnblocksApplyIff | internal/controller/aigateway/aigateway_migrate_selector.go:70-91 | After one undisturbed migration step the rendered Deployment can be applied exactly unless the live selector passes the check yet differs. |
| Migration.StuckForever | internal/controller/aigateway/aigateway_migrate_selector.go:109-111 | A Deployment whose selector passes the check but is not the rendered one stays until deleted: never migrated, and no pass whose plan has it reports. |
| Migration.HasRequiredLabels | internal/controller/aigateway/aigateway_migrate_selector.go:142-160 | True exactly when a selector exists, has every required pair and no forbidden key. |
| Migration.CheckSelector | internal/controller/aigateway/aigateway_migrate_selector.go:44-68 | With the operator's tables the loops decide the predicate the migration step uses. |
| InfraRbac.ManagedPassEnsuresRbac | internal/controller/aigateway/aigateway_infra_rbac.go:81-101 | A Managed pass with a separate infra namespace has the namespace, and Role and RoleBinding maas-controller-secret-migrate in it, each with the operator's labels, when it reports, unless somebody deletes them or takes the labels off. |
| InfraRbac.GridPassEnsuresNamespace | internal/controller/aigateway/aigateway.go:268-278 | A pass with aiGrid Managed has the labelled grid namespace in place from initialize until its sweep. |
| InfraRbac.NoGridNoNamespace | internal/controller/aigateway/aigateway.go:268-278 | Without a Managed AI Grid no grid namespace is made or relabelled. |
| InfraRbac.TeardownRemovesRbac | internal/controller/aigateway/aigateway_infra_rbac.go:65-76 | A pass of a completed teardown has neither Role nor RoleBinding when it reports, unless somebody recreates one. |
| InfraRbac.RbacFollowsSpec | internal/controller/aigateway/aigateway_infra_rbac.go:50-80 | In every run RBAC calls are made only for a separate infrastructure: to ensure it while Managed, to delete it while Removed. |
| InfraRbac.EnsuredLabels | internal/controller/aigateway/aigateway_infra_rbac.go:121-206 | On an existing Role or RoleBinding the labels are replaced; on an existing namespace they are added, and nothing is written if they are there. |
| InfraRbac.InfraSurvives | internal/controller/aigateway/aigateway_infra_rbac.go:43-50 | The database secret and both namespaces survive every run in which nobody else deletes, stamps or bundle-labels them, also where the sweep can reach the secret. |
| InfraRbac.OutOfReach | internal/controller/aigateway/aigateway_controller.go:89 | The sweep can delete neither namespace (the operator holds no delete on namespaces), nor the secret of a separate infrastructure. |
| InfraRbac.EnsureLabels | internal/controller/aigateway/aigateway_infra_rbac.go:142-156 | Required labels are put in, others kept, and an update is due exactly when one was off. |
| InfraRbac.EnsureNamespaceLabels | internal/controller/aigateway/aigateway_infra_rbac.go:121-157 | On an existing namespace the loop leaves what the ensure step writes. |
| Cluster.NamespacesApart | internal/controller/aigateway/aigateway.go:86-146 | The infra namespace of the two known applications namespaces, and the applications namespace itself for any other; the grid's differs from it unless a long name spells out its own shortening. |
| Cluster.JudgeMeans | internal/controller/aigateway/aigateway_remove.go:152-175 | Apart from grid CRDs, an object is collected as stale exactly when its stamp differs from the current one, and otherwise exactly when its component label is models-as-a-service or ai-gateway-controller and the Deployment is gone or marked "true". |
| Cluster.GridCrdsAreNeverCollected | internal/controller/aigateway/aigateway_remove.go:153-156 | A CRD whose name ends in .grid.praxis.fast is never collected, whatever its stamp, labels or the signal. |
| Cluster.RenderedIff | internal/controller/aigateway/aigateway.go:249-339 | A manifest is rendered exactly if it belongs to the Managed batch gateway, the kept bundle, or the CRDs or operator of the Managed AI Grid. |
| Cluster.CrdsComeFirst | internal/controller/aigateway/aigateway.go:267-278 | With aiGrid Managed, the grid's CRDs are rendered before its operator, with only the batch gateway before and the bundle between. |
| Cluster.KeepMeans | internal/controller/aigateway/aigateway.go:280-287 | The bundle is kept exactly when MaaS is Managed, or Removed with a live Deployment that is not marked. |
| Cluster.SelectorCurrentMeans | internal/controller/aigateway/aigateway_migrate_selector.go:44-68 | A selector with the legacy key is rejected; one without it is accepted exactly if it has both required pairs. |
| Cluster.ApplyMerges | internal/controller/aigateway/aigateway_controller.go:248-251 | On a live object, apply sets what is rendered, keeps foreign labels and annotations and the selector, and drops its own teardown request when that is no longer rendered. |
| Conditions.Request.Initialize | internal/controller/aigateway/aigateway.go:249-339 | On success exactly the manifests of the Managed sub-modules, and of MaaS while kept, are appended in order; a missing client is an error where one is needed. |
| Conditions.ManifestsMean | internal/controller/aigateway/aigateway.go:249-339 | Each manifest is used exactly under its spec, once, the grid CRDs before the bundle. |
| Conditions.Request.AnnotateResources | internal/controller/aigateway/aigateway_remove.go:60-87 | In place, a Removed pass annotates every controller Deployment and changes nothing else; other passes change nothing. |
| Conditions.AnnotatingIsLocal | internal/controller/aigateway/aigateway_remove.go:69-84 | Only the request annotation of the controller Deployment changes, and annotating twice is annotating once. |
| Conditions.SubModulesAreIndependent | internal/controller/aigateway/aigateway.go:564-735 | Error-free passes that agree on a sub-module's own inputs give it the same condition whatever else differs. |
| Conditions.ConditionsMean | internal/controller/aigateway/aigateway.go:564-735 | In an error-free pass a sub-module that is not Managed is False, Info, Removed; a Managed one is at Error, True exactly when its Deployments serve, its CRDs are established and its first Config entry does not fail, with reason Ready or NotReady, or the tenants' own; MaaS carries the message of its first failing Ready entry. |
| Conditions.ReportsIff | internal/controller/aigateway/aigateway.go:564-735 | All four conditions are reported exactly unless a Managed sub-module has a broken read of its own. |
| Conditions.MaasMessages | internal/controller/aigateway/aigateway.go:587-622 | The MaaS messages for Removed, available and not yet available. |
| Conditions.GridMessages | internal/controller/aigateway/aigateway.go:707-725 | The AI Grid messages, with missing CRDs before a missing operator. |
| Conditions.FirstOfTypeIsFirst | internal/controller/aigateway/aigateway.go:481-500 | Config readings look at the first well-formed entry of the type only. |
| Conditions.Request.MaasConfigReady | internal/controller/aigateway/aigateway.go:467-501 | Not ready exactly when the first well-formed Ready entry is not True, with its message or the default; an unreadable Config is an error, a missing one is ready. |
| Conditions.Request.TenantsHealthFromConfig | internal/controller/aigateway/aigateway.go:509-542 | Unhealthy exactly when the first TenantsHealthy entry is not True; its reason and message are mirrored, with a default message when unhealthy. |
| Conditions.Request.CrdsReady | internal/controller/aigateway/aigateway.go:545-562 | True exactly when every listed CRD is established; otherwise the first that is not decides between false and an error. |
| Conditions.CrdsDependOnListed | internal/controller/aigateway/aigateway.go:545-562 | The answer depends on the listed CRDs only. |
| Conditions.ListedCrdsAreGridCrds | internal/controller/aigateway/aigateway_remove.go:153-156 | Each of the five CRDs whose readiness is reported is among those the sweep never collects. |
| Conditions.Request.ReportSubModuleStatus | internal/controller/aigateway/aigateway.go:567-735 | Succeeds exactly when all four readings do, and then every condition means what ConditionsMean says; otherwise conditions before the first failing reading are set, and that one, the later ones and DeploymentsAvailable are as before. |
| Conditions.Request.OverWriteCondition | internal/controller/aigateway/aigateway.go:342-440 | Nothing Managed ends False at Info; only aiGrid Managed ends True exactly when the grid operator is ready and no listed Deployment holds it back; otherwise nothing changes. |
| Conditions.NothingManagedMeans | internal/controller/aigateway/aigateway.go:342-440 | With nothing Managed the condition is False at Info, with reason MaaSRemovalInProgress while removal is pending and NoSubModuleManaged after. |
| Conditions.RemovalPendingIsAtomic | internal/controller/aigateway/aigateway_remove.go:89-140 | With any steps between its two reads, the answer is the Deployment's existence at one instant of the call. |
| Releases.HandshakeOverRuns | internal/controller/aigateway/aigateway.go:785-887 | After any passes failing at any action, and before or after the releases list is replaced, status shows what the latest reporting pass read, or no entry if it read none. |
| Releases.FailedPassKeepsVersionIff | internal/controller/aigateway/aigateway.go:863-887 | A pass failing between the two actions keeps the version exactly if the list was not replaced, one was recorded, or the metadata has none. |
| Releases.GetAfterSet | internal/controller/aigateway/aigateway.go:823-843 | Get after set returns what was set. |
| Releases.PlatformVersionMeans | internal/controller/aigateway/aigateway.go:823-830 | The version is that of the first entry named platform, and empty when there is none. |
| Releases.LastSetWins | internal/controller/aigateway/aigateway.go:832-843 | Setting twice is setting once with the last value. |
| Releases.OthersKept | internal/controller/aigateway/aigateway.go:832-856 | Set and clear keep every other entry in order. |
| Releases.ClearRemoves | internal/controller/aigateway/aigateway.go:848-856 | After clear no platform entry is left. |
| Releases.SetKeepsUnique | internal/controller/aigateway/aigateway.go:832-843 | Set preserves uniqueness of names. |
| Releases.ClearKeepsUnique | internal/controller/aigateway/aigateway.go:848-856 | Clear preserves uniqueness of names. |
| Releases.Instance.GetPlatformRelease | internal/controller/aigateway/aigateway.go:823-830 | The loop returns the version of the first platform entry. |
| Releases.Instance.SetPlatformRelease | internal/controller/aigateway/aigateway.go:832-843 | The loop updates the first platform entry or appends one. |
| Releases.Instance.ClearPlatformRelease | internal/controller/aigateway/aigateway.go:848-856 | The loop drops every platform entry. |
| Releases.Instance.Reconcile | internal/controller/aigateway/aigateway_controller.go:233-259 | Running the actions in order until one fails has the closed-form effect the handshake theorem uses. |
| Sources.ReportSources | internal/controller/aigateway/aigateway.go:752-783 | The reported list is the sorted arrangement of what was loaded, and the only one. |
| Sources.SortedIsUnique | internal/controller/aigateway/aigateway.go:775-781 | Two sorted lists with the same sources are equal. |
| Sources.Trichotomy | internal/controller/aigateway/aigateway.go:775-781 | The comparison orders any two different sources one way. |
| Sources.LessIff | internal/controller/aigateway/aigateway.go:775-781 | The path decides, the renderer only between equal paths; a proper prefix comes first, and otherwise the first differing byte decides, ascending. |
| Sources.StringLessIff | internal/controller/aigateway/aigateway.go:775-781 | One string is less exactly if it is a proper prefix or has the smaller byte at the first difference. |
| GridNamespace.DerivedIsValid | internal/controller/aigateway/aigateway.go:129-146 | Every valid DNS label derives a valid label of at most 63 bytes. |
| GridNamespace.PlainDerivation | internal/controller/aigateway/aigateway.go:129-139 | The two known names have fixed results; any other name of at most 55 bytes gets the suffix. |
| GridNamespace.LongDerivation | internal/controller/aigateway/aigateway.go:140-145 | A longer name becomes its first 46 bytes without trailing dashes, a dash, eight lower-case hex digits that read as its FNV-1a hash, and the suffix. |
| GridNamespace.CollisionsExactly | internal/controller/aigateway/aigateway.go:129-146 | All collisions between different names, short, long and mixed. |
| GridNamespace.PlainCollisions | internal/controller/aigateway/aigateway.go:130-139 | Unshortened names collide for exactly two pairs. |
| GridNamespace.ShortenedCollisions | internal/controller/aigateway/aigateway.go:140-145 | Long names collide exactly when trimmed prefix and hash agree. |
| GridNamespace.BaseIsTrimmedPrefix | internal/controller/aigateway/aigateway.go:144-144 | The base of a long name is its first 46 bytes up to their trailing dashes. |
| GridNamespace.OneByteApartIsSeparated | internal/controller/aigateway/aigateway.go:140-145 | Long names of one length differing in one byte never collide. |
| GridNamespace.EveryLongNameHasAShortTwin | internal/controller/aigateway/aigateway.go:136-145 | Every valid long name shares its grid namespace with a valid short one. |
| GridNamespace.FnvSeparatesAt | internal/controller/aigateway/aigateway.go:141-142 | FNV-1a separates strings that differ in one byte, from any state. |
| GridNamespace.Fnv32aVectors | internal/controller/aigateway/aigateway.go:141-142 | The hash of the empty string and of "a", as draft-eastlake-fnv gives them. |
| GridNamespace.FnvSnoc | internal/controller/aigateway/aigateway.go:141-142 | One more byte at the end is one more FNV-1a step. |
| GridNamespace.HexRoundTrip | internal/controller/aigateway/aigateway.go:143-143 | The fixed-width hex field reads back to the number. |
| Tls.FailsClosed | internal/tls/profile.go:124-152 | Below TLS 1.3 resolution succeeds exactly when a usable suite is configured, and serves exactly the usable ones, in order, none RC4. |
| Tls.OptionsMean | internal/tls/profile.go:111-174 | For every profile and adherence: the version number and groups of the profile in force, suites exactly below TLS 1.3, and each failure exactly for its cause. |
| Tls.ContainsIff | internal/tls/profile.go:181-192 | A suite counts as RC4 exactly when RC4 stands somewhere in its name. |
| Tls.FilterSuites | internal/tls/profile.go:130-140 | The loop keeps the usable suites in order, and kept plus dropped is what was configured. |
| Tls.FilterConserves | internal/tls/profile.go:134-140 | Kept and dropped make up the configured suites as multisets, and everything dropped is unusable. |
| Tls.KeptIsUsableSublist | internal/tls/profile.go:134-140 | The kept suites are an order-preserving sublist: exactly the usable ones. |
| Tls.RuntimeCipherSuites | internal/tls/profile.go:181-192 | The set holds the secure suites and the insecure ones not named RC4. |
| Tls.LaxAdherenceIgnoresProfile | internal/tls/profile.go:111-114 | NoOpinion and LegacyAdheringComponentsOnly give Intermediate's options for every cluster profile; every other policy uses the cluster profile. |
| Tls.Resolve | internal/tls/profile.go:50-159 | For every pair of read outcomes: which failure it is, or the recorded profile, adherence and watch flags, and options with the version, groups and suites of the profile in force. |
| Tls.QuietMeansCurrent | internal/tls/profile.go:197-216 | With both watches registered and neither enabled, the served options are those of the current cluster values. |
| Tls.BothWatchesRegistered | internal/tls/profile.go:56-109 | On a cluster that has the API, every process that starts registers both watches, also after transient read errors. |
| Tls.AtMostOneRestart | internal/tls/profile.go:197-216 | Once the cluster is stable and reads succeed, at most one more restart occurs, and then everything recorded is current. |
| Tls.QuietIsOutdatedIff | internal/tls/profile.go:56-114 | With no watch to fire, what is served is outdated exactly when the profile matters and, at the last startup, the profile was absent and the cluster is strict now, or only the adherence was absent and the cluster's laxness differs from what was assumed. |
| Tls.LastStartup | internal/tls/profile.go:50-109 | Every serving process was started by two reads of the history whose outcomes it records, with only cluster changes since. |
| Tls.CanGoStaleIff | internal/tls/profile.go:197-216 | Some change of the cluster can leave a quiet process outdated exactly when its profile was absent, or its adherence was and its profile matters. |
| Tls.StaleHistory | internal/tls/profile.go:210-216 | A run from startup that ends outdated with no watch to fire: adherence not found, then the cluster turns strict. |
| Strip.StripKnobs | hack/scripts/get-manifests.sh:48-59 | The line loop computes the skip automaton. |
| Strip.StripIsDeclarative | hack/scripts/get-manifests.sh:42-58 | A line is dropped exactly when the last withheld header still covers it. |
| Strip.NoHeaderSurvives | hack/scripts/get-manifests.sh:48-51 | No withheld header is printed, and only input lines are. |
| Strip.HeaderIff | hack/scripts/get-manifests.sh:48-51 | A line opens a withheld item exactly if it is one of the three names after some spaces. |
| Strip.InsideIff | hack/scripts/get-manifests.sh:52-56 | A skip goes on exactly over lines of spaces and lines indented deeper than the dash. |
| Strip.BlankGoesOn | hack/scripts/get-manifests.sh:52-56 | A line of spaces only never ends a skip. |
| Strip.NoKnobIsPrinted | hack/scripts/get-manifests.sh:48-58 | No printed line is spaces followed by one of the three names. |
| Strip.StripIsIdempotent | hack/scripts/get-manifests.sh:48-58 | Stripping twice is stripping once. |
| Strip.StripFiltersEnvList | hack/scripts/get-manifests.sh:42-58 | On a well-formed env list exactly the withheld items disappear. |

## Left out

- The libraries: kustomize rendering is a fixed list of resources, server-side apply sets owned fields and keeps foreign annotations and the selector, and the sweep enumerates any objects of the applications namespace or cluster scope except Namespaces.
- The sweep judges each candidate as it is when its turn comes; a listing that has grown old by then is not modelled.
- The default GC predicate is modelled as "some recorded stamp differs from the current one"; how stamps are stored as annotations is not modelled.
- The pass is a step function over values rather than a class with methods, because other clients act between its API calls; what the separate actions do to the request in place is modelled by the classes in `Conditions.dfy` and `Releases.dfy`.
- The status actions read the cluster as one snapshot; only the two reads of the removal check are taken at different instants. A nil client is a snapshot with nothing in it.
- The Role's rules, the RoleBinding's subjects and owner references.
- params.env substitution, configuration loading, semantic versions, watch registration, metrics, logging and timeouts.
- upgradeIfNeeded, whose upgrade work is empty: it only appears as an action that may fail.
- Deleting keys from params.env and the final grep in the vendoring script.
- NextProtos and the mapping of group names in the TLS options; the watcher library is modelled as comparing current with recorded values.
- Module version, build source and platform name in the module status.
