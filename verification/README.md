# Signer safety of Cosmopilot

Cosmopilot runs Cosmos validators on Kubernetes. What must never happen is that a validator's consensus
key signs from two places, or signs on lost or foreign slash-protection state. This project models the
code that prevents it and proves what it guarantees, for all inputs, all runs and all interleavings.

| part | files |
|---|---|
| Signer migration over a cluster that moves on its own | `SignerNames`, `Cluster`, `Protocol`, `Calls`, `Operator`, `MigrationSafety`, `MigrationRestarts`, `MigrationRuns`, `MigrationProgress`, `DeploymentGuards` |
| Managed Cloud KMS import | `KmsImport`, `ImportMachine`, `ImportJobs` |
| Admission of a ChainNodeSet | `NodeSets`, `Admission`, `AdmissionChecks`, `SigningKeys`, `KeySharing`, `KeyReservations`, `Genesis`, `DerivedNames` |
| Encodings the above rely on | `Digests`, `ConfigHash`, `Encoding`, `Sorting`, `Text`, `Decimal` |

**Migration.** `Cluster` is one namespace as the signer sees it: a StatefulSet with generations, status
and retention policy, the controller's last view of it, pods and claims; `Happens` is everything that
moves without the operator. `Protocol` is one migration as a transition system whose guards speak about
the cluster at the instant of a write; `MigrationRestarts` is a history of migrations that supersede one
another. `Operator` is the code: a class whose methods issue one request after another, with arbitrary
cluster events before each request, refused requests, and writes whose answer is lost. Every method keeps
`Valid`, which says that what happened so far is a legal run of `Protocol`; in a quiet cluster each method
equals its one-step specification in `Calls`, and `DeploymentGuards` says in terms of the objects themselves
what these specifications decide. So the theorems of `MigrationSafety` and `MigrationRestarts`
hold of the code under every interleaving, given that reads are fresh. `MigrationRuns` shows that the runs
spoken of exist.

**Import.** `ImportMachine` is the transition system of one destination and one source secret, with
status as the only memory; `ImportJobs` is the code that drives the pod, again proved to take only legal
steps, and in a quiet cluster to do exactly what a pass is specified to do. **Admission** is modelled as the
checks `Validate` makes, with the loops that fill maps as methods proved equal to a property of the whole
spec; what the checks register, derive and compare is characterised on the spec itself.

## What turned out not to hold as stated

- *No replica runs on state of another key, and a key that stays keeps its state* holds of one migration. When
  migrations supersede one another it depends on how far the superseded one has come.
  - Superseded while it rolls out, it is not recorded yet, so the next one compares its key with the wrong
    one: going back to the old key keeps state written under the new one
    (`MigrationRuns.ReturningRunsOnForeignState`), and staying on the new key forgets its state
    (`MigrationRuns.StayingForgetsItsState`). Which superseding migrations decide rightly, in terms of the
    recorded, the live and the new key, is `MigrationRuns.SupersedingIsSafeExactly`; superseded before they
    roll out, all do (`MigrationRestarts.EarlyRestartsDecideRightly`).
  - Superseded earlier, but after it has discarded the state of a key that then stays, the state is gone and
    the next migration, which wants it kept, never creates a replacement (`MigrationRuns.EarlyRestartStrands`).
    A keeping migration without a set can create one exactly if every locked claim is still fit
    (`MigrationRuns.KeepingCreatesExactly`).
  - Superseded before it comes to resetting state, all state survives and the next migration can be carried
    out (`MigrationRestarts.EarlyRestartsKeepState`, `MigrationRuns.EarlyRestartsCanGoOn`).
- *Accepted specs never share a consensus key* fails in two ways the check does not see: a signer may pin a
  version of the crypto key another signer imports into (`KeySharing.PinnedVersionEvadesTheCheck`), and a
  signer-targeted validator that names the empty secret signs with the default one, which is not registered
  (`KeySharing.EmptySecretNameEvadesTheCheck`). It holds exactly when neither happens
  (`KeySharing.SigningKeysAreDistinct`).
- *A completed import always serves the recorded key* holds exactly while the source secret is not given
  another key between being read and being used. The pod mounts the secret later than the pass classified
  it, and a version re-imported under an existing record is not compared again; the comparison reads the
  secret a second time but records the first reading. Without such a swap it holds in every run
  (`ImportMachine.CompleteMeansServed`), and every swap can end in the wrong key
  (`ImportMachine.EverySwapMisserves`, `ImportMachine.SwapFailsFromScratch`).
- *An import never creates a second version* holds exactly as long as no step takes away the last trace of the
  first one (`ImportMachine.AtMostOneVersion`, `ImportMachine.EveryForgettingDuplicates`). There are three such
  steps, each with a run from nothing: status loses the version after the pod is gone
  (`ImportMachine.LostStatusDuplicates`), a failed pod is replaced because its logs, which name the version,
  cannot be read (`ImportMachine.UnreadableLogsDuplicate`), although the comment at
  `internal/cosmosigner/jobs.go:251-258` treats that as nothing to lose, and a pod fails before naming the
  version it made (`ImportMachine.HiddenVersionDuplicates`).
- *Equal configuration hashes mean equal ConfigMaps* has one exception: a single `config.yaml` whose text is
  the length-prefixed form of the several files (`ConfigHash.RecoveryAccepts`). It does not begin like a
  rendered configuration, and among maps that do, there is none (`ConfigHash.RecoveryIsExact`).
- Preflight does not look at the state-lost latch (`DeploymentGuards.LatchedSetPassesPreflightOnly`), nor at
  an unguarded claim template being scaled up (`DeploymentGuards.UnguardedScaleUpPassesPreflightOnly`);
  otherwise it agrees with apply exactly (`DeploymentGuards.PreflightAgreesWithApply`).
- The duplicate signer name check can never fire: distinct group names already make signer names distinct
  (`Admission.SignerNamesDistinct`).

## Model

| member | source | states |
|---|---|---|
| `Decimal.CanonicalOrdinalExact` | internal/cosmosigner/cleanup.go:675-683 | An ordinal is accepted exactly when it is the printed form of a number in range: no sign, no leading zero, nothing else. |
| `SignerNames.ClaimOrdinalExact` | internal/cosmosigner/cleanup.go:661-684 | A claim name yields an ordinal exactly when it is that ordinal's printed claim name for the signer. |
| `SignerNames.ReplicaPodNameExact` | internal/cosmosigner/cleanup.go:703-711 | A pod name belongs to a signer exactly when it is one of its printed replica names. |
| `SignerNames.ClaimNameInjective` | internal/cosmosigner/cleanup.go:659-684 | Printed claim names of different signers or ordinals differ. |
| `SignerNames.ClaimHasOneSigner` | internal/cosmosigner/cleanup.go:661-684 | No claim name belongs to two signers. |
| `SignerNames.SetNameFromClaimExact` | internal/cosmosigner/cleanup.go:686-701 | The signer read from a claim name is exactly the one whose printed claim it is; anything accepted is such a claim. |
| `SignerNames.ReadPodNameExact` | internal/cosmosigner/cleanup.go:703-711 | Keying pods by signer and ordinal loses nothing: the key answers the replica-name question for every signer. |
| `SignerNames.ReadClaimNameExact` | internal/cosmosigner/cleanup.go:661-701 | The same for claims. |
| `SignerNames.ReadingIsInjective` | internal/cosmosigner/cleanup.go:661-711 | Different names never get the same key. |
| `Cluster.EventRelies` | internal/cosmosigner/apply.go:377-499 | What the calls rely on between two requests holds across every event of the cluster: the set changes only in status, a drained set stays drained, claims that nothing has a reason to collect survive. |
| `Protocol.RunKeepsInvariant` | internal/cosmosigner/migration.go:56-107 | Every state of every run, from any start that meets the invariant on set, pods and claims, meets it; signing state stays of the signing key if state is not kept across a change of key; and without a reset every live claim survives. |
| `Protocol.NoOtherSetBefore` | internal/cosmosigner/migration.go:95-102 | Until the replacement is created, no set appears but those the run started with, nor does the controller see one. |
| `Operator.Operator.constructor` | internal/cosmosigner/migration.go:56-64 | Starts a history of zero steps in the given cluster and phase. |
| `Operator.Operator.Interfere` | internal/cosmosigner/apply.go:377-499 | Before each request anything the cluster does on its own may happen; the history stays legal and what callers rely on is kept. |
| `Operator.Operator.GetSet` | internal/cosmosigner/apply.go:378-384 | Returns the set as it is when the request arrives, or an API error. |
| `Operator.Operator.ListPods` | internal/cosmosigner/apply.go:411-416 | Returns all pods at that moment, each once. |
| `Operator.Operator.ListClaims` | internal/cosmosigner/cleanup.go:79-84 | Returns all claims at that moment, each once. |
| `Operator.Operator.UpdateSet` | internal/cosmosigner/apply.go:351-369 | An update takes effect only on the very version that was read, and reports success only then. |
| `Operator.Operator.DeleteSetByUid` | internal/cosmosigner/apply.go:463-499 | A delete reaches only the set whose UID was read, and that set is drained at that instant. |
| `Operator.Operator.SignerPodsGone` | internal/cosmosigner/apply.go:405-426 | True only if at the answer no pod carries the signer's labels or a replica's name, terminating ones included. |
| `Operator.Operator.RetainClaims` | internal/cosmosigner/apply.go:430-456 | True only if there is no set, or Retain/Retain is written and the controller acts on it; refuses a foreign set. |
| `Operator.Operator.ScaleDown` | internal/cosmosigner/apply.go:371-403 | True only if zero replicas is written, acted on and reported and no pod is left; otherwise writes at most the scale, and never forgets retention. Callable in any phase. |
| `Operator.Operator.ScaleRead` | internal/cosmosigner/apply.go:384-403 | The same over the set just read. |
| `Operator.Operator.ScaleToZero` | internal/cosmosigner/apply.go:387-395 | Writes the scale on the version read, and says over which cluster. |
| `Operator.Operator.ConfirmStopped` | internal/cosmosigner/apply.go:396-403 | True only if zero replicas is acted on and reported and no pod is left. |
| `Operator.Operator.DeleteStatefulSet` | internal/cosmosigner/apply.go:458-499 | True only over a cluster with neither set nor pod; scales only where Retain/Retain is written and seen, and deletes only after scale-down was seen too. |
| `Operator.Operator.DeleteAndConfirm` | internal/cosmosigner/apply.go:484-499 | Deletes the drained set by its UID; true only if neither set nor pod is left. |
| `Operator.Operator.ReleaseClaim` | internal/cosmosigner/cleanup.go:79-107 | Drops the guard of an owned claim only if it is still the version read. |
| `Operator.Operator.DeleteClaim` | internal/cosmosigner/cleanup.go:79-107 | Deletes by UID, and only an owned claim in a key-changing reset; a claim already gone is no error, one with another UID is. |
| `Operator.Operator.DiscardClaim` | internal/cosmosigner/cleanup.go:79-107 | Releases and deletes one owned claim, by legal steps only; no claim changes owner. |
| `Operator.Operator.DiscardListed` | internal/cosmosigner/cleanup.go:79-107 | One turn of the loop: discards the listed claim if it is the owner's, and no claim changes owner. |
| `Operator.Operator.DeletePVCs` | internal/cosmosigner/cleanup.go:79-107 | Releases and deletes every listed claim of the owner and no other, only in a key-changing reset over a stopped set. |
| `Operator.Operator.OwnedPVCsGone` | internal/cosmosigner/cleanup.go:589-602 | True only if no owned claim is left, terminating ones included. |
| `Operator.Operator.Reconcile` | internal/cosmosigner/migration.go:54-107 | Offers recreation only in Recreating over neither set nor pod, and a next phase only when the cluster meets what that phase needs; any scale it writes is written where Retain/Retain is written and seen. |
| `Operator.Operator.EnsureRetained` | internal/cosmosigner/apply.go:156-176 | Passes only if every locked ordinal's claim is present, owned, live, bound and guarded at the end of the loop. |
| `Operator.Operator.EnsureNoForeign` | internal/cosmosigner/cleanup.go:633-657 | Passes only if no claim under the signer's names belongs to anybody else. |
| `Operator.Operator.EnsureForApply` | internal/cosmosigner/apply.go:315-339 | Passes only over claims that are safe to start on, with the evidence of a roll-out raising the requirement. |
| `Operator.Operator.Quiesce` | internal/cosmosigner/apply.go:351-369 | Takes only legal steps; in a quiet cluster it latches and stops the set. |
| `Operator.Operator.CreateSet` | internal/cosmosigner/apply.go:254-272 | Creates the set only where the protocol allows a replacement; in a quiet cluster it does create it. |
| `Operator.Operator.ApplySet` | internal/cosmosigner/apply.go:234-313 | Creates or rewrites the set only unlatched, owned and over safe claims, and latches an owned set otherwise; a success, even one that writes nothing, means every required claim is intact. |
| `Operator.Operator.MarkEverRolledOut` | internal/cosmosigner/apply.go:573-597 | Takes only legal steps, marking only a set whose current generation is fully rolled out; in a quiet cluster it marks exactly such a set, and changes nothing else. |
| `Operator.Operator.EnsureNamesDeployable` | internal/cosmosigner/apply.go:78-130 | In a quiet cluster, passes exactly when every derived name is free or the owner's, with the headless shape the Services need. |
| `Operator.Operator.EnsurePodNames` | internal/cosmosigner/apply.go:194-209 | In a quiet cluster, passes exactly when every replica name is free or held by the live set's own pod. |
| `Operator.Operator.PreflightClaims` | internal/cosmosigner/apply.go:131-154 | The claim half of preflight: in a quiet cluster it passes exactly over safe claims and otherwise latches and stops an owned set. |
| `Operator.Operator.Preflight` | internal/cosmosigner/apply.go:78-154 | Takes only legal steps, so it writes at most the latch; in a quiet cluster it equals its one-step specification, which `DeploymentGuards.PreflightIsExact` and `DeploymentGuards.UnsafePreflightStopsTheSet` characterise. |
| `Operator.Operator.PersistPhase` | internal/controllers/chainnodeset/cosmosigner.go:821-830 | A phase is persisted only while it is justified; a lost write repeats the phase; in a quiet cluster it is persisted and nothing else changes. |
| `Operator.Operator.Pass` | internal/controllers/chainnodeset/cosmosigner.go:806-830 | One reconcile pass, in any phase, takes only legal steps; in a quiet cluster it moves the system exactly as specified, to the next phase or through an apply. |
| `Operator.Operator.Turn` | internal/controllers/chainnodeset/cosmosigner.go:789-830 | A status write takes the history one legal step further, and the new migration continues it. |
| `Operator.Operator.Supersede` | internal/controllers/chainnodeset/cosmosigner.go:792-805 | A changed spec replaces the running migration by one that starts over, with a reset decided against the recorded key; a lost write leaves everything as it was, and in a quiet cluster none is lost. |
| `Operator.Operator.RecordApplied` | internal/controllers/chainnodeset/cosmosigner.go:1832-1880 | The new key is recorded as applied only after the set carries the mark of a roll-out; in a quiet cluster exactly when the set is rolled out. |
| `Operator.Operator.Upholds` | internal/cosmosigner/migration.go:56-107 | What the invariant says at the start it says now. |
| `Operator.Operator.RunMigrations` | internal/controllers/chainnodeset/cosmosigner.go:789-830 | Any sequence of passes, recordings and changes of the spec, under any weather and faults, is a legal history; it meets the invariant, and signing state is of the signing key if no migration of it keeps state across a change of key. In a quiet cluster it is the fold of the specified steps. |
| `MigrationSafety.SignersNeverCoexist` | internal/cosmosigner/migration.go:83-102 | In every run a replacement is created over no set and no pod under the signer's names or labels, and from then on every such pod is the replacement's: old and new signers never coexist. |
| `MigrationSafety.SameKeyKeepsState` | internal/cosmosigner/apply.go:428-499 | In every run without a reset no live owned claim is removed, released or marked, although the set starts out with WhenDeleted=Delete. |
| `MigrationSafety.ReplacementFinds` | internal/cosmosigner/migration.go:15-52 | A replacement finds no claim of any owner after a reset, and otherwise every locked ordinal's claim, the owner's, guarded, bound and not terminating. |
| `MigrationSafety.ReplicasRunOnTheirOwnState` | internal/cosmosigner/apply.go:261-272 | In every run of a migration that resets or keeps the key, no replica runs on state that was written under another key. |
| `MigrationRestarts.SupersedingEstablishes` | internal/controllers/chainnodeset/cosmosigner.go:792-805 | Superseding a migration, anywhere in it, leaves an established signer for the next one. |
| `MigrationRestarts.HistoryKeepsInvariant` | internal/controllers/chainnodeset/cosmosigner.go:789-830 | However migrations supersede one another, the invariant on set, pods and claims holds. |
| `MigrationRestarts.RestartsKeepSignersApart` | internal/controllers/chainnodeset/cosmosigner.go:789-830 | Old and new signers never coexist in any history of superseding migrations. |
| `MigrationRestarts.SupersedingIsSoundExactly` | internal/controllers/chainnodeset/cosmosigner.go:796-801 | A superseding migration resets exactly when the signing key changes if and only if the recorded key is the live one or the new key is neither. |
| `MigrationRestarts.HistoryStaysPure` | internal/controllers/chainnodeset/cosmosigner.go:789-830 | If no migration of a history keeps state across a change of key, signing state is always of the signing key. |
| `MigrationRestarts.RestartsRunOnTheirOwnState` | internal/controllers/chainnodeset/cosmosigner.go:789-830 | And no replica ever runs on state written under another key. |
| `MigrationRestarts.EarlyRestartsDecideRightly` | internal/controllers/chainnodeset/cosmosigner.go:792-805 | If every migration is superseded before it rolls out or when its key is the recorded one, every decision to reset is right when it is taken and no replica runs on foreign state. |
| `MigrationRestarts.EarlyRestartsKeepState` | internal/controllers/chainnodeset/cosmosigner.go:792-805 | If every migration that resets is superseded before it comes to resetting state, every live claim survives the whole history. |
| `MigrationRuns.ReplacementIsReached` | internal/cosmosigner/migration.go:64-106 | For every plan, with or without a reset, there is a run from a live established signer to the replacement's first pod. |
| `MigrationRuns.KeptStateIsForeign` | internal/cosmosigner/migration.go:83-93 | For every plan that keeps state across a change of key there is a run that ends on foreign state. |
| `MigrationRuns.DecisionIsExact` | internal/cosmosigner/migration.go:83-93 | Replicas run on their own state in all runs exactly if the plan resets or keeps the key, and state is kept in all runs exactly if it does not reset. |
| `MigrationRuns.SupersedingIsSafeExactly` | internal/controllers/chainnodeset/cosmosigner.go:796-801 | The same for a superseding migration, in terms of the recorded, the live and the new key. |
| `MigrationRuns.ReturningRunsOnForeignState` | internal/controllers/chainnodeset/cosmosigner.go:792-805 | For any two keys there is a history a, b, a in which a replica of a runs on state written under b. |
| `MigrationRuns.StayingForgetsItsState` | internal/controllers/chainnodeset/cosmosigner.go:792-805 | For any two keys there is a history a, b, b in which the intact state of b is discarded while b stays the key. |
| `MigrationRuns.Stranded` | internal/cosmosigner/apply.go:315-339 | A keeping migration without a set, over a claim that is missing, foreign, unguarded or terminating, never creates a replacement in any run. |
| `MigrationRuns.KeepingCreates` | internal/cosmosigner/migration.go:64-106 | From every start, with a set or without, a keeping migration over fit claims can create its replacement. |
| `MigrationRuns.KeepingCreatesExactly` | internal/cosmosigner/apply.go:156-176 | Without a set it can exactly if every locked ordinal's claim is present, the owner's, guarded and not terminating. |
| `MigrationRuns.EarlyRestartsCanGoOn` | internal/controllers/chainnodeset/cosmosigner.go:792-805 | After any history of migrations superseded before resetting state, a keeping migration can be carried out over the claims that were intact at the start. |
| `MigrationRuns.EarlyRestartStrands` | internal/controllers/chainnodeset/cosmosigner.go:796-801 | For any two keys there is a history a, b, a, superseded before b rolls out, in which the state of a is gone although the key was a all along, and no replacement is ever created. |
| `MigrationSafety.DeletingUnderTheRenderedPolicyLosesState` | internal/cosmosigner/cosmosigner.go:503-508 | The order matters: deleting under the rendered policy, even drained, lets the controller collect an intact claim. |
| `MigrationProgress.CallsSucceed` | internal/cosmosigner/migration.go:64-106 | Calls succeed, move at most one phase forward, and offer recreation only over neither set nor pod. |
| `MigrationProgress.CallsWork` | internal/cosmosigner/migration.go:64-106 | A call that changes anything lowers the measure of work left. |
| `MigrationProgress.SettlingWorks` | internal/cosmosigner/apply.go:377-499 | So does every settling event of the cluster. |
| `MigrationProgress.BusyEnds` | internal/cosmosigner/apply.go:377-499 | Whatever keeps a set busy has a settling event that ends it. |
| `MigrationProgress.WaitingEnds` | internal/cosmosigner/migration.go:64-106 | A call that changes nothing and is not ready waits for an event that can come. |
| `MigrationProgress.NeutralKeepsWork` | internal/cosmosigner/apply.go:377-499 | Signing, binding, marking and unrelated changes leave the work as it is. |
| `MigrationProgress.ProgressIsBounded` | internal/cosmosigner/migration.go:64-106 | No history has more effective calls and settling events than the work it starts with, however many neutral events come between. |
| `MigrationProgress.NeverStuck` | internal/cosmosigner/migration.go:64-106 | Every state that is not ready has an effective call or a settling event. |
| `MigrationProgress.MaximalHistoriesEndReady` | internal/cosmosigner/migration.go:64-106 | Every history that cannot be advanced ends ready, within that bound. |
| `MigrationProgress.ReadyFollows` | internal/cosmosigner/migration.go:64-106 | From every state of a migration, effective calls and settling events lead to readiness within that bound. |
| `DeploymentGuards.LatchIsAbsorbing` | internal/cosmosigner/apply.go:279-294 | Over every run on one set the latch is absorbing and means zero replicas, and the roll-out annotation is never lost. |
| `DeploymentGuards.LaterApplyFindsClaims` | internal/cosmosigner/apply.go:315-339 | Every later write of an annotated set happens unlatched and with the claim of every ordinal there, the owner's, guarded, bound and not terminating. |
| `DeploymentGuards.SuccessfulApplyProvesClaims` | internal/cosmosigner/apply.go:315-339 | A successful apply of a set that has rolled out, even one that writes nothing, has seen the claim of every ordinal whole. |
| `DeploymentGuards.ApplyIsExact` | internal/cosmosigner/apply.go:234-349 | An apply of the set succeeds exactly over an absent set, or the owner's unlatched set not scaled up through an unguarded template, with no claim of another owner and as many whole claims as the guard and the evidence of a roll-out need; it fails as foreign exactly on another controller's set, which it leaves alone. |
| `DeploymentGuards.AppliedSetIsCurrent` | internal/cosmosigner/apply.go:254-312 | After a successful apply the set has the desired replicas, key and policy, keeps its identity and its evidence of a roll-out, and nothing else has changed. |
| `DeploymentGuards.ClaimChecksExact` | internal/cosmosigner/apply.go:156-176 | The claim checks pass exactly when every ordinal's claim is present, the owner's, guarded, bound and not terminating, and no claim under the signer's names is another's. |
| `DeploymentGuards.MarkIsExact` | internal/cosmosigner/apply.go:563-597 | The mark is set exactly on a set whose current generation is observed, updated and ready at the desired count, and changes nothing else. |
| `DeploymentGuards.RollOutIsReported` | internal/cosmosigner/apply.go:563-566 | A report makes a set rolled out exactly when the controller saw this very set and reports all its replicas updated and ready; no write leaves a set rolled out. |
| `DeploymentGuards.EvidenceIsEarned` | internal/cosmosigner/apply.go:563-597 | In every run on one set, a set that gets the annotation was fully rolled out before. |
| `DeploymentGuards.ForeignSetIsUntouched` | internal/cosmosigner/apply.go:371-499 | A set of another controller stops a migration and is left as it is; scaling down passes over it. |
| `DeploymentGuards.OtherPhasesAreRefused` | internal/cosmosigner/migration.go:64-106 | Exactly the phases that are not the teardown's are refused. |
| `DeploymentGuards.PreflightAgreesWithApply` | internal/cosmosigner/apply.go:78-154 | In every state, preflight accepts an unlatched set not scaled up through an unguarded template exactly when every apply of the deployment would succeed there, Services are headless and pod names free. |
| `DeploymentGuards.PreflightIsExact` | internal/cosmosigner/apply.go:78-154 | Preflight accepts exactly when every derived name is free or the owner's, Services are headless, replica names are free or the live set's, and claims are unmixed and whole where needed; it answers unsafe exactly when only the claims fail, and changes nothing on any other answer. |
| `DeploymentGuards.UnsafePreflightStopsTheSet` | internal/cosmosigner/apply.go:139-154 | A preflight that finds unsafe state leaves an existing set latched, at zero replicas, otherwise unchanged, and refused by every later apply. |
| `DeploymentGuards.NamesExact` | internal/cosmosigner/apply.go:78-115 | The name checks pass exactly when every derived object is absent or the owner's and every Service headless. |
| `DeploymentGuards.PodNamesExact` | internal/cosmosigner/apply.go:194-209 | The pod names are available exactly when each is free or held by the live set's own pod. |
| `DeploymentGuards.LatchedSetPassesPreflightOnly` | internal/cosmosigner/apply.go:279-294 | A concrete cluster whose latched set preflight passes and apply refuses. |
| `DeploymentGuards.UnguardedScaleUpPassesPreflightOnly` | internal/cosmosigner/apply.go:315-349 | A concrete cluster whose scale-up through an unguarded template preflight passes and apply refuses. |
| `DeploymentGuards.UnsafeStateStopsTheSet` | internal/cosmosigner/apply.go:351-369 | An apply that finds unsafe state leaves an existing set latched, at zero replicas, otherwise unchanged, and refused by every later apply. |
| `DeploymentGuards.PlanGuard` | internal/cosmosigner/migration.go:33-52 | The guard derived from the persisted record is the one the protocol assumes, and no phase before RollingOut yields one. |
| `DeploymentGuards.GuardIsExact` | internal/cosmosigner/migration.go:33-52 | For all arguments: the guard requires n claims exactly when no phase before RollingOut is recorded, n is the lock, in range, and the signer is established or migrating without a reset; it requires none exactly for a fresh signer or a resetting migration that is rolling out; otherwise there is no apply. |
| `DeploymentGuards.StateIsRequiredExactly` | internal/cosmosigner/migration.go:12-31 | Without a migration state is required exactly of an established signer; in a migration exactly until one that resets comes to resetting it. |
| `DeploymentGuards.SteadyApplyProvesClaims` | internal/cosmosigner/migration.go:12-52 | An apply of an established signer without a migration succeeds only over the whole locked claim set, whatever the set says of itself. |
| `KmsImport.OwnedVersionShape` | api/v1/cosmosigner_helper.go:268-279 | A version is owned exactly when it is the destination's name, the separator and digits. |
| `KmsImport.ParsedVersionsAreOwned` | internal/cosmosigner/jobs.go:418-440 | Every version the output parser accepts is one the containment check accepts for that destination. |
| `KmsImport.ParsesExactly` | internal/cosmosigner/jobs.go:418-440 | Output parses to a version exactly when some line, trimmed, is the marker followed by it, no earlier line is marked, and the destination owns it. |
| `Text.LinesJoin` | internal/cosmosigner/jobs.go:424-425 | Splitting into lines loses nothing: the lines hold no newline and join to the text. |
| `Text.JoinedLines` | internal/cosmosigner/jobs.go:424-425 | And lines joined are split back into themselves. |
| `Text.TrimExact` | internal/cosmosigner/jobs.go:426-429 | Trimming takes off exactly the white space at both ends. |
| `KmsImport.PrintedVersionParses` | internal/cosmosigner/jobs.go:418-440 | A line printing an owned version, after any unmarked lines and before anything, is parsed back to it. |
| `KmsImport.RecordNamesOneKey` | api/v1/cosmosigner_helper.go:400-411 | All material a record matches, in either format, has one public key. |
| `KmsImport.RecordsShowTheirTarget` | api/v1/cosmosigner_helper.go:413-419 | The prefix test on a record holds exactly for its own target. |
| `KmsImport.RecordsNameOneTarget` | api/v1/cosmosigner_helper.go:375-398 | A record matches exactly the project, effective location, key ring, key and source secret it was written for. |
| `KmsImport.RecordMatchesExactly` | api/v1/cosmosigner_helper.go:400-411 | A record of the target matches material exactly when it hashes the canonical form of it or, in the older format, the material as it is. |
| `KmsImport.ImportIdentityExact` | api/v1/cosmosigner_helper.go:359-368 | Import identities agree exactly when project, effective location, key ring and key do. |
| `KmsImport.NextStepExact` | api/v1/cosmosigner_helper.go:328-357 | The whole classification as a table over record, version and material: which step is next, for a managed and for a pre-provisioned key. |
| `KmsImport.ResolvedVersionExact` | api/v1/cosmosigner_helper.go:281-297 | A pre-provisioned version resolves to itself; a managed one to the recorded version if the destination owns it and to none otherwise. |
| `KmsImport.VaultTargetsExact` | api/v1/cosmosigner_helper.go:186-208 | Vault targets agree, in the current format, exactly in every field, and in the older one exactly in the fields it holds. |
| `KmsImport.VaultRecordsAreNotKmsRecords` | api/v1/cosmosigner_helper.go:192-207 | A Vault target passes for a Cloud KMS one exactly when its address is the marker word and all else agrees; an unversioned one never. |
| `ImportMachine.RunsAreSane` | internal/cosmosigner/jobs.go:224-325 | In every run a recorded or reported version exists, was made by the pod that reports it, from what that pod mounted. |
| `ImportMachine.OtherMaterialIsNeverImported` | api/v1/cosmosigner_helper.go:340-352 | Once a record exists, other material is classified Mismatch, and no pod is started or replaced and no version recorded for it. |
| `ImportMachine.CompleteMeansServed` | api/v1/cosmosigner_helper.go:328-357 | In every run of import, verification, crash, loss and source change without a swap, Complete means the resolved version exists and holds the key the record names, and the source's. |
| `ImportMachine.SteadyRunsServe` | api/v1/cosmosigner_helper.go:286-297 | In such runs everything that may come to be served already holds the recorded key. |
| `ImportMachine.SwappedMountMisserves` | internal/controllers/chainnodeset/cosmosigner.go:2306-2324 | From every run whose pod is about to mount a secret with another key than the recorded one, Complete can be said of the wrong key. |
| `ImportMachine.SwappedExpectationMisserves` | internal/controllers/chainnodeset/cosmosigner.go:2334-2366 | The same from every pass that compares with a secret changed since the pass read it to the version's key. |
| `ImportMachine.EverySwapMisserves` | internal/controllers/chainnodeset/cosmosigner.go:2221-2366 | So every swapped step of every run can end in the wrong key: the condition is exact. |
| `ImportMachine.ImportCompletes` | internal/controllers/chainnodeset/cosmosigner.go:2221-2366 | For every key and version there is a run, from nothing, that ends complete with record, version and no pod. |
| `ImportMachine.SwapFailsFromScratch` | internal/controllers/chainnodeset/cosmosigner.go:2306-2324 | For any two different keys and two versions there is a whole run, from nothing, that ends complete on the wrong key. |
| `ImportMachine.AtMostOneVersion` | internal/cosmosigner/jobs.go:224-392 | Under every crash schedule at most one version of the destination is ever created, unless a step takes away the last trace of it from status and pod. |
| `ImportMachine.EveryForgettingDuplicates` | internal/cosmosigner/jobs.go:224-392 | From every run that has forgotten nothing so far, every such step can be continued to a second version: the condition is exact. |
| `ImportMachine.LostStatusDuplicates` | internal/cosmosigner/jobs.go:366-392 | A whole run that loses status after an import ends with two versions. |
| `ImportMachine.UnreadableLogsDuplicate` | internal/cosmosigner/jobs.go:251-261 | A whole run that replaces a failed pod with unreadable logs naming a version ends with two versions. |
| `ImportMachine.HiddenVersionDuplicates` | internal/cosmosigner/jobs.go:251-261 | A whole run whose pod fails before naming its version ends with two versions. |
| `ImportJobs.JobRunner.constructor` | internal/cosmosigner/jobs.go:57-62 | Starts a history of zero steps. |
| `ImportJobs.JobRunner.Interfere` | internal/cosmosigner/jobs.go:227-325 | Between requests the pod may progress, mount, make a version, vanish once deleted, or another owner may take the name; nothing happens in a quiet cluster. |
| `ImportJobs.JobRunner.GetLogs` | internal/cosmosigner/jobs.go:250-272 | Returns the logs of the pod found under the name at that moment; without failures exactly when there is one. |
| `ImportJobs.JobRunner.WaitForPodSucceeded` | internal/cosmosigner/jobs.go:266-272 | Succeeds only on a succeeded pod; without failures exactly on one. |
| `ImportJobs.JobRunner.DeletePod` | internal/cosmosigner/jobs.go:275-290 | Deletes only the pod whose UID was read, and only where replacement or cleanup is allowed; without failures that pod is gone or terminating, or the name has changed hands. |
| `ImportJobs.JobRunner.CreatePod` | internal/cosmosigner/jobs.go:295-304 | Creates a pod only under a free name; without failures exactly then. |
| `ImportJobs.JobRunner.StartPod` | internal/cosmosigner/jobs.go:293-325 | Starts a pod only once the name is free; without failures the answer is its logs exactly when it has succeeded. |
| `ImportJobs.JobRunner.Resume` | internal/cosmosigner/jobs.go:240-274 | Keeps this owner's pod for the destination exactly unless it failed without readable logs naming a version; the answer is that pod's own logs, and without failures they are read. |
| `ImportJobs.JobRunner.RunJob` | internal/cosmosigner/jobs.go:224-325 | Starts a pod only if none was found or the one found may be replaced; never while one is in flight, succeeded, or failed with readable logs naming a version; refuses a foreign pod untouched. Without failures a pod is started unless the name stays taken, its logs are answered exactly when it succeeds, and those of a pod that is kept unless it is in flight and names no version. |
| `ImportJobs.JobRunner.ImportKey` | internal/cosmosigner/jobs.go:340-359 | A returned version exists and belongs to the destination; in a quiet cluster it is the one the kept pod names. |
| `ImportJobs.JobRunner.CleanupImportPod` | internal/cosmosigner/jobs.go:366-392 | Called once status has the version; leaves status and other owners' pods alone; without failures this owner's pod is gone or terminating. |
| `ImportJobs.JobRunner.Compare` | internal/controllers/chainnodeset/cosmosigner.go:2334-2358 | Passes only if the recorded version serves the key read from the secret in this pass; in a quiet cluster exactly then. |
| `ImportJobs.JobRunner.VerifyImported` | internal/controllers/chainnodeset/cosmosigner.go:2334-2366 | Writes the record only after the comparison passed, and it names the material the pass read; in a quiet cluster exactly when the version serves the source's key. |
| `ImportJobs.JobRunner.PersistVersion` | internal/controllers/chainnodeset/cosmosigner.go:2313-2318 | Writes the version the pass has read; in a quiet cluster it is in status afterwards. |
| `ImportJobs.JobRunner.ImportAndVerify` | internal/controllers/chainnodeset/cosmosigner.go:2295-2328 | Persists the version before verifying it and before deleting the pod; in a quiet cluster it does exactly what the pod found allows. |
| `ImportJobs.JobRunner.ImportPass` | internal/controllers/chainnodeset/cosmosigner.go:2221-2328 | A pass does what the classification says and nothing else, forgets everything, and without a fault ends with an owned version, a record for the target and no lasting pod of this owner; in a quiet cluster answer and state are exactly as specified. |
| `ImportJobs.FoundVersionCompletes` | internal/controllers/chainnodeset/cosmosigner.go:2306-2328 | A quiet pass that may import and finds its pod's version of the source's key ends complete, and every later pass over it changes nothing. |
| `ImportJobs.JobRunner.RunPasses` | internal/controllers/chainnodeset/cosmosigner.go:2221-2366 | Any number of passes with status lost in between is a run of the machine, so without a swap everything servable holds the recorded key; in a quiet cluster it is the fold of the specified passes. |
| `NodeSets.PrintIntInjective` | api/v1/cosmosigner_resolve.go:244-245 | Printed integers are told apart and hold no NUL. |
| `NodeSets.GroupSignersAt` | api/v1/cosmosigner_resolve.go:74-87 | The resolved group signers are exactly those of the groups that carry one. |
| `NodeSets.TargetedIffResolved` | api/v1/cosmosigner_helper.go:131-152 | For every spec a group has a signer exactly when some resolved signer lists it as a target. |
| `Admission.TargetedOnce` | api/v1/chainnodeset_webhook.go:966-992 | In an accepted spec a group is the target of at most one signer. |
| `Admission.SignerOfGroup` | api/v1/cosmosigner_helper.go:131-152 | In an accepted spec the lookup by group and the resolved list name the same signer. |
| `Admission.SignerNamesDistinct` | api/v1/chainnodeset_webhook.go:690-700 | Signer names are distinct in every spec with distinct group names. |
| `Admission.TopTargetServed` | api/v1/cosmosigner_resolve.go:91-116 | An accepted top-level signer serves a target exactly when it is a validator. |
| `Admission.TargetedValidatorIsServed` | api/v1/cosmosigner_resolve.go:144-182 | In an accepted spec a validator's signer serves that validator with that group's key secret; a sentry has no validator among its targets. |
| `Admission.ServedOnce` | api/v1/chainnodeset_webhook.go:788-849 | No two signers serve the same validator group. |
| `Admission.ResolvedExactly` | api/v1/cosmosigner_resolve.go:73-182 | Every resolved signer of an accepted spec is the one described at the top level or in a group, with its name, targets, served validator and key secret read off the spec, and every one described is resolved. |
| `AdmissionChecks.ValidateGroups` | api/v1/chainnodeset_webhook.go:241-356 | The loop over groups accepts exactly when names are non-empty, not reserved and distinct and every validator has an allowed shape. |
| `AdmissionChecks.CheckTarget` | api/v1/chainnodeset_webhook.go:810-843 | A listed target is accepted exactly when it is the legacy validator or a group with instances, without tmKMS, and counted exactly when it validates. |
| `AdmissionChecks.ValidateTargets` | api/v1/chainnodeset_webhook.go:804-848 | The loop over targets accepts exactly when all are known, none is listed twice and at most one is a validator. |
| `AdmissionChecks.ValidateTop` | api/v1/chainnodeset_webhook.go:788-849 | The same for the whole top-level signer. |
| `AdmissionChecks.ValidateTargetUniqueness` | api/v1/chainnodeset_webhook.go:969-992 | Accepts exactly when no group has both a signer of its own and the top-level one. |
| `AdmissionChecks.ValidateSigners` | api/v1/chainnodeset_webhook.go:753-781 | Accepts exactly the signer checks as a whole. |
| `AdmissionChecks.Validate` | api/v1/chainnodeset_webhook.go:121-781 | Groups first, then signers: accepts exactly the specs the theorems call accepted. |
| `SigningKeys.Register` | api/v1/chainnodeset_webhook.go:1567-1593 | Registering one key after another succeeds exactly when none is taken or repeated. |
| `SigningKeys.RegisterGroups` | api/v1/chainnodeset_webhook.go:1713-1753 | The same over all validator groups. |
| `SigningKeys.CollectGenesisSecrets` | api/v1/chainnodeset_webhook.go:1610-1628 | Collects exactly the secrets of preserved genesis validators. |
| `SigningKeys.RegisterSigners` | api/v1/chainnodeset_webhook.go:1755-1819 | The same over all resolved signers. |
| `SigningKeys.ValidateUniqueSigningKeys` | api/v1/chainnodeset_webhook.go:1556-1820 | Accepts exactly when no key is registered twice over the whole spec. |
| `KeySharing.Registered` | api/v1/chainnodeset_webhook.go:1684-1819 | Every place that holds the key of a signing path is registered, but for the default secret of a validator that names the empty one and a sentry's secret that a genesis entry has registered. |
| `KeySharing.SigningKeysAreDistinct` | api/v1/chainnodeset_webhook.go:1556-1820 | No two signing paths of an accepted spec share a consensus key, whatever place it is kept in, uploaded or imported to (but for a software sentry and the genesis entry that registers its key), exactly when no signer uses another signer's import destination and nothing else uses the default secret of a validator that names the empty one. |
| `KeySharing.IdentitiesAreDistinct` | api/v1/cosmosigner_helper.go:687-710 | The recorded signing identities of all paths differ, with the same exception, unless such a default secret is used. |
| `KeySharing.IdentityIsPlaced` | api/v1/cosmosigner_helper.go:685-710 | The recorded identity of a path spells out a place its key is in. |
| `KeySharing.OneSentryPerEntry` | api/v1/chainnodeset_webhook.go:1802-1816 | At most one sentry holds a given secret. |
| `KeySharing.CryptoKeyNameInjective` | api/v1/cosmosigner_helper.go:259-266 | Coordinates without slashes, the effective location included, are recovered from the crypto key's name. |
| `KeySharing.DestinationsAreDistinct` | api/v1/chainnodeset_webhook.go:1786-1793 | With such coordinates two imports into one crypto key are refused: only pinned versions escape. |
| `KeySharing.FormerLocalKeyStaysReserved` | api/v1/chainnodeset_webhook.go:1630-1682 | An external signer on an established chain does not free the validator's local key unless status proves that key never signed. |
| `KeySharing.PinnedVersionEvadesTheCheck` | api/v1/chainnodeset_webhook.go:1780-1793 | For every destination and version of it there is a spec that passes every check and puts one key behind two signers. |
| `KeySharing.EmptySecretNameEvadesTheCheck` | api/v1/chainnodeset_webhook.go:1731-1734 | A concrete spec with an empty explicit secret passes every check while two paths sign with one key. |
| `KeyReservations.ProvenExactly` | api/v1/chainnodeset_webhook.go:1657-1681 | Status proves a local key unused exactly when the signer's own entry, or else every entry of this group and key, of which there is one, says it never served. |
| `KeyReservations.FrontedExactly` | api/v1/chainnodeset_webhook.go:1637-1682 | The local key of a validator behind a signer is left free exactly when the validator neither initialises nor creates, the backend neither mounts nor imports it, and there is no chain yet or status proves it unused. |
| `KeyReservations.RegistrationStands` | api/v1/chainnodeset_webhook.go:1684-1819 | Every registration stands for a claim: a place a path signs with, a local key that may have signed behind a signer, or a sentry's secret. |
| `KeyReservations.ClaimRegistered` | api/v1/chainnodeset_webhook.go:1684-1819 | And every claim is registered. |
| `KeyReservations.RegistrationsNoRepeats` | api/v1/chainnodeset_webhook.go:1684-1819 | Nothing is registered twice for one path. |
| `KeyReservations.AcceptedExactly` | api/v1/chainnodeset_webhook.go:1556-1820 | So the check accepts a spec exactly when no key has two claimants and no two sentries name one secret: it refuses nothing else. |
| `KeyReservations.CleanSpecsAcceptedExactly` | api/v1/chainnodeset_webhook.go:1556-1820 | Without separators in the names, exactly when no place has two claimants. |
| `Genesis.SigningFingerprintFixesConfiguration` | api/v1/chainnodeset_webhook.go:2057-2085 | Equal full fingerprints imply equal configuration fingerprints. |
| `Genesis.ConfigurationFingerprintInjective` | api/v1/chainnodeset_webhook.go:2066-2085 | Equal configuration fingerprints mean equal genesis parameters and account derivation. |
| `Genesis.RefreshNeedsSameConfiguration` | api/v1/chainnodeset_webhook.go:2087-2108 | A recorded fingerprint allows a refresh exactly when a signer targets the group or status records one that served it, and the configuration is the same: suffix matching confuses nothing. |
| `Genesis.UpdateKeepsGenesis` | api/v1/chainnodeset_webhook.go:472-574 | One accepted update keeps every group's genesis seats and configuration fingerprint. |
| `Genesis.GenesisIsFixed` | api/v1/chainnodeset_webhook.go:466-574 | Over every run of accepted updates after the chain ID is set, genesis members and their configuration never change, whichever comparison each step made. |
| `Genesis.GenesisParametersAreFixed` | api/v1/chainnodeset_webhook.go:2028-2050 | Nor do the genesis parameters and preserved validators themselves. |
| `Genesis.ConfigurationExact` | api/v1/chainnodeset_webhook.go:2066-2085 | Configuration fingerprints agree exactly when genesis parameters, preserved validators, information and account derivation do. |
| `Genesis.SigningExact` | api/v1/chainnodeset_webhook.go:2057-2064 | Full fingerprints agree exactly when configuration and signing material do. |
| `Genesis.ChangedExact` | api/v1/chainnodeset_webhook.go:493-501 | An update counts as a change of a validator exactly when its configuration differs, or its signing material does and no signer is in front of it before or after. |
| `Genesis.UpdatesAdmittedExactly` | api/v1/chainnodeset_webhook.go:472-574 | After genesis an update is admitted exactly when the initialising validators are the same, each with its configuration, with its signing material unless a signer is in front of it before or after, and with its instances, and still or still not behind a signer if there are several, unless one is in front of it before and after. |
| `DerivedNames.CollidingNames` | api/v1/chainnodeset_webhook.go:1263-1281 | Returns exactly the names that two different owners derive. |
| `DerivedNames.ValidateCollisions` | api/v1/chainnodeset_webhook.go:1086-1117 | Accepts exactly when every colliding name is grandfathered; a refusal names one that is not. |
| `DerivedNames.ValidateUpdate` | api/v1/chainnodeset_webhook.go:1220-1251 | An update passes exactly when its colliding names are among the old spec's. |
| `DerivedNames.CollisionsOnlyShrink` | api/v1/chainnodeset_webhook.go:1070-1209 | Along accepted updates the Service and Ingress names that two owners derive from the spec only get fewer; a collision-free spec stays so. |
| `DerivedNames.ServiceNamesExact` | api/v1/chainnodeset_webhook.go:1119-1209 | A name and owner are listed exactly when the spec derives them: for a group its base and -internal, and -cg, -cg-upstream and -cg-peer under their conditions; for every ordinal its child's names; and likewise for the legacy validator, cosmoseed, ingresses and gateway routes. |
| `DerivedNames.IngressNamesExact` | api/v1/chainnodeset_webhook.go:1283-1336 | The same for Ingress names. |
| `DerivedNames.CollisionsExact` | api/v1/chainnodeset_webhook.go:1086-1117 | A name collides exactly when two different owners derive it from the spec. |
| `DerivedNames.UpdatesAdmittedExactly` | api/v1/chainnodeset_webhook.go:1220-1251 | An update passes exactly when every name contested in the new spec was contested in the old one. |
| `DerivedNames.GroupFitsExactly` | api/v1/derived_names.go:23-42 | Checking a group's base and highest ordinal is the same as checking every name the group derives. |
| `DerivedNames.CosmoseedFitsExactly` | api/v1/chainnodeset_webhook.go:1047-1059 | The same for cosmoseed. |
| `DerivedNames.LengthCheckIsExact` | api/v1/chainnodeset_webhook.go:1000-1068 | A spec passes the length check exactly when every derived Service name, for every ordinal, and every discovery Service name has at most 63 bytes. |
| `DerivedNames.LengthsAdmittedExactly` | api/v1/chainnodeset_webhook.go:1000-1068 | The same in terms of the names the spec derives. |
| `Digests.PreimagesAgree` | api/v1/cosmosigner_resolve.go:238-247 | Digest preimages agree exactly when the signing keys are the same, replicas and validator group agree and target groups are equal up to order. |
| `Digests.IdentitiesAgree` | api/v1/cosmosigner_helper.go:685-710 | Identities agree exactly when both are Vault with equal address, namespace, effective mount, key and effective version, both managed Cloud KMS with equal project, effective location, key ring and key, both pinned with equal version, or both software with equal secret. |
| `Digests.EqualGroupMultiset` | api/v1/cosmosigner_resolve.go:300-317 | Counting up and down decides equality as multisets. |
| `Sorting.SortCanonical` | api/v1/cosmosigner_resolve.go:242-243 | Sorted lists are equal exactly when the lists are rearrangements of each other. |
| `Encoding.NulJoinInjective` | api/v1/cosmosigner_resolve.go:244-245 | NUL-free fields are recovered from the joined text, their number included. |
| `ConfigHash.CollectKeys` | internal/cosmosigner/cosmosigner.go:278-281 | Collects every key once. |
| `ConfigHash.HashedText` | internal/cosmosigner/cosmosigner.go:271-288 | Builds the raw text of a lone config.yaml, else the length-prefixed entries in key order, whatever order the map is walked in. |
| `ConfigHash.ConfigData` | internal/cosmosigner/cosmosigner.go:249-269 | One file for one replica, else one more per ordinal, each parsing to the rendered configuration with bootstrap left to ordinal 0; fails exactly if several are needed and the rendered text does not parse. |
| `ConfigHash.PayloadInjective` | internal/cosmosigner/cosmosigner.go:278-287 | The length-prefixed payload determines the whole map. |
| `ConfigHash.RecoveryAccepts` | internal/cosmosigner/recovery.go:51-58 | A live map has the rendered map's hash input exactly when it is that map or, for several files, the one file spelling out their payload. |
| `ConfigHash.RecoveryIsExact` | internal/cosmosigner/recovery.go:51-58 | Among maps whose config.yaml is a rendered configuration, only the rendered one is accepted. |

## Left out

Assumptions the results rest on:

- Only the modelled code and the StatefulSet controller write the signer's set and claims; the controller acts on the spec and policy it last observed; UIDs are not reused.
- A pod that is gone no longer signs. A pod object removed by force from an unreachable node, whose process still runs, is not told apart from one that has ended.
- Reads are fresh. The reconciler's client reads from a cache; a read that lags behind is not modelled, while the writes carry the version or UID that was read.
- Vault keys are compared by their coordinates and Cloud KMS keys by resource name, not by what the services make of them; an unconfigured tmKMS provider holds no key. YAML parses back what it rendered.
- SHA-256 is treated as injective, and its output holds no dot; JSON canonicalisation is idempotent and keeps the key; JSON text is never empty, holds no NUL and determines the genesis parameters.
- Spec strings hold no NUL. Go strings are byte sequences: where lengths matter, a `char` stands for one byte.
- Status fields of an import are lost only between passes, since a pass writes them with optimistic concurrency; an import pod that names a version of the destination names the one it made, and no other owner's pod names one.
- The chain ID and the object's name do not change once set.

Not modelled:

- `Undeploy`, `IsTornDown`, `ProtectRetainedStatePVCs`, `QuiesceOwner`, `FinalizeOwner` and the namespace-termination paths: they rest on attribution by code outside these files.
- `ReadSignerLock` and signer recovery beyond the ConfigMap comparison: single searches over listed objects.
- Vault imports and the pubkey pod: the same pod driver without retention, so there is nothing to keep.
- Scaling the signer down before an import and skipping the import when the served digest matches: the former is `Operator.ScaleDown`, the latter needs the roll-out status.
- `validateCosmosignerUpdate`, the registration rules of `validateResolvedSigner`, account uniqueness, reserved child names, PDB clashes, persistence, snapshots and subdomain checks: acceptance here is the conjunction of the checks the theorems need, and the code accepts no more than that.
- Specs with several backends in one block: validation refuses them, so a backend is one of three kinds here.
- `EnsureCosmosignerStatus`, `RemoveCosmosignerStatus`, `DesiredReplacementSigner`, `SetEstablishedChainID`: settled by reading one loop.
- Rendering of volumes, probes, network policies, CosmoGuard and Gateway objects.
- ImportMachine.CompleteMeansServed: requires that the secret is not swapped under a pass, because every swap can break it.
