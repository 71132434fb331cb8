# Release control plane: a model of its transactions and algorithms

The control plane keeps one persisted state. Commands and workers change it by atomic
transactions; provider calls (builds, pull requests, check runs, registries, a language
model) happen between transactions, so a crash, a stolen lease or an overtaking command can
fall at any point. This project models those transactions and the algorithms they use, and
proves what must hold over every interleaving.

How the system is represented:

- A transaction is a function from the state before to the state after (or a refusal). A run
  is any sequence of steps from an empty or initial state, in any order, by any number of
  workers; a crash is a worker that never takes its next step.
- Transactions and loops of the Go source that change things in place also appear as methods,
  on classes that hold the mutated collections as fields, or with the loops and maps of the
  original, and are proved equal to the specification that the run theorems are about. Where a
  run step covers more than one object (a record together with the processes that work on it),
  the method takes a state of that run as a ghost parameter and is proved to do to its own
  fields what the step does.
- Identities are numbers compared only for equality (`NO_ID` is the empty string); time is a
  number of seconds; a fingerprint is represented by the value it fingerprints; lease tokens
  are fresh; provider answers, configuration comparisons and checks of code outside the model
  are arbitrary inputs of a step.
- Unsigned 64-bit counters are natural numbers with the source's exhaustion guards; that they
  never pass the maximum is proved, not assumed.

| modules | part of the system |
|---|---|
| `DevHoldModel`, `DevHoldSteps`, `DevHoldSafety`, `DevHoldRuns`, `DevHoldStore`, `DevHoldFence` | reservation of a development environment, baseline capture, activation, numbered restorations and unlock |
| `WorkerModel`, `WorkerSafety`, `WorkerExclusion`, `WorkerLedger`, `WorkerJobs`, `WorkerRuns`, `WorkerStore` | the leased worker: claims, guarded saves, persisted intents, managed jobs, the delivery phase machine |
| `WorkerProposals`, `WorkerReservation`, `WorkerLimits` | when a proposal can be repeated, what a reservation finds, and what the worker does not promise |
| `ControlRuns` | the reservation log and the workers in one run over shared environments |
| `RestorationSend`, `RestorationStore` | sending the proposals of a restoration generation, confirmation, collection of merges |
| `CheckRun`, `CheckRunStore` | publication of a provider check run |
| `ActivationGroups`, `ActivationProposal` | grouped activation: partition by physical target, one proposal by the leader |
| `FileCommit`, `ManagedBlock` | the transactional file installer and its managed block |
| `DependencyGraph` | the integration dependency graph and its cycle search |
| `FeaturePatch`, `FeatureUpdate`, `SourceRetention` | feature patches of a composition, and the command that selects them; the lineage that keeps retained sources usable |
| `ConflictEvidence`, `ConflictCheck`, `ConflictAttachment` | evidence for conflict resolutions, and attaching them |
| `MainCandidate`, `MainCandidateCheck` | evidence for main candidates and its revocation |
| `PublicationModel`, `PublicationSafety`, `PublicationRuns`, `PublicationStore` | native builds and publications, and admission of their artifacts |
| `StatePage` | keyset pagination with a byte budget |
| `ModelCall`, `ModelCallStore` | paid model calls: at most one per task, and the daily budget |

Where the code does less than its documentation or its surroundings suggest, the model keeps
the code as it is:

- The request limit of the model provider is documented as a rolling 24-hour limit per product
  (`docs/INTELLIGENCE.md:54`). The code counts the attempts of tasks first *claimed* within
  the last day, so it misses requests of tasks that were claimed earlier (late ones) and counts
  attempts that sent nothing (idle ones). `ModelCall.LimitCanBeExceeded` is a run in which two
  requests go out at the same moment under a limit of one. `ModelCall.LimitKeptIff` says from the
  store, before the call, when the limit holds: a dispatch breaks some limit that its guard lets
  through if and only if the late requests are at least as many as the idle attempts.
- The pull-request proposal of an ordinary delivery can be repeated: after a failed call, whose
  retry stores the phase that the caller read (`WorkerLimits.ProposalCanRepeat`), and after a
  crash, straight from the stored uncertain phase (`WorkerLimits.CrashCanRepeat`).
  `WorkerProposals.RepeatsIff` says exactly when another proposal can follow: a worker is past its
  authorising save, or the record is unsettled in an apply phase with its environment open at its
  epoch. Each proposal needs a save of its own and each claim makes at most one
  (`WorkerProposals.ProposalsAuthorised`, `WorkerProposals.OneProposalPerClaim`). Grouped
  activations and restorations do propose at most once.
- A failed delivery can be relabelled as cancelled by cancelling its worker job
  (`WorkerLimits.FailureCanBeRelabelled`); `WorkerRuns.RelabelledInRunIff` shows that exactly the
  failures that still own an unfinished job can be, and that no other settled record ever changes.
- A frozen activation grouping passes its own validator exactly when no child is selected twice
  (`ActivationGroups.FrozenValidatesIff`); the freezing pass itself does not check that.
- The installer refuses reserved markers only in the agent instructions
  (`internal/agentconnect/connect.go:208-210`). `ManagedBlock.StripsIffFree` shows that a later
  installation succeeds exactly when the installed body was free of both markers, whichever block
  it is; `ManagedBlock.MarkedExecutableBlocks` is a configuration entry, for an executable whose
  path holds the marker, that is installed once and blocks every later installation.
- The general look-up of the newest check result goes by the clock. `MainCandidate.ClockAgreesIff`
  says exactly when that agrees with append order, and `MainCandidate.CausalAgrees` that the
  candidate's own projection always does.

## Model

| member | source | states |
|---|---|---|
| DevHoldRuns.OneHoldPerEnvironment | internal/application/dev_reservation.go:15-62 | in every reachable state at most one hold of an environment is unreleased, and the guard's look-up finds exactly that one |
| DevHoldRuns.RecoveriesCountUp | internal/application/dev_restoration.go:136-155 | after k recovery requests their generations are exactly 1..k in append order; generation g stands g epochs and selections past the hold; the environment stands k past it, below the 64-bit maximum, while the hold lasts |
| DevHoldRuns.RecoveriesInOrder | internal/application/dev_restoration.go:442-489 | append order of recoveries is the order of their generation numbers |
| DevHoldRuns.RecoveryHistoryIntact | internal/application/dev_restoration.go:136-155 | a damaged or repeated generation history, which the look-up reports as invalid, is unreachable |
| DevHoldRuns.RevocationIsPermanent | internal/application/dev_restoration.go:300-369 | once one recovery is requested, plain release, capture and activation of that hold are refused in all later states, and so is every recovery but the newest; an activation admitted earlier has lost its capability for itself and its children |
| DevHoldRuns.ActivationStandsIff | internal/application/dev_activation.go:43-69 | an admitted activation keeps its capability if and only if it has not failed, its hold is unreleased and no recovery of that hold has been requested |
| DevHoldRuns.RevokedNow | internal/application/dev_baseline.go:85-186 | a hold that has moved past its own fence is refused by release, capture, activation and the baseline's expectation |
| DevHoldRuns.OnlyNewestAllowed | internal/application/dev_restoration.go:313-324 | of several recoveries of a hold only the highest generation can be allowed |
| DevHoldRuns.ReleaseIsFinal | internal/domain/dev_restoration.go:128-215 | no step takes a release back: a released hold stays released |
| DevHoldRuns.ReleasedForEver | internal/application/dev_reservation.go:15-56 | the same over whole runs |
| DevHoldRuns.DesiredStateFrozen | internal/application/dev_reservation.go:303-346 | from reservation to release, the release step included, composition, desired operation and target of the environment are unchanged |
| DevHoldRuns.GenerationGrows | internal/application/feature_patch.go:18-33 | over any stretch of a run an environment is unchanged or its selection generation strictly greater |
| DevHoldRuns.TokenNeverRecurs | internal/application/feature_patch.go:28-33 | a selection token seen twice proves that the environment was the same in between: the compare-and-set has no ABA |
| DevHoldRuns.StepMovesGeneration | internal/application/service.go:1015-1024 | every step that changes an environment strictly increases its generation and stays within 64 bits |
| DevHoldRuns.OneReceiptPerKey | internal/application/dev_reservation.go:156-176 | a product and request key bind at most one receipt in every reachable state |
| DevHoldRuns.AcceptedOnce | internal/application/dev_reservation.go:156-176 | repeating an accepted request in any later state returns the stored receipt and changes nothing |
| DevHoldSafety.RecoveryAppend | internal/application/dev_restoration.go:442-489 | an accepted recovery request extends the count by one, moves epoch and generation along, and keeps the invariant |
| DevHoldSafety.ReceiptStays | internal/domain/dev_restoration.go:128-215 | a valid release receipt stays valid while the log grows without touching its chain |
| DevHoldSafety.LatestIsCount | internal/application/dev_restoration.go:136-155 | when the generations count up, the newest record found carries their number |
| DevHoldStore.ControlStore.ActiveDevReservation | internal/application/dev_reservation.go:15-56 | the scan returns the first hold of the environment that no receipt has released |
| DevHoldStore.ControlStore.HoldReleased | internal/application/dev_reservation.go:15-56 | the two passes decide whether some receipt releases the hold |
| DevHoldStore.ControlStore.LatestNumbered | internal/application/dev_restoration.go:136-155 | the loop returns the record with the highest number and whether the history is undamaged |
| DevHoldStore.ControlStore.NextCaptureGeneration | internal/application/dev_baseline.go:57-76 | the next capture number, or none when the history is damaged or exhausted |
| DevHoldStore.ControlStore.BaselineHasActivation | internal/application/dev_baseline.go:77-84 | whether any activation of the hold was admitted |
| DevHoldStore.ControlStore.DevReservationReplay | internal/application/dev_reservation.go:156-176 | the replay scan: stored receipt, conflict, or none |
| DevHoldStore.ControlStore.BaselineReplay | internal/application/dev_baseline.go:44-56 | the replay scan of captures |
| DevHoldStore.ControlStore.RestorationReplayScan | internal/application/dev_restoration.go:123-135 | the replay scan of restoration commands |
| DevHoldStore.ControlStore.RestorationConfirmation | internal/application/dev_restoration_successors.go:13-34 | the single usable confirmation; a second or unusable one voids the first |
| DevHoldStore.ControlStore.Reserve | internal/application/dev_reservation.go:240-311 | the transaction updates environment and log exactly as the specification says, or changes nothing |
| DevHoldStore.ControlStore.Release | internal/application/dev_reservation.go:312-347 | the plain release as specified |
| DevHoldStore.ControlStore.Capture | internal/application/dev_baseline.go:288-330 | the baseline capture as specified |
| DevHoldStore.ControlStore.RequestRestoration | internal/application/dev_restoration.go:390-498 | the numbered recovery request as specified |
| DevHoldStore.ControlStore.Confirm | internal/application/dev_restoration_successors.go:64-193 | at most one confirmation is appended, as specified |
| DevHoldStore.ControlStore.FinishRelease | internal/application/dev_restoration_successors.go:333-480 | the unlock moves fence and receipt together or not at all |
| DevHoldFence.EpochMoves | internal/application/dev_reservation.go:303-309 | the epoch of an environment moves only under an active hold or with the reservation of a free one |
| DevHoldFence.BecomesHeld | internal/application/dev_reservation.go:57-62 | a hold becomes active only by the reservation that moves the epoch |
| DevHoldFence.FencesMoveLawfully | internal/application/dev_reservation.go:63-83 | every step of the reservation log is, for the worker, a lawful move of every fence: the worker theorems apply to it |
| ControlRuns.StepIsWorkers | internal/application/dev_reservation.go:240-311 | every step of the joint run is a step of the workers' model on the shared environments, a reservation only when their operations are resolved |
| ControlRuns.NoWriteUnderActiveHold | internal/application/dev_reservation.go:57-83 | in joint runs, while a hold of its environment is active no guarded operation has an intent, an uncertain apply or a running publication |
| ControlRuns.ReservationFindsSettled | internal/application/dev_reservation.go:177-197 | in joint runs every accepted reservation finds every write of its environment with its outcome on record |
| ControlRuns.FencedOutForEver | internal/application/dev_reservation.go:63-83 | after a reservation no operation that existed before it ever begins a write or commits anything but its failure, under this hold, its recoveries and whatever follows |
| WorkerRuns.NoManagedWriteWhileHeld | internal/application/dev_reservation.go:63-83 | while an environment is held no delivery, composition or release of it carries a mutation intent, an uncertain apply or a running publication |
| WorkerReservation.ReservedMeansSettled | internal/application/dev_reservation.go:177-197 | at every reservation of a run each source write begun for the environment has been acknowledged, each dispatched build has its completed run, each pull request is merged or closed, no publication is under way, and every intent ever stored was cleared by a step with its evidence |
| WorkerExclusion.IntentClearedWithEvidence | internal/application/worker.go:558-617 | an intent stays or is cleared in the transaction that stores its evidence, never replaced |
| WorkerExclusion.NextQuiet | internal/application/dev_reservation.go:404-427 | every step keeps held environments free of intents |
| WorkerExclusion.EpochsGrow | internal/application/dev_reservation.go:303-309 | no step moves a fence back |
| WorkerExclusion.StaleOnlyFails | internal/application/dev_reservation.go:63-83 | an operation of an older epoch can still be claimed, failed or cancelled, and nothing else |
| WorkerRuns.StaleForEver | internal/application/dev_reservation.go:63-83 | once an epoch has passed, every later commit of the operation fails it |
| WorkerRuns.DispatchedOnce | internal/application/worker.go:351-365 | a delivery's build is dispatched at most once over all workers, crashes and stolen leases |
| WorkerRuns.SourceWritesAccounted | internal/application/source_retention.go:264-291 | source writes begun are exactly those acknowledged plus the one still on record; no write goes out beyond that |
| WorkerJobs.TerminalStep | internal/application/worker_execution.go:84-115 | a settled record changes in one way only: a failure with an unfinished job is relabelled cancelled by cancelling that job |
| WorkerRuns.RelabelledInRunIff | internal/application/worker_execution.go:97-113 | in every reachable state some step changes a settled record if and only if it is a failure that still owns an unfinished job |
| WorkerJobs.NextJobs | internal/application/native_delivery.go:138-259 | every step keeps unfinished jobs in the native build phase of an unsuccessful delivery, publications behind a passed build, and none running under a hold |
| WorkerRuns.TerminalForEver | internal/application/worker.go:546-557 | settled records stay settled; successes and cancellations never change, and a failure changes only by the cancellation of a worker job of it |
| WorkerRuns.StageNeverFallsBack | internal/application/worker.go:351-521 | a delivery's stage never falls back, both apply phases counted as one |
| WorkerRuns.NoLostUpdate | internal/application/worker.go:546-557 | between a token's claim and its commit nobody else has changed the record |
| WorkerRuns.CommitOverwritesOwn | internal/application/worker.go:644-653 | a committed save replaces exactly the record that its token last saw or wrote |
| WorkerLedger.NextBalanced | internal/application/dev_reservation.go:404-427 | every step keeps calls, intents and acknowledgements of every operation in balance |
| WorkerLimits.ProposalCanRepeat | internal/application/gitops_pr.go:13-27 | a run in which an ordinary pull request is proposed twice, through a retry that stores the older phase |
| WorkerLimits.CrashCanRepeat | internal/application/worker.go:460-506 | a run whose worker crashes after its proposal, in a state from which a second proposal follows |
| WorkerProposals.RepeatsIff | internal/application/worker.go:460-506 | once an ordinary pull request has been proposed, another proposal can follow if and only if a worker is past its authorising save, or the record is unsettled in an apply phase with its environment open at its epoch |
| WorkerProposals.AuthorisedAgainIff | internal/application/worker.go:460-506 | from the apply stage on another apply can be authorised if and only if the stored record is unsettled, in an apply phase, and its environment open at its epoch |
| WorkerProposals.QuietForEver | internal/application/gitops_pr.go:13-27 | settled, waiting for its pull request or of a past epoch, with no call under way, a delivery is never proposed again |
| WorkerProposals.ProposalsAuthorised | internal/application/worker.go:500-506 | in every run a delivery's proposals, made or about to be made, are at most as many as the saves that stored its uncertain apply and kept the lease |
| WorkerProposals.OneProposalPerClaim | internal/application/worker.go:53-100 | between two proposals of one lease token lies another claim: each claim proposes at most once |
| WorkerLimits.ProposalIsCovered | internal/application/gitops_pr.go:13-27 | a proposal by the owner of the lease is covered by a stored uncertain apply |
| WorkerLimits.FailureCanBeRelabelled | internal/application/worker_execution.go:97-113 | a run in which a delivery fails while its build is running and the cancellation of that build relabels it |
| WorkerStore.OperationStore.Claim | internal/application/worker.go:62-100 | the scan makes exactly the one claim step that is enabled, for the eligible operation that all other eligible ones follow, or none |
| WorkerStore.OperationStore.HasUnresolvedEffects | internal/application/dev_reservation.go:177-197 | whether any operation of the environment is unresolved, its publication included |
| WorkerStore.OperationStore.BeginMutation | internal/application/dev_reservation.go:404-427 | the intent is stored once, exactly when the begin step of the runs is enabled, and as it does |
| WorkerStore.OperationStore.Save | internal/application/worker.go:546-711 | the guarded save stores exactly the settled record, or nothing |
| WorkerStore.ConfirmedSourceMutation | internal/application/worker.go:728-766 | the counting loops accept exactly one changed, acknowledged source |
| WorkerStore.SettleIntent | internal/application/worker.go:558-617 | the intent a save stores: kept, raised by the phase entered, or cleared by its evidence |
| RestorationSend.SentOnce | internal/application/dev_restoration_worker.go:409-464 | every group's proposal of a generation is sent at most once, whoever holds the lease when |
| RestorationSend.LatchNeverResets | internal/application/dev_restoration_worker.go:497-515 | send markers never reset, proposals are never forgotten, settled generations never change |
| RestorationSend.ConfirmedOnce | internal/application/dev_restoration_successors.go:129-141 | at most one confirmation per generation under any number of concurrent requests |
| RestorationSend.AppliedMeansApproved | internal/application/dev_restoration_worker.go:579-600 | an applied generation has every written group merged strictly after its one confirmation |
| RestorationSend.EarlyMergeNeverApplied | internal/application/dev_restoration_worker.go:539-556 | a merge seen before any confirmation excludes the generation from ever being applied |
| RestorationSend.DisapprovedMeansEarly | internal/application/dev_restoration.go:507-554 | a failed generation is never applied later, and one of its written groups carries for ever a merge that its confirmation did not cover when the mark was set |
| RestorationStore.ObservePlan | internal/application/dev_restoration_worker.go:516-572 | the observation loop returns the verdict of the whole plan |
| RestorationStore.RecoveryRecord.LatchSend | internal/application/dev_restoration_worker.go:407-432 | the marker of the next pending group is stored exactly when the latch step of the runs is enabled, and as it does |
| RestorationStore.RecoveryRecord.SaveRestoration | internal/application/dev_restoration_worker.go:346-378 | phase and groups are stored and the lease given up, exactly under a live one |
| RestorationStore.RecoveryRecord.Confirm | internal/application/dev_restoration_successors.go:129-141 | a confirmation is appended exactly when the confirm step of the runs is enabled: for the record observed, waiting and unconfirmed |
| RestorationStore.RecoveryRecord.CollectResults | internal/application/dev_restoration_worker.go:573-600 | merge times are collected if and only if every written group merged after the confirmation |
| RestorationStore.RecoveryRecord.MarkUnapproved | internal/application/dev_restoration.go:507-554 | the mark is stored exactly for the record observed, unsettled, when the loop over its groups sees a merge outside its confirmation |
| CheckRun.CallsAreUnique | internal/application/checks.go:333-414 | the create call is issued at most once and each numbered intent sent at most once, in every run |
| CheckRun.WithinBudget | internal/application/checks.go:333-414 | provider calls never exceed the budget of 64 |
| CheckRun.SuccessIsExact | internal/application/checks.go:432-469 | a succeeded publication has observed exactly the completed run it asked for |
| CheckRun.ObservedRunIsConstant | internal/application/checks.go:432-469 | the observed run never changes and its status never moves backwards |
| CheckRun.DefensiveFailuresUnreachable | internal/application/checks.go:414-469 | the missing-observation, terminal-mismatch and invalid-intent failures are unreachable |
| CheckRun.SuccessConclusion | internal/application/checks.go:227-298 | success is claimed if and only if the job succeeded with its receipt, uncancelled and still authorised |
| CheckRun.CompletedIffConcluded | internal/application/checks.go:227-298 | the desired run is completed exactly when it has a conclusion, and then has its times |
| CheckRunStore.DesiredCheck | internal/application/checks.go:227-298 | the step-by-step overwriting equals the precedence of lost authority, cancellation, timeout and the job's own end |
| CheckRunStore.Publication.PrepareCall | internal/application/checks.go:333-414 | the first transaction persists and counts the call before it is made |
| CheckRunStore.Publication.ConcludeCall | internal/application/checks.go:432-469 | the second transaction commits the observation or changes nothing |
| ActivationGroups.FreezeActivationGroups | internal/application/dev_activation_groups.go:33-83 | the pass succeeds exactly when components of one target agree on their connection, and freezes sorted groups with the least member as leader |
| ActivationGroups.ValidateActivationGroups | internal/application/dev_activation_groups.go:98-183 | the loops with their sets accept exactly the groupings described, the final comparison of counts included |
| ActivationGroups.ValidatedIsPartition | internal/application/dev_activation_groups.go:120-182 | two equal counts force a partition: every component in exactly one group, that of its own target |
| ActivationGroups.FrozenValidatesIff | internal/application/dev_activation_groups.go:33-83 | a frozen grouping passes the validator if and only if no child is selected twice |
| ActivationProposal.ProposedOnce | internal/application/dev_activation_gitops.go:36-53 | a group's proposal is sent at most once, and then under the leader's stored intent |
| ActivationProposal.OnlyTheLeaderProposes | internal/application/dev_activation_gitops.go:27-53 | only the leader ever proposes, no follower ever carries a batch |
| ActivationProposal.AllOrNone | internal/application/dev_activation_gitops.go:186-219 | no member has a result or all have it, at one commit and under one proposal |
| ActivationProposal.FailureStopsTheGroup | internal/application/dev_activation_gitops.go:104-116 | a failed member stays failed and no result or proposal can be added to its group |
| FileCommit.CommitPlans | internal/agentconnect/files.go:73-206 | success leaves every target with its planned bytes and nothing else changed; a complete rollback restores every target or its absence; at every moment each original is at its target or a surviving backup until all are applied |
| FileCommit.StageAll | internal/agentconnect/files.go:95-153 | staging disturbs no existing file and readies exactly the changing plans |
| FileCommit.SnapshotsHold | internal/agentconnect/files.go:154-163 | the comparison before the commit accepts only files that are as they were planned from |
| FileCommit.CommitAll | internal/agentconnect/files.go:185-205 | stops at the first failure with every file in a recoverable state; success applies all |
| FileCommit.Rollback | internal/agentconnect/files.go:164-184 | undoes in reverse order; when complete, every target is as it was |
| FileCommit.Cleanup | internal/agentconnect/files.go:81-94 | removes only what staging left |
| ManagedBlock.RoundTrip | internal/agentconnect/connect.go:316-345 | for marker-free text and body, stripping after appending returns the text up to one added final newline |
| ManagedBlock.StrippedIsFree | internal/agentconnect/connect.go:316-339 | what is left after stripping holds no marker; the join creates none |
| ManagedBlock.StripsIffFree | internal/agentconnect/connect.go:316-345 | the installed text can be stripped again if and only if the body is free of both markers |
| ManagedBlock.MarkedExecutableBlocks | internal/agentconnect/connect.go:255-262 | a configuration entry whose executable path holds the start marker is installed once and blocks every later installation |
| ManagedBlock.Reinstall | internal/agentconnect/connect.go:238-262 | installing over an installation equals installing the second body alone; the same body again changes nothing |
| ManagedBlock.OutsideIsKept | internal/agentconnect/connect.go:276-281 | everything outside the block survives an installation in order |
| ManagedBlock.InstalledMarkers | internal/agentconnect/connect.go:28-31 | the two pairs of marker lines in use satisfy what the theorems ask of markers |
| DependencyGraph.Visit | internal/application/service.go:396-413 | the recursive search ends, reports only real paths, and when it reports none has closed the set of integrations it visited without meeting the target |
| DependencyGraph.ClosesCycle | internal/application/service.go:396-419 | a cycle is reported if and only if some new dependency reaches the edited integration |
| DependencyGraph.EditIsAcyclicIff | internal/application/service.go:396-419 | an edit of an acyclic graph is acyclic if and only if no new dependency reaches the edited node |
| DependencyGraph.IntegrationStore.Put | internal/application/service.go:707-757 | create or update is accepted exactly when the result is acyclic, and changes nothing otherwise |
| DependencyGraph.AlwaysAcyclic | internal/application/service.go:707-757 | no sequence of creates and updates produces a cycle |
| FeaturePatch.PlanFeatureUpdate | internal/application/feature_patch.go:87-187 | the update is planned exactly for a well-formed request that changes something, and is then the patch of every component |
| FeaturePatch.CollectPatches | internal/application/feature_patch.go:110-135 | requested pairs are collected exactly when they are distinct, known and inside the composition |
| FeaturePatch.PatchList | internal/application/feature_patch.go:147-172 | replacing in place and appending the rest gives the patched list, and reports whether it changed |
| FeaturePatch.UntouchedStays | internal/application/feature_patch.go:151-162 | a pair that is not requested keeps its revision and position |
| FeaturePatch.RequestedIsReplaced | internal/application/feature_patch.go:151-162 | a requested pair that was present is replaced where it stood |
| FeaturePatch.RequestedIsSelected | internal/application/feature_patch.go:151-171 | every requested revision of a repository is in its patched list |
| FeaturePatch.PatchSelectsRequest | internal/application/feature_patch.go:136-173 | every requested revision is in every component of its repository, and in one at least |
| FeaturePatch.PatchIsLocal | internal/application/feature_patch.go:136-173 | no other pair gains, loses or changes a revision in any component |
| FeaturePatch.PatchedTwice | internal/application/feature_patch.go:147-172 | patching again with the same request changes nothing |
| FeaturePatch.AppliedPatchIsRefused | internal/application/feature_patch.go:174-176 | an update that has taken effect is refused when asked for again |
| FeaturePatch.PatchKeepsPlanValid | internal/application/composition.go:253-305 | a patched valid plan satisfies the uniqueness and agreement conditions of planning again |
| FeaturePatch.ValidatePlan | internal/application/composition.go:253-305 | the validator with its maps accepts exactly the valid plans |
| FeatureUpdate.KeyIsBound | internal/application/feature_patch.go:71-86 | an accepted update's key is bound for ever over all products: the same request returns the stored receipt and changes nothing, any other is refused |
| FeatureUpdate.OneWinner | internal/application/feature_patch.go:28-33 | of all updates that expect the same selection at most one is accepted in any run |
| FeatureUpdate.SelectionStaysValid | internal/application/feature_patch.go:87-187 | in every reachable state an environment selects nothing or a valid plan of its own product and environment |
| FeatureUpdate.UpdateTakesEffect | internal/application/feature_patch.go:110-173 | an accepted update selects each requested revision in every component of its repository, at least one, and moves no other pair |
| FeatureUpdate.UpdateStore.ReplayFeatureUpdate | internal/application/feature_patch.go:71-86 | the scan finds the first receipt of the key and returns it or a conflict |
| FeatureUpdate.UpdateStore.UpdateEnvironmentFeature | internal/application/flow.go:177-325 | replay, compare-and-set, patch and receipt in one transaction as specified, or no change |
| SourceRetention.SourceRetentionProvenance | internal/application/source_retention.go:140-205 | the walk ends and accepts if and only if the lineage holds |
| SourceRetention.LineageHasChain | internal/application/source_retention.go:140-205 | an accepted lineage is a finite parent chain to the explicit root with one scoped creation event per ancestor |
| SourceRetention.ChainGivesLineage | internal/application/source_retention.go:140-205 | every such chain is accepted |
| SourceRetention.ChainDecreases | internal/application/source_retention.go:140-205 | creations strictly decrease along the chain, all after the last restore, so it is acyclic |
| SourceRetention.RestoreRevokes | internal/application/source_retention.go:140-165 | a restore revokes every lineage through an operation created before it, for ever |
| SourceRetention.RestoreRevokesChain | internal/application/source_retention.go:140-165 | the same for every ancestor on a chain |
| SourceRetention.LineageSurvives | internal/application/source_retention.go:140-205 | events that neither restore nor create leave every lineage as it was |
| ConflictCheck.ValidateConflictResolutionEvidence | internal/application/composition_conflict.go:126-210 | the map-based check accepts if and only if the cited results are distinct current passes on the exact commit, complete for all blocking checks and covering every affected integration |
| ConflictCheck.CheckCited | internal/application/composition_conflict.go:175-198 | the pass over cited results accepts exactly distinct current proofs, and collects the checks passed and integrations covered |
| ConflictCheck.CollectGates | internal/application/composition_conflict.go:139-157 | the relevant gates, refused exactly for a repeated, unnamed or out-of-scope one |
| ConflictCheck.CollectChecks | internal/application/composition_conflict.go:158-169 | the relevant checks with their counts, refused exactly for one out of scope |
| ConflictEvidence.AppendInvalidates | internal/application/composition_conflict.go:175-192 | any new result of a cited check, whatever it says, invalidates the evidence |
| ConflictEvidence.UnrelatedAppendKeeps | internal/application/composition_conflict.go:175-192 | a new result of another check keeps it |
| ConflictAttachment.AttachConflictResolutions | internal/application/composition_conflict.go:214-249 | attaching succeeds if and only if every cited conflict is usable, fits its source, is found, and no repository is used twice; on refusal the sources are untouched |
| ConflictAttachment.AttachedIs | internal/application/composition_conflict.go:232-243 | exactly the sources of the cited repositories change, each to its own conflict's resolution |
| ConflictAttachment.ValidateFlowConflictResolutions | internal/application/composition_conflict.go:253-280 | queued work is accepted if and only if its resolutions are whole, still attachable, and attaching them again gives the same sources |
| ConflictAttachment.AttachedIsAccepted | internal/application/composition_conflict.go:253-280 | in an unchanged state the recheck accepts what attaching produced |
| ConflictAttachment.StaleIsRefused | internal/application/composition_conflict.go:253-280 | a later result of any check that a carried resolution relies on makes the recheck refuse |
| MainCandidateCheck.AdmitRevision | internal/application/main_candidate.go:90-151 | a revision is admitted if and only if every source gate is proved, some gate is selected, and the supplied results are exactly the append-last results of the selected gates |
| MainCandidateCheck.ProveGate | internal/application/main_candidate.go:121-146 | the scan of one gate accepts exactly when every check is scoped and passed by its append-last result |
| MainCandidateCheck.Authority | internal/application/main_candidate.go:63-155 | the nested loops accept exactly the requests whose sources are all acceptable, and list their evidence in order |
| MainCandidateCheck.CausalResults | internal/application/main_candidate.go:578-591 | the two passes with a map keep exactly the append-last result of each check, in order |
| MainCandidateCheck.Latest | internal/application/service.go:239-248 | the look-up by clock: greatest time stamp, the later record among equals |
| MainCandidateCheck.MainCandidateGuard | internal/application/main_candidate.go:374-402 | the guard accepts exactly when the evidence computed now is the evidence frozen |
| MainCandidateCheck.Prepare | internal/application/main_candidate.go:205-240 | a candidate frozen from an accepted request passes its guard in the same state |
| MainCandidate.CausalAgrees | internal/application/main_candidate.go:578-591 | on the projection the clock-based look-up equals append order, whatever the time stamps say |
| MainCandidate.ClockAgreesIff | internal/application/service.go:239-248 | without it the two agree on a check exactly when no result of it is newer by the clock than the last one |
| MainCandidate.RevokedForEver | internal/application/main_candidate.go:391-397 | a result appended to any check of a candidate's blocking gates revokes the candidate in every later state |
| MainCandidate.UnrelatedResultKeeps | internal/application/main_candidate.go:391-397 | a new result of any other check leaves the candidate accepted |
| PublicationRuns.OneJobOfEachKind | internal/application/native_delivery.go:178-222 | a delivery has at most one build job and at most one publication job |
| PublicationRuns.LinksForEver | internal/application/native_delivery.go:178-222 | once set, both links of a delivery never change |
| PublicationRuns.PublicationCarriesReceipt | internal/application/native_delivery.go:205-222 | a linked publication carries the receipt its delivery's own build was accepted with |
| PublicationRuns.ProvenanceHolds | internal/application/native_publication.go:117-156 | the build provenance of a queued publication never stops holding |
| PublicationRuns.OneWinner | internal/application/native_publication.go:184-342 | in a whole run at most one step wins a publication: a worker's report and an operator's reconciliation never both do |
| PublicationRuns.SucceededIffAdmitted | internal/application/native_publication.go:236-246 | a publication has succeeded if and only if exactly one artifact is admitted for it, and otherwise none is |
| PublicationRuns.AdmittedIsValid | internal/application/existing_artifact.go:11-54 | an admitted artifact passes the validation for exactly its job's product, component, repository, revision and image |
| PublicationRuns.AdmissionIsFinal | internal/application/existing_artifact.go:11-54 | it stays, alone for its job, and passes in every later state |
| PublicationRuns.DeliveryTakes | internal/application/native_delivery.go:224-242 | after a successful publication the delivery's next allowed turn takes that artifact with the receipt's digest |
| PublicationRuns.RunGrows | internal/application/worker_execution.go:255-280 | between any two states of a run no finished job, link or artifact is taken back |
| PublicationSafety.StepKeeps | internal/application/native_publication.go:184-342 | every step keeps the invariant that ties jobs, deliveries and artifacts together |
| PublicationStore.DeliveryStore.TickNativeDelivery | internal/application/native_delivery.go:138-259 | one turn changes jobs and links exactly as specified and keeps the invariant |
| PublicationStore.DeliveryStore.StopNativeDelivery | internal/application/native_delivery.go:260-292 | stopping interrupts both unfinished jobs and nothing else |
| PublicationStore.DeliveryStore.RecoverJob | internal/application/worker_execution.go:255-280 | lease or deadline expiry settles the job and its attempt as specified |
| PublicationStore.DeliveryStore.AdmitNative | internal/application/native_publication.go:236-246 | the artifact is appended unless one is already admitted for the job |
| PublicationStore.DeliveryStore.Report | internal/application/native_publication.go:157-235 | the final transaction of a worker's report, all refusals included |
| PublicationStore.DeliveryStore.Reconcile | internal/application/native_publication.go:247-342 | the final transaction of a reconciliation, all refusals included |
| PublicationStore.DeliveryStore.ValidatedExistingArtifact | internal/application/existing_artifact.go:11-54 | the search decides exactly whether the named artifact proves product, component, repository, revision and image |
| StatePage.StatePage | internal/application/state_page.go:126-163 | the page is the longest sound prefix within the limit whose every prefix fits with its continuation, or an explicit refusal |
| StatePage.OneAnswer | internal/application/state_page.go:126-163 | that requirement determines the answer |
| StatePage.PageWithinBudget | internal/application/state_page.go:139-158 | a page keeps the item limit and, as finally sent, the byte budget |
| StatePage.TraversalIsExact | internal/application/state_page.go:126-163 | over an unchanged store, following the cursors returns every wanted card exactly once in increasing order if and only if each fits a page alone; otherwise it ends in the explicit budget refusal |
| StatePage.TraversalTerminates | internal/application/state_page.go:157-161 | however far a client follows the cursors, finished or not, it gets at most one page more than there are cards |
| StatePage.TraversalCompletes | internal/application/state_page.go:126-163 | every traversal that has begun can be completed, so a complete one exists |
| StatePage.ReadStateMetadata | internal/persistence/state_metadata.go:157-184 | one walk with bounded insertion keeps exactly the smallest wanted identities in order |
| StatePage.GetState | internal/application/state_page.go:34-98 | limits and cursors of another scope are refused; the cursor given is accepted again |
| ModelCall.CalledOnce | internal/application/intelligence.go:436-474 | the model provider is called at most once per task, over all claims, crashes and stolen leases |
| ModelCall.ResultAnswersTheCall | internal/application/intelligence.go:487-506 | an accepted result is the answer to that one call |
| ModelCall.FinishedForEver | internal/application/intelligence.go:95-145 | a finished task never changes again, so late answers are dropped |
| ModelCall.LimitKeptIff | internal/application/intelligence.go:454-462 | a dispatch leaves its product within the limit for the last day if and only if, before it, counted requests plus late ones are below the limit plus idle attempts; some limit that lets it through is broken if and only if late requests are at least as many as idle attempts |
| ModelCall.Conserved | internal/application/intelligence.go:454-462 | dispatches of the last day plus idle attempts equal counted requests plus late dispatches |
| ModelCall.WithinDailyBudget | internal/application/intelligence.go:454-462 | at every dispatch of a run the product's dispatches of the last day are within the limit, up to those first claimed before that day |
| ModelCall.LimitCanBeExceeded | docs/INTELLIGENCE.md:54-58 | a run that sends two requests at once under a limit of one a day |
| ModelCallStore.TaskStore.Begin | internal/application/intelligence.go:441-468 | the intent is stored before the call, or the task finished without one; an earlier intent is never replayed |
| ModelCallStore.TaskStore.Settle | internal/application/intelligence.go:487-506 | an answer is accepted exactly under the same live lease |

## Left out

- Provider, registry and cluster adapters, HTTP, MCP, JSON, TOML, base64, login, encryption and authorization: their results are inputs of the steps.
- Field validation and comparisons of frozen configuration (recipes, connections, bindings, parent snapshots): one arbitrary yes-or-no input per step; so the theorems hold whatever those checks answer, but not what they check.
- Fingerprints and hashes: the hashed value itself is stored and compared.
- `DeployTx`, `VerifyTx` and `BeginReleaseTx` (activation, runtime verification and the start of an unlock) exist as transactions of the reservation model only, not as methods of `DevHoldStore.ControlStore`.
- Ordinary operations of a reserved environment appear in the reservation log without their own effects; the worker modules model those, and `ControlRuns` joins the two.
- The worker model treats activation children and other operation kinds as one unguarded kind; the activation protocol has its own modules.
- Directory creation and removal in the installer: `FileCommit` models files with their modes only.
- Timing of provider calls against lease expiry: exclusion of reservations is stated for stored intents, not for requests already sent.
- PublicationRuns.OneWinner: a job's capability is read in the same step that uses it; the source reads it once before the transaction, and it never changes.
- Immutable parent snapshots of a composition (`nativeParentHash`) are constants in the publication model.
- StatePage.PageWithinBudget: an empty last page is only its envelope, whose size the source does not check either.
- StatePage.ReadStateMetadata: the bounded walk of the local store; the SQL reader is represented by the same contract.
- ModelCall.WithinDailyBudget: weaker than the documented limit, which the code does not keep; `ModelCall.LimitKeptIff` has the exact condition.
- DevHoldRuns.ReleaseIsFinal: runs start without reservations; a restored backup starts with quarantined records, which the model represents only as the fixed flags and product set that the guards read.
- DevHoldRuns.ReleasedForEver: the same start, and the evidence inside a receipt is compared as a whole, not field by field.
- DevHoldStore.ControlStore.Reserve: eligibility of the candidate and permission of the targets are inputs.
- DevHoldStore.ControlStore.Release: the resolution of effects is an input.
- DevHoldStore.ControlStore.Capture: validation of collected evidence and its size bound are inputs.
- DevHoldStore.ControlStore.RequestRestoration: the history of effects and the size bound are inputs.
- DevHoldStore.ControlStore.Confirm: validation of the frozen evidence and the size bound are inputs.
- DevHoldStore.ControlStore.FinishRelease: validation of the evidence of the successors is an input.
- ControlRuns.StepIsWorkers: the joint run ties the reservation's check of effects to the workers; the same check in release, capture, activation and recovery stays an input.
- WorkerStore.OperationStore.Claim: every kind is claimed for 45 seconds; the longer leases of two kinds and the kinds a process without their provider skips are not modelled.
- WorkerStore.OperationStore.Save: comparisons of frozen configuration and the guards of activation children are one input.
- WorkerProposals.RepeatsIff: that another proposal can follow assumes that the provider still reports the planned base and the frozen configuration is unchanged, which are inputs.
- RestorationStore.ObservePlan: the last re-read of component targets, after all groups, is not modelled.
- RestorationStore.RecoveryRecord.LatchSend: recovery authority beyond the lease and the phase is proved in the reservation model only.
- RestorationStore.RecoveryRecord.SaveRestoration: validation of the plan and recovery authority beyond the lease and the phase are not part of it.
- RestorationStore.RecoveryRecord.Confirm: the write deadline of the confirmation and the authority of its actor are not part of it.
- RestorationStore.RecoveryRecord.MarkUnapproved: the merges are read in the transaction that sets the mark; the source reads them just before and checks that record and confirmation are unchanged.
- ActivationGroups.FreezeActivationGroups: matching of captured baselines and authority of the connections are not modelled.
- ActivationGroups.ValidateActivationGroups: the checks on the stored child operations are not modelled.
- FeaturePatch.PlanFeatureUpdate: membership of the feature, release status and target policy are the input `allowed` of `FeatureUpdate.UpdateStore.UpdateEnvironmentFeature`.
- Human-readable details, audit events, agent actions, feature graph, resume and context views, configuration export.
- Liveness against real providers; only bounded budgets and loop termination are proved.
