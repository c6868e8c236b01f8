# Walter and Cavman: a verified model

This Dafny project models the parts of Walter (a deterministic control plane for delegated work)
and Cavman (the platform around it) whose correctness depends on many operations, processes or
steps together, and proves what they promise over whole runs.

- **Control plane** (`RunModel`, `Lineage`, `PlanGraph`, `KernelOps`, `Replan`, `Kernel`, and the
  proofs `KernelInvariant`, `KernelSteps`, `KernelGates`, `ReplanSteps`, `KernelTheorems`,
  `KernelTermination`, `KernelProgress`, `KernelAuthority`, `ReplanTheorems`, `ProjectionTheorems`, `Walkthrough`,
  `ProjectionCases`). A run is a value; each of the 33 operations is a step `Run -> Result<Run>`, kept only if it returns. The recursive and looping parts
  (`_graph`, `_validate_accepted_artifact`, `_refresh`, `_replan_affected`, the passes of
  `apply_replan`, `complete`) are methods proved equal to the functions the steps use, and
  `Orchestration.Orchestrator` (`Passes`, `ReplanChecks`, `Orchestrator`) is the object that runs them.
  The invariant keeps the accepted list in an order in which every artifact's inputs come first;
  everything about lineage follows from that order.
- **Snapshot store** (`RunStore`, `StoreHistory`, `UsageAppend`). Processes load, mutate and save in
  any interleaving. The serialisation theorem holds for any operations; instantiated with the
  control plane's it says that every stored run is one the control plane reaches alone.
- **Job queue, project leases, limiter and paging** (`JobQueue`, `PlatformStore`, `RateLimiter`,
  `Paging`). Each write transaction is one atomic step on the tables, at a clock that never goes back.
- **Accept and integrate** (`Workspaces`, `Integration`, `IntegrationTheorems`, `IntegrationRecord`,
  `IntegrationDelivery`, `IntegrationKernel`, `IntegrationCases`, `Controller`). Git is a map from commit to
  parent and tree plus one branch, which all runs of a project share. Writes, freezes, submissions, reviews,
  failures, replans, other saves, completions, abandonments and calls cut short interleave freely with the
  holder of the integration lock. `IntegrationKernel` shows that each guard and effect this protocol gives
  to a run is the one the control plane gives it.
- **Snappy decoder** (`Snappy`, `SnappyLimits`). The decoder inverts a printer of the format, and is shown to
  keep to the format exactly on intact data.
- **Pre-call budget** (`Budget`). Check, call and record under concurrency, with exact bounds.

Identifiers and texts are integers: 0 is the empty string, negative numbers are other blank
strings, positive numbers are substantive ones. Digests, canonical scope JSON and fingerprints are
injective values. Drawn identifiers occur nowhere in the record they are drawn for. Money, clocks
and leases are real numbers.

## Findings

- `_replan_defects` says it checks the plan that will actually run, but its projection leaves retired
  tasks retired that the proposal revives (affected, not removed, retired today). It errs both ways,
  each shown at the end of a history: it lets through a proposal that application refuses
  (`ProjectionCases.ReopeningDefeatsProjection`) and refuses one whose plan is sound
  (`ProjectionCases.SoundProposalIsRefused`). `ProjectionTheorems.ProjectionVerdict` says exactly when the
  two checks agree, and `ProjectionTheorems.FullProjectionVerdict` that putting the revived tasks back to
  planned makes them agree always.
- An idle `resume` is committed but moves nothing, so only a resume that interrupts something counts
  towards termination (`KernelTermination.ResumeFalls`).
- The wait that `consume_rate` reports is the moment a slot is about to free: a retry exactly then is
  refused again, unless the wait was rounded up to one second (`RateLimiter.RetryAsTold`). A limit of zero
  or less is an index error (`RateLimiter.NoLimitNoGrant`).
- A commit can reach the branch and be named by no artifact, for ever, in exactly four ways: the call is cut
  short between moving the ref and recording the commit (the process dies, or reading or writing fails); a
  replan, which does not take the integration lock, retires the task before the record; the run was completed
  or abandoned before the record; or another process saves on the run between the record's load and its save,
  which `accept_task` does not try again (`IntegrationRecord.RecordedUnlessLost`, with a history for each in
  `IntegrationCases`). Calling `accept_and_integrate` again repairs none of them, although recording is meant
  to complete an interrupted integration (`IntegrationTheorems.OrphansAreStuck`); a call that was cut short
  after the commit and before the ref moved can be completed exactly as long as the branch has not moved on
  (`IntegrationTheorems.InterruptedCommitIsReused`).
- Delivery refuses a branch that only Cavman has moved when its last commit was lost in one of those ways, when
  the task of the last commit is retired later, and when the last commit is another run's: a completed run
  whose delivery passes stops passing as soon as another run of the project integrates something
  (`IntegrationDelivery.DeliveryVerdict`, `IntegrationCases.LateRetirementBlocksDelivery`,
  `IntegrationCases.OtherRunBlocksDelivery`).
- An accepted candidate without changes stays unintegrated (`IntegrationTheorems.ChangedCandidateIntegrates`),
  and so does one whose commit was lost. Either way the run cannot be completed while the task stays accepted
  (`IntegrationTheorems.StuckCodeBlocksCompletion`). The exception is a call to complete it that looked for
  unintegrated code before, which overtakes the record (`IntegrationCases.CompletionLosesACommit`).
- The Snappy decoder takes byte strings that are no blocks of the format: truncated literals, copies with
  missing offset bytes or offset zero, and a wrong length (`SnappyLimits.TakenOutsideTheFormat`);
  `SnappyLimits.DecodedIsFormatIffIntact` proves that there is no other way.

## Model

| member | source | states |
|---|---|---|
| `Lineage.LineageWalk.InputArtifactIds` | `src/walter/orchestration.py:220-240` | Returns exactly when every declared name resolves and every artifact among them is canonical by the unmemoised definition, with the resolved artifacts in declaration order without repeats, whatever earlier calls left in `checked`; reports a cycle only if a consumption cycle exists. |
| `Lineage.LineageWalk.ValidateAcceptedArtifact` | `src/walter/orchestration.py:242-260` | Terminates and accepts exactly the artifacts whose whole upstream closure is canonical, with any sound `checked` set shared between calls. |
| `Lineage.CanonicalUnfolds` | `src/walter/orchestration.py:242-260` | Canonicity is the fixed point: local acceptance, matching recorded inputs and canonical declared inputs. |
| `Lineage.CycleIsNotCanonical` | `src/walter/orchestration.py:245-246` | An artifact on a consumption cycle is canonical at no depth, so refusing a visited artifact is right. |
| `Lineage.InputListElements` | `src/walter/orchestration.py:224-240` | The resolved inputs as a list and as a set are the same artifacts, and the list has no repeats. |
| `Lineage.Ready` | `src/walter/orchestration.py:267-289` | `_readiness_blocker` returns None exactly when inputs are canonical, a developer sandbox has a workspace, no bare approval id is left, every gate is exactly approved and criteria exist. |
| `PlanGraph.Graph` | `src/walter/orchestration.py:191-218` | Returns normally exactly when the live tasks can be ranked below the live tasks that name them and no live task names a retired task, an unknown dependency or an artifact without a producer task; reports a cycle only if there is one. |
| `PlanGraph.GraphWalk.Visit` | `src/walter/orchestration.py:194-215` | One visit keeps the finishing order a ranking of what was visited, and fails only on a plan that has no ranking or names what it must not. |
| `PlanGraph.CycleHasNoRank` | `src/walter/orchestration.py:195-196` | A plan with a dependency cycle cannot be ranked. |
| `PlanGraph.RankedIffNoCycle` | `src/walter/orchestration.py:191-218` | A plan can be ranked exactly if it has no dependency cycle, so the check refuses for order exactly the cyclic plans. |
| `Passes.RefreshPass` | `src/walter/orchestration.py:302-320` | One in-place pass, in any task order and on any run, gives every task the status it would get if all were judged in the state before the pass. |
| `Passes.ReadinessUnmoved` | `src/walter/orchestration.py:302-320` | Readiness of a task does not depend on the statuses and blockers a refresh changes, which is why the order of the pass does not matter. |
| `Passes.AddPass` | `src/walter/orchestration.py:409-417` | The loop adds the tasks in order or refuses at the first one that is not fresh, collides or lacks an executable check. |
| `Passes.ResumePass` | `src/walter/orchestration.py:330-343` | Every delegated or running task fails with exactly one new timeout record of its own, and nothing else changes. |
| `Passes.DecidePass` | `src/walter/orchestration.py:891-898` | The loop over the tasks rewrites exactly the blockers of tasks bound to the decided approval. |
| `Passes.SupersedeOne` | `src/walter/orchestration.py:806-815` | The loop over a task's gates replaces exactly those on the prior approval, and blocks a READY task that had one. |
| `Passes.SupersedePass` | `src/walter/orchestration.py:805-815` | The loop over the tasks does so for every task. |
| `Passes.InvalidatePass` | `src/walter/orchestration.py:1225-1249` | Resetting the affected tasks one by one, in any order, supersedes exactly their artifacts, drops exactly those from the accepted list in order, and rebases budgets exactly of those not removed. |
| `Passes.SupersedeArtifacts` | `src/walter/orchestration.py:1228-1233` | Superseding one task's artifacts one at a time adds them to what is superseded and dropped so far. |
| `Passes.RewirePass` | `src/walter/orchestration.py:1250-1251` | Replaces the dependencies of exactly the tasks the proposal names. |
| `Passes.InsertPass` | `src/walter/orchestration.py:1252-1253` | Inserts the proposal's tasks in order. |
| `Replanning.AffectedIsLeast` | `src/walter/orchestration.py:1131-1150` | The affected set contains the seeds, is closed under consuming an affected task or one of its artifacts, and is contained in every such set. |
| `Replanning.AffectedRound` | `src/walter/orchestration.py:1142-1149` | One round, which tests a growing set against an artifact set fixed at its start, stays within the least closed set and adds nothing only if its start is closed. |
| `Replanning.ReplanAffected` | `src/walter/orchestration.py:1131-1150` | The loop terminates with exactly the least closed set. |
| `ReplanChecks.StructuralDefects` | `src/walter/orchestration.py:1083-1108` | The loops over references, clashes, additions and the budget list exactly the structural defects there are, field by field and task by task. |
| `ReplanChecks.DefectFreeIffSound` | `src/walter/orchestration.py:1083-1108` | There is no such defect exactly when the structural rules hold. |
| `Orchestration.ReplanDefects` | `src/walter/orchestration.py:1083-1128` | Lists exactly the structural defects or, if there is none, the unsound graph of the projection. |
| `Orchestration.ReplanPasses` | `src/walter/orchestration.py:1225-1253` | Invalidation, rewiring and insertion in sequence give the replanned plan. |
| `Orchestration.AddTasksOn` | `src/walter/orchestration.py:405-420` | Adds tasks as the transition system does: refused after execution began, on a bad task or a bad graph, refreshed otherwise. |
| `Orchestration.DelegateOn` | `src/walter/orchestration.py:474-495` | Delegation as the transition system has it, with the readiness walk run for real. |
| `Orchestration.StartOn` | `src/walter/orchestration.py:497-505` | Start as the transition system has it. |
| `Orchestration.SubmitOn` | `src/walter/orchestration.py:507-529` | Submission as the transition system has it; the artifact cites the inputs the walk resolved. |
| `Orchestration.TaskInputsMatch` | `src/walter/orchestration.py:262-265` | True exactly when the inputs are canonical and the candidate cites exactly them. |
| `Orchestration.AcceptCandidateOn` | `src/walter/orchestration.py:622-662` | The evidence gates, the readiness and provenance re-checks, the acceptance and the refresh, in order. |
| `Orchestration.AcceptOn` | `src/walter/orchestration.py:614-663` | Acceptance as the transition system has it. |
| `Orchestration.RequestOn` | `src/walter/orchestration.py:782-819` | An approval request, alone or in place of an earlier one, as the transition system has it. |
| `Orchestration.DecideOn` | `src/walter/orchestration.py:880-901` | A human decision as the transition system has it. |
| `Orchestration.AppliedOn` | `src/walter/orchestration.py:1225-1260` | The closure, the three passes, the real graph check, the new revision and the refresh, in order. |
| `Orchestration.ApplyOn` | `src/walter/orchestration.py:1205-1261` | Replan application as the transition system has it, from defects to final refresh. |
| `Orchestration.TasksSettled` | `src/walter/orchestration.py:1269-1273` | With one `checked` set shared by all tasks, the loop answers exactly whether every task that counts is ready and its last artifact canonical. |
| `Orchestration.EvidenceSettled` | `src/walter/orchestration.py:1289-1291` | With the same `checked` set, the loop answers exactly whether every cited artifact is canonical. |
| `Orchestration.CompleteOn` | `src/walter/orchestration.py:1263-1297` | Completion as the transition system has it, whose definition knows no `checked` set. |
| `Orchestration.Orchestrator.AddTasks` | `src/walter/orchestration.py:405-420` | Adding tasks on the object: the run becomes the step's result or, on a refusal, stays what it was, and the full invariant is kept. |
| `Orchestration.Orchestrator.Delegate` | `src/walter/orchestration.py:474-495` | Delegation on the object: the run becomes the step's result or, on a refusal, stays what it was, and the full invariant is kept. |
| `Orchestration.Orchestrator.Start` | `src/walter/orchestration.py:497-505` | Start on the object: the run becomes the step's result or, on a refusal, stays what it was, and the full invariant is kept. |
| `Orchestration.Orchestrator.Submit` | `src/walter/orchestration.py:507-529` | Submission on the object: the run becomes the step's result or, on a refusal, stays what it was, and the full invariant is kept. |
| `Orchestration.Orchestrator.Resume` | `src/walter/orchestration.py:330-345` | Resumption on the object: the run becomes the step's result or, on a refusal, stays what it was, and the full invariant is kept. |
| `Orchestration.Orchestrator.Accept` | `src/walter/orchestration.py:614-663` | Acceptance on the object: the run becomes the step's result or, on a refusal, stays what it was, and the full invariant is kept. |
| `Orchestration.Orchestrator.RequestApproval` | `src/walter/orchestration.py:782-819` | An approval request on the object: the run becomes the step's result or, on a refusal, stays what it was, and the full invariant is kept. |
| `Orchestration.Orchestrator.DecideApproval` | `src/walter/orchestration.py:880-901` | A human decision on the object: the run becomes the step's result or, on a refusal, stays what it was, and the full invariant is kept. |
| `Orchestration.Orchestrator.ApplyReplan` | `src/walter/orchestration.py:1205-1261` | Replan application on the object: the run becomes the step's result or, on a refusal, stays what it was, and the full invariant is kept. |
| `Orchestration.Orchestrator.Complete` | `src/walter/orchestration.py:1263-1297` | Completion on the object: the run becomes the step's result or, on a refusal, stays what it was, and the full invariant is kept. |
| `Orchestration.Orchestrator.Commit` | `src/walter/orchestration.py:156-164` | A mutation is kept only if its operation returned. |
| `KernelInvariant.CanonicalIsListed` | `src/walter/orchestration.py:242-260` | In a run whose accepted list is in an order with inputs first, canonical and listed as accepted are the same. |
| `KernelInvariant.ReadyIsOpen` | `src/walter/orchestration.py:267-286` | Under that order, readiness can be read off the accepted list. |
| `KernelInvariant.RefreshEstablishes` | `src/walter/orchestration.py:302-320` | A refresh leaves nothing to promote or demote. |
| `KernelSteps.DelegateKeeps` | `src/walter/orchestration.py:474-495` | Delegation keeps the full invariant: shape, ordered accepted list, approvals, budgets, readiness of work in flight, candidate provenance and evidence. |
| `KernelSteps.StartKeeps` | `src/walter/orchestration.py:497-505` | Start keeps the full invariant: shape, ordered accepted list, approvals, budgets, readiness of work in flight, candidate provenance and evidence. |
| `KernelSteps.SubmitKeeps` | `src/walter/orchestration.py:507-529` | Submission keeps the full invariant: shape, ordered accepted list, approvals, budgets, readiness of work in flight, candidate provenance and evidence. |
| `KernelSteps.ProvisionalKeeps` | `src/walter/orchestration.py:531-551` | A provisional result keeps the full invariant: shape, ordered accepted list, approvals, budgets, readiness of work in flight, candidate provenance and evidence. |
| `KernelSteps.FailKeeps` | `src/walter/orchestration.py:691-717` | Failure keeps the full invariant: shape, ordered accepted list, approvals, budgets, readiness of work in flight, candidate provenance and evidence. |
| `KernelSteps.ReplaceWorkspaceKeeps` | `src/walter/orchestration.py:446-468` | Workspace replacement keeps the full invariant: shape, ordered accepted list, approvals, budgets, readiness of work in flight, candidate provenance and evidence. |
| `KernelSteps.RecoverKeeps` | `src/walter/orchestration.py:719-780` | Recovery keeps the full invariant: shape, ordered accepted list, approvals, budgets, readiness of work in flight, candidate provenance and evidence. |
| `KernelSteps.CandidateCheckKeeps` | `src/walter/orchestration.py:575-588` | The start of review keeps the full invariant: shape, ordered accepted list, approvals, budgets, readiness of work in flight, candidate provenance and evidence. |
| `KernelSteps.ValidateKeeps` | `src/walter/orchestration.py:590-601` | Validation keeps the full invariant: shape, ordered accepted list, approvals, budgets, readiness of work in flight, candidate provenance and evidence. |
| `KernelSteps.ReviewKeeps` | `src/walter/orchestration.py:603-612` | Review keeps the full invariant: shape, ordered accepted list, approvals, budgets, readiness of work in flight, candidate provenance and evidence. |
| `KernelSteps.AcceptKeeps` | `src/walter/orchestration.py:614-663` | Acceptance keeps the full invariant: shape, ordered accepted list, approvals, budgets, readiness of work in flight, candidate provenance and evidence. |
| `KernelGates.ResumeKeeps` | `src/walter/orchestration.py:330-345` | Resumption keeps the full invariant: shape, ordered accepted list, approvals, budgets, readiness of work in flight, candidate provenance and evidence. |
| `KernelGates.RecordIntegrationKeeps` | `src/walter/orchestration.py:665-689` | Recording an integration keeps the full invariant: shape, ordered accepted list, approvals, budgets, readiness of work in flight, candidate provenance and evidence. |
| `KernelGates.RequestApprovalKeeps` | `src/walter/orchestration.py:782-819` | Requesting or superseding an approval keeps the full invariant: shape, ordered accepted list, approvals, budgets, readiness of work in flight, candidate provenance and evidence. |
| `KernelGates.DecideApprovalKeeps` | `src/walter/orchestration.py:880-901` | A human decision keeps the full invariant: shape, ordered accepted list, approvals, budgets, readiness of work in flight, candidate provenance and evidence. |
| `KernelGates.BindWorkspaceKeeps` | `src/walter/orchestration.py:433-444` | Workspace binding keeps the full invariant: shape, ordered accepted list, approvals, budgets, readiness of work in flight, candidate provenance and evidence. |
| `KernelGates.RecoverLegacyGateKeeps` | `src/walter/orchestration.py:821-855` | Legacy gate recovery keeps the full invariant: shape, ordered accepted list, approvals, budgets, readiness of work in flight, candidate provenance and evidence. |
| `KernelGates.GateTaskKeeps` | `src/walter/orchestration.py:857-878` | Gating a task keeps the full invariant: shape, ordered accepted list, approvals, budgets, readiness of work in flight, candidate provenance and evidence. |
| `KernelGates.ApplyEscalationKeeps` | `src/walter/orchestration.py:943-1002` | Capability escalation keeps the full invariant: shape, ordered accepted list, approvals, budgets, readiness of work in flight, candidate provenance and evidence. |
| `KernelGates.SetCapabilityKeeps` | `src/walter/orchestration.py:1049-1069` | Capability change keeps the full invariant: shape, ordered accepted list, approvals, budgets, readiness of work in flight, candidate provenance and evidence. |
| `KernelGates.RegisterInputKeeps` | `src/walter/orchestration.py:424-431` | Input registration keeps the full invariant: shape, ordered accepted list, approvals, budgets, readiness of work in flight, candidate provenance and evidence. |
| `KernelGates.AddTasksKeeps` | `src/walter/orchestration.py:405-420` | Adding tasks keeps the full invariant: shape, ordered accepted list, approvals, budgets, readiness of work in flight, candidate provenance and evidence. |
| `KernelGates.SideKeeps` | `src/walter/orchestration.py:1004-1047` | An operation on side tables only keeps the full invariant: shape, ordered accepted list, approvals, budgets, readiness of work in flight, candidate provenance and evidence. |
| `ReplanSteps.ApplyKeeps` | `src/walter/orchestration.py:1205-1261` | Replan application keeps the full invariant: shape, ordered accepted list, approvals, budgets, readiness of work in flight, candidate provenance and evidence. |
| `ReplanSteps.ReplannedOutcome` | `src/walter/orchestration.py:1225-1253` | What the mutations of a replan do to every task, every artifact and the accepted list. |
| `KernelTheorems.StepKeeps` | `src/walter/orchestration.py:156-164` | Every one of the 33 operations keeps the invariant. |
| `KernelTheorems.HistoryKeeps` | `src/walter/orchestration.py:156-164` | Every run any history reaches satisfies the invariant. |
| `KernelTheorems.ReachableReadiness` | `src/walter/orchestration.py:267-320` | In every reachable run, READY and in-flight tasks have no readiness blocker, no PLANNED or refreshably blocked task is ready, and a refresh changes nothing. |
| `KernelTheorems.StartIsNeverRefused` | `src/walter/orchestration.py:497-505` | The re-check in `start` never refuses: a delegated task of a reachable run always starts. |
| `KernelTheorems.InputRechecksNeverRefuse` | `src/walter/orchestration.py:646-648` | The input and provenance re-checks of `accept`, and of `submit` on a running task, are never what refuses. |
| `KernelTheorems.ReachableLedger` | `src/walter/orchestration.py:656-661` | In every reachable run the accepted list is duplicate-free, equals the artifacts marked accepted and the last artifacts of ACCEPTED tasks, and every entry is canonical. |
| `KernelTheorems.UpstreamClosure` | `src/walter/orchestration.py:220-265` | Following consumption from an accepted artifact only meets accepted artifacts whose recorded inputs are their declared inputs as resolved now. |
| `KernelTheorems.ReachableEvidence` | `src/walter/orchestration.py:622-645` | While an artifact is accepted it has a record for each required check and no failing one, a passing last review when one is due, evidence on its own digest, and judges who are neither the manager nor any worker of the task. |
| `KernelTheorems.StepKeepsArtifacts` | `src/walter/orchestration.py:590-612` | No operation rewrites what was submitted or a recorded integration, or drops a validation or review record. |
| `KernelTheorems.FailureIsFinal` | `src/walter/orchestration.py:629-641` | A candidate with one recorded failure is accepted in no continuation. |
| `KernelTheorems.LifetimeAttempts` | `src/walter/orchestration.py:1238-1248` | A task's lifetime attempts never exceed max_attempts * (plan revision + 1), nor the revision max_replans. |
| `KernelTermination.ProgressFalls` | `src/walter/orchestration.py:474-495` | Each delegate, start, submit, first validation or review, accept, fail, effective resume, recover or replan lowers (replans left, attempts left, sum of status ranks) lexicographically. |
| `KernelTermination.ResumeFalls` | `src/walter/orchestration.py:330-345` | Resume lowers the measure exactly when a task is delegated or running; otherwise it changes no task. |
| `KernelTermination.ProgressEnds` | `src/walter/orchestration.py:1106-1109` | No endless unbroken sequence of such steps starts in a reachable run. |
| `KernelProgress.ProgressIsFinite` | `src/walter/orchestration.py:405-420` | However a reachable run goes on, with all 33 operations interleaved, from some point on no step moves work any more. |
| `KernelProgress.OtherStepsAreCalm` | `src/walter/orchestration.py:433-444` | Every operation that is no progress, other than adding tasks, leaves the budgets alone and moves a task at most between planned, ready and blocked. |
| `KernelProgress.ReachableUntried` | `src/walter/orchestration.py:474-495` | In every reachable run a task that was never assigned is planned, ready, blocked or cancelled. |
| `ReplanTheorems.ReplanTouchesOnlyAffected` | `src/walter/orchestration.py:1225-1260` | Outside the affected closure a replan changes no artifact, and of a task at most status and blocker through the final refresh; the accepted list loses exactly the affected artifacts and keeps its order. |
| `ReplanTheorems.ImmaterialReplan` | `src/walter/orchestration.py:1152-1181` | A proposal with no materiality reason changes no packet, adds and drops no task, and leaves every accepted task and the accepted list as they were. |
| `ProjectionTheorems.SameGraphVerdict` | `src/walter/orchestration.py:191-218` | The graph check depends on names, retirement and artifact producers only. |
| `ProjectionTheorems.ProjectionVerdict` | `src/walter/orchestration.py:1112-1128` | For every proposal of sound structure: the projection passes exactly if the rest of the plan is sound and names no revived task, the applied plan exactly if the rest is sound and the revived tasks fit in; so the two checks agree exactly if, given a sound rest, the revived tasks fit in exactly when nothing names them. |
| `ProjectionTheorems.AcceptedProposalVerdict` | `src/walter/orchestration.py:1112-1128` | A proposal without defects passes the graph check of application if and only if its revived tasks name what they may and no cycle goes through one of them. |
| `ProjectionTheorems.RefusedProposalVerdict` | `src/walter/orchestration.py:1112-1128` | A proposal of sound structure that is refused for its projection would have led to a sound plan if and only if the rest is sound, the revived tasks fit in, and a task that was live all along names one. |
| `ProjectionTheorems.FullProjectionVerdict` | `src/walter/orchestration.py:1116-1123` | With the revived tasks put back to planned, the projection has the verdict of the applied plan for every proposal of sound structure. |
| `ProjectionCases.ReopeningDefeatsProjection` | `src/walter/orchestration.py:1116-1128` | A history at whose end a proposal to reopen a failed task has just been accepted, and whose application is refused for its graph because it revives a cancelled consumer that names a cancelled task. |
| `ProjectionCases.SoundProposalIsRefused` | `src/walter/orchestration.py:1116-1128` | A history at whose end a proposal is refused for its projection although the plan it leads to is sound. |
| `KernelAuthority.CapabilityNeedsApproval` | `src/walter/orchestration.py:957-983` | No operation gives an existing task another capability unless a human approved exactly this task, this capability and this workspace. |
| `KernelAuthority.StepKeepsDecisions` | `src/walter/orchestration.py:880-890` | No operation rewrites a human decision or changes the action or scope an approval was asked for. |
| `KernelAuthority.DecisionsAreFinal` | `src/walter/orchestration.py:903-910` | Over whole histories a decision and the scope it was made on never change. |
| `KernelAuthority.VersionsAreChained` | `src/walter/orchestration.py:520-523` | In every reachable run the artifacts of each task are versions 1, 2, ... and each names the one before it. |
| `KernelAuthority.RecordOnlyGrows` | `src/walter/orchestration.py:1239-1248` | Over whole histories, replans included, a task never loses artifacts, assignments, attempts or revisions, and no artifact's content, provenance, integration, validations or reviews are rewritten. |
| `KernelAuthority.ReadyMeansDelegatable` | `src/walter/orchestration.py:474-487` | In a reachable run a READY task can be delegated to anybody but the manager exactly while attempts remain; nothing else is ever in the way. |
| `KernelAuthority.RetryCanBeDelegated` | `src/walter/orchestration.py:739-748` | A scheduled retry can always be delegated at once. |
| `KernelAuthority.RecoveryRoute` | `src/walter/orchestration.py:719-780` | Where a failed task goes, as exact conditions on failure class and remaining budgets: retries and revisions only within them; the current artifact is rejected and one recovery is recorded. |
| `Walkthrough.ARunCompletes` | `src/walter/orchestration.py:1263-1297` | A history from an empty run to a completed one with one accepted artifact exists. |
| `RunStore.Store.Save` | `src/walter/store.py:382-410` | Writes row, version, cursor and numbered events, or on a missing event, a version mismatch or a foreign event leaves the store exactly as it was; the log's primary key is never violated. |
| `RunStore.Store.Load` | `src/walter/store.py:316-338` | Returns exactly the snapshots whose identity, version, cursor and event numbering check out; in a sound store every present run loads. |
| `RunStore.Store.VersionInfo` | `src/walter/store.py:306-314` | Version and largest event number, which is the length of the log. |
| `RunStore.SaveKeepsSound` | `src/walter/store.py:382-410` | A successful save keeps every run of the store loadable. |
| `RunStore.InsertLast` | `src/walter/store.py:401-405` | Inserting a higher number into the keyed log appends it. |
| `StoreHistory.StoreIsSerial` | `src/walter/store.py:382-410` | For any interleaving of processes that load, mutate and save: the stored body is the serial application of exactly the committed operations in commit order, the version counts them, the log is their events concatenated and numbered from 1, and every stored run loads. |
| `StoreHistory.SaveTold` | `src/walter/store.py:389-391` | A save that succeeds was made from the current snapshot and adds exactly one commit. |
| `StoreHistory.StaleAttemptIsRefused` | `src/walter/store.py:389-391` | An attempt from a snapshot that is not the newest changes nothing. |
| `StoreHistory.StepKeepsId` | `src/walter/orchestration.py:156-164` | No operation renames a run. |
| `StoreHistory.StoredRunsAreReachable` | `src/walter/orchestration.py:156-164` | So every stored run is one that the control plane reaches by itself, and satisfies its invariant, however processes interleave. |
| `UsageAppend.Attempt` | `src/walter/orchestration.py:143-152` | One attempt: it lands on the unchanged store, or reports the lost race and leaves the rivals' store. |
| `UsageAppend.RecordUsage` | `src/walter/orchestration.py:142-154` | Of five attempts the first one no rival overtakes appends the record to the newest body; if all are overtaken nothing is appended and the race is reported. |
| `UsageAppend.AppendLandsOnce` | `src/walter/orchestration.py:137-150` | When it lands, the body gains exactly one record on top of every rival's commits, and version and log count each commit once. |
| `PlatformStore.Platform.Enqueue` | `src/cavman/platform_store.py:451-469` | Queues a job unless the run has active work, which is then returned. Keeps the queue's invariant. |
| `PlatformStore.Platform.Claim` | `src/cavman/platform_store.py:507-528` | Leases the oldest queued job, by created_at then rowid, whose project has no running job and no current lease; None exactly when there is none. Keeps the queue's invariant. |
| `PlatformStore.Platform.Heartbeat` | `src/cavman/platform_store.py:530-539` | Extends exactly the lease this worker holds; tells it to go on exactly when it holds the lease and no cancellation is asked. Keeps the queue's invariant. |
| `PlatformStore.Platform.Finish` | `src/cavman/platform_store.py:541-547` | Ends the job only if this worker still holds it; an unknown status is refused. Keeps the queue's invariant. |
| `PlatformStore.Platform.ReapExpired` | `src/cavman/platform_store.py:485-505` | Fails exactly the expired jobs and queues recovery jobs as far as the limit and cancellation allow, which are what it returns. Keeps the queue's invariant. |
| `PlatformStore.Platform.RequestCancel` | `src/cavman/platform_store.py:549-561` | Cancels the run's queued job or flags its running one. Keeps the queue's invariant. |
| `PlatformStore.Platform.AcquireProject` | `src/cavman/platform_store.py:244-262` | Holds the project exactly when no job of it runs and no other holder's lease is current. Keeps the queue's invariant. |
| `PlatformStore.Platform.ReleaseProject` | `src/cavman/platform_store.py:264-266` | Drops the lease of this holder only. Keeps the queue's invariant. |
| `JobQueue.StepKeeps` | `src/cavman/platform_store.py:451-561` | Every transaction keeps: one active job per run, one running job per project, lease owner exactly on running jobs, no running job under a current project lease. |
| `JobQueue.ReapKeeps` | `src/cavman/platform_store.py:485-505` | So does the reaper, whose new jobs belong to different runs than all other active work. |
| `JobQueue.ClaimKeeps` | `src/cavman/platform_store.py:516-526` | So does a claim. |
| `JobQueue.AcquireKeeps` | `src/cavman/platform_store.py:252-261` | So does taking a project. |
| `JobQueue.Exclusion` | `src/cavman/platform_store.py:507-528` | For every interleaving at a clock that never goes back: at most one active job per run, at most one running job per project, never a running job with a current lease on its project. |
| `JobQueue.RowsAreKept` | `src/cavman/platform_store.py:541-547` | A row stays the same job for ever, and once terminal never changes. |
| `JobQueue.EndedJobsAreFenced` | `src/cavman/platform_store.py:530-547` | Once a job has ended, no worker can extend or finish it in any continuation. |
| `JobQueue.ReapEnds` | `src/cavman/platform_store.py:490-495` | The reaper ends every expired job, so its worker is fenced from then on. |
| `JobQueue.HeartbeatProtects` | `src/cavman/platform_store.py:530-539` | A job whose heartbeats come in time is left alone by the reaper. |
| `JobQueue.CancelledIsNotRecovered` | `src/cavman/platform_store.py:498` | Once a job that was asked to stop is reaped, its run has no active work. |
| `JobQueue.HeldProjectIsNotClaimed` | `src/cavman/platform_store.py:516-521` | A project taken for work outside a job has no claimable job until the lease runs out. |
| `JobQueue.ReaperRespectsLimit` | `src/cavman/platform_store.py:496-504` | The reaper never lowers a run's number of recovery jobs and never raises it above max_recoveries. |
| `RateLimiter.Limiter.Consume` | `src/cavman/platform_store.py:296-312` | The transaction as a function of the stored events, with a limit of zero or less running into the index error and rolling back. |
| `RateLimiter.AtMostLimitPerWindow` | `src/cavman/platform_store.py:296-312` | At a clock that never goes back, at most `limit` calls are granted in any closed interval of window length. |
| `RateLimiter.RefusedIffWindowFull` | `src/cavman/platform_store.py:306-310` | A call is refused exactly when the latest `limit` grants lie within one window before it, and is told how long until the oldest of them leaves, but at least one second. |
| `RateLimiter.RetryAfterWait` | `src/cavman/platform_store.py:309-311` | After a refusal with nothing granted since, a retry is granted exactly if it comes strictly after recent[len-limit] + window. |
| `RateLimiter.RetryAsTold` | `src/cavman/platform_store.py:310` | A retry exactly when the told wait is over is refused again exactly if the wait was not rounded up to a second; any later one is granted. |
| `RateLimiter.NoLimitNoGrant` | `src/cavman/platform_store.py:309-310` | With a limit of zero or less every call fails and nothing is stored. |
| `Paging.OrderedIsTop` | `src/cavman/platform_store.py:430-431` | Ordering with a limit yields exactly the newest rows, in order. |
| `Paging.PageSplits` | `src/cavman/api.py:190-195` | A page shows rows beyond its cursor in order; what it leaves out lies beyond the next cursor; without a next cursor it shows all the rest. |
| `Paging.WalkIsExact` | `src/cavman/platform_store.py:122-128` | Whatever rows appear or vanish between requests, a walk over all pages is strictly descending, shows no row twice, and shows each row present throughout exactly once. |
| `Workspaces.WorkspaceManager.IntegrationHead` | `src/walter/sandbox.py:604-616` | The branch head, starting the branch at the repository's HEAD if it does not exist. |
| `Workspaces.WorkspaceManager.CreateCandidate` | `src/walter/sandbox.py:591-600` | A writable worktree on the integration head. |
| `Workspaces.WorkspaceManager.WriteFile` | `src/walter/sandbox.py:1002-1021` | Writes only through a writable grant. |
| `Workspaces.WorkspaceManager.DeleteFile` | `src/walter/sandbox.py:1023-1037` | Deletes only through a writable grant. |
| `Workspaces.WorkspaceManager.ReviewerGrant` | `src/walter/sandbox.py:833-841` | A read-only copy of a grant for somebody other than the author. |
| `Workspaces.WorkspaceManager.Freeze` | `src/walter/sandbox.py:993-1000` | Closes every grant of the candidate for writing, in any order, and returns the fingerprint, or reports an unknown workspace. |
| `Workspaces.WorkspaceManager.CommitCandidate` | `src/walter/sandbox.py:631-668` | Commits the candidate on its base once, reuses that commit, or refuses a commit that does not match. |
| `Workspaces.WorkspaceManager.Integrate` | `src/walter/sandbox.py:670-689` | Moves the branch only from the candidate's own base, only for the expected fingerprint and only for a change. |
| `IntegrationTheorems.StepKeeps` | `src/walter/adapter.py:383-428` | Every step of every process keeps the branch a chain of accepted candidates, sealed workspaces sealed, and the lock holder's base current. |
| `Integration.CommitOutcome` | `src/walter/sandbox.py:631-687` | What happens up to the commit: stale on another base, no changes on an unchanged candidate, and otherwise one commit of exactly that candidate on the head, a new one or the one an interrupted attempt left. |
| `Integration.SwapSucceeds` | `src/walter/sandbox.py:687-688` | Under the lock the compare-and-swap of the ref never fails. |
| `Integration.AttemptOutcome` | `src/walter/sandbox.py:670-689` | What `integrate` does for the lock holder in one go: stale, no changes, or the branch ends at exactly that candidate. |
| `IntegrationTheorems.InterruptedCommitIsReused` | `src/walter/sandbox.py:631-668` | When a process dies between the commit and the ref update, a later attempt uses the very same commit and succeeds exactly if the branch still ends where it did; otherwise it is stale. |
| `IntegrationTheorems.BranchIsAcceptedChain` | `src/walter/sandbox.py:670-689` | In every interleaving, a process dying at any step included, the branch is a single-parent chain from the repository's HEAD, each later commit holding exactly the tree and base of some candidate the kernel accepted, and all of it ancestors of the head. |
| `IntegrationTheorems.RecordedCommitsAreOnBranch` | `src/cavman/delivery.py:106-109` | Every recorded integration is an ancestor of the head and holds the accepted tree, the second of the two things delivery checks. |
| `IntegrationTheorems.SubmittedCandidatesAreSealed` | `src/walter/adapter.py:1620-1627` | A submitted candidate's fingerprint never changes again. |
| `IntegrationTheorems.ChangedCandidateIntegrates` | `src/walter/adapter.py:405-428` | For an accepted candidate that is not integrated, `integrate` succeeds exactly when it changed something and the branch still ends at its base; unless an earlier call for it was cut short or went unrecorded, exactly when it changed something. The only refusals are those two, never a changed candidate or a bad commit. |
| `IntegrationRecord.RecordedUnlessLost` | `src/walter/adapter.py:395-398` | While nobody holds the lock, a commit of the branch after the start is named by an artifact if and only if none of four things happened while its record was pending: the call was cut short, its work had been retired since the lock was taken, its run had been completed or abandoned, or something else was saved on its run between the load and the save of the record. |
| `IntegrationRecord.RetirementIsSeen` | `src/walter/orchestration.py:680-683` | A work that is being integrated is found dead by the record exactly if it was retired since the lock was taken. |
| `IntegrationRecord.ClosedIsSeen` | `src/walter/orchestration.py:159-160` | A run is found terminal by the record exactly if a completion or an abandonment of it came before. |
| `IntegrationRecord.RaceIsSeen` | `src/walter/store.py:389-391` | The version check of the record's save fails exactly if something was saved on that run, by whomever, since the record was loaded. |
| `IntegrationRecord.LostIsNeverRecorded` | `src/walter/adapter.py:395-398` | A commit lost in any of the four ways stays on the branch, and no artifact names it in any continuation. |
| `IntegrationDelivery.MadeOnce` | `src/walter/sandbox.py:687-688` | Over a whole history the branch moves to a commit once, so for one work. |
| `IntegrationDelivery.DeadIffRetired` | `src/walter/orchestration.py:1226-1233` | An accepted work is dead exactly if it was retired at some earlier step. |
| `IntegrationDelivery.DeliveryVerdict` | `src/cavman/delivery.py:102-109` | With all accepted code of a run integrated, the delivery of that run passes if and only if the last commit of the project's branch was made for a work of this run, its record is neither still to come nor lost, and the work has not been retired since, whatever the other runs of the project do. |
| `IntegrationTheorems.OrphansAreStuck` | `src/walter/adapter.py:395-398` | A work whose commit went unrecorded is stuck for ever: in no continuation is it recorded, and every further attempt is refused as stale. |
| `IntegrationTheorems.StuckCodeBlocksCompletion` | `src/walter/adapter.py:1193-1204` | Accepted code that changed nothing, or whose base the branch has left behind, keeps its run from completing: in no continuation in which the work stays accepted is the run completed or a call to complete it past its check, unless one already was. |
| `IntegrationCases.CrashLosesACommit` | `src/walter/adapter.py:395-398` | A history in which the process dies right after the ref moved, and no artifact names the commit. |
| `IntegrationCases.RetirementLosesACommit` | `src/walter/adapter.py:833-833` | A history in which nobody dies, a replan retires the task while the lock is held, and no artifact names the commit. |
| `IntegrationCases.AbandonmentLosesACommit` | `src/walter/orchestration.py:156-164` | A history in which nobody dies and nothing is retired, the run is abandoned while the lock is held, and no artifact names the commit. |
| `IntegrationCases.RaceLosesACommit` | `src/walter/adapter.py:638-648` | A history in which nobody dies, nothing is retired and no run ends, another process saves on the run between the load and the save of the record, and no artifact names the commit. |
| `IntegrationCases.CompletionLosesACommit` | `src/walter/adapter.py:1193-1204` | A history in which a run passes the check for unintegrated code, then accepts a candidate and moves the branch, and is completed before the record: it ends completed with code on the branch that no artifact names. |
| `IntegrationCases.LateRetirementBlocksDelivery` | `src/cavman/delivery.py:104-105` | A history in which nobody dies and every commit is recorded, the task of the last one is retired later, and delivery refuses. |
| `IntegrationCases.OtherRunBlocksDelivery` | `src/cavman/api.py:721-733` | A history in which nobody dies, nothing is retired and every commit is recorded: a run is completed and its delivery passes, then another run of the project integrates its work, and the delivery of the first is refused while that of the second passes. |
| `IntegrationKernel.LoadRefines` | `src/walter/orchestration.py:665-689` | On any run the protocol's works mirror, the record is made exactly if the control plane's `record_integration` makes it, and refused in exactly its two cases: a terminal run, and an artifact that is no longer accepted. |
| `IntegrationKernel.SaveRefines` | `src/walter/orchestration.py:156-164` | If nothing was saved on the run since, the saved record is the control plane's result, and the works mirror it again. |
| `IntegrationKernel.StandingMoves` | `src/walter/orchestration.py:680-683` | In every committed step of the control plane from a run with its invariant, an artifact's integration is recorded only by `record_integration` for it, it becomes integrable only by `accept` of its task, and ceases to be so only by a replan. |
| `IntegrationKernel.StatusMoves` | `src/walter/orchestration.py:1263-1297` | Of all 33 operations only completing and abandoning change a run's status. |
| `IntegrationKernel.SaveIsRival` | `src/walter/orchestration.py:156-164` | Every other committed step of the control plane is, to the protocol, nothing but one more save on the run. |
| `IntegrationKernel.EndIsClosing` | `src/walter/orchestration.py:1263-1297` | A committed completion or abandonment is the protocol's closing of the run, and retires nothing. |
| `IntegrationKernel.SubmitAddsWork` | `src/walter/orchestration.py:507-529` | A committed submission with a fingerprint is the protocol's submission of a new live work. |
| `IntegrationKernel.ReplanRetires` | `src/walter/orchestration.py:1225-1249` | A committed replan is the retirement of exactly the works whose artifacts it supersedes. |
| `IntegrationKernel.AcceptRefines` | `src/walter/orchestration.py:614-663` | A committed acceptance of the candidate the lock holder has checked is the protocol's acceptance. |
| `Controller.DurableController.Begin` | `src/walter/adapter.py:405-422` | The checks before acceptance: an outdated base is failed, an accepted task goes on to integration. |
| `Controller.DurableController.Accept` | `src/walter/adapter.py:423-424` | Kernel acceptance, on an active run and an unchanged fingerprint, saves and moves the protocol on; any refusal releases the lock. |
| `Controller.DurableController.RecordIntegration` | `src/walter/orchestration.py:665-689` | The record lands exactly if the work is live, its run active and nothing was saved on the run in between; otherwise the works stay as they were and the work is an orphan. |
| `Controller.DurableController.MoveAndRecord` | `src/walter/adapter.py:393-399` | The branch moves by exactly the reported commit or not at all, and a moved commit is recorded exactly if the record lands. |
| `Controller.DurableController.Integrate` | `src/walter/adapter.py:387-399` | The integration attempt and its record: an integrated commit is in the artifact, an unrecorded one is on the branch and in no artifact, and a repeated call changes nothing. |
| `Controller.DurableController.AcceptAndIntegrate` | `src/walter/adapter.py:401-428` | The whole call equals the protocol's steps with nothing in between but, if asked for, one rival save before the record's, and keeps their invariant; without such a save the record is refused only for a task that was already accepted in a run that has ended. |
| `Snappy.SnappyDecompress` | `deploy/logs/loki-standin.py:10-42` | The loops compute the decoder function on every byte string, index errors included. |
| `Snappy.Turn` | `deploy/logs/loki-standin.py:17-41` | One turn of the main loop reads one element of what is left. |
| `Snappy.CopyBack` | `deploy/logs/loki-standin.py:40-41` | The copy loop, with a zero offset reading the first byte and an offset beyond the output failing. |
| `Snappy.RoundTrip` | `deploy/logs/loki-standin.py:10-42` | For every list of literals and copies that sections 1, 2.1 and 2.2 of the Snappy compressed format description allow, in every literal length form and all three copy forms, the decoder returns the expansion of what was printed, whatever length the preamble states. |
| `Snappy.ElementInverts` | `deploy/logs/loki-standin.py:18-41` | One printed element followed by anything is read back as exactly that element's effect. |
| `Snappy.CopyRepeats` | `deploy/logs/loki-standin.py:40-41` | Each byte of a copy equals the one `offset` before it, also where the copy overlaps what it writes. |
| `Snappy.CopyIsUnique` | `deploy/logs/loki-standin.py:40-41` | And a copy is the only extension with that property. |
| `Snappy.LittleInverts` | `deploy/logs/loki-standin.py:25` | Little-endian numbers of 1 to 4 bytes are read back as printed. |
| `Snappy.ZeroOffsetRepeatsFirst` | `deploy/logs/loki-standin.py:41` | Outside the format: an offset of zero is not refused but repeats the first byte of the output. |
| `SnappyLimits.ReadIsFormatIffIntact` | `deploy/logs/loki-standin.py:17-41` | An element the decoder reads is one the format describes, with exactly that effect, if and only if none of its bytes is missing and it is not a copy with offset zero. |
| `SnappyLimits.DecodedIsFormatIffIntact` | `deploy/logs/loki-standin.py:10-42` | The data are a block of the format meaning r if and only if the decoder returns r, every element it reads is intact, and the preamble states the length of r. |
| `SnappyLimits.TakenOutsideTheFormat` | `deploy/logs/loki-standin.py:26-41` | Four byte strings the decoder takes although they are no blocks: a truncated literal, a copy without its offset, a zero offset, a wrong length. |
| `Budget.UsageGate.Check` | `src/walter/usage_model.py:33-44` | The loop sums the recorded usage, and the call is let through exactly when no limit is passed. |
| `Budget.UsageGate.Record` | `src/walter/usage_model.py:64-76` | A row is appended whether the call returned or failed. |
| `Budget.RecordedCallsBounded` | `src/walter/usage.py:38-39` | With at most k calls in flight, at most max_calls + k - 1 calls are ever recorded, and none if the ceiling is not positive. |
| `Budget.CallBoundIsAttained` | `src/walter/usage.py:38-39` | For every ceiling and every k some run attains that bound. |
| `Budget.OnlyFlightsLand` | `src/walter/usage.py:49-50` | Once the spend ceiling is reached, records and calls in flight only trade places. |
| `Budget.LaterRecordsWereInFlight` | `src/walter/usage_model.py:33-44` | Every call recorded after the spend ceiling is reached was in flight at that moment. |
| `Budget.AtMostKMinusOneMore` | `src/walter/usage.py:49-50` | After the record that first reaches the ceiling at most k - 1 further ones land. |
| `Budget.SpendBounded` | `src/walter/usage.py:49-50` | If no call costs more than c, the spend stays below the ceiling plus k * c; a ceiling that is not positive lets nothing through. |

## Left out

- Orchestration.Orchestrator: has methods for the ten operations that walk the lineage or loop over tasks, and for those alone; the other 23 edit one task or one side table and are steps of the transition system only, so the order of their field updates is not modelled.
- Events, audit fields, timestamps, decisions, revision history, the worker's result and `plan.task_ids` are not part of a run: no operation modelled here reads them.
- Packets: objective, role and instructions are not modelled, nor are the model-written fields of proposals; only names, criteria and proposal structure matter to the kernel.
- Counters are natural numbers, so added tasks that arrive with negative `revisions` are not modelled.
- Added tasks: `_is_fresh_task` does not look at `revisions` or `assignment_history`, and neither does the model; workers in a history that was brought along count as workers of the task.
- Blockers: free text and the fixed reasons are different constructors, so a free text that spells a fixed reason is not modelled; the source puts no free text on a BLOCKED task.
- Errors carry a reason, not a text; where the source would raise one of two errors for the same input the model may name the other.
- `record_integration`: the commit's shape (40 or 64 hexadecimal digits) is reduced to being substantive.
- `record_integration` and `apply_capability_escalation`: their early returns write nothing; in the store's history they may appear as a commit that changes nothing.
- Pydantic validation is modelled only where it refuses an operation (blank reasons, evidence and principals).
- Store: snapshot pruning, schema migration, run deletion, listing and the PostgreSQL adapter.
- Store: a reader sees one consistent snapshot, so reads between the statements of a write are not modelled.
- JobQueue: message, detail and display timestamps, `latest_job`, `due`, retirement and erasure.
- RateLimiter.Limiter.Consume: rows are kept in insertion order, so a clock that goes back, where sorting on read would matter, is not modelled; nor is pruning of events a day old.
- Paging: rows are their keys; the owner filter is the choice of the table, and the base64 form of a cursor is the key itself.
- Workspaces.WorkspaceManager.WriteFile: the size limit, the safety-path policy and the worker check are not modelled; paths and contents are numbers.
- Workspaces.WorkspaceManager.DeleteFile: the safety-path policy and the worker check are not modelled.
- Workspaces: file modes, worktree verification and manifests.
- `carry_over` is not modelled: for the new candidate it is a series of edits, and the old one is closed by it.
- Controller.DurableController.Begin: whether the kernel takes the stale-base failure and its recovery is a parameter.
- Controller.DurableController.Accept: whether the kernel's own gates pass is a parameter; they are proved separately in the control plane.
- Controller.DurableController.AcceptAndIntegrate: so both answers are its parameters, and so is whether another process saves on the run before the record's save.
- Integration: a work may be retired at any moment and any run saved on at any moment, which allows more interleavings than the control plane does.
- Integration: one call at a time holds the lock, for all runs of the project, as the project leases arrange (`JobQueue.Exclusion`); a worker that goes on after it has lost its lease is not modelled.
- Integration: `FinishOp` is the moment at which no accepted code is unintegrated; in the workflow driver this moment follows the calls that integrate what was listed.
- IntegrationKernel: relates one run and its works; the steps of the other runs of the project leave both alone.
- Integration: `CommitOp` and `MoveOp` are the two halves of `integrate` around its commit; git's own steps inside each are one.
- Integration: other programs that move the branch; a call that is cut short frees the lock and loses nothing that was written.
- Budget: requested token counts are zero, as the model wrapper leaves them; token ceilings are checked but no overshoot bound is stated, because reported token counts may be negative.
- Model calls, prompts, tool wiring, HTTP routes, the web client, authentication, the sandbox's processes and the workflow driver.
