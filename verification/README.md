# Verification model of the agent team platform

A Dafny model of the parts of the platform that carry state, branching or loops, with proofs of what
they promise. `dafny verify dfyconfig.toml` checks the whole project. Databases, shell commands,
health checks, language models and file systems appear as parameters: tables and maps for what is
stored, and oracle values for what the outside answers.

| part | files | what is modelled |
|---|---|---|
| Approval gate | `GateModel`, `GateSafety`, `GateFailures`, `GateAudit`, `GatePasses`, `GatePassProperties`, `GatePassRefinement`, `GateOutcomes`, `InProcessGate` | proposals as a protocol of interleaved atomic steps with crashes; the expiry sweep and the startup reconciliation as loops of compare-and-sets under races; how each proposal ends; in-process routing; the dispatcher's guard; the audit |
| Task cascade | `CascadeModel`, `CascadeProgress`, `CascadeQuiescence`, `CascadeDelivery`, `TaskCycles`, `CascadeSafety`, `CascadeOrder`, `CascadeSerial`, `CascadeRecheck`, `CascadeScripts`, `CascadeOverlap`, `CascadeHandlers`, `CascadeRefinement`, `CascadeWitness` | completions waking auto-dispatch handlers that interleave step by step, a submission and the status write after it being two steps; what a run that rests has delivered; the search for dependency cycles; the two event handlers as they run on the store; the events and the sequential handler as steps and runs of the protocol |
| Deployment supervisor | `SupervisorModel`, `SupervisorRuns`, `SupervisorSafety`, `SupervisorOutcomes`, `SupervisorWitness`, `SupervisorStore` | one row and an append-only history per deployment, for every answer of commands, health checks and judge, with kills, restarts and polls abandoned by an exception; what the rows report in the end |
| Code writer | `CodeWriterModel`, `CodeWriterEmission`, `CodeWriterShrink`, `CodeWriterStore` | two-phase validate and write, merging of agents, from the emitted blocks to the files on disk, guarded paths, the line-drop rule, loop detection |
| Text | `Text`, `TextLaws`, `TagSearch`, `JsonRepair`, `ToolCalls`, `ToolCallFences`, `ToolCallPrinting`, `ToolCallRoundTrip`, `Slugs`, `SlugAgreement` | JSON repair, the tool-call parser, the two slug algorithms |
| Smaller algorithms | `Events`, `EventHandlers`, `Scaffold`, `ScaffoldReports`, `TaskRenderer`, `TaskSections`, `ReportingChains` | the event emitter with re-entrant handlers, resumable scaffolding, the finalized-task view, circular reporting chains |

`Common` holds what several modules share.

## Where the code and its description differ

The model follows the code. These are results of the proofs, each with the condition under which the
promise does hold.

- The lifecycle is described as pending, confirmed, and then executed or failed. A proposal goes from
  pending straight to failed if and only if a confirmation of it wins although its target is gone
  (`GateFailures.FailedUnconfirmedIffVanished`; the smallest such run is
  `GateFailures.VanishedTargetFails`). When every confirmation finds its target, every failed proposal
  was confirmed before (`GateFailures.FailedWasConfirmed`).
- Recovery strands nobody if and only if the confirmed rows fit into one scan of 10,000
  (`GatePassProperties.ReconcileStrandsNoneIffWithinLimit`); the audit is exact for the newest 100,000
  proposals (`GateAudit.CleanIffNoServiceConfirmInWindow`).
- An empty idempotency key is never looked up but is unique in the table, so the second gated call
  with it is refused (`InProcessGate.RefusedIffEmptyKeyAgain`).
- Two completions handled side by side can submit one task twice, both submissions finding it in the
  backlog, because neither the fresh re-check nor the status write covers the submission
  (`CascadeOverlap.SideBySideHandlersSubmitTwice`). A task is submitted twice if and only if some
  submission is made while its task is out of the backlog, or submitted by a handler that has not
  marked it yet, or left behind by a mark that failed (`CascadeSafety.TwiceIffNotClear`, and for one
  submission, from the state before it, `CascadeSafety.SecondIffNotClear`). Handlers that do not
  overlap never do it (`CascadeSerial.SerialRunDispatchesOnceAndInOrder`).
- A dependency of a submitted task has always been deployed at some time, but may not be deployed any
  more. It is not exactly if its deployed status was overwritten since
  (`CascadeSafety.DependenciesDeployFirst`), which only a further request of the same task or a late
  mark does (`CascadeSafety.OverwritingIff`). Both happen: `CascadeOverlap.SecondRequestUndoesADeploy`,
  `CascadeOverlap.LateMarkUndoesADeploy`. When no task is submitted twice and no request completes
  before its task is marked, every submission of every interleaving finds all dependencies deployed
  (`CascadeOrder.DependenciesDeployedAtEverySubmission`).
- A mark can come after the end of its request and overwrite it. A run that rests has delivered every listed
  task if and only if each mark of a listed task was followed by a completion of a request of that task, and
  nothing was stuck at the start (`CascadeDelivery.DeliveredIffMarksFollowedAndNothingStuck`). The marks are
  followed when no request ends before its task is marked (`CascadeDelivery.AllDeployedIffNothingWasStuck`); a
  run in which one ends earlier can leave a task in flight with nothing running
  (`CascadeWitness.LateMarkLosesWork`).
- The check for dependency cycles passes lists with dangling dependencies, which never become ready. It is exact
  for cycles (`TaskCycles.HasTaskCycle`), and a list that passes it is delivered in full when everything is
  finalized and every dependency resolves (`TaskCycles.CheckedListingIsDeployed`).
- A list version that is not archived is hidden from the cascade, however ready its tasks are, if and only if a
  newer version has a row that is not archived (`CascadeModel.HiddenIffNewer`), and while it is none of its
  tasks is submitted (`CascadeSafety.NewerListStopsOlderTasks`).
- `supervisor/README.md:48` says that any failure rolls back. A rollback is begun exactly when staging
  was reached and did not come up healthy (`SupervisorModel.RollbackIffStagingFails`), and a kill just
  before it leaves the row at rest in failed with nothing rolled back
  (`SupervisorModel.KilledBeforeRollback`).
- An exception inside a poll or the cleanup is swallowed. While the supervisor is idle a row is in flight if and
  only if an exception interrupted its deployment, or the cleanup before it came to the row, and the process was
  not restarted since (`SupervisorSafety.IdleMeansQuiet`; such a life is
  `SupervisorWitness.InterruptedDeploymentStaysInFlight`).
- The supervisor skips every commit whose request has a project, and `submit` fills in the unassigned
  project when the caller names none, so no submitted work is ever deployed by the poll
  (`SupervisorSafety.SubmittedWorkIsNeverDeployed`).
- Materialisation is all or nothing for one agent only: what earlier agents wrote stays when a later
  one is refused, and files under guarded prefixes are on disk although they are dropped from the
  returned map (`CodeWriterStore.CodeWriter.MaterializeFiles`).
- The bound on repeated shrinking needs at least one overwrite; for none it would say that a number is
  greater than itself (`CodeWriterModel.ShrinkBound`). Several blocks of one path in one answer are each
  judged against the disk before it, and count as one overwrite (`CodeWriterShrink.ShrinkBoundOverRuns`).
- The compose name and the repository slug of a valid name disagree exactly when a gap between two
  letters or digits consists only of characters that the slug drops, as in `a+b`
  (`SlugAgreement.NamesAgreeIffNoClosedGap`).
- Unsubscribing a request's queue without naming the request leaves it subscribed
  (`Events.LeavingWithoutTheScopeIsIgnored`).
- Scaffolding converges if and only if failed writes left nothing but the rendered content: a file cut
  short is kept by every later run (`Scaffold.ConvergesIffNoJunk`).
- The finalized-task view is described as moving tasks of a draft feature to the orphans; only the
  epic's status decides that (`TaskSections.OrphanIff`).

## Model

| member | source | states |
|---|---|---|
| GateModel.Transition | src/state/sqlite_store.py:4460-4482 | the compare-and-set on the status column: a lost race changes nothing, and no other row is touched |
| GateSafety.HandlersStartAtMostOnce | src/core/proposal_dispatcher.py:39-75 | over every interleaving with crashes, a handler is started at most once per proposal, only for a confirmed one, never for a pending, rejected or expired one; an executed proposal had its handler started |
| GateSafety.EveryMoveIsLegal | src/api/routes/proposals.py:147-225 | every recorded move is one the lifecycle allows for its mover (a decider fails a proposal exactly if its target is gone), starts where the moves before it led, and the status of every row is the replay of its moves |
| GateSafety.StatusOnlyClimbs | src/api/routes/proposals.py:66-91 | a status only climbs from pending over confirmed to a terminal one, and a row in a terminal status never changes |
| GateFailures.FailedUnconfirmedIffVanished | src/api/routes/proposals.py:151-174 | over every run a proposal is moved from pending to failed if and only if some confirmation of it won its compare-and-set although the target was gone |
| GateFailures.FailedWasConfirmed | src/api/routes/proposals.py:151-225 | when every confirmation of a run finds its target, every failed proposal was confirmed before, and none went from pending to failed |
| GateFailures.VanishedTargetFails | src/api/routes/proposals.py:151-174 | for every proposal and decider a concrete run that ends with it failed, never confirmed, and no handler started |
| GateAudit.SelfApprovedIds | src/core/gate_audit.py:41-44 | exactly the listed proposals in a run state that a service identity decided |
| GateAudit.ColumnsRevealServiceConfirm | src/core/gate_audit.py:38-44 | along a legal chain of moves the final status and decider show exactly whether a service identity won a confirmation |
| GateAudit.CleanIffNoServiceConfirmInWindow | src/core/gate_audit.py:29-70 | in every reachable state, clean if and only if no service identity won a confirmation of any of the newest proposals up to the scan limit |
| GateAudit.AlwaysCleanWithoutServiceDeciders | src/core/gate_audit.py:29-32 | when no decider is a service identity, every reachable state audits clean |
| GateAudit.CleanIsExactBelowTheLimit | src/core/gate_audit.py:29-33 | with no more proposals than the limit, clean means that no service identity ever confirmed anything |
| GatePasses.ProposalStore.TransitionProposal | src/state/sqlite_store.py:4460-4482 | true exactly if this call moved the row, and then only that row |
| GatePasses.ProposalStore.ListProposals | src/state/sqlite_store.py:4388-4424 | each listed proposal has the status, they stand in the order of the table without repetition, no row with the status is passed over, and the list ends early only at the limit |
| GatePasses.ProposalStore.SweepExpiredOnce | src/core/proposal_expiry.py:28-46 | the sweep over its snapshot, with other actors acting before every compare-and-set: final table and returned list as the specification of a pass gives them |
| GatePasses.ProposalStore.ReconcileConfirmedProposalsOnce | src/core/proposal_recovery.py:46-68 | the reconciliation pass over its snapshot under the same races |
| GatePassProperties.PassReturnsItsOwnMoves | src/core/proposal_expiry.py:37-46 | whatever other actors do meanwhile, the returned list is exactly the moves the pass itself made, in order |
| GatePassProperties.PassMovesOnlyTheSnapshot | src/core/proposal_expiry.py:33-36 | every returned proposal was in the snapshot and was not one to be left out, so it was due |
| GatePassProperties.PassLeavesNoneBehind | src/core/proposal_recovery.py:55-68 | after the pass every row it had to deal with has left its stage, by the pass or by whoever won |
| GatePassProperties.QuietPassFrame | src/core/proposal_recovery.py:18-21 | undisturbed, a pass keeps the table and changes only rows of its snapshot |
| GatePassProperties.ReconcileStrandsNoneIffWithinLimit | src/core/proposal_recovery.py:46-68 | nobody is left confirmed, and a second pass finds nothing, if and only if the confirmed rows fit into one scan |
| GatePassRefinement.PassIsARun | src/core/proposal_expiry.py:28-46 | a pass over any snapshot, with others acting before every compare-and-set, is a run of the protocol in which each of its own steps is enabled |
| GatePassRefinement.SweepKeepsTheGate | src/core/proposal_expiry.py:33-46 | so a sweep keeps the whole invariant of the gate |
| GatePassRefinement.ReconciliationKeepsTheGate | src/core/proposal_recovery.py:18-21 | and so does the startup reconciliation |
| GateOutcomes.EndsAsItWasGiven | src/api/routes/proposals.py:97-225 | over every run a proposal is rejected, expired, executed or failed exactly if some step of the run made it so: executed only by a handler that ended well, expired only when due and still pending |
| GateOutcomes.ExecutorsAre | src/api/routes/proposals.py:97-131 | only the confirmation that wins hands a row to an executor; who executes after each step |
| GateOutcomes.MayHappen | src/api/routes/proposals.py:97-225 | which steps are possible: decisions and sweeps while serving, reconciliation before, an executor going on or giving up, and a crash, at any time |
| GateOutcomes.ConfirmedIsCarriedOut | src/api/routes/proposals.py:97-131 | a confirmed proposal left to its executor has its handler started once and ends executed if the handler ends well and failed if not |
| GateOutcomes.SweepExpiresTheDue | src/core/proposal_expiry.py:28-46 | the sweep returns only proposals that were pending and due; each due one that it saw is not pending afterwards, whatever others do; alone it expires exactly those |
| GateOutcomes.ReconciliationFailsTheConfirmed | src/core/proposal_recovery.py:46-68 | the same for the reconciliation and confirmed proposals, which alone it fails |
| InProcessGate.InProcessDesk.SubmitGatedAction | src/core/in_process_gate.py:49-109 | an ungated call runs and leaves no proposal; a gated one runs nothing: it queues a new row, pending, with its own action and key, or finds the row with its key, or is refused by the table; only a queued row is announced |
| InProcessGate.InProcessDesk.GetProposalByIdempotencyKey | src/state/sqlite_store.py:4378-4386 | finds a proposal exactly if one has the key |
| InProcessGate.InProcessDesk.CreateProposal | src/state/sqlite_store.py:4333-4350 | adds the row exactly if its key is not taken |
| InProcessGate.SameKeySameProposal | src/core/in_process_gate.py:73-76 | after a gated call with a key every later one with that key, however many calls and changes of status lie between, finds the same proposal and adds nothing |
| InProcessGate.OnlyUngatedCallsRun | src/core/in_process_gate.py:68-71 | over every sequence of calls the actions run inline are exactly those of the calls that are not gated |
| InProcessGate.RefusedIffEmptyKeyAgain | src/core/in_process_gate.py:73-85 | a call is refused exactly when it is gated, has the empty key, and an earlier proposal has it |
| InProcessGate.ConfirmedIffSomebodyConfirmed | src/core/in_process_gate.py:63-85 | over every sequence of calls and changes of status, a proposal is confirmed exactly if somebody confirmed it after it was queued and nobody moved it on since, or it was confirmed to begin with |
| InProcessGate.QueuedWaitsForADecision | src/core/in_process_gate.py:63-85 | what a gated call queues keeps its action and key and is not confirmed, whatever happens, until somebody confirms that very proposal; so the dispatcher refuses it and starts nothing |
| InProcessGate.ActionRegistry.RunConfirmedProposal | src/core/proposal_dispatcher.py:27-75 | a handler is started exactly for a confirmed proposal whose action has one; guard error, missing handler, success and failure each exactly when they should be |
| CascadeModel.ReadyIn | src/state/sqlite_store.py:3621-3648 | exactly the listed tasks that are in the backlog, finalized, and whose every dependency is a deployed task of the listing |
| CascadeModel.LatestIsNewest | src/state/sqlite_store.py:2839-2880 | the listing's version is at least every version that has a row which is not archived, and is itself such a version unless there is none |
| CascadeModel.HiddenIffNewer | src/state/sqlite_store.py:2839-2880 | a version that is not archived is hidden from the listing exactly if a newer one has a row that is not archived |
| CascadeModel.NamesFrame | src/core/auto_dispatch.py:95-119 | a handler comes to hold a task only by reading it from the ready set |
| CascadeProgress.RunKeeps | src/core/auto_dispatch.py:48-142 | every interleaving, with statuses reported between a submission and its mark, refused submissions, failed marks and abandoned handlers, keeps: a ready task is held by a handler or about to be read by one, or known to be unattended |
| CascadeProgress.ReadyWorkIsNeverForgotten | src/core/auto_dispatch.py:95-142 | in every reachable state a ready task of a project with auto-dispatch on is held or about to be read by a handler, unless since the last completion there it was refused, its mark failed or its handler was abandoned |
| CascadeDelivery.DeliveredIffMarksFollowedAndNothingStuck | src/core/auto_dispatch.py:95-142 | for every run that has come to rest after a completion, undisturbed since and without failed or cancelled tasks: all listed tasks are deployed if and only if every mark of one was followed by a completion of a request of it, and no set of backlog tasks was stuck at the start |
| CascadeDelivery.AllDeployedIffNothingWasStuck | src/core/auto_dispatch.py:95-142 | when moreover no request ended before its task was marked, all listed tasks are deployed if and only if no set of backlog tasks was stuck at the start |
| CascadeDelivery.AcyclicListingIsDeployed | src/core/auto_dispatch.py:95-142 | an acyclic finalized listing is deployed in full by a run that comes to rest exactly if the run's marks were followed |
| TaskCycles.HasTaskCycle | src/state/sqlite_store.py:3683-3731 | the search ends; it finds a cycle exactly if the dependencies within the list version have one, and returns one; otherwise there is a rank that falls along every dependency |
| TaskCycles.CheckedListingIsDeployed | src/api/routes/projects.py:5688 | a finalized listing without dangling dependencies that passed the check is deployed in full by a run that comes to rest exactly if the run's marks were followed |
| TaskCycles.CycleIsStuck | src/state/sqlite_store.py:3683-3731 | a cycle of listed backlog tasks is a stuck set, so it is never delivered |
| CascadeWitness.CascadeComesToRest | src/core/auto_dispatch.py:95-142 | for every chain of tasks a concrete run in which two completions in a row each dispatch the next task, and which comes to rest with everything deployed |
| CascadeWitness.LateMarkLosesWork | src/core/auto_dispatch.py:127-142 | the condition on marks is needed: a run that rests, undisturbed, from a start without a stuck set, with one task in flight for good and the next never dispatched |
| CascadeSafety.DependenciesDeployFirst | src/core/auto_dispatch.py:95-142 | in every interleaving each dependency of a submitted task was deployed before the submission, and all are deployed at that moment if and only if none of them was overwritten since |
| CascadeSafety.OverwritingIff | src/core/project_task_status.py:61-79 | a deployed status is overwritten exactly by a report, an end or a reopening of a further request of the task, or by a mark that comes after the completion |
| CascadeOrder.DependenciesDeployedAtEverySubmission | src/core/auto_dispatch.py:95-142 | from a start with at most one live request of a task, and none open for a deployed one: in every interleaving that submits nothing twice and completes nothing before its mark, every submission finds all dependencies deployed at that moment |
| CascadeRecheck.SecondLook | src/core/auto_dispatch.py:108-119 | the second look keeps a task, in order, exactly if it is still in the backlog and finalized |
| CascadeRecheck.GoneIsNotSubmitted | src/core/auto_dispatch.py:108-119 | over every run a task that has left the backlog before any handler kept it at its second look is never submitted again, however many handlers have read it as ready |
| CascadeRecheck.ReadingMayFail | src/core/auto_dispatch.py:95-104 | a reading may raise in any handler that has not begun to submit; it ends, and the tasks of its project have nobody to look after them |
| CascadeRecheck.EndedMayBeReopened | src/core/orchestrator.py:348 | a request cancelled while it is being submitted is opened again, and its task dispatched |
| CascadeRecheck.RequestsMayReport | src/core/project_task_status.py:61-79 | an open request may report any stage, fail or be cancelled, and one that has not ended may complete, again and again |
| CascadeRecheck.HandlersMayGoOn | src/core/auto_dispatch.py:95-142 | a handler can always go on: read, look again, submit with or without success, mark with or without |
| CascadeSafety.EverDeployedHasACompletion | src/core/project_task_status.py:61-79 | a task counts as deployed only from the start or by a completion of a request of its own |
| CascadeSafety.NewerListStopsOlderTasks | src/state/sqlite_store.py:2839-2880 | a task of an older list version is never submitted as long as a newer version is there that is not archived |
| CascadeSafety.TwiceIffNotClear | src/core/auto_dispatch.py:108-142 | a task is submitted twice if and only if some submission is made while its task is out of the backlog, about to be marked by a handler, or left by a mark that failed |
| CascadeSafety.SecondIffNotClear | src/core/auto_dispatch.py:127-139 | before any one submission: it is a second one of its task if and only if one of those three holds of the state it is made in |
| CascadeSerial.SerialRunDispatchesOnceAndInOrder | src/core/events.py:175-181 | when the handlers of a project do not overlap and no mark fails, every submission finds its task in the backlog with all dependencies deployed at that moment, and no task is submitted twice, even when a completion is delivered again |
| CascadeOverlap.SideBySideHandlersSubmitTwice | src/core/auto_dispatch.py:108-142 | a concrete run in which two handlers of one project submit the same task, both while it is in the backlog |
| CascadeOverlap.SecondRequestUndoesADeploy | src/core/project_task_status.py:45-79 | a concrete run with a task submitted twice, after which a later one is submitted while its dependency is in progress again, although no request ended before its mark |
| CascadeOverlap.LateMarkUndoesADeploy | src/core/auto_dispatch.py:127-142 | a concrete run that submits nothing twice and yet submits a task whose dependency a late mark has just set back |
| CascadeHandlers.Board.GetDispatchableTasks | src/state/sqlite_store.py:3621-3648 | the loops compute the ready list, in listing order |
| CascadeHandlers.Board.IsBlocked | src/state/sqlite_store.py:3621-3648 | blocked exactly if some dependency is not a deployed task of the listing |
| CascadeHandlers.Board.StillWaiting | src/core/auto_dispatch.py:108-119 | keeps, in order, exactly the tasks still in the backlog and finalized |
| CascadeHandlers.Board.SetTaskStatus | src/state/sqlite_store.py:2942-2962 | one task's status is written, an unknown task changes nothing |
| CascadeHandlers.Board.TaskStatusHandler | src/core/project_task_status.py:45-79 | event by event: a completion writes deployed, a failure failed, a cancellation cancelled, each status of the table its stage, on the task of the request and nowhere else; other events and statuses change nothing |
| CascadeHandlers.Board.LegacyDispatch | src/core/auto_dispatch.py:121-142 | every task is submitted in order; those submitted and marked become dispatched and are reported with their requests, those whose submission or mark raised are reported as failures |
| CascadeHandlers.Board.AutoDispatchHandler | src/core/auto_dispatch.py:48-185 | ignored, proposed or dispatched exactly by event, the request's task and project, toggle, readable store, ready set and governed mode, with the resulting statuses |
| CascadeHandlers.Board.Emit | src/main.py:322-343 | status handler first, then dispatch: after a completion its task is deployed and exactly the tasks that this leaves unblocked, and whose submission and mark succeed, are dispatched, or all of them proposed in governed mode; no other status changes; the refused ones are still ready |
| CascadeHandlers.OnlyRefusedStaysReady | src/core/auto_dispatch.py:95-142 | dispatching the ready set leaves exactly the refused tasks ready |
| CascadeHandlers.SwappedHandlersForgetUnblockedWork | src/main.py:322-343 | with the handlers registered the other way round, a task that waited only for the completing one stays in the backlog and ready |
| CascadeRefinement.HandlerRunMatchesStore | src/core/auto_dispatch.py:95-142 | handling a completion without interleaving is a run of the protocol and ends in the statuses that the store methods compute |
| CascadeRefinement.EventIsAStep | src/core/project_task_status.py:23-79 | for every state of the protocol and every request step that an event reports, the handler leaves the statuses that the step leaves: a completion those of Complete, a failure or cancellation those of End, a stage those of Report |
| CascadeRefinement.CompletionRunMatchesEmit | src/main.py:322-343 | a completion and the handler it wakes, taken to its end, are a run of the protocol that ends in the statuses that emitting the completion leaves |
| SupervisorModel.DeployOutcome | supervisor/deploy_supervisor.py:548-724 | for all answers an uninterrupted deployment ends in completed, on_hold, failed or rolled_back, and exactly when in which |
| SupervisorModel.ScriptIsProper | supervisor/deploy_supervisor.py:276-280 | every row update of a deployment leaves the row in flight or at rest, finishing only at the end, and the end is at rest |
| SupervisorModel.RollbackIffStagingFails | supervisor/deploy_supervisor.py:650-673 | a rollback is begun exactly when staging was reached and failed, as the second last update |
| SupervisorModel.KilledBeforeRollback | supervisor/deploy_supervisor.py:654-667 | whenever a rollback is due there is a point where a kill leaves the row failed and no rollback begun |
| SupervisorRuns.InSteps | supervisor/deploy_supervisor.py:284-298 | exactly the rows in the given steps |
| SupervisorRuns.InStepsInOrder | supervisor/deploy_supervisor.py:197-222 | the rows keep their start order |
| SupervisorRuns.RunKeeps | supervisor/deploy_supervisor.py:1263-1325 | the invariant of every life of the supervisor: kills, restarts, abandoned polls and commits at any time included |
| SupervisorSafety.CleanupRecovers | supervisor/deploy_supervisor.py:284-311 | killed anywhere in any run, once cleanup has finished every row is committed or at rest |
| SupervisorSafety.IdleMeansQuiet | supervisor/deploy_supervisor.py:1301-1328 | over every life, while idle a row is in flight exactly if an exception interrupted its deployment, or the cleanup before it came to the row, with no restart since; every other row is committed or at rest |
| SupervisorWitness.InterruptedDeploymentStaysInFlight | supervisor/deploy_supervisor.py:1301-1328 | for all answers a concrete life in which an exception after the first write of a deployment leaves the row in flight while idle |
| SupervisorSafety.PollServesItsSnapshot | supervisor/deploy_supervisor.py:197-239 | a poll that runs to its end leaves every row of its snapshot at rest |
| SupervisorSafety.HistoryOnlyGrows | supervisor/deploy_supervisor.py:314-349 | over every run a history grows only by appending, the step is the replay of its last entry, and a completion time is there exactly in completed, rolled_back and skipped |
| SupervisorSafety.RestIsForever | supervisor/deploy_supervisor.py:197-239 | a row at rest that is not being deployed never changes again |
| SupervisorSafety.AbandonedStaysUntilRestart | supervisor/deploy_supervisor.py:1301-1328 | a row left in flight by an abandoned poll does not change before a restart |
| SupervisorSafety.ProjectCommitsAreNeverDeployed | supervisor/deploy_supervisor.py:197-239 | in no run is a commit of a project deployed: its history holds only its commit and the skip |
| SupervisorSafety.SubmittedWorkIsNeverDeployed | src/core/orchestrator.py:275-287 | when every commit comes from a submitted request, nothing is ever deployed by the poll |
| SupervisorSafety.WritesFollowTheScript | supervisor/deploy_supervisor.py:314-349 | after any number of its writes a deployment has left the row as that part of its script does |
| SupervisorOutcomes.ReportedIff | supervisor/deploy_supervisor.py:548-724 | in every life a row is completed exactly if a deployment of it was written to its end whose answers call it off after a good sync or bring staging up healthy with a healthy developer instance; rolled back exactly if its answers fail staging and carry every step of the rollback |
| SupervisorOutcomes.InterruptedRowFails | supervisor/deploy_supervisor.py:284-311 | a row that a dead process left in flight is failed by the next start that gets through its cleanup, with one error entry more and no completion time |
| SupervisorOutcomes.WalksThePipeline | supervisor/deploy_supervisor.py:548-724 | for all answers the updates of a deployment are the stages of the pipeline up to where it stops, without errors, and then what stopped it, with the rollback if staging was reached |
| SupervisorOutcomes.HistoryRecords | supervisor/deploy_supervisor.py:314-349 | the history records every update, one entry each, with its stage and whether it failed |
| SupervisorOutcomes.DeploymentEnds | supervisor/deploy_supervisor.py:548-724 | one deployment ends completed, or rolled back, exactly under those answers |
| SupervisorOutcomes.KillLeavesTheRows | supervisor/deploy_supervisor.py:1263-1325 | a kill is possible at any time and leaves every row as it is |
| SupervisorOutcomes.RaiseLeavesTheRows | supervisor/deploy_supervisor.py:1301-1328 | an exception in a poll or the cleanup leaves every row as it is, and the supervisor waits for the next poll |
| SupervisorOutcomes.CommitsMayBreak | src/core/code_writer.py:494-545 | what a commit records, and that it may break off after either of its two steps |
| SupervisorOutcomes.SubmittedProjectIs | src/core/orchestrator.py:275-287 | a request carries the project its caller names, and the unassigned one if none is named |
| SupervisorRuns.CommitIsOk | src/core/code_writer.py:494-545 | the rows that a commit creates, broken ones included, satisfy the replay rule |
| SupervisorStore.DeploySupervisor.UpdateStep | supervisor/deploy_supervisor.py:314-349 | one row gets the new step, one more history entry and a completion time where due; no other row changes |
| SupervisorStore.DeploySupervisor.MarkProjectCommitSkipped | supervisor/deploy_supervisor.py:242-265 | one row becomes skipped, with a completion time and one skip entry of the supervisor |
| SupervisorStore.DeploySupervisor.CleanupStaleInflightRows | supervisor/deploy_supervisor.py:284-311 | every row in flight is failed, with its old history and one error entry more and no completion time; every other row stays; the former are counted |
| SupervisorStore.DeploySupervisor.GetPendingDeployments | supervisor/deploy_supervisor.py:197-265 | exactly the committed rows without a project are returned, each once, in start order; those with one are skipped; nothing else changes |
| SupervisorStore.DeploySupervisor.Rollback | supervisor/deploy_supervisor.py:352-462 | the row ends rolled_back if every step succeeds and failed at the first that does not |
| SupervisorStore.DeploySupervisor.Deploy | supervisor/deploy_supervisor.py:548-724 | the row is rewritten by exactly the updates of the script for the given answers and ends completed, or rolled back, exactly when those answers say so; other rows are untouched |
| SupervisorStore.DeploySupervisor.PollOnce | supervisor/deploy_supervisor.py:1301-1309 | every committed row is skipped or deployed, every other row is untouched |
| SupervisorStore.CleanupThenPollRests | supervisor/deploy_supervisor.py:284-311 | a restart's cleanup and one poll bring every row to rest |
| CodeWriterModel.PercentRuleIsExact | src/core/code_writer.py:712-715 | the percentage test equals the integer test that at least half of twenty or more lines are gone |
| CodeWriterModel.ShrinkBound | src/core/code_writer.py:25-36 | k accepted overwrites of a file that is not exempt, each of at least twenty lines, leave more than a 2^k-th of the lines, for every k of one or more |
| CodeWriterShrink.ShrinkBoundOverRuns | src/core/code_writer.py:231-475 | the same over any number of materialisations of any outputs, an output with several blocks of the file counting once; k of none leaves the file as it was |
| CodeWriterShrink.LandedIsOverlay | src/core/code_writer.py:299-309 | the outputs that land one after the other leave the disk that one materialisation of them leaves |
| CodeWriterModel.MemoryIsHistory | src/core/code_writer.py:139-147 | for every named request the memory holds exactly the digest of the last drop since the request's last success |
| CodeWriterModel.LoopIffRepeated | src/core/code_writer.py:738-780 | with distinct digests for distinct texts, the loop error comes exactly when the last drop of that path since the last success had the same content |
| CodeWriterModel.SuccessForgetsOnlyItsOwn | src/core/code_writer.py:453-464 | a success clears the request's own entries and no other |
| CodeWriterModel.LastWriterWins | src/core/code_writer.py:659-668 | a path ends with the content of its last block, and only emitted paths occur |
| CodeWriterModel.ReturnedMapMirrorsDisk | src/core/code_writer.py:286-388 | the returned map holds exactly the emitted or listed-and-readable files outside unauthorised prefixes, each as it is on disk |
| CodeWriterModel.SupervisorIsGuarded | src/core/code_writer.py:109-121 | with the shipped lists a path under the supervisor is off limits unless the description names it |
| CodeWriterEmission.WrittenHasLast | src/core/code_writer.py:632-668 | over the raw blocks of one agent: a path has the trimmed content plus a newline of the last block whose trimmed path it is, which has text and stays inside the project; a path without such a block keeps what it had |
| CodeWriterEmission.LandedHaveLanded | src/core/code_writer.py:299-309 | the same over the raw blocks of the agents that land |
| CodeWriterEmission.NoneBadIff | src/core/code_writer.py:647-655 | no block is refused exactly if each emitted one may be written: nothing there, or readable there, no marker, and not half of twenty or more lines gone |
| CodeWriterEmission.RefusalNames | src/core/code_writer.py:696-807 | the error of a refused agent names a block that may not be written and says why |
| CodeWriterEmission.AnswerTells | src/core/code_writer.py:311-475 | the answer is the map of files exactly if something is to be returned and no check that the files call for fails; otherwise it is the first reason |
| CodeWriterEmission.BulletsName | src/core/code_writer.py:571-600 | a bullet names only a clean path inside the project, and names it bare or between backticks |
| CodeWriterStore.CodeWriter.ValidateSafeOverwrite | src/core/code_writer.py:670-807 | each verdict exactly when it should be: accepted, a fragment marker, dropped lines, the same drop again; and the history and memory after it |
| CodeWriterStore.CodeWriter.ParseAndWriteFiles | src/core/code_writer.py:602-668 | one agent's blocks are written if and only if every emitted block may be written; then each path has the trimmed text and a newline of the last block emitted for it and every other path what it had; if not, the disk stays and the error names a block that may not be written |
| CodeWriterStore.CodeWriter.ValidateBlocks | src/core/code_writer.py:626-657 | nothing is written before every block is judged; what is validated are exactly the emitted blocks, trimmed and with a newline; an error comes exactly if one may not be written, and names it |
| CodeWriterStore.CodeWriter.WriteAll | src/core/code_writer.py:659-668 | the disk and the returned map take the blocks in order |
| CodeWriterStore.CodeWriter.PickUp | src/core/code_writer.py:319-346 | a listed path joins exactly if it is not there yet and can be read from disk |
| CodeWriterStore.CodeWriter.Forget | src/core/code_writer.py:453-464 | the memory after a success is that of the history with the success |
| CodeWriterStore.CodeWriter.WriteOutputs | src/core/code_writer.py:299-309 | the agents before the first refused one have landed: each path has the text of the last block that they emitted for it, every other path what it had; the answer is the map of that text, or names a block of the refused agent |
| CodeWriterStore.CodeWriter.MaterializeFiles | src/core/code_writer.py:231-475 | what is on disk in the end, told from the emitted blocks; the answer: the emitted or listed-and-readable paths not under an unnamed guarded prefix, as they read on disk, or the exact reason why there is none; and the history |
| JsonRepair.AttemptJsonRepair | src/agents/tool_adapter.py:395-428 | the walk computes the repair that the automaton specifies |
| JsonRepair.RepairPreservesMeaning | src/agents/tool_adapter.py:390-394 | decoding the repaired text strictly gives what decoding the original leniently gives, failure included, for every text and every grammar over its strings and other characters |
| JsonRepair.RepairGrowsByRawCount | src/agents/tool_adapter.py:395-428 | the length grows by exactly the number of raw characters in strings, so at most doubles |
| JsonRepair.RepairIsIdempotent | src/agents/tool_adapter.py:395-428 | repairing again changes nothing, and nothing raw is left in a string outside an escape |
| JsonRepair.RepairIsIdentityIffNothingRaw | src/agents/tool_adapter.py:395-428 | the text is left alone exactly when nothing needs repair |
| JsonRepair.RawOnlyAfterBackslash | src/agents/tool_adapter.py:406-412 | a raw newline, return or tab in the result stands outside strings or directly after a backslash |
| ToolCalls.ParseToolCalls | src/agents/tool_adapter.py:209-256 | the calls of all blocks in order, the trimmed non-empty text outside joined by line ends, the warnings |
| ToolCalls.ParseOneBlock | src/agents/tool_adapter.py:258-346 | what one block adds: a call, with or without arguments, a call with a problem, or only a warning |
| ToolCalls.CutOut | src/agents/tool_adapter.py:242-250 | the pieces between the spans, from the start to the end of the text |
| ToolCalls.CutAndKeptAreTheText | src/agents/tool_adapter.py:229-250 | for every text the kept pieces and the cut blocks put back in turn are the cleaned text |
| ToolCallRoundTrip.RoundTrip | src/agents/tool_adapter.py:117-253 | printed prose and calls, with no arguments, tagged ones or a fenced object, parse back to the same calls in their places, with the value or the problem that the arguments load to, once repaired if need be, the trimmed non-empty prose joined by line ends, and exactly the warnings the calls ask for |
| ToolCallRoundTrip.LoadingCallsComeBack | src/agents/tool_adapter.py:284-346 | calls whose arguments are left out or load as objects come back in their places, without or with their values, and there is no warning |
| ToolCallRoundTrip.WrappedRoundTrip | src/agents/tool_adapter.py:107-117 | wrapped in a fence as a whole, with or without a language, whatever is printed parses back to the same |
| ToolCallRoundTrip.PrintedBlockReads | src/agents/tool_adapter.py:258-346 | a printed block is read as the call that was printed, or skipped with a warning if its name is empty |
| ToolCallRoundTrip.NamelessBlockIsSkipped | src/agents/tool_adapter.py:267-273 | a block without a name is skipped with a warning |
| ToolCallRoundTrip.PrintedIsCut | src/agents/tool_adapter.py:117-120 | with any text before it, a printed sequence is cut at exactly the printed blocks |
| ToolCallFences.FencedObjectIsFound | src/agents/tool_adapter.py:139-142 | after any text in which no fence begins and which does not end in a backtick, a fenced object without backticks is found again, whole |
| ToolCallFences.NoFenceNoObject | src/agents/tool_adapter.py:139-142 | where no fence begins no object is found |
| ToolCallFences.OuterFenceIsDropped | src/agents/tool_adapter.py:107-117 | of an answer wrapped as a whole the fence, its language and the white space at the edges are dropped and nothing else, whatever the answer is |
| Slugs.ProjectComposeProjectName | supervisor/deploy_supervisor.py:945-953 | replacing pairs of dashes until none is left ends, and equals collapsing the runs |
| Slugs.ReplacingShortens | supervisor/deploy_supervisor.py:951-952 | each round shortens a text that has a pair, so the loop ends |
| Slugs.CollapsedAndStripped | src/core/project_validation.py:200-201 | collapsing and stripping leave the words joined by single dashes |
| SlugAgreement.NamesAgreeIffNoClosedGap | supervisor/deploy_supervisor.py:945-953 | for every validated name with a slug the compose name is "project-" and the slug exactly when no gap between letters or digits consists of dropped characters only |
| SlugAgreement.PlainNamesAgree | supervisor/deploy_supervisor.py:945-953 | over letters, digits, dot, underscore and dash the names always agree |
| SlugAgreement.NamesCanDisagree | src/core/project_validation.py:185-200 | a valid name on which they disagree |
| SlugAgreement.LengthsDifferByGaps | src/core/project_validation.py:193-201 | the compose name is longer by exactly the number of closed gaps, and equal if there is none |
| SlugAgreement.RepoSlugIsSlug | src/core/project_validation.py:189-211 | every slug has 1 to 100 characters, letters, digits and single inner dashes only |
| SlugAgreement.RepoSlugIsIdempotent | src/core/project_validation.py:189-211 | slugging a slug changes nothing |
| SlugAgreement.NoSlugIffNothingToKeep | src/core/project_validation.py:202-206 | a name has no slug exactly when it has no letter and no digit |
| Slugs.ValidIff | src/core/project_validation.py:44-75 | a name is valid exactly if, trimmed, it has 1 to 80 characters, none a control character, white space or refused by file systems, and no dot at either end |
| TextLaws.TrimCuts | src/core/code_writer.py:633-634 | trimming cuts white space off at both ends, nothing else, and leaves none there |
| TextLaws.AfterLastIs | src/core/code_writer.py:724 | what follows the last separator, or everything if there is none |
| TextLaws.CountCharIs | src/core/code_writer.py:712-713 | how often a character occurs |
| TextLaws.ContainsIff | src/core/code_writer.py:640 | one text stands in another exactly if the other can be cut around it |
| Events.EventEmitter.EmitEvent | src/core/events.py:157-181 | delivery first, then every handler in order, those registered meanwhile included, whatever they do |
| Events.EventEmitter.Perform | src/core/events.py:135-181 | the history of any nesting of subscriptions, emissions and handlers |
| Events.EventEmitter.Subscribe | src/core/events.py:135-143 | a new queue, and the subscription noted |
| Events.EventEmitter.Unsubscribe | src/core/events.py:145-148 | the queue leaves the named request's set and the set of everyone |
| Events.EventEmitter.Send | src/core/events.py:157-173 | the event reaches the request's queues and those of everyone, each once |
| Events.EventEmitter.Register | src/core/events.py:150-155 | one more handler |
| Events.QueueIsTheFilteredLog | src/core/events.py:135-173 | in every history a queue holds exactly the events of its filter from its subscription to its effective unsubscription, in order, each once |
| Events.GlobalQueueIsAStretchOfTheLog | src/core/events.py:170-173 | a global queue is one stretch of the log, so two of them see shared events in the same order |
| Events.LeavingWithoutTheScopeIsIgnored | src/core/events.py:145-148 | unsubscribing without the request leaves a request's queue subscribed |
| EventHandlers.EachHandlerIsCalledOnce | src/core/events.py:175-181 | one emission calls every handler exactly once, in the order of registration, those registered while it goes on included, whatever the handlers do short of emitting the same event again |
| EventHandlers.HandlersGrowByRegistrations | src/core/events.py:150-155 | the number of handlers grows by exactly the registrations, wherever they are made |
| EventHandlers.HistoryIsWhatTheCallerDid | src/core/events.py:135-181 | when nothing reacts the history is what the caller did, in that order, with the calls of handlers in between |
| Scaffold.Scaffolder.Scaffold | src/core/project_scaffolder.py:87-191 | the root and the report of one run, wherever it stops |
| Scaffold.ReadAndSubstitute | src/core/project_scaffolder.py:229-248 | the rendered content of one file, bytes copied as they are |
| Scaffold.RenderTemplateFiles | src/core/project_scaffolder.py:193-218 | the template in memory, nothing for an unknown kind, an error if a file cannot be read |
| Scaffold.SuccessConverges | src/core/project_scaffolder.py:143-191 | any runs stopped anywhere and then a success leave the rendered template under what failed writes left, under what was there first |
| Scaffold.ConvergesIffNoJunk | src/core/project_scaffolder.py:143-191 | that is the template under what was there first exactly when no failed write left anything but the rendered content |
| Scaffold.WrittenAndSkipped | src/core/project_scaffolder.py:143-181 | a success writes exactly the missing files, skips exactly the others, and each file once |
| Scaffold.RunningAgainChangesNothing | src/core/project_scaffolder.py:150-155 | on a complete root a run writes nothing and changes nothing |
| Scaffold.EmptyRootIsRendered | src/core/project_scaffolder.py:193-218 | a success on an empty root ends equal to the template in memory |
| ScaffoldReports.ReplacesTheFirst | src/core/project_scaffolder.py:246 | the first place where a token stands is replaced, what is before stays, and the rest behind it is treated alike |
| ScaffoldReports.ReplacesNothingElse | src/core/project_scaffolder.py:246 | a text in which the token does not stand is left as it is |
| ScaffoldReports.SubstitutesInOrder | src/core/project_scaffolder.py:245-247 | tokens are substituted one after the other |
| ScaffoldReports.SubstitutesOne | src/core/project_scaffolder.py:245-247 | a token stands in double braces |
| ScaffoldReports.SubstitutesOnlyTokens | src/core/project_scaffolder.py:245-247 | text without double braces is copied |
| ScaffoldReports.StopsAtTheFirst | src/core/project_scaffolder.py:143-181 | a run stops at the first file that is missing and cannot be written, reports why, leaves there what the failed write left, and has skipped or written the files before it, in order |
| ScaffoldReports.SucceedsIffPassable | src/core/project_scaffolder.py:143-191 | a run succeeds exactly if every file of the template is there or can be written |
| TaskRenderer.RenderFinalizedTasks | src/core/project_workspace.py:665-874 | every finalized task stands in exactly one row, in the section where it belongs, no other task stands anywhere, and the rows are in reading order: epics, features and tasks by ordinal, then orphans, then legacy tasks |
| TaskRenderer.GroupTasks | src/core/project_workspace.py:718-736 | the first pass loses and invents no task, each stands under its feature and epic, and there is one group for each |
| TaskRenderer.EpicSections | src/core/project_workspace.py:784-834 | the sections and the late move to the orphans keep the tasks together, and the sections are in order |
| TaskRenderer.EpicRows | src/core/project_workspace.py:800-833 | one finalized epic's tables hold exactly its tasks, each under its feature, in order |
| TaskRenderer.MoveToOrphans | src/core/project_workspace.py:792-798 | the tasks of an epic that is not finalized join the orphans, none lost |
| TaskRenderer.TableRows | src/core/project_workspace.py:836-856 | one table: a row for each task, by ordinal |
| TaskSections.FinalizedOnlyIs | src/core/project_workspace.py:696-697 | a task survives the filter as often as it occurs if finalized, and not at all otherwise |
| TaskSections.OrphanIff | src/core/project_workspace.py:718-800 | a task is an orphan exactly when its feature is unknown or the feature's epic is not finalized |
| TaskSections.InFeatureIff | src/core/project_workspace.py:718-800 | a task stands under an epic and a feature exactly if it names the feature, the last row of the feature names the epic, and some row of the epic is finalized |
| TaskSections.LegacyIff | src/core/project_workspace.py:724-726 | a task is a legacy task exactly if it names no feature |
| TaskSections.FeatureKeyIs | src/core/project_workspace.py:796-800 | a feature is placed by its last finalized row, and last if it has none |
| TaskSections.EpicKeyIs | src/core/project_workspace.py:780-784 | and so is an epic |
| ReportingChains.WalkChain | src/config/validator.py:198-212 | an error exactly when the chain never ends, within at most one step more than there are agents |
| ReportingChains.ValidateCircularDelegation | src/config/validator.py:198-212 | errors for exactly the agents with endless chains, in order |
| ReportingChains.EndlessIffItComesBack | src/config/validator.py:201-210 | a chain is endless exactly when it comes back to somebody |
| ReportingChains.EndlessShowsSoon | src/config/validator.py:198-212 | whether a chain is endless shows within the number of agents plus one superiors |

## Left out

- CascadeProgress.ReadyWorkIsNeverForgotten: in the protocol the project of a request is that of its task, which is how the cascade submits; the handler on the store reads the request's own project. The store accesses inside one submission are one step: a submission that raises after its request was made is one accepted whose mark fails, and a request cancelled during it is one cancelled right after it and reopened.
- GatePasses.ProposalStore.SweepExpiredOnce: the endless sweeper loop around one sweep, and the events it emits.
- InProcessGate.SameKeySameProposal: concurrent calls with one key, whose lookup and creation are separate store accesses; the claim is for calls one after the other.
- CodeWriterModel.PercentRuleIsExact: the percentage is computed over real numbers, not in floating point.
- CodeWriterStore.CodeWriter.MaterializeFiles: the regular expression that finds blocks and bullets (they are given as lists), paths that name the same file differently, and writes that fail half way.
- SupervisorStore.DeploySupervisor.Deploy: the texts of details and logs; timestamps are reduced to whether a completion time is set. The method is split at the judge, the build and staging.
- ToolCalls.ParseToolCalls: only ASCII letters are case-folded and only ASCII white space is trimmed; the text of warnings and errors.
- JsonRepair.RepairPreservesMeaning: joining escaped surrogate pairs, which a decoder does on the code units that both sides agree on.
- SlugAgreement.NamesAgreeIffNoClosedGap: names are ASCII; letters and digits beyond it are kept by one algorithm and dropped by the other.
- Scaffold.Scaffolder.Scaffold: directories and file names that clash with them.
- TaskRenderer.RenderFinalizedTasks: headers, counts and wording; only rows are modelled.
- Events.EventEmitter.EmitEvent: timestamps and logging; a queue is unbounded, so delivering to it never waits.
- The orchestrator's workflow stages, agents and rework loop: they appear as requests that report stages and complete, fail or are cancelled at any time.
- Publishing to GitHub, lint, builds and tests: answers given from outside.
- Per-project deploys, health probes and the mirroring of the main branch: separate loops that do not write deployment rows.
- Tags, descriptions and other validators, the approval policy parser, and the model, budget and role tables: they would only add easy members.
- Manual dispatch, chat cancel and the confirmed dispatch handler: they do not follow the cascade's dependency rule.
