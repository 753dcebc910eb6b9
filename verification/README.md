# Verified model of the Launch OS runtime

This project models, in Dafny, the governed pipeline of Launch OS: durable jobs with leases,
agent runs on top of them, the decision and production workflows, the execution of an approved
action, and the observation of what it caused.  Every component is a step function over a store,
a run is any list of events, and the main results hold for every run.

| file | what it holds |
|---|---|
| `Basics`, `Sorting` | options, results, errors; a stable sort and why a sorted listing is canonical |
| `Jobs`, `JobRuns` | job rows and the operations on them in place; every interleaving of workers, crashes, recovery and clock |
| `AgentRuns` | agent runs coupled to their jobs |
| `Verdicts`, `RunTable`, `DecisionWorkflow` | verdict combination, retry slots, the decision workflow |
| `DecisionOutputs`, `DecisionPath` | what the agents said and where it leads; the way to a decision and its approval |
| `ProductionWorkflow`, `ProductionOutputs`, `ProductionPath` | the production workflow, what the agents said and where it leads, its way to READY |
| `Publishing`, `Provenance`, `Outcomes`, `ExecutionService` | proposal, approval, publish attempt, metric, result, learning: the store and its steps, its invariant, provenance and at-most-once, the operations in place |
| `Preflights`, `Admissions` | what lets a text out, what each request adds to the tables, spelled out field by field and over runs |
| `OneOutcome`, `Overlap` | when a decision has one publication, result and learning, exactly |
| `PublishPath`, `FullRuns` | the path that publishes; whole runs from the empty store |
| `Checkpoints`, `Observation`, `Reactions`, `Deadlines` | threshold contracts, polling and metrics, exact counts and how late a poll may come |
| `EndToEnd` | pipeline and feeds together: results classify the true counts |
| `Context` | the agent context and evidence reference validation |

How the source is read:

- Functions raise inside a transaction, so an error leaves the store unchanged.  An operation is one
  step, except where other transactions can commit in between (the isolation level is the database
  default and only written rows are locked): the worker's attempt spans claim, attempt and failure
  transactions; the publish attempt is preflight, send and commit; interpreting a metric is its
  reads and its commit.
- SHA-256 digests are the digested payload; `new_id` is an id that is not in use; times are
  integers; thresholds are reals.
- Secret detectors and text term lists are facts that come in as booleans.  What a provider
  answers is a parameter.
- A connector account is ready when its status, its authorization and its write capability say so; the
  registration sets the three together.  An approval row, once written, stays APPROVED.
- Step functions are specifications; beside each main one stands a statement in the tables' own fields
  (`Jobs.ClaimableIff`, `Preflights.PlanIff`, `DecisionOutputs.OutputsDetermineAdvance`,
  `Observation.Describes`, `Checkpoints.CoverageIff` and others), so that the run theorems rest on
  something a reader can check against the source.

What the proofs found out about the code (each is stated by a lemma below):

- `claim_job` takes an expired RUNNING row without looking at the attempt limit, and the mark
  functions do not recheck the owner.  Exclusion and final statuses hold when attempts end inside
  their lease; a claim starts a second live attempt exactly when the first outlived it, and a late
  failure record can turn SUCCEEDED into FAILED.  A terminal row is final exactly when no attempt of
  its job is live any more.
- A run whose last attempt crashes keeps its pending status for ever, and a workflow waiting for it
  never moves.
- In `governed_asset_outcome` unsupported claims and incomplete rights are looked at before a
  controller's BLOCK, so a BLOCK can come out as REVISE; the exact condition is proved.
- A first poll has no gap check.  An AVAILABLE count after it is right for every provider behaviour
  exactly when that poll comes within 24 hours of the publication (`Deadlines.FirstPollDeadline`).
- `last_successful_ingest_at` is read after the fetch.  A timely first poll counts right for every
  provider exactly when its duration and the provider's delay fit into the grace period together
  (`Deadlines.GraceDeadline`).
- The publication of a reaction is looked up once, at ingestion.  A reaction polled before its
  reference commits is missing for ever (`Deadlines.LateLinkMisses`).
- A checkpoint leaves the counts strictly between 0 and `weak_signal.value` unclassified; it is
  exhaustive exactly when `weak_signal.value <= 1`.
- A second worker that takes over an expired publish job sends the text again.
- The experiment's status is read at the preflight and at the start of an interpretation and not
  again at the commits.  A commit gives a decision a second publication exactly when its experiment
  is no longer DRAFT, and a second result exactly when it is COMPLETE or was set back; runs from the
  empty store show two publications, two contradicting results, and a COMPLETE experiment set back
  to RUNNING.
- A late refusal over a taken-over SUCCEEDED agent run leaves its output in place.
- A snapshot's evidence statuses replace those of the manifest, so a reference the context offers is
  refused exactly when the offered snapshot lists it with another status.

## Model

| member | source | states |
|---|---|---|
| `Jobs.JobTable.CreateJob` | src/launch_os_v11/runtime/repositories.py:23-73 | which error for unknown type, bad version, bad limit or secrets, in this order, and none otherwise; a taken key returns the job there is and changes nothing, otherwise exactly one row is added, given field by field; keys stay unique |
| `Jobs.JobTable.ClaimJob` | src/launch_os_v11/runtime/repositories.py:76-112 | claims exactly claimable rows and changes only that row; row facts kept |
| `Jobs.JobTable.MarkSucceeded` | src/launch_os_v11/runtime/repositories.py:115-121 | the new table; row facts kept |
| `Jobs.JobTable.MarkFailedOrRetrying` | src/launch_os_v11/runtime/repositories.py:124-147 | missing job is an error; RETRY_WAIT exactly when retry is asked for and attempts remain |
| `Jobs.JobTable.RecoverExpiredLeases` | src/launch_os_v11/runtime/repositories.py:177-196 | each row with an expired lease becomes RETRY_WAIT, available now, exactly when attempts remain, and FAILED, completed now, otherwise; it loses its lease and keeps key, attempts and limit; every other row is untouched; the count is right and none is left expired |
| `Jobs.ClaimableIff` | src/launch_os_v11/runtime/repositories.py:85-95 | a row can be claimed exactly when it waits and is due, or is RUNNING with a lease that ended |
| `Jobs.ClaimMeans` | src/launch_os_v11/runtime/repositories.py:96-112 | the claimed row field by field: RUNNING, one attempt more, the worker and the end of its lease; identity and limit kept |
| `Jobs.FailureMeans` | src/launch_os_v11/runtime/repositories.py:124-147 | the failed row field by field: RETRY_WAIT due after the backoff exactly when a retry is asked for and attempts remain, FAILED and completed now otherwise |
| `Jobs.Worker.ProcessJobId` | src/launch_os_v11/runtime/worker.py:63-105 | an undisturbed attempt ends SUCCEEDED, RETRY_WAIT or FAILED, each in exactly its case, and touches no other job |
| `JobRuns.EveryRunKeepsInv` | src/launch_os_v11/runtime/repositories.py:56-147 | in every run: waiting rows are below their limit, leases exist exactly on RUNNING rows, completion exactly on terminal rows, claims from waiting number at most max_attempts, tickets and outside calls are accounted for |
| `JobRuns.CallsBounded` | src/launch_os_v11/runtime/repositories.py:85-112 | outside calls per job never exceed the limit plus the number of taken-over leases |
| `JobRuns.LeaseExclusion` | src/launch_os_v11/runtime/worker.py:63-152 | when every attempt ends inside its lease, at most one attempt per job is live, for any workers and interleaving |
| `JobRuns.TerminalIsFinal` | src/launch_os_v11/runtime/repositories.py:115-147 | in such runs a SUCCEEDED or FAILED row never changes again |
| `JobRuns.LatenessBreaksExclusion` | src/launch_os_v11/runtime/repositories.py:85-112 | a claim makes a second live attempt if and only if the first has outlived its lease |
| `JobRuns.LateFailureOverwritesSuccess` | src/launch_os_v11/runtime/worker.py:122-152 | a concrete run in which a late failure record turns SUCCEEDED into FAILED beyond the attempt limit |
| `JobRuns.SettledJobStays` | src/launch_os_v11/runtime/repositories.py:85-95 | a terminal job nobody works on never changes in any continuation and never calls out, with no timing hypothesis |
| `JobRuns.FinalIffIdle` | src/launch_os_v11/runtime/repositories.py:115-147 | a SUCCEEDED or FAILED row is final in every continuation if and only if no attempt of its job is live |
| `JobRuns.BeginIff` | src/launch_os_v11/runtime/worker.py:63-76 | an attempt gets into its transaction exactly when its row is still RUNNING under its worker, and ends without a trace otherwise |
| `JobRuns.CommitEndsAttempt` | src/launch_os_v11/runtime/repositories.py:115-121 | a commit leaves its job SUCCEEDED now and its attempt over; no other row moves |
| `JobRuns.FailureEndsAttempt` | src/launch_os_v11/runtime/worker.py:122-152 | a failing attempt can no longer commit; its record writes the failed row and ends it |
| `JobRuns.CrashIsRetried` | src/launch_os_v11/runtime/repositories.py:177-196 | for every attempt that holds its lease below the limit: a crash and a recovery after the lease leave the job RETRY_WAIT, available then, and the next claim starts the next attempt |
| `AgentRuns.AgentRunRecord.Handle` | src/launch_os_v11/ai_runtime/job_handler.py:45-124 | a terminal run is left alone and the model not invoked; otherwise invoked exactly when the checks pass; raising leaves the row as it was |
| `AgentRuns.AgentRunRecord.RecordAttemptFailure` | src/launch_os_v11/ai_runtime/job_handler.py:126-165 | RETRY_WAIT or FAILED with the job's outcome, terminal runs kept |
| `AgentRuns.EveryRunKeepsInv` | src/launch_os_v11/ai_runtime/service.py:47-137 | every run has one job bound by its key with three attempts; SUCCEEDED runs have output, unfinished ones have none; RUNNING is never committed |
| `AgentRuns.JobsAndRunsStayCoupled` | src/launch_os_v11/ai_runtime/job_handler.py:62-165 | while no lease expires, committed job and run statuses match, output exists exactly for SUCCEEDED runs and a run's model is invoked at most three times |
| `AgentRuns.LateRefusalKeepsOutput` | src/launch_os_v11/ai_runtime/job_handler.py:231-250 | after a takeover, a late refusal changes the status of a SUCCEEDED run and leaves its output |
| `AgentRuns.NeverAfterTerminal` | src/launch_os_v11/ai_runtime/job_handler.py:62-82 | if no lease expired up to the terminal status, the run is never rewritten and its model never invoked again, whatever follows |
| `AgentRuns.CrashOrphansRun` | src/launch_os_v11/runtime/repositories.py:177-196 | for every such state: a crash in the last attempt and a recovery leave the job FAILED and the run pending for ever |
| `AgentRuns.FinishedRunIsLeftAlone` | src/launch_os_v11/ai_runtime/job_handler.py:62-82 | an attempt that finds its run finished invokes nothing, writes nothing to it and only commits its job |
| `AgentRuns.OpenRunGetsItsAnswer` | src/launch_os_v11/ai_runtime/job_handler.py:83-124 | an attempt of an open run finishes only after the model was invoked, and parsed output, refusal and invalid output give the run its status and output |
| `AgentRuns.FailureRecorded` | src/launch_os_v11/ai_runtime/job_handler.py:126-165 | a failure record marks an open run RETRY_WAIT or FAILED with its job and leaves a finished one alone |
| `Verdicts.GovernedIsWorstReading` | src/launch_os_v11/application/decision_governance.py:144-197 | the governed outcome is the severity maximum over reviews, waived ones left out and condition-free PASS_WITH_CONDITIONS read as PASS |
| `Verdicts.OrderDoesNotMatter` | src/launch_os_v11/application/decision_governance.py:144-197 | any order of the same reviews gives the same outcome |
| `Verdicts.GovernanceOnlySoftens` | src/launch_os_v11/application/decision_workflow.py:1451-1459 | never more severe than the base outcome; a BLOCK of any controller but anti-analysis-paralysis always blocks |
| `Verdicts.BaseIsWorstVerdict` | src/launch_os_v11/application/decision_workflow.py:1451-1459 | the base outcome is the severity maximum of the plain verdicts |
| `RunTable.EnsureRuns` | src/launch_os_v11/application/decision_workflow.py:576-740 | the loop over the slots starts runs exactly where none is pending or usable and reports whether all were ready |
| `RunTable.EnsureSlotKeeps` | src/launch_os_v11/application/decision_workflow.py:802-857 | at most one pending run and at most the limit of runs per slot |
| `RunTable.EnsureSlotExactly` | src/launch_os_v11/application/decision_workflow.py:1154-1206 | one pending run is added exactly when all runs of the slot were unusable and fewer than the limit; the limit error exactly at the limit; no change otherwise |
| `RunTable.TotalBounded` | src/launch_os_v11/application/decision_workflow.py:685-740 | rows never exceed the limit times the number of slots |
| `DecisionWorkflow.EveryRunKeepsInv` | src/launch_os_v11/application/decision_governance.py:64-141 | candidates numbered 1..n in step with the revision count, revisions within the maximum, at most one decision, only from the newest fully reviewed candidate with outcome PASS |
| `DecisionWorkflow.BoundedWork` | src/launch_os_v11/application/decision_workflow.py:576-740 | at most 9 + 24*(max+1) agent runs and 5 + 2*max committed status changes |
| `DecisionWorkflow.OutcomeIsFinal` | src/launch_os_v11/application/decision_governance.py:64-141 | BLOCKED, ESCALATED and a made decision are final |
| `DecisionWorkflow.PendingRunHolds` | src/launch_os_v11/application/decision_workflow.py:446-512 | a run that never ends holds its workflow in its status for ever |
| `DecisionWorkflow.Engine.AdvanceWorkflow` | src/launch_os_v11/application/decision_governance.py:56-141 | the transaction in place takes exactly the modelled step, with its error, and restores everything on one |
| `DecisionWorkflow.MaterializeReviews` | src/launch_os_v11/application/decision_workflow.py:1075-1151 | the loop yields seven reviews in order, each with the verdict, changes and conditions of its controller's newest usable output, or an error |
| `DecisionOutputs.EveryRunStores` | src/launch_os_v11/application/decision_workflow.py:1111-1146 | in every run, each review of a reviewed candidate has the verdict, required changes and missing-information flag of its controller's settled output, and its conditions are those changes exactly for PASS_WITH_CONDITIONS |
| `DecisionOutputs.EveryRunHolds` | src/launch_os_v11/application/decision_workflow.py:883-1327 | in every run, usable outputs fit their slots (a chief's names an action, a controller's is its own, cites evidence where evidence is judged, and is BLOCK of the constitution where the candidate speaks of human worth), and no agent runs ahead |
| `DecisionOutputs.AnswerIff` | src/launch_os_v11/application/decision_workflow.py:883-1327 | a pending run's answer is used exactly when its references were valid and it fits its slot; nothing else changes |
| `DecisionOutputs.EveryUsableWasAnswered` | src/launch_os_v11/application/decision_workflow.py:1519-1550 | in every run, each output in use is the answer of an earlier step whose references were valid |
| `DecisionOutputs.OutputsDetermineAdvance` | src/launch_os_v11/application/decision_governance.py:64-141 | in every run, the seven outputs alone determine the advance: the constitutional error, BLOCKED, a decision, ESCALATED or a new chief run, each in exactly its case, with the new rows |
| `DecisionOutputs.DecisionMeansClear` | src/launch_os_v11/application/decision_governance.py:110-141 | in every run, a decision implies that none of the seven outputs on its candidate is an unwaived BLOCK or REVISE or a PASS_WITH_CONDITIONS with something to change |
| `DecisionOutputs.BlockNeverDecides` | src/launch_os_v11/application/decision_governance.py:105-109 | in every run, a BLOCK output of any controller but anti-analysis-paralysis on the newest candidate leads to BLOCKED (or, on a missed human-worth mapping, to an error) and never to a decision |
| `DecisionPath.PassedCandidateIsDecided` | src/launch_os_v11/application/decision_governance.py:64-141 | from the start of the workflow, every candidate without a human-worth mapping that seven controllers let pass gets its decision and, by the owner, its approval |
| `DecisionPath.ApprovalIff` | src/launch_os_v11/application/decision_workflow.py:280-365 | an approval moves a workflow exactly when a decision awaits it; a repeat is accepted without effect, and decision, candidates and runs stay |
| `ProductionWorkflow.PassMeansCleared` | src/launch_os_v11/production/governance.py:19-117 | PASS if and only if all seven reviews are there with no BLOCK, REVISE or unmet condition, claims are supported and rights complete |
| `ProductionWorkflow.ControllerBlockSurvives` | src/launch_os_v11/production/governance.py:37-59 | when a controller's BLOCK stays a BLOCK, exactly |
| `ProductionWorkflow.ControllerBlockCanBecomeRevision` | src/launch_os_v11/production/governance.py:37-59 | seven BLOCKs with an unsupported claim come out as REVISE |
| `ProductionWorkflow.EveryRunKeepsInv` | src/launch_os_v11/application/production_workflow.py:78-197 | versions 1..n in step with the revision count; READY names the highest version, cleared, with rights tied to its writer run |
| `ProductionWorkflow.BoundedWork` | src/launch_os_v11/production/runs.py:28-155 | at most 1 + 8*(max+1) agent runs |
| `ProductionWorkflow.ReadyStays` | src/launch_os_v11/application/production_workflow.py:86-197 | a READY workflow and its versions never change in any continuation |
| `ProductionWorkflow.Engine.AdvanceWorkflow` | src/launch_os_v11/application/production_workflow.py:78-197 | the transaction in place takes exactly the modelled step, with its error |
| `ProductionWorkflow.EnsureControllerRuns` | src/launch_os_v11/production/runs.py:111-155 | the loop starts each controller run once |
| `ProductionWorkflow.MaterializeReviews` | src/launch_os_v11/production/materialization.py:232-302 | the loop yields seven reviews in order, each with the controller, verdict, changes and conditions of its run's output, or an error |
| `ProductionOutputs.EveryRunGrounded` | src/launch_os_v11/production/materialization.py:232-302 | in every run, each version is its writer's settled draft, and each of its reviews has the controller, verdict and required changes of its run's settled output, conditions exactly for PASS_WITH_CONDITIONS |
| `ProductionOutputs.ReadyMeansClear` | src/launch_os_v11/production/governance.py:19-117 | in every READY workflow of a run, none of the seven outputs on the final version is BLOCK, REVISE or a PASS_WITH_CONDITIONS with something to change |
| `ProductionOutputs.OutputsDetermineAdvance` | src/launch_os_v11/application/production_workflow.py:78-197 | in every run, the seven outputs and the draft determine the advance: BLOCKED, READY, ESCALATED or a new writer run, each in exactly its case |
| `ProductionOutputs.EvidenceIs` | src/launch_os_v11/production/governance.py:62-95 | in every run, the evidence a draft is held against is what there was at the start and what was recorded since |
| `ProductionPath.CleanDraftGetsReady` | src/launch_os_v11/application/production_workflow.py:86-197 | every clean draft with seven passing reviews becomes the final version of a READY workflow |
| `ExecutionService.EvaluateControllers` | src/launch_os_v11/execution/governance.py:34-237 | five reviews in order, each passing in exactly its case, and all of them exactly when rights, text, account, binding and experiment allow it |
| `ExecutionService.ReviewsAllPass` | src/launch_os_v11/execution/governance.py:51-52 | true exactly when every review passes |
| `ExecutionService.Service.CreateCheckpoint` | src/launch_os_v11/application/phase6.py:38-116 | the step of the model with its error; a different spec or one after a proposal is refused |
| `ExecutionService.Service.CreateActionProposal` | src/launch_os_v11/execution/service.py:174-319 | the step of the model with its error; the returned action is the one for this line's final version, account and chat, bound to its body |
| `ExecutionService.Service.ApproveActionProposal` | src/launch_os_v11/execution/service.py:322-449 | succeeds exactly for an owner, an eligible action and a current binding; approval, execution and job are reused if they exist |
| `ExecutionService.Service.HandlePublish` | src/launch_os_v11/execution/service.py:497-736 | an undisturbed attempt equals preflight, send and commit of the model; it calls out exactly when the execution is open, nothing stands against sending (field by field) and nothing is published, and then sends the action's text to its chat |
| `ExecutionService.Service.PreflightBlockReason` | src/launch_os_v11/execution/service.py:780-832 | the ordered checks give no reason exactly when nothing stands against sending; a reason given is true |
| `Preflights.PlanIff` | src/launch_os_v11/execution/service.py:528-576 | each of the four plans of a preflight with exactly its case, spelled out: all three switches off, action permitted and reviewed, approval of this version, text current, account ready with that chat, experiment absent or DRAFT |
| `Preflights.EverySendWasUnobstructed` | src/launch_os_v11/execution/service.py:780-832 | in every run, for everything ever sent all of that held at the preflight that planned it |
| `Preflights.EveryPublicationWasSent` | src/launch_os_v11/execution/service.py:604-700 | in every run, whatever is recorded as published was sent, with its action's text and chat |
| `Preflights.OutcomeRows` | src/launch_os_v11/execution/service.py:545-637 | what a halted, confirmed, ambiguous or rejected attempt writes, and that it touches no other execution |
| `Preflights.SwitchesBelongToOwners` | src/launch_os_v11/execution/service.py:452-494 | the global switches change exactly when an owner sets them |
| `Admissions.ProposalRow` | src/launch_os_v11/execution/service.py:174-319 | the proposal row field by field: final body, account's chat, APPROVAL_REQUIRED exactly when nothing is paused and the five reviews pass, BLOCKED otherwise |
| `Admissions.ProposalRefused` | src/launch_os_v11/execution/service.py:174-234 | no row without a finished line, a known account and a text free of secrets, or when there is one for the same version, account, chat and text |
| `Admissions.OneActionPerKey` | src/launch_os_v11/execution/service.py:216-232 | in every run, no two actions are for the same version, account, chat and text |
| `Admissions.ApprovableIff` | src/launch_os_v11/execution/service.py:353-364 | who may approve which action, field by field |
| `Admissions.ApprovalRows` | src/launch_os_v11/execution/service.py:365-442 | a first approval adds the approval, a pending execution and its one-attempt job, and nothing else |
| `Admissions.OwnersAre` | src/launch_os_v11/execution/service.py:909-918 | in every run, a user is an owner exactly when the last word about it made it one |
| `Admissions.CheckpointRow` | src/launch_os_v11/application/phase6.py:38-116 | a checkpoint is written exactly once, before any proposal, for an experiment on a known metric |
| `Admissions.MetricRow` | src/launch_os_v11/analytics/phase6.py:1106-1137 | a metric row is of a publication whose decision has an experiment and a checkpoint, and keeps that checkpoint |
| `Admissions.ResultRow` | src/launch_os_v11/analytics/phase6.py:682-716 | a committed result is appended and completes its decision's experiment and no other |
| `ExecutionService.Service.InterpretCheckpoint` | src/launch_os_v11/analytics/phase6.py:624-757 | an undisturbed interpretation equals read and commit of the model; one result per metric, only while RUNNING |
| `ExecutionService.Service.CreateGovernedLearning` | src/launch_os_v11/analytics/phase6.py:801-932 | the step of the model; one learning per result |
| `Publishing.StepPersists` | src/launch_os_v11/execution/service.py:174-736 | no step takes back a binding, contract, READY version or logged outcome |
| `Provenance.StepKeepsInv` | src/launch_os_v11/execution/service.py:174-736 | every step keeps all bindings, one approval and execution per action, plan soundness, the send count and the outcome rows |
| `Provenance.EveryRunKeepsInv` | src/launch_os_v11/execution/service.py:174-736 | the same in every run |
| `Outcomes.EverySentTextIsApproved` | src/launch_os_v11/execution/service.py:337-424 | every text ever sent is the body of the final, highest, cleared version of a READY workflow, the settled draft of its writer, on which each of the seven controllers' outputs is clear, with an approval bound to that version made in a step by a user who was an owner then |
| `Outcomes.ApprovalsAreByOwners` | src/launch_os_v11/execution/service.py:353-391 | for every approval, the step that added it was made by an owner |
| `Outcomes.ThresholdsFixed` | src/launch_os_v11/execution/governance.py:193-225 | the checkpoint of a published decision with an experiment is the one registered before its action was proposed |
| `Outcomes.CheckpointFrozen` | src/launch_os_v11/application/phase6.py:72-87 | from the first proposal on, a decision's checkpoint neither appears nor changes |
| `Outcomes.ResultsUsePreregisteredThresholds` | src/launch_os_v11/analytics/phase6.py:649-708 | every result classifies its reading by that preregistered checkpoint |
| `Outcomes.AtMostOnce` | src/launch_os_v11/execution/service.py:408-442 | sends per execution number at most one plus the takeovers of its job; one execution per action |
| `Outcomes.CommittedStatusIsFinal` | src/launch_os_v11/execution/service.py:528-532 | with no takeover so far, a committed execution status never changes and nothing more is sent, whatever follows |
| `Outcomes.TakeOverSendsAgain` | src/launch_os_v11/runtime/repositories.py:85-112 | a second worker sends the text again if and only if the first one's lease has expired |
| `OneOutcome.StepEffect` | src/launch_os_v11/execution/service.py:640-700 | in every step, a decision's publication and result counts grow exactly with its two commits, which also set its status |
| `OneOutcome.DraftIffUnpublished` | src/launch_os_v11/execution/service.py:680-686 | in every run an experiment is DRAFT if and only if nothing of its decision is published |
| `OneOutcome.SecondPublicationIff` | src/launch_os_v11/execution/service.py:819-828 | a commit gives a decision a second publication if and only if its experiment is no longer DRAFT |
| `OneOutcome.OnePublicationIff` | src/launch_os_v11/execution/service.py:819-828 | a run gives a decision at most one publication if and only if each was committed from DRAFT |
| `OneOutcome.UndecidedIff` | src/launch_os_v11/analytics/phase6.py:661-716 | in every run a decision has no result if and only if its experiment is not COMPLETE and never was set back |
| `OneOutcome.SecondResultIff` | src/launch_os_v11/analytics/phase6.py:661-716 | a commit gives a decision a second result if and only if its experiment is COMPLETE or was set back; with one publication, if and only if it is no longer RUNNING |
| `OneOutcome.OneResultIff` | src/launch_os_v11/analytics/phase6.py:638-716 | a run gives a decision at most one result if and only if each was committed before the experiment ever was COMPLETE |
| `OneOutcome.LearnedAtMostAsDecided` | src/launch_os_v11/analytics/phase6.py:815-836 | a decision never has more learnings than results |
| `Overlap.OneOutcomePerDecision` | src/launch_os_v11/analytics/phase6.py:638-716 | at most one publication, result and learning, and a status that never goes back, for a decision of which no two executions and no two metric versions are worked on together, whatever other decisions and takeovers do |
| `Overlap.OverlapDecidesTwice` | src/launch_os_v11/analytics/phase6.py:661-716 | two metric versions of one decision read together both commit a result |
| `OneOutcome.StatusMovesForward` | src/launch_os_v11/execution/service.py:680-686 | between any two positions of a run the experiment moves DRAFT, RUNNING, COMPLETE, unless a publication was committed after COMPLETE |
| `OneOutcome.NeverFallsIff` | src/launch_os_v11/execution/service.py:680-686 | the status never falls in a run if and only if no publication is committed after COMPLETE |
| `Overlap.OverlapPublishesTwice` | src/launch_os_v11/execution/service.py:819-828 | two executions of one decision in flight together both commit a publication |
| `FullRuns.ADraftIsPublished` | src/launch_os_v11/execution/service.py:497-736 | a run from the empty store for every publishable draft: produced, approved, sent once, published |
| `FullRuns.OverlappingSendsGiveTwoPublications` | src/launch_os_v11/execution/service.py:819-828 | a run from the empty store with two publications of one decision |
| `FullRuns.OverlappingReadsGiveTwoResults` | src/launch_os_v11/analytics/phase6.py:661-716 | a run from the empty store with one publication, two contradicting results and two learnings |
| `FullRuns.LateCommitReopens` | src/launch_os_v11/execution/service.py:680-686 | a run from the empty store in which a COMPLETE experiment is set back to RUNNING |
| `PublishPath.GovernedPathPublishes` | src/launch_os_v11/execution/service.py:174-736 | from any store that satisfies the invariant, with nothing in the way, proposing, approving and one attempt send the final body once and record it |
| `Checkpoints.AvailableMeans` | src/launch_os_v11/analytics/phase6.py:1140-1159 | AVAILABLE and COMPLETE go together, and exactly when coverage began in time, no gap, fresh, and ingested past window and grace |
| `Checkpoints.CoverageIff` | src/launch_os_v11/analytics/phase6.py:1140-1159 | UNAVAILABLE, PARTIAL, STALE and AVAILABLE, each with exactly the feed states that get it; the coverage goes with it |
| `Checkpoints.OfferableIff` | src/launch_os_v11/analytics/contracts.py:35-39 | windows from a second to a day and grace periods up to an hour are accepted, and no others |
| `Checkpoints.CountsSplit` | src/launch_os_v11/analytics/contracts.py:49-57 | FAILURE is exactly 0, an unclassified gap up to weak, then WEAK_SIGNAL, then SUCCESS |
| `Checkpoints.UnclassifiedIff` | src/launch_os_v11/analytics/phase6.py:665-681 | a reading is insufficient exactly when it is not both AVAILABLE and COMPLETE; a complete one without a value is the error |
| `Checkpoints.ClassIsMonotone` | src/launch_os_v11/analytics/phase6.py:665-681 | more reactions never give a worse class |
| `Checkpoints.ExhaustiveIff` | src/launch_os_v11/analytics/contracts.py:49-57 | every count is classified if and only if weak_signal.value <= 1 |
| `Checkpoints.CalculatedReadingFailsOnlyInGap` | src/launch_os_v11/analytics/phase6.py:465-469 | a calculated metric never is available without a value; interpretation fails exactly in the gap |
| `Observation.Feed.ConfigureObservation` | src/launch_os_v11/analytics/phase6.py:111-158 | refuses exactly unready or unsupported requests; reconfiguring keeps the state |
| `Observation.Feed.HandlePoll` | src/launch_os_v11/analytics/phase6.py:306-387 | commits exactly when configured, answered and every update parses, with the modelled new state; otherwise nothing changes |
| `Observation.IngestInOrder` | src/launch_os_v11/analytics/phase6.py:347-363 | the loop equals the fold of ingestion and keeps the maximum id |
| `Observation.BatchInOrder` | src/launch_os_v11/analytics/phase6.py:347-353 | updates are ingested in the order of their ids |
| `Observation.Feed.CalculateMetricVersion` | src/launch_os_v11/analytics/phase6.py:415-598 | stores or finds the version of the current derivation: the window from the publication on, for as long as its checkpoint says; exactly the reactions and reaction counts of the publication in it, each once, by time and id; the value their number, or none; chains kept |
| `Observation.DerivationDescribes` | src/launch_os_v11/analytics/phase6.py:437-485 | the derivation field by field, with the window in seconds from the publication and its events listed exactly |
| `Observation.EventIdsAre` | src/launch_os_v11/analytics/phase6.py:446-464 | the listed events are exactly those of the two reaction kinds, dated in the window, of the publication; no repeats; sorted by time, then id |
| `Observation.ResolvesIff` | src/launch_os_v11/analytics/phase6.py:1076-1103 | an update belongs to a publication exactly when its message has a reference linked to it and neither names another chat |
| `Observation.AddVersion` | src/launch_os_v11/analytics/phase6.py:486-565 | a new version exactly when the derivation changed, numbered and chained |
| `Observation.IngestAllSpec` | src/launch_os_v11/analytics/phase6.py:223-293 | a batch adds precisely its own updates, in any order and with repeats, each with its link at ingestion |
| `Observation.EveryRunKeepsInv` | src/launch_os_v11/analytics/phase6.py:980-1073 | one observation, event, evidence row and link per update id; metric versions 1..n, chained, neighbours different; feed state true to the polls |
| `Observation.GapFlagExact` | src/launch_os_v11/analytics/phase6.py:332-369 | gap_detected exactly when two neighbouring committed polls are more than 23 hours apart |
| `Observation.RolledBackGapReturns` | src/launch_os_v11/analytics/phase6.py:332-345 | a flag lost with a failing poll is raised by the next one that commits |
| `Observation.LastIdNeverFalls` | src/launch_os_v11/analytics/phase6.py:347-365 | last_update_id never falls in any continuation |
| `Reactions.NoLostReactions` | src/launch_os_v11/analytics/phase6.py:446-469 | in every faithful run an AVAILABLE metric stores the number of reactions and reaction counts that truly happened to the publication's message from its going out until the end of the window, each counted once |
| `Deadlines.FirstPollDeadline` | src/launch_os_v11/analytics/phase6.py:332-345 | the count after a first poll is right for every provider behaviour if and only if it comes within the retention time |
| `Deadlines.GraceDeadline` | src/launch_os_v11/analytics/phase6.py:366-366 | timely first polls count right for every provider if and only if poll duration and delay fit into the grace period (or none of them can be AVAILABLE) |
| `Deadlines.LinkIsFixedAtIngest` | src/launch_os_v11/analytics/phase6.py:986-1003 | the publication found for an event at ingestion never changes in any continuation |
| `Deadlines.LateLinkMisses` | src/launch_os_v11/analytics/phase6.py:1076-1103 | with all other assumptions met, a reaction polled before its reference commits is missing from the AVAILABLE count |
| `Reactions.BatchingIndependence` | src/launch_os_v11/analytics/phase6.py:347-369 | any split, order, repetition or interruption of the same updates gives the same rows, offset and counts |
| `EndToEnd.ResultsClassifyTrueReactions` | src/launch_os_v11/analytics/phase6.py:415-708 | in joint runs of pipeline and feeds, the result of a metric calculated as AVAILABLE in a faithful environment is the class of the true number of reactions by the checkpoint registered before the proposal |
| `EndToEnd.OtherResultsAreInsufficient` | src/launch_os_v11/analytics/phase6.py:665-681 | in joint runs, the result of a metric calculated as anything but AVAILABLE is INSUFFICIENT_DATA |
| `EndToEnd.EveryRunAgrees` | src/launch_os_v11/analytics/phase6.py:1106-1137 | in every joint run, the contract a feed measures a publication by is the checkpoint of its decision, and there is none exactly when the decision has none |
| `EndToEnd.PublicationsReachTheirFeed` | src/launch_os_v11/execution/service.py:640-700 | a commit that publishes gives the account's feed the time, and the message's reference with its chat and publication |
| `Context.RequestOrderDoesNotMatter` | src/launch_os_v11/ai_runtime/context.py:102-135 | the bundle is the same for any permutation of the requested references |
| `Context.ManifestMirrorsOffer` | src/launch_os_v11/application/decision_workflow.py:1553-1574 | the map rebuilt from the manifest equals the dictionary of the offered list |
| `Context.AcceptedExactly` | src/launch_os_v11/application/decision_workflow.py:1519-1550 | which references validation accepts for a built bundle, exactly |
| `Context.OfferedIsRefusedIff` | src/launch_os_v11/application/decision_workflow.py:1548-1550 | an offered reference is refused if and only if the offered snapshot lists it with another status |
| `Context.LoadsIff` | src/launch_os_v11/ai_runtime/context.py:102-116 | loading succeeds exactly when every reference is of an allowed type and leads to nothing out of scope, and gives what the references name, each as often as named |
| `Context.FirstFailureIsReported` | src/launch_os_v11/ai_runtime/context.py:105-116 | the first reference in order that cannot be loaded gives the error, which tells a forbidden type from a foreign row |
| `Context.BuildLoadsIff` | src/launch_os_v11/ai_runtime/context.py:92-116 | a bundle is refused for its references exactly when one of those wanted may not be asked for or leads out of scope |
| `Context.BundleHolds` | src/launch_os_v11/ai_runtime/context.py:117-135 | a built bundle holds the first items, by type, date and id, of what was wanted, all of them if they fit the budget, every required type, and no secret |
| `Context.BuildContext` | src/launch_os_v11/ai_runtime/context.py:92-168 | the loops equal the specified bundle or error |
| `Context.AllowedEvidenceRefs` | src/launch_os_v11/ai_runtime/context.py:585-601 | the loop equals the offered list |
| `Context.ValidateEvidenceRefs` | src/launch_os_v11/application/decision_workflow.py:1519-1536 | accepts exactly lists whose every reference is expected with its status; the first that is not gives the error |

## Left out

- Tenant scope checks, audit and outbox rows, `due_job_ids`, outbox delivery and the queue: the model lets any job id reach any worker at any time, which covers them.
- Eventual progress of workflow polling jobs: the proofs are about safety, bounds and the two paths that do get there.
- Overlap of transactions other than attempts and interpretations: claims, failure records, scheduler passes, proposals, approvals, polls of one account, metric calculation and learning are single steps; learnings and metric versions are kept apart by unique keys.
- Waiting for a written row: an attempt that finds its execution row written by another one waits for it in the database; here it may go on, which allows more interleavings.
- Response limits of the provider: a poll is assumed to get everything retained from the offset on.
- `approve_action` and the other creators in `commands.py`, which insert rows outside the governed path.
- Secret patterns, text term lists and rights facts are inputs, and so is the decision binding that `_assert_decision_binding` checks.
- Contents of specialist contributions, briefs and strategies; only that a run's output can be materialized.
- Agent registry, model routing, prompts, HTTP, Redis, settings, migrations: no logic of their own here.
- `domain/epistemic.py` and the approval preflight table: small finite tables.
- Successor decisions from learnings and intent registration: plain inserts guarded by the checks modelled for checkpoints.
- Jobs.Worker.ProcessJobId: states an undisturbed attempt only; interleavings are in JobRuns.
- ExecutionService.Service.HandlePublish: states an undisturbed attempt only; interleavings are in Outcomes, OneOutcome and Overlap.
- ExecutionService.Service.InterpretCheckpoint: states an undisturbed interpretation only; interleavings are in OneOutcome and Overlap.
- Reactions.NoLostReactions: assumes that polls do not overlap, take at most half an hour, and that reaction kinds stay allowed.
