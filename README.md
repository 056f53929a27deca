# vibe-kanban task workflow, execution chains and agent commands — a Dafny model

This project models the core of vibe-kanban's task service and the pieces
around it:

- the **task-status workflow**: which status changes are allowed, given a
  project's workflow settings (human review, a manual exit from Testing);
- the service operations that move a task through that workflow: complete
  testing, approve or reject a human review, and handle an AI review result,
  including the feedback subtasks it creates;
- the **execution chain**: how the setup, coding-agent and cleanup actions of
  an attempt are linked through `next_action`, with the run reason each later
  step gets and the rule that decides when a finished process finalizes its
  task;
- starting an execution, finalizing a task, and the start-up clean-up of
  orphaned processes;
- the conflict-resolution check, in the service and as the integration tests
  simulate it;
- the project routes that patch a workflow configuration and link a project
  to a remote project;
- how a custom agent assembles its command line from its base agent;
- the version-9 configuration: its defaults and its migration from version 8.

The Dafny modules follow the source files:

| module | file | source |
|---|---|---|
| `Wrappers` | wrappers.dfy | `Option` and `Result` |
| `ConfigV9` | config_v9.dfy | crates/services/src/services/config/versions/v9.rs |
| `StatusTransition` | status_transition.dfy | `validate_status_transition` in container.rs |
| `ExecutionChain` | execution_chain.dfy | chain building, `should_finalize`, `try_start_next_action` and `check_conflicts_resolved` in container.rs |
| `Container` | container.dfy | the state-changing operations of the task service in container.rs |
| `ProjectRoutes` | project_routes.dfy | crates/server/src/routes/projects.rs |
| `CustomAgentCommand` | custom_agent.dfy | crates/executors/src/executors/custom_agent.rs |
| `ConflictResolutionSim` | conflict_resolution_sim.dfy | crates/services/tests/conflict_resolution.rs |

The database is modelled as the fields of a `ContainerService` class: maps
from task, project and process ids to rows. Every `Task::update_status` call
becomes an update of the `tasks` map. Git probes, the remote service, the
process spawner and JSON parsing are replaced by parameters. For example,
`StartExecution` takes each repository's probe results and a flag saying
whether the spawn succeeded. The orphan clean-up is given the set of
processes whose status write fails.

## Model

| member | source | states |
|---|---|---|
| ConfigV9.DefaultWorkflowConfig | crates/services/src/services/config/versions/v9.rs:14-41 | the workflow defaults: human review off, at most 3 AI review iterations, a manual exit from Testing, AI review started automatically, no prompt template |
| ConfigV9.WorkflowFromDocument | crates/services/src/services/config/versions/v9.rs:44-61 | each field missing from a stored workflow section takes its own default; each field present is kept |
| ConfigV9.WorkflowSection | crates/services/src/services/config/versions/v9.rs:75-103 | a config without a workflow section gets `WorkflowConfig::default()`; a config with one gets the section with per-field defaults |
| ConfigV9.EmptySectionIsDefault | crates/services/src/services/config/versions/v9.rs:44-73 | an empty workflow section and a missing one give the same settings, so the per-field serde defaults agree with the `Default` impl |
| ConfigV9.DefaultConfig | crates/services/src/services/config/versions/v9.rs:157-181 | the default config is version "v9", uses the Claude Code executor, the "vk" branch prefix, analytics on, nothing acknowledged, and the workflow defaults |
| ConfigV9.FromV8Config | crates/services/src/services/config/versions/v9.rs:106-128 | migration sets version "v9", keeps every version-8 field unchanged, and adds the default workflow settings |
| ConfigV9.FromPreviousVersion | crates/services/src/services/config/versions/v9.rs:130-133 | loading a previous version always succeeds and is the migration of the loaded version-8 config |
| ConfigV9.FromString | crates/services/src/services/config/versions/v9.rs:136-155 | a document that parses as version 9 with version "v9" is taken as is; anything else is migrated from the previous version; the result is always version "v9" |
| ConfigV9.FromStringStable | crates/services/src/services/config/versions/v9.rs:136-155 | loading the config once more, from a document that holds the loaded config, gives the same config |
| StatusTransition.ValidateStatusTransition | crates/services/src/services/container.rs:1291-1365 | a status change is accepted exactly when the independent table `Permitted` allows it. A change to the same status is accepted; Done and Cancelled cannot be left; Todo cannot be entered; InReview to InProgress names the AI review handler; InReview to HumanReview needs human review enabled; InProgress to InReview needs the manual Testing exit off; only InProgress enters Testing; only InReview enters HumanReview |
| StatusTransition.AbsentConfigActsAsDefaults | crates/services/src/services/container.rs:1291-1310 | a project without settings validates exactly like one with human review off and a manual Testing exit |
| StatusTransition.TerminalIsAbsorbing | crates/services/src/services/container.rs:1743-1830 | along any accepted path, once Done or Cancelled is reached the status never changes again |
| StatusTransition.NoReturnToTodo | crates/services/src/services/container.rs:1793-1830 | along any accepted path, a task that has left Todo never returns to it |
| StatusTransition.HumanReviewUnreachableWhenDisabled | crates/services/src/services/container.rs:1857-1887 | with human review off, no accepted path reaches HumanReview from another status |
| ExecutionChain.Steps | crates/services/src/services/container.rs:500-535 | a chain lists at least one action, and the first is its own |
| ExecutionChain.AppendAction | crates/services/src/services/container.rs:520-531 | appending a chain to another runs the second chain's actions after all of the first's |
| ExecutionChain.Prepend | crates/services/src/services/container.rs:585-604 | putting actions in front of a chain runs them, in order, before the chain |
| ExecutionChain.PrependKeepsTail | crates/services/src/services/container.rs:585-604 | putting actions in front of a chain leaves its last action unchanged |
| ExecutionChain.ScriptSteps | crates/services/src/services/container.rs:500-569 | the script requests built for the repositories are at most one per repository, all Bash, all in the requested context, and there are none exactly when no repository has a script |
| ExecutionChain.ScriptActionsForRepos | crates/services/src/services/container.rs:500-569 | the loop builds no chain exactly when no repository has a script, and otherwise one chain of the repositories' scripts in repository order |
| ExecutionChain.SetupActionsForRepos | crates/services/src/services/container.rs:537-569 | no chain exactly when no repository has a setup script; otherwise the setup scripts in repository order |
| ExecutionChain.CleanupActionsForRepos | crates/services/src/services/container.rs:500-535 | no chain exactly when no repository has a cleanup script; otherwise the cleanup scripts in repository order |
| ExecutionChain.BuildSequentialSetupChain | crates/services/src/services/container.rs:585-604 | the backward loop yields the setup scripts in repository order followed by the given next action |
| ExecutionChain.ReposWithSetup | crates/services/src/services/container.rs:998-1001 | the filter keeps only repositories with a setup script and loses none of the setup scripts |
| ExecutionChain.StartAttempt | crates/services/src/services/container.rs:994-1053 | the coding agent carries the prompt, and its next action is the cleanup chain (none exactly when there is no cleanup script). When every setup script is parallel, each setup script is started alone as SetupScript, then the coding agent as CodingAgent. Otherwise a single chain of all setup scripts then the coding agent is started as SetupScript. With no setup scripts at all, the only start is the coding agent, under CodingAgent |
| ExecutionChain.NextRunReason | crates/services/src/services/container.rs:1262-1276 | a coding-agent action always runs as CodingAgent; a script after a script runs as SetupScript; a script after a coding agent runs as CleanupScript |
| ExecutionChain.ShouldFinalize | crates/services/src/services/container.rs:133-164 | a DevServer process never finalizes; a SetupScript process with no next action never finalizes; otherwise a failed or killed process always finalizes, and a completed or running one finalizes exactly when its chain ends |
| ExecutionChain.ChainReasons | crates/services/src/services/container.rs:1252-1283 | a chain gives one run reason per action, and the first is the reason it was started with |
| ExecutionChain.CleanupChainLastStepNeverFinalizes | crates/services/src/services/container.rs:133-164 | with two or more cleanup scripts, the first runs as CleanupScript but the last runs as SetupScript with no next action, so its end never finalizes the task, whatever its exit status |
| ExecutionChain.ScriptChainReasons | crates/services/src/services/container.rs:1262-1266 | along a chain made only of scripts, every process after the first runs as SetupScript |
| ExecutionChain.LastActionAt | crates/services/src/services/container.rs:1252-1259 | the last action of a chain has no next action, so the chain stops there |
| ExecutionChain.ConflictScan | crates/services/src/services/container.rs:195-215 | the scan reports resolved exactly when every repository is found and none has a rebase in progress or conflicted files; an error names a repository that was not found |
| ExecutionChain.CheckConflictsResolved | crates/services/src/services/container.rs:168-215 | without conflicts at the start the answer is "not resolved"; with them, a missing container reference is an error, and otherwise the answer is the scan; "resolved" implies no repository has conflicts now |
| Container.HadConflictsAtStart | crates/services/src/services/container.rs:1106-1116 | a repository counts as conflicted at the start exactly when a rebase is known to be in progress or conflicted files are known to exist; a failed probe counts as neither |
| Container.FeedbackSubtask | crates/services/src/services/container.rs:1508-1533 | a feedback subtask belongs to the parent's project and starts in Todo |
| Container.SubtaskNamesIssue | crates/services/src/services/container.rs:1508-1533 | the subtask's title is "Fix: " followed by the issue, and its description is "AI Review issue: " followed by the issue |
| Container.FeedbackSubtasks | crates/services/src/services/container.rs:1508-1533 | one subtask per issue, in the order of the issues |
| Container.NewTasks | crates/services/src/services/container.rs:1508-1533 | the new rows sit under consecutive fresh ids, one per subtask, in order |
| Container.NewTaskStep | crates/services/src/services/container.rs:1518-1531 | inserting the next issue's subtask under the next id extends the stored subtasks by exactly that one |
| Container.FreshRowsKeepOld | crates/services/src/services/container.rs:1518-1531 | inserting rows under fresh ids leaves every existing task row unchanged |
| Container.WithStatus | crates/services/src/services/container.rs:242 | a status update changes only the status of the named task, and changes nothing when the task is missing |
| Container.AIReviewOutcome | crates/services/src/services/container.rs:1436-1505 | a pass stores HumanReview when human review is enabled and Done otherwise, but reports Done either way; a failure stores and reports InProgress; a call for intervention stores nothing and reports InReview. The stored and reported statuses differ exactly for a pass with human review enabled |
| Container.ContainerService.GetWorkflowConfig | crates/services/src/services/container.rs:1608-1625 | a missing project is an error; a project without settings gets the defaults; otherwise its stored settings |
| Container.ContainerService.TaskAndWorkflow | crates/services/src/services/container.rs:1369-1381 | a missing task is TaskNotFound; a task whose project is missing is ProjectNotFound; otherwise the task and its project's settings |
| Container.ContainerService.CheckedTransition | crates/services/src/services/container.rs:1369-1385 | the lookup errors come first; then the move succeeds exactly when the validator accepts the task's current status to the target under the project's settings, and otherwise fails with the validator's reason |
| Container.ContainerService.UpdateStatus | crates/services/src/services/container.rs:1073 | only the named task's status changes |
| Container.ContainerService.MoveChecked | crates/services/src/services/container.rs:1369-1385 | the validator's verdict is returned; on success only the task's status changes, and on failure nothing changes |
| Container.ContainerService.CompleteTesting | crates/services/src/services/container.rs:1369-1406 | the task moves to InReview exactly when it is in Testing, already in InReview, or in InProgress with the manual Testing exit off; otherwise nothing changes |
| Container.ContainerService.ApproveHumanReview | crates/services/src/services/container.rs:1536-1565 | the task moves to Done exactly when the validator allows it, that is from any status but Todo and Cancelled (not only from HumanReview) |
| Container.ContainerService.RejectHumanReview | crates/services/src/services/container.rs:1568-1604 | the task moves to InProgress exactly when it is in Todo, InProgress, Testing or HumanReview; the reason is not stored |
| Container.ContainerService.CreateReviewFeedbackSubtasks | crates/services/src/services/container.rs:1508-1533 | a missing parent is TaskNotFound and changes nothing; otherwise one Todo subtask per issue is added under fresh ids and every existing row is kept |
| Container.ContainerService.HandleAIReviewResult | crates/services/src/services/container.rs:1436-1505 | lookup errors change nothing; otherwise the status stored and the status returned are those of `AIReviewOutcome`; a failure also adds one subtask per issue; other tasks are untouched |
| Container.ContainerService.FinalizeTask | crates/services/src/services/container.rs:219-242 | a killed process leaves the task alone; any other finished process moves its task to Testing, without validation |
| Container.ContainerService.StartExecution | crates/services/src/services/container.rs:1058-1250 | a missing task is an error with no change. Otherwise a task not yet InProgress is moved to InProgress, from any status and without validation, unless the process is a dev server; this move is not undone when a later step fails. Then: no repositories is an error; a missing container reference is an error; otherwise a Running process is recorded with each repository's conflict flag at the start. A failed spawn marks that process Failed and the task InReview |
| Container.ContainerService.CleanupOrphanExecutions | crates/services/src/services/container.rs:287-370 | given the processes the database lists as running, every one whose status write succeeds becomes Failed; each task worked on by such a process with a reason other than DevServer moves to InReview, without validation |
| Container.Handled | crates/services/src/services/container.rs:295-312 | the processes handled are exactly the running ones whose status write succeeds |
| Container.MarkFailedKeepsRows | crates/services/src/services/container.rs:295-312 | the clean-up keeps every process row, and changes only the status of a handled one |
| Container.MarkFailedRows | crates/services/src/services/container.rs:295-312 | after the clean-up, a process is Failed when it was handled, and every other process row is unchanged |
| Container.MarkReviewedRows | crates/services/src/services/container.rs:338-350 | after the clean-up, a task is in InReview when a handled coding-agent, setup or cleanup process worked for it, and every other task row is unchanged |
| ProjectRoutes.MergeConfig | crates/server/src/routes/projects.rs:896-916 | each field given in the request replaces the current one, and each field not given keeps it; for the template, `Some(None)` clears it and `Some(Some(t))` sets it |
| ProjectRoutes.MergeEmptyAndIdempotent | crates/server/src/routes/projects.rs:870-893 | an empty request changes nothing, and applying the same request twice is the same as applying it once |
| ProjectRoutes.MergeSequence | crates/server/src/routes/projects.rs:870-893 | two requests applied one after the other equal their combination, with the later request's fields taking precedence |
| ProjectRoutes.DerivedDefaultIsNotSerdeDefault | crates/server/src/routes/projects.rs:759-784 | the settings default to 3 AI review iterations, while a derived all-zero struct holds 0, and a request that omits the limit keeps that 0 |
| ProjectRoutes.ApplyWorkflowPatch | crates/server/src/routes/projects.rs:634-663 | the patch fails exactly when the request sets the iteration limit to 0, with the "must be at least 1" message; otherwise it is the merge of the request into the current settings |
| ProjectRoutes.RouteAcceptsBeyondTestedRange | crates/server/src/routes/projects.rs:646-654 | the route accepts a request setting the iteration limit to any value but 0 and stores that value, including every value above 50, which the tests at projects.rs lines 852-867 call invalid |
| ProjectRoutes.TrimStart | crates/server/src/routes/projects.rs:122 | trimming the front drops exactly the leading whitespace: what is dropped is whitespace, and what remains starts with a non-whitespace character |
| ProjectRoutes.TrimEnd | crates/server/src/routes/projects.rs:122 | trimming the back drops exactly the trailing whitespace |
| ProjectRoutes.TrimProperties | crates/server/src/routes/projects.rs:122-127 | a name trims to nothing exactly when it is all whitespace, and trimming twice equals trimming once |
| ProjectRoutes.Project.GetWorkflowConfig | crates/server/src/routes/projects.rs:619-631 | a project without stored settings reads as the defaults |
| ProjectRoutes.Project.UpdateWorkflowConfig | crates/server/src/routes/projects.rs:634-691 | a limit of 0 is refused before anything is written; a failed write is a database error and changes nothing; otherwise the merged settings are stored and returned, and reading them back gives the same |
| ProjectRoutes.Project.ApplyRemoteProjectLink | crates/server/src/routes/projects.rs:191-217 | a project already linked is refused with a conflict and stays as it was; otherwise it is linked to the remote project |
| ProjectRoutes.Project.CreateAndLinkRemoteProject | crates/server/src/routes/projects.rs:117-142 | a name that is all whitespace is refused before the remote service is called; otherwise a remote project under the trimmed, non-empty name is requested, and then linked under the same rule as `apply_remote_project_link` |
| CustomAgentCommand.DeserializeBaseAgent | crates/executors/src/executors/custom_agent.rs:81-94 | a base agent is accepted exactly when it is not itself a custom agent, and the error says so |
| CustomAgentCommand.DefaultBaseCommand | crates/executors/src/executors/custom_agent.rs:128-145 | every default command runs through "npx -y "; the Claude Code command is used exactly when the base is Claude Code or missing |
| CustomAgentCommand.AutonomyFlags | crates/executors/src/executors/custom_agent.rs:203-218 | Normal adds no flag; SkipPermissionsUnsafe adds only its own flag; Low, Medium and High add "--auto" with the level |
| CustomAgentCommand.RequiredParamsProperties | crates/executors/src/executors/custom_agent.rs:158-245 | Claude-style bases start with "-p" and the stream-JSON flags; a missing base always skips permissions; a Claude Code base skips them only when asked; Gemini and Qwen add "--yolo" only when asked; Droid always asks for stream-JSON output |
| CustomAgentCommand.RequiredCommand | crates/executors/src/executors/custom_agent.rs:149-245 | the command is the override when one is given and otherwise the base agent's default, followed by the base agent's required flags |
| CustomAgentCommand.AddRequiredParams | crates/executors/src/executors/custom_agent.rs:158-245 | the base agent's required flags are appended after the existing parameters |
| CustomAgentCommand.AddModel | crates/executors/src/executors/custom_agent.rs:178-183 | a model adds "--model" and its name; no model adds nothing |
| CustomAgentCommand.AddClaudeParams | crates/executors/src/executors/custom_agent.rs:160-185 | the Claude flags are appended, then the permission skip when it applies, then the model |
| CustomAgentCommand.AddDroidParams | crates/executors/src/executors/custom_agent.rs:203-222 | Droid always gets stream-JSON output, then its autonomy flags, then its model |
| CustomAgentCommand.BuildCommandBuilder | crates/executors/src/executors/custom_agent.rs:149-249 | the custom agent's own overrides are applied last, on top of the required command |
| CustomAgentCommand.GetAvailabilityInfo | crates/executors/src/executors/custom_agent.rs:535-550 | an override that resolves to an executable means installed; otherwise the base agent's availability is used, and with no base agent it is not found |
| CustomAgentCommand.NormalizeLogs | crates/executors/src/executors/custom_agent.rs:487-527 | Claude Code, Amp and a missing base use the Claude processor; stderr is normalized for every base except Gemini, Opencode, Qwen and Codex |
| CustomAgentCommand.OutputFormatMatchesProcessor | crates/executors/src/executors/custom_agent.rs:158-245 | the Claude processor is used exactly when the command asks for "--output-format=stream-json", and the Droid processor exactly when it passes "--output-format" as a separate flag |
| ConflictResolutionSim.NoPairStillConflicted | crates/services/tests/conflict_resolution.rs:12-31 | no repository, up to the shorter list, both had conflicts before and has them now |
| ConflictResolutionSim.CheckConflictsResolved | crates/services/tests/conflict_resolution.rs:12-31 | the simulated check answers "resolved" exactly when some repository had conflicts and none of those still has them; no repositories, or none conflicted before, gives "not resolved" |
| ConflictResolutionSim.DetermineFinalStatus | crates/services/tests/conflict_resolution.rs:133-149 | a completed run goes to Done exactly when its conflicts were resolved, and to InReview otherwise; a failed or killed run goes to InReview; a running one stays InProgress |
| ConflictResolutionSim.HadFlags | crates/services/tests/conflict_resolution.rs:12-31 | one "had conflicts before" flag per repository state, in order |
| ConflictResolutionSim.CurrentFlags | crates/services/tests/conflict_resolution.rs:12-31 | one "has conflicts now" flag per repository state, in order |
| ConflictResolutionSim.ServiceImpliesSimulation | crates/services/tests/conflict_resolution.rs:12-31 | when the service reports the conflicts resolved, the simulation does too |
| ConflictResolutionSim.SimulationIgnoresNewConflicts | crates/services/tests/conflict_resolution.rs:12-31 | the converse fails: a repository without conflicts before that has them now passes the simulation but not the service |

## Left out

- Database errors are not modelled, except the failed status write in the orphan clean-up and the failed write in `update_workflow_config`; every other query is taken to succeed.
- The git probes (rebase in progress, conflicted files, head commits) are parameters. The after-head-commit capture and the base-commit backfill in `cleanup_orphan_executions` are not modelled, because they only record commit ids.
- The shared-task publisher, analytics, notifications, log streaming, log normalisation itself and process spawning are left out. They are I/O and change no state that is modelled here.
- The "coding agent turn" record, the log messages and the executor-profile resolution in `start_execution` are left out. The spawn's outcome is a parameter.
- Sessions and workspaces are collapsed: an execution process names its task directly.
- `trigger_ai_self_review` is not modelled: it does nothing but log.
- Container.ContainerService.FinalizeTask: `check_conflicts_resolved` is called there, but its result decides nothing, so it is not called in the model.
- Container.ContainerService.StartExecution: the status stored for the process is Running on success; the process row's other columns (commit ids, timestamps) are not modelled.
- ExecutionChain.AppendAction: the body of `ExecutorAction::append_action` is not part of this model; it is taken to attach the second chain after the last action of the first, which the chain builders rely on.
- ProjectRoutes.Project.UpdateWorkflowConfig: the serialization error branch is left out, because serializing this struct cannot fail.
- ConfigV9.FromString: the JSON parser and the version-8 loader are function parameters; only the choice between them and the fallback are modelled.
- CustomAgentCommand.BuildCommandBuilder: `apply_overrides` is a parameter, since its body is not part of this model.
- CustomAgentCommand.GetAvailabilityInfo: executable resolution and the base agents' own availability checks are parameters.
- CustomAgentCommand.RequiredParamsProperties and CustomAgentCommand.OutputFormatMatchesProcessor assume model and sandbox names that are not flags themselves, because a model named like a flag would make membership tests of flags ambiguous.
- ProjectRoutes.Project.UpdateWorkflowConfig: the request's template is decoded with a plain `Option<Option<String>>` field, so a JSON `null` decodes to the outer `None` and leaves the template as it is; the route cannot clear a stored template, and only a request built in code with `Some(None)` can. The model takes the decoded request as its input and does not model the JSON decoding.
- Container.ContainerService.GetWorkflowConfig and ProjectRoutes.Project.GetWorkflowConfig: the body of the database model's `Project::get_workflow_config` is not part of this model. Both members assume that a project without stored settings reads as the serde defaults (limit 3, a manual Testing exit, AI review on), as the comment at crates/services/src/services/container.rs:1606-1607 says. If that method fell back to the derived `ProjectWorkflowConfig::default()` instead, the limit would be 0 and the manual exit off (crates/server/src/routes/projects.rs:759-771), and InProgress to InReview would then be accepted for such a project.
- ExecutionChain.CheckConflictsResolved: a git probe that fails (`is_rebase_in_progress` or `get_conflicted_files` returning an error) makes the source return an error; the model's probes are plain answers, so that error path is not modelled. `finalize_task` discards the result either way.
- Ids are modelled as counters instead of UUIDs.
- The concurrency of the async service is not modelled; each operation runs to completion on its own.
