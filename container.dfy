/** The task service (`ContainerService`): starting executions, finalizing a
    task when its execution chain ends, cleaning up processes orphaned by a
    restart, and the review phases of the task workflow (Testing, AI review,
    Human review).

    The database is the service's state: the tasks, the projects' stored
    workflow settings and the execution processes, each a map from its id.
    Fresh UUIDs are modelled as a counter. Git probes, the process runner,
    notifications and share publishing are not part of this model: the
    results the service reads from them are parameters. Database writes are
    taken to succeed, except where the service itself reacts to a failing
    write (the orphan cleanup). */
module Container {
  import opened Wrappers
  import opened ConfigV9
  import opened StatusTransition
  import opened ExecutionChain

  type TaskId = nat
  type ProjectId = nat
  type ProcessId = nat

  datatype Task = Task(projectId: ProjectId, title: string, description: Option<string>, status: TaskStatus)

  /** An execution process row: the task it works for (reached through its
      session and workspace), what it runs, why, its status, and for each
      repository of the workspace whether it had merge conflicts when the
      process started. */
  datatype ExecutionProcess = ExecutionProcess(
    taskId: TaskId,
    action: ExecutorAction,
    runReason: RunReason,
    status: ExecutionStatus,
    hadConflictsBefore: seq<bool>)

  /** What the git probes report for one repository when an execution starts;
      `None` is a probe that failed. */
  datatype RepoProbe = RepoProbe(rebaseInProgress: Option<bool>, conflictedFiles: Option<seq<string>>)

  datatype AIReviewResult = Pass | Fail(issues: seq<string>) | NeedsIntervention

  datatype ContainerError =
    | TaskNotFound(task: TaskId)
    | ProjectNotFound(project: ProjectId)
    | InvalidStatusTransition(reason: Rejection)
    | NoRepositoriesConfigured
    | ContainerRefNotFound
    | StartFailed

  /** Whether a repository counts as conflicted when an execution starts: a
      failed probe counts as no rebase and no conflicted files. */
  function HadConflictsAtStart(probe: RepoProbe): (r: bool)
    ensures r <==> probe.rebaseInProgress == Some(true)
                   || (probe.conflictedFiles.Some? && probe.conflictedFiles.value != [])
  {
    probe.rebaseInProgress.GetOr(false) || |probe.conflictedFiles.GetOr([])| > 0
  }

  const FixPrefix: string := "Fix: "
  const IssuePrefix: string := "AI Review issue: "

  /** The subtask created for one issue found by the AI review. */
  function FeedbackSubtask(projectId: ProjectId, issue: string): (t: Task)
    ensures t.projectId == projectId && t.status == Todo
  {
    Task(projectId, FixPrefix + issue, Some(IssuePrefix + issue), Todo)
  }

  /** The subtask names its issue: its title and description are the issue
      behind a fixed prefix, so the issue can be read back from either. */
  lemma SubtaskNamesIssue(projectId: ProjectId, issue: string)
    ensures var t := FeedbackSubtask(projectId, issue);
            && t.title[..|FixPrefix|] == FixPrefix && t.title[|FixPrefix|..] == issue
            && t.description.Some?
            && t.description.value[..|IssuePrefix|] == IssuePrefix && t.description.value[|IssuePrefix|..] == issue
  {
  }

  /** The subtasks for a list of issues, one per issue, in order. */
  function FeedbackSubtasks(projectId: ProjectId, issues: seq<string>): (ts: seq<Task>)
    ensures |ts| == |issues|
    ensures forall k :: 0 <= k < |ts| ==> ts[k] == FeedbackSubtask(projectId, issues[k])
  {
    seq(|issues|, k requires 0 <= k < |issues| => FeedbackSubtask(projectId, issues[k]))
  }

  /** The rows `ts` stored under the consecutive ids from `base` on. */
  function NewTasks(base: nat, ts: seq<Task>): (m: map<TaskId, Task>)
    ensures forall k :: k in m <==> base <= k < base + |ts|
    ensures forall i :: 0 <= i < |ts| ==> m[base + i] == ts[i]
  {
    if ts == [] then map[]
    else
      var init := ts[..|ts| - 1];
      assert forall i :: 0 <= i < |init| ==> init[i] == ts[i];
      NewTasks(base, init)[base + |init| := ts[|init|]]
  }

  /** Storing the subtask of one more issue under the next id extends the
      stored subtasks by that one. */
  lemma NewTaskStep(tasks: map<TaskId, Task>, base: nat, projectId: ProjectId, issues: seq<string>, i: nat)
    requires i < |issues|
    ensures (tasks + NewTasks(base, FeedbackSubtasks(projectId, issues[..i])))[base + i := FeedbackSubtask(projectId, issues[i])]
            == tasks + NewTasks(base, FeedbackSubtasks(projectId, issues[..i + 1]))
  {
    var before := FeedbackSubtasks(projectId, issues[..i]);
    var after := FeedbackSubtasks(projectId, issues[..i + 1]);
    assert after[..i] == before;
  }

  /** Rows stored under ids from `base` on leave every older row in place. */
  lemma FreshRowsKeepOld(tasks: map<TaskId, Task>, base: nat, ts: seq<Task>)
    requires forall t :: t in tasks ==> t < base
    ensures forall t :: t in tasks ==> t in tasks + NewTasks(base, ts) && (tasks + NewTasks(base, ts))[t] == tasks[t]
    ensures forall t :: t in tasks + NewTasks(base, ts) ==> t < base + |ts|
  {
  }

  /** `Task::update_status`: an update of a missing row changes nothing. */
  function WithStatus(tasks: map<TaskId, Task>, id: TaskId, s: TaskStatus): (r: map<TaskId, Task>)
    ensures r.Keys == tasks.Keys
    ensures id in tasks ==> r[id].status == s && r[id].(status := tasks[id].status) == tasks[id]
    ensures forall t :: t in tasks && t != id ==> r[t] == tasks[t]
  {
    if id in tasks then tasks[id := tasks[id].(status := s)] else tasks
  }

  /** What `handle_ai_review_result` stores as the task's status (`None`:
      nothing) and what it returns. */
  datatype ReviewOutcome = ReviewOutcome(stored: Option<TaskStatus>, returned: TaskStatus)

  /** The outcome of an AI review result: a pass goes to Human Review when it
      is enabled and to Done otherwise, but reports Done either way; a failure
      goes back to InProgress; a call for intervention changes nothing and
      reports InReview. Neither the task's current status nor the review
      iteration limit is consulted. */
  function AIReviewOutcome(result: AIReviewResult, config: WorkflowConfig): (o: ReviewOutcome)
    ensures o.stored.None? <==> result.NeedsIntervention?
    ensures result.NeedsIntervention? ==> o.returned == InReview
    ensures result.Fail? ==> o == ReviewOutcome(Some(InProgress), InProgress)
    ensures result.Pass? ==> o.returned == Done
    ensures result.Pass? ==> (o.stored == Some(HumanReview) <==> config.enableHumanReview)
    ensures result.Pass? ==> (o.stored == Some(Done) <==> !config.enableHumanReview)
    ensures (o.stored.Some? && o.stored.value != o.returned) <==> (result.Pass? && config.enableHumanReview)
  {
    match result
    case Pass =>
      var newStatus := if config.enableHumanReview then HumanReview else Done;
      ReviewOutcome(Some(newStatus), Done)
    case Fail(_) => ReviewOutcome(Some(InProgress), InProgress)
    case NeedsIntervention => ReviewOutcome(None, InReview)
  }

  /** Whether the orphan cleanup moves a task to InReview for this process. */
  predicate ReviewsTaskWhenOrphaned(reason: RunReason) {
    reason == CodingAgent || reason == SetupScript || reason == CleanupScript
  }

  /** The task rows after the orphan cleanup has handled `handled`: a task
      moves to InReview when some handled process works for it with a
      reason other than DevServer. */
  ghost predicate MarkedByOrphans(processes: map<ProcessId, ExecutionProcess>, handled: seq<ProcessId>, t: TaskId) {
    exists k :: 0 <= k < |handled| && handled[k] in processes
                && processes[handled[k]].taskId == t
                && ReviewsTaskWhenOrphaned(processes[handled[k]].runReason)
  }

  class ContainerService {
    var tasks: map<TaskId, Task>
    var projects: map<ProjectId, Option<WorkflowConfig>>
    var processes: map<ProcessId, ExecutionProcess>
    var nextTaskId: nat
    var nextProcessId: nat

    /** Every stored id was handed out before: fresh ids never collide. */
    ghost predicate Valid()
      reads this
    {
      && (forall t :: t in tasks ==> t < nextTaskId)
      && (forall p :: p in processes ==> p < nextProcessId)
    }

    /** A service over an empty database. */
    constructor()
      ensures Valid()
      ensures tasks == map[] && projects == map[] && processes == map[]
      ensures nextTaskId == 0 && nextProcessId == 0
    {
      tasks := map[];
      projects := map[];
      processes := map[];
      nextTaskId := 0;
      nextProcessId := 0;
    }

    /** `get_workflow_config`: the project's stored settings, or the
        defaults when it has none. */
    function GetWorkflowConfig(project: ProjectId): (r: Result<WorkflowConfig, ContainerError>)
      reads this
      ensures r.Failure? <==> project !in projects
      ensures r.Failure? ==> r.error == ProjectNotFound(project)
      ensures r.Success? && projects[project].None? ==> r.value == DefaultWorkflowConfig()
      ensures r.Success? && projects[project].Some? ==> r.value == projects[project].value
    {
      if project !in projects then Failure(ProjectNotFound(project))
      else Success(projects[project].GetOr(DefaultWorkflowConfig()))
    }

    /** The task and its project's settings, as the review operations load
        them first. */
    function TaskAndWorkflow(id: TaskId): (r: Result<(Task, WorkflowConfig), ContainerError>)
      reads this
      ensures id !in tasks ==> r == Failure(TaskNotFound(id))
      ensures id in tasks ==> r.Failure? == (tasks[id].projectId !in projects)
      ensures r.Success? ==> r.value.0 == tasks[id] && Success(r.value.1) == GetWorkflowConfig(tasks[id].projectId)
      ensures r.Failure? && id in tasks ==> r.error == ProjectNotFound(tasks[id].projectId)
    {
      if id !in tasks then Failure(TaskNotFound(id))
      else
        match GetWorkflowConfig(tasks[id].projectId)
        case Failure(e) => Failure(e)
        case Success(config) => Success((tasks[id], config))
    }

    /** The checks a review operation makes before it moves task `id` to
        `target`: the task and its project exist and the project's settings
        accept the change. */
    function CheckedTransition(id: TaskId, target: TaskStatus): (r: Result<TaskStatus, ContainerError>)
      reads this
      ensures r.Success? ==> r.value == target
      ensures r.Success? <==>
                && TaskAndWorkflow(id).Success?
                && ValidateStatusTransition(tasks[id].status, target, Some(TaskAndWorkflow(id).value.1)).Success?
      ensures TaskAndWorkflow(id).Failure? ==> r == Failure(TaskAndWorkflow(id).error)
      ensures TaskAndWorkflow(id).Success? && r.Failure? ==>
                r == Failure(InvalidStatusTransition(
                       ValidateStatusTransition(tasks[id].status, target, Some(TaskAndWorkflow(id).value.1)).error))
    {
      match TaskAndWorkflow(id)
      case Failure(e) => Failure(e)
      case Success((task, config)) =>
        match ValidateStatusTransition(task.status, target, Some(config))
        case Failure(reason) => Failure(InvalidStatusTransition(reason))
        case Success(_) => Success(target)
    }

    /** `Task::update_status`. */
    method UpdateStatus(id: TaskId, s: TaskStatus)
      requires Valid()
      modifies this
      ensures Valid()
      ensures tasks == WithStatus(old(tasks), id, s)
      ensures projects == old(projects) && processes == old(processes)
      ensures nextTaskId == old(nextTaskId) && nextProcessId == old(nextProcessId)
    {
      if id in tasks {
        tasks := tasks[id := tasks[id].(status := s)];
      }
    }

    /** A checked move of task `id` to `target`, as the three review
        operations below make it. */
    method MoveChecked(id: TaskId, target: TaskStatus) returns (r: Result<TaskStatus, ContainerError>)
      requires Valid()
      modifies this
      ensures Valid()
      ensures r == old(CheckedTransition(id, target))
      ensures tasks == if r.Success? then WithStatus(old(tasks), id, target) else old(tasks)
      ensures projects == old(projects) && processes == old(processes)
      ensures nextTaskId == old(nextTaskId) && nextProcessId == old(nextProcessId)
    {
      r := CheckedTransition(id, target);
      if r.Success? {
        UpdateStatus(id, target);
      }
    }

    /** `complete_testing`: leaves Testing for AI review. Accepted from
        Testing, from InReview itself, and straight from InProgress when the
        project lets tasks skip the manual Testing exit. The triggered AI
        review does nothing beyond reloading the task and its settings. */
    method CompleteTesting(id: TaskId) returns (r: Result<TaskStatus, ContainerError>)
      requires Valid()
      modifies this
      ensures Valid()
      ensures r == old(CheckedTransition(id, InReview))
      ensures tasks == if r.Success? then WithStatus(old(tasks), id, InReview) else old(tasks)
      ensures projects == old(projects) && processes == old(processes)
      ensures nextTaskId == old(nextTaskId) && nextProcessId == old(nextProcessId)
      ensures old(TaskAndWorkflow(id)).Success? ==>
                (r.Success? <==>
                   || old(tasks[id].status) == Testing
                   || old(tasks[id].status) == InReview
                   || (old(tasks[id].status) == InProgress
                       && !old(TaskAndWorkflow(id)).value.1.testingRequiresManualExit))
    {
      r := MoveChecked(id, InReview);
    }

    /** `approve_human_review`: moves the task to Done. The check is the
        general one, so approval is accepted from every status that may move
        to Done, not only from Human Review. */
    method ApproveHumanReview(id: TaskId) returns (r: Result<TaskStatus, ContainerError>)
      requires Valid()
      modifies this
      ensures Valid()
      ensures r == old(CheckedTransition(id, Done))
      ensures tasks == if r.Success? then WithStatus(old(tasks), id, Done) else old(tasks)
      ensures projects == old(projects) && processes == old(processes)
      ensures nextTaskId == old(nextTaskId) && nextProcessId == old(nextProcessId)
      ensures old(TaskAndWorkflow(id)).Success? ==>
                (r.Success? <==> old(tasks[id].status) !in {Todo, Cancelled})
    {
      r := MoveChecked(id, Done);
    }

    /** `reject_human_review`: moves the task back to InProgress. The reason
        is not stored. Refused from InReview, where the AI review result
        handler is the way back. */
    method RejectHumanReview(id: TaskId, reason: string) returns (r: Result<TaskStatus, ContainerError>)
      requires Valid()
      modifies this
      ensures Valid()
      ensures r == old(CheckedTransition(id, InProgress))
      ensures tasks == if r.Success? then WithStatus(old(tasks), id, InProgress) else old(tasks)
      ensures projects == old(projects) && processes == old(processes)
      ensures nextTaskId == old(nextTaskId) && nextProcessId == old(nextProcessId)
      ensures old(TaskAndWorkflow(id)).Success? ==>
                (r.Success? <==> old(tasks[id].status) in {Todo, InProgress, Testing, HumanReview})
    {
      r := MoveChecked(id, InProgress);
    }

    /** `create_review_feedback_subtasks`: one new Todo task per issue, in the
        parent's project, under fresh ids; no existing task changes. */
    method CreateReviewFeedbackSubtasks(parentId: TaskId, issues: seq<string>) returns (r: Result<(), ContainerError>)
      requires Valid()
      modifies this
      ensures Valid()
      ensures r.Failure? <==> parentId !in old(tasks)
      ensures r.Failure? ==> r.error == TaskNotFound(parentId) && tasks == old(tasks) && nextTaskId == old(nextTaskId)
      ensures r.Success? ==>
                && nextTaskId == old(nextTaskId) + |issues|
                && tasks == old(tasks) + NewTasks(old(nextTaskId), FeedbackSubtasks(old(tasks[parentId].projectId), issues))
      ensures forall t :: t in old(tasks) ==> t in tasks && tasks[t] == old(tasks[t])
      ensures projects == old(projects) && processes == old(processes) && nextProcessId == old(nextProcessId)
    {
      if parentId !in tasks {
        return Failure(TaskNotFound(parentId));
      }
      var projectId := tasks[parentId].projectId;
      ghost var base := nextTaskId;
      ghost var tasks0 := tasks;
      var i := 0;
      while i < |issues|
        invariant 0 <= i <= |issues|
        invariant nextTaskId == base + i
        invariant tasks == tasks0 + NewTasks(base, FeedbackSubtasks(projectId, issues[..i]))
        invariant projects == old(projects) && processes == old(processes) && nextProcessId == old(nextProcessId)
      {
        var subtask := FeedbackSubtask(projectId, issues[i]);
        NewTaskStep(tasks0, base, projectId, issues, i);
        tasks := tasks[nextTaskId := subtask];
        nextTaskId := nextTaskId + 1;
        i := i + 1;
      }
      assert issues[..i] == issues;
      FreshRowsKeepOld(tasks0, base, FeedbackSubtasks(projectId, issues));
      r := Success(());
    }

    /** `handle_ai_review_result`: after loading the task and its settings,
        stores and returns `AIReviewOutcome`; a failed review first creates
        one subtask per issue. */
    method HandleAIReviewResult(id: TaskId, result: AIReviewResult) returns (r: Result<TaskStatus, ContainerError>)
      requires Valid()
      modifies this
      ensures Valid()
      ensures r.Failure? <==> old(TaskAndWorkflow(id)).Failure?
      ensures r.Failure? ==> r.error == old(TaskAndWorkflow(id)).error
      ensures r.Failure? ==> tasks == old(tasks) && nextTaskId == old(nextTaskId)
      ensures r.Success? ==> r.value == AIReviewOutcome(result, old(TaskAndWorkflow(id)).value.1).returned
      ensures r.Success? && result.Pass? ==>
                tasks == WithStatus(old(tasks), id, AIReviewOutcome(result, old(TaskAndWorkflow(id)).value.1).stored.value)
      ensures r.Success? && result.Fail? ==>
                && nextTaskId == old(nextTaskId) + |result.issues|
                && tasks == WithStatus(old(tasks) + NewTasks(old(nextTaskId), FeedbackSubtasks(old(tasks[id].projectId), result.issues)),
                                       id, InProgress)
      ensures result.NeedsIntervention? ==> tasks == old(tasks)
      ensures !result.Fail? ==> nextTaskId == old(nextTaskId)
      ensures forall t :: t in old(tasks) && t != id ==> t in tasks && tasks[t] == old(tasks[t])
      ensures projects == old(projects) && processes == old(processes) && nextProcessId == old(nextProcessId)
    {
      var loaded := TaskAndWorkflow(id);
      if loaded.Failure? {
        return Failure(loaded.error);
      }
      var config := loaded.value.1;
      match result {
        case Pass =>
          var newStatus := if config.enableHumanReview then HumanReview else Done;
          UpdateStatus(id, newStatus);
          r := Success(Done);
        case Fail(issues) =>
          var created := CreateReviewFeedbackSubtasks(id, issues);
          UpdateStatus(id, InProgress);
          r := Success(InProgress);
        case NeedsIntervention =>
          r := Success(InReview);
      }
    }

    /** `finalize_task`: unless the process was killed, the task moves to
        Testing. The conflict check the source makes first does not affect
        the outcome (both of its answers lead to Testing), and no transition
        check is made. */
    method FinalizeTask(pid: ProcessId)
      requires Valid()
      requires pid in processes
      modifies this
      ensures Valid()
      ensures old(processes[pid]).status == Killed ==> tasks == old(tasks)
      ensures old(processes[pid]).status != Killed ==> tasks == WithStatus(old(tasks), old(processes[pid]).taskId, Testing)
      ensures projects == old(projects) && processes == old(processes)
      ensures nextTaskId == old(nextTaskId) && nextProcessId == old(nextProcessId)
    {
      var process := processes[pid];
      if process.status == Killed {
        return;
      }
      UpdateStatus(process.taskId, Testing);
    }

    /** `start_execution`: moves the task to InProgress unless it is there
        already or the process is a dev server (without a transition check),
        records the process with each repository's conflict state, and starts
        it; a failed start marks the process Failed and the task InReview.
        The InProgress move is not undone when a later step fails. */
    method StartExecution(id: TaskId, action: ExecutorAction, reason: RunReason, repos: seq<RepoProbe>,
                          containerRef: Option<string>, startSucceeds: bool)
      returns (r: Result<ProcessId, ContainerError>)
      requires Valid()
      modifies this
      ensures Valid()
      ensures id !in old(tasks) ==> r == Failure(TaskNotFound(id)) && tasks == old(tasks) && processes == old(processes)
      ensures id in old(tasks) && repos == [] ==> r == Failure(NoRepositoriesConfigured)
      ensures id in old(tasks) && repos != [] && containerRef.None? ==> r == Failure(ContainerRefNotFound)
      ensures id in old(tasks) && repos != [] && containerRef.Some? ==>
                && processes == old(processes)[old(nextProcessId) :=
                     ExecutionProcess(id, action, reason, if startSucceeds then Running else Failed,
                                      seq(|repos|, k requires 0 <= k < |repos| => HadConflictsAtStart(repos[k])))]
                && nextProcessId == old(nextProcessId) + 1
                && (startSucceeds ==> r == Success(old(nextProcessId)))
                && (!startSucceeds ==> r == Failure(StartFailed) && tasks == WithStatus(old(tasks), id, InReview))
      ensures id in old(tasks) && (repos == [] || containerRef.None? || startSucceeds) ==>
                tasks == if old(tasks[id].status) != InProgress && reason != DevServer
                         then WithStatus(old(tasks), id, InProgress) else old(tasks)
      ensures r.Failure? && r.error != StartFailed ==> processes == old(processes) && nextProcessId == old(nextProcessId)
      ensures projects == old(projects) && nextTaskId == old(nextTaskId)
    {
      if id !in tasks {
        return Failure(TaskNotFound(id));
      }
      if tasks[id].status != InProgress && reason != DevServer {
        UpdateStatus(id, InProgress);
      }
      if |repos| == 0 {
        return Failure(NoRepositoriesConfigured);
      }
      if containerRef.None? {
        return Failure(ContainerRefNotFound);
      }
      var repoStates: seq<bool> := [];
      var i := 0;
      while i < |repos|
        invariant 0 <= i <= |repos|
        invariant |repoStates| == i
        invariant forall k :: 0 <= k < i ==> repoStates[k] == HadConflictsAtStart(repos[k])
      {
        repoStates := repoStates + [HadConflictsAtStart(repos[i])];
        i := i + 1;
      }
      assert repoStates == seq(|repos|, k requires 0 <= k < |repos| => HadConflictsAtStart(repos[k]));
      var pid := nextProcessId;
      var process := ExecutionProcess(id, action, reason, Running, repoStates);
      ghost var recorded := processes;
      processes := processes[pid := process];
      nextProcessId := nextProcessId + 1;
      if !startSucceeds {
        processes := processes[pid := process.(status := Failed)];
        assert processes == recorded[pid := process.(status := Failed)];
        UpdateStatus(id, InReview);
        return Failure(StartFailed);
      }
      r := Success(pid);
    }

    /** `cleanup_orphan_executions`: every process of `running` (the result
        of the query for the processes still listed as running, in its
        order) is
        marked Failed, unless that write fails (`failedWrites`), in which
        case it is skipped entirely; for a coding agent, setup or cleanup
        process whose task is found, the task moves to InReview
        (`MarkFailedRows` and `MarkReviewedRows` state the outcome row by
        row). */
    method CleanupOrphanExecutions(running: seq<ProcessId>, failedWrites: set<ProcessId>)
      requires Valid()
      requires forall p :: p in running ==> p in processes && processes[p].status == Running
      modifies this
      ensures Valid()
      ensures processes == MarkFailed(old(processes), Handled(running, failedWrites))
      ensures tasks == MarkReviewed(old(processes), Handled(running, failedWrites), old(tasks))
      ensures projects == old(projects) && nextTaskId == old(nextTaskId) && nextProcessId == old(nextProcessId)
    {
      ghost var handled: seq<ProcessId> := [];
      var i := 0;
      while i < |running|
        invariant 0 <= i <= |running|
        invariant handled == Handled(running[..i], failedWrites)
        invariant processes == MarkFailed(old(processes), handled)
        invariant tasks == MarkReviewed(old(processes), handled, old(tasks))
        invariant projects == old(projects) && nextTaskId == old(nextTaskId) && nextProcessId == old(nextProcessId)
        invariant Valid()
      {
        var pid := running[i];
        assert running[..i + 1][..i] == running[..i];
        if pid !in failedWrites {
          MarkFailedKeepsRows(old(processes), handled, pid);
          if pid in processes {
            var process := processes[pid];
            processes := processes[pid := process.(status := Failed)];
            if ReviewsTaskWhenOrphaned(process.runReason) && process.taskId in tasks {
              UpdateStatus(process.taskId, InReview);
            }
          }
          assert (handled + [pid])[..|handled|] == handled;
          handled := handled + [pid];
        }
        i := i + 1;
      }
      assert running[..i] == running;
    }
  }

  /** The processes of `running` whose status write succeeds, in order. */
  function Handled(running: seq<ProcessId>, failedWrites: set<ProcessId>): (h: seq<ProcessId>)
    ensures forall p :: p in h <==> p in running && p !in failedWrites
  {
    if running == [] then []
    else
      var init := running[..|running| - 1];
      var rest := Handled(init, failedWrites);
      var last := running[|running| - 1];
      assert running == init + [last];
      if last in failedWrites then rest else rest + [last]
  }

  /** The process rows after the processes of `handled` are marked Failed,
      one after the other. */
  function MarkFailed(processes: map<ProcessId, ExecutionProcess>, handled: seq<ProcessId>): map<ProcessId, ExecutionProcess>
  {
    if handled == [] then processes
    else
      var before := MarkFailed(processes, handled[..|handled| - 1]);
      var pid := handled[|handled| - 1];
      if pid in before then before[pid := before[pid].(status := Failed)] else before
  }

  /** The task rows after the orphan cleanup has handled the processes of
      `handled`, looked up in the rows `processes` it started from. */
  function MarkReviewed(processes: map<ProcessId, ExecutionProcess>, handled: seq<ProcessId>,
                        tasks: map<TaskId, Task>): map<TaskId, Task>
  {
    if handled == [] then tasks
    else
      var before := MarkReviewed(processes, handled[..|handled| - 1], tasks);
      var pid := handled[|handled| - 1];
      if pid in processes && ReviewsTaskWhenOrphaned(processes[pid].runReason)
      then WithStatus(before, processes[pid].taskId, InReview)
      else before
  }

  /** Marking processes Failed changes only their status. */
  lemma MarkFailedKeepsRows(processes: map<ProcessId, ExecutionProcess>, handled: seq<ProcessId>, pid: ProcessId)
    ensures pid in MarkFailed(processes, handled) <==> pid in processes
    ensures pid in processes ==>
              MarkFailed(processes, handled)[pid].(status := processes[pid].status) == processes[pid]
  {
    MarkFailedRows(processes, handled);
  }

  /** Row by row, the orphan cleanup's process rows: a handled process is
      Failed and otherwise unchanged, every other row is unchanged, and no
      row appears or disappears. */
  lemma {:induction false} MarkFailedRows(processes: map<ProcessId, ExecutionProcess>, handled: seq<ProcessId>)
    ensures MarkFailed(processes, handled).Keys == processes.Keys
    ensures forall p :: p in processes ==>
              MarkFailed(processes, handled)[p] ==
                if p in handled then processes[p].(status := Failed) else processes[p]
    decreases |handled|
  {
    if handled != [] {
      var init := handled[..|handled| - 1];
      MarkFailedRows(processes, init);
      assert handled == init + [handled[|handled| - 1]];
    }
  }

  /** Row by row, the orphan cleanup's task rows: a task moves to InReview
      exactly when a handled coding agent, setup or cleanup process works for
      it; no row appears or disappears and nothing else changes. */
  lemma {:induction false} MarkReviewedRows(processes: map<ProcessId, ExecutionProcess>, handled: seq<ProcessId>,
                                            tasks: map<TaskId, Task>)
    ensures MarkReviewed(processes, handled, tasks).Keys == tasks.Keys
    ensures forall t :: t in tasks ==>
              MarkReviewed(processes, handled, tasks)[t] ==
                if MarkedByOrphans(processes, handled, t) then tasks[t].(status := InReview) else tasks[t]
    decreases |handled|
  {
    if handled != [] {
      var init := handled[..|handled| - 1];
      var pid := handled[|handled| - 1];
      MarkReviewedRows(processes, init, tasks);
      forall t | t in tasks
        ensures MarkedByOrphans(processes, handled, t) <==>
                  MarkedByOrphans(processes, init, t)
                  || (pid in processes && processes[pid].taskId == t && ReviewsTaskWhenOrphaned(processes[pid].runReason))
      {
        if MarkedByOrphans(processes, init, t) {
          var k :| 0 <= k < |init| && init[k] in processes && processes[init[k]].taskId == t
                   && ReviewsTaskWhenOrphaned(processes[init[k]].runReason);
          assert handled[k] == init[k];
        }
        if MarkedByOrphans(processes, handled, t) {
          var k :| 0 <= k < |handled| && handled[k] in processes && processes[handled[k]].taskId == t
                   && ReviewsTaskWhenOrphaned(processes[handled[k]].runReason);
          if k < |init| {
            assert init[k] == handled[k];
          }
        }
      }
    }
  }
}
