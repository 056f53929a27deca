/** The task status workflow and the check that decides which status changes
    a project's workflow settings allow (`validate_status_transition`). */
module StatusTransition {
  import opened Wrappers
  import opened ConfigV9

  datatype TaskStatus = Todo | InProgress | Testing | InReview | HumanReview | Done | Cancelled

  predicate IsTerminal(s: TaskStatus) {
    s == Done || s == Cancelled
  }

  /** `enable_human_review`, false when the project has no settings. */
  function HumanReviewEnabled(config: Option<WorkflowConfig>): bool {
    match config
    case Some(c) => c.enableHumanReview
    case None => false
  }

  /** `testing_requires_manual_exit`, true when the project has no settings. */
  function TestingRequiresManualExit(config: Option<WorkflowConfig>): bool {
    match config
    case Some(c) => c.testingRequiresManualExit
    case None => true
  }

  /** Why a status change is refused. Each reason stands for one fixed
      message of the source; `Message` gives its text. */
  datatype Rejection =
    | HumanReviewNotEnabled
    | TestingRequiresManualExitRule
    | UseReviewResultHandler
    | OnlyInProgressEntersTesting
    | OnlyInReviewEntersHumanReview
    | MustStartInProgress
    | CannotEnterTodo
    | CannotLeaveDone
    | CannotLeaveCancelled
    | InvalidTransition

  function Message(reason: Rejection): string {
    match reason
    case HumanReviewNotEnabled => "Human Review is not enabled for this project"
    case TestingRequiresManualExitRule =>
      "Testing phase requires manual exit - tasks must go through Testing before AI Review"
    case UseReviewResultHandler => "Use AI review result handler instead"
    case OnlyInProgressEntersTesting => "Only InProgress tasks can enter Testing"
    case OnlyInReviewEntersHumanReview => "Only InReview tasks can enter Human Review"
    case MustStartInProgress => "Tasks must start in InProgress"
    case CannotEnterTodo => "Cannot transition to Todo status"
    case CannotLeaveDone => "Cannot transition from Done"
    case CannotLeaveCancelled => "Cannot transition from Cancelled"
    case InvalidTransition => "Invalid status transition"
  }

  /** The reason given for a pair that no explicit arm of the table accepts,
      tried in the source's order: entering Testing, entering Human Review,
      leaving Todo, entering Todo, leaving Done, leaving Cancelled. */
  function FallbackReason(from: TaskStatus, to: TaskStatus): Rejection {
    if to == Testing && from != InProgress then OnlyInProgressEntersTesting
    else if to == HumanReview && from != InReview then OnlyInReviewEntersHumanReview
    else if from == Todo then MustStartInProgress
    else if to == Todo then CannotEnterTodo
    else if from == Done then CannotLeaveDone
    else if from == Cancelled then CannotLeaveCancelled
    else InvalidTransition
  }

  /** The accepted status changes, listed by target status: an independent
      statement of the table, against which the validator is proved. */
  predicate Permitted(from: TaskStatus, to: TaskStatus, humanReview: bool, manualExit: bool) {
    || from == to
    || (to == InProgress && (from == Todo || from == Testing || from == HumanReview))
    || (to == Testing && from == InProgress)
    || (to == InReview && (from == Testing || (from == InProgress && !manualExit)))
    || (to == HumanReview && from == InReview && humanReview)
    || (to == Done && (from == InProgress || from == Testing || from == InReview || from == HumanReview))
    || (to == Cancelled && !IsTerminal(from))
  }

  /** `validate_status_transition`: success when `from -> to` is allowed
      under the project's settings (`None` when it has none), otherwise the
      reason it is not. A change to the same status is always accepted. */
  function ValidateStatusTransition(from: TaskStatus, to: TaskStatus, config: Option<WorkflowConfig>): (r: Result<(), Rejection>)
    ensures r.Success? <==> Permitted(from, to, HumanReviewEnabled(config), TestingRequiresManualExit(config))
    ensures from == to ==> r.Success?
    ensures from != to && IsTerminal(from) ==> r.Failure?
    ensures from != to && to == Todo ==> r.Failure?
    ensures from == InReview && to == InProgress ==> r == Failure(UseReviewResultHandler)
    ensures from == InReview && to == HumanReview ==>
              (r.Success? <==> HumanReviewEnabled(config))
    ensures from == InProgress && to == InReview ==>
              (r.Success? <==> !TestingRequiresManualExit(config))
    ensures from != to && to == Testing ==> (r.Success? <==> from == InProgress)
    ensures from != to && to == HumanReview ==> (r.Success? ==> from == InReview)
  {
    if from == to then
      Success(())
    else
      var enableHumanReview := HumanReviewEnabled(config);
      var testingRequiresManualExit := TestingRequiresManualExit(config);
      match (from, to)
      case (Todo, InProgress) => Success(())
      case (InProgress, Testing) => Success(())
      case (Testing, InReview) => Success(())
      case (Testing, InProgress) => Success(())  // back to work for revisions
      case (Testing, Done) => Success(())
      case (Testing, Cancelled) => Success(())
      case (InReview, Done) => Success(())
      case (InReview, Cancelled) => Success(())
      case (HumanReview, Done) => Success(())
      case (HumanReview, InProgress) => Success(())  // rejected back to work
      case (HumanReview, Cancelled) => Success(())
      case (InProgress, Done) => Success(())
      case (InProgress, Cancelled) => Success(())
      case (Todo, Cancelled) => Success(())
      case (InReview, HumanReview) =>
        if enableHumanReview then Success(()) else Failure(HumanReviewNotEnabled)
      case (InProgress, InReview) =>
        // the Testing bypass
        if testingRequiresManualExit then Failure(TestingRequiresManualExitRule) else Success(())
      case (InReview, InProgress) => Failure(UseReviewResultHandler)
      case _ => Failure(FallbackReason(from, to))
  }

  /** A project without settings is treated exactly like one with human
      review off and a manual Testing exit; the other three settings never
      matter. */
  lemma AbsentConfigActsAsDefaults(from: TaskStatus, to: TaskStatus, c: WorkflowConfig)
    requires !c.enableHumanReview && c.testingRequiresManualExit
    ensures ValidateStatusTransition(from, to, None) == ValidateStatusTransition(from, to, Some(c))
  {
  }

  /** Every consecutive pair of `path` is accepted under `config`. */
  predicate AcceptedPath(path: seq<TaskStatus>, config: Option<WorkflowConfig>) {
    forall i :: 0 <= i < |path| - 1 ==> ValidateStatusTransition(path[i], path[i + 1], config).Success?
  }

  /** Done and Cancelled are absorbing: an accepted path that reaches one of
      them stays there. */
  lemma {:induction false} TerminalIsAbsorbing(path: seq<TaskStatus>, config: Option<WorkflowConfig>, i: nat)
    requires AcceptedPath(path, config)
    requires i < |path| && IsTerminal(path[i])
    ensures forall j :: i <= j < |path| ==> path[j] == path[i]
    decreases |path| - i
  {
    if i + 1 < |path| {
      assert ValidateStatusTransition(path[i], path[i + 1], config).Success?;
      TerminalIsAbsorbing(path, config, i + 1);
    }
  }

  /** Once a task has left Todo no accepted path brings it back. */
  lemma {:induction false} NoReturnToTodo(path: seq<TaskStatus>, config: Option<WorkflowConfig>, i: nat)
    requires AcceptedPath(path, config)
    requires i < |path| && path[i] != Todo
    ensures forall j :: i <= j < |path| ==> path[j] != Todo
    decreases |path| - i
  {
    if i + 1 < |path| {
      assert ValidateStatusTransition(path[i], path[i + 1], config).Success?;
      NoReturnToTodo(path, config, i + 1);
    }
  }

  /** With human review off, no accepted path from Todo ever reaches
      HumanReview. */
  lemma {:induction false} HumanReviewUnreachableWhenDisabled(path: seq<TaskStatus>, config: Option<WorkflowConfig>, i: nat)
    requires !HumanReviewEnabled(config)
    requires AcceptedPath(path, config)
    requires i < |path| && path[i] != HumanReview
    ensures forall j :: i <= j < |path| ==> path[j] != HumanReview
    decreases |path| - i
  {
    if i + 1 < |path| {
      assert ValidateStatusTransition(path[i], path[i + 1], config).Success?;
      HumanReviewUnreachableWhenDisabled(path, config, i + 1);
    }
  }
}
