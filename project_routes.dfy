/** The project routes of the HTTP server that touch the workflow settings
    and the remote-project link: the partial update of a project's workflow
    settings (`PATCH /projects/:id/workflow-config`), the merge helper its
    tests use, and the guards of linking a project to a remote one.

    The project row is the `Project` class; the remote service and the
    database write are parameters of the operations. */
module ProjectRoutes {
  import opened Wrappers
  import opened ConfigV9

  /** The body of the workflow update: `None` leaves a field as it is. For
      the template, `Some(None)` clears it and `Some(Some(t))` sets it. */
  datatype UpdateWorkflowConfigRequest = UpdateWorkflowConfigRequest(
    enableHumanReview: Option<bool>,
    maxAiReviewIterations: Option<U32>,
    testingRequiresManualExit: Option<bool>,
    autoStartAiReview: Option<bool>,
    aiReviewPromptTemplate: Option<Option<string>>)

  const EmptyRequest := UpdateWorkflowConfigRequest(None, None, None, None, None)

  datatype ApiError = BadRequest(message: string) | Conflict(message: string) | Database

  const MaxIterationsMessage: string := "max_ai_review_iterations must be at least 1"
  const EmptyNameMessage: string := "Remote project name cannot be empty."
  const AlreadyLinkedMessage: string := "Project is already linked to a remote project. Unlink it first."

  /** `merge_config`: every field the request carries replaces the
      existing one, every other field is kept. No value is rejected. */
  function MergeConfig(existing: WorkflowConfig, update: UpdateWorkflowConfigRequest): (c: WorkflowConfig)
    ensures c.enableHumanReview == update.enableHumanReview.GetOr(existing.enableHumanReview)
    ensures c.maxAiReviewIterations == update.maxAiReviewIterations.GetOr(existing.maxAiReviewIterations)
    ensures c.testingRequiresManualExit == update.testingRequiresManualExit.GetOr(existing.testingRequiresManualExit)
    ensures c.autoStartAiReview == update.autoStartAiReview.GetOr(existing.autoStartAiReview)
    ensures c.aiReviewPromptTemplate == update.aiReviewPromptTemplate.GetOr(existing.aiReviewPromptTemplate)
  {
    var c := existing;
    var c := if update.enableHumanReview.Some? then c.(enableHumanReview := update.enableHumanReview.value) else c;
    var c := if update.maxAiReviewIterations.Some? then c.(maxAiReviewIterations := update.maxAiReviewIterations.value) else c;
    var c := if update.testingRequiresManualExit.Some? then c.(testingRequiresManualExit := update.testingRequiresManualExit.value) else c;
    var c := if update.autoStartAiReview.Some? then c.(autoStartAiReview := update.autoStartAiReview.value) else c;
    if update.aiReviewPromptTemplate.Some? then c.(aiReviewPromptTemplate := update.aiReviewPromptTemplate.value) else c
  }

  /** The request that carries every field of `second`, and the fields of
      `first` that `second` leaves out. */
  function Combine(first: UpdateWorkflowConfigRequest, second: UpdateWorkflowConfigRequest): UpdateWorkflowConfigRequest {
    UpdateWorkflowConfigRequest(
      if second.enableHumanReview.Some? then second.enableHumanReview else first.enableHumanReview,
      if second.maxAiReviewIterations.Some? then second.maxAiReviewIterations else first.maxAiReviewIterations,
      if second.testingRequiresManualExit.Some? then second.testingRequiresManualExit else first.testingRequiresManualExit,
      if second.autoStartAiReview.Some? then second.autoStartAiReview else first.autoStartAiReview,
      if second.aiReviewPromptTemplate.Some? then second.aiReviewPromptTemplate else first.aiReviewPromptTemplate)
  }

  /** An empty request changes nothing, and a request applied twice has the
      effect of applying it once. */
  lemma MergeEmptyAndIdempotent(existing: WorkflowConfig, update: UpdateWorkflowConfigRequest)
    ensures MergeConfig(existing, EmptyRequest) == existing
    ensures MergeConfig(MergeConfig(existing, update), update) == MergeConfig(existing, update)
  {
  }

  /** Two updates in a row have the effect of one combined update, the later
      one winning field by field. */
  lemma MergeSequence(existing: WorkflowConfig, first: UpdateWorkflowConfigRequest, second: UpdateWorkflowConfigRequest)
    ensures MergeConfig(MergeConfig(existing, first), second) == MergeConfig(existing, Combine(first, second))
  {
  }

  /** `ProjectWorkflowConfig::default()` as derived: every field zero,
      false or absent. It is not the settings a missing or empty stored
      document yields. */
  const ZeroWorkflowConfig := WorkflowConfig(false, 0, false, false, None)

  /** An empty document reads as the serde defaults, which differ from the
      derived default in the iteration limit and two flags; an update that
      leaves the limit out keeps a zero limit as it is. */
  lemma DerivedDefaultIsNotSerdeDefault(update: UpdateWorkflowConfigRequest)
    requires update.maxAiReviewIterations.None?
    ensures WorkflowFromDocument(EmptyWorkflowDocument) == DefaultWorkflowConfig()
    ensures DefaultWorkflowConfig().maxAiReviewIterations == 3 && ZeroWorkflowConfig.maxAiReviewIterations == 0
    ensures MergeConfig(ZeroWorkflowConfig, update).maxAiReviewIterations == 0
  {
  }

  /** The range the route's tests call valid: 1 to 50. */
  predicate IsValidMaxIterations(value: U32) {
    1 <= value <= 50
  }

  /** The checks and the field updates of `update_workflow_config`, before
      the write: a request whose iteration limit is 0 is refused, anything
      else is merged into the current settings. */
  method ApplyWorkflowPatch(current: WorkflowConfig, payload: UpdateWorkflowConfigRequest)
    returns (r: Result<WorkflowConfig, ApiError>)
    ensures r.Failure? <==> payload.maxAiReviewIterations == Some(0)
    ensures r.Failure? ==> r.error == BadRequest(MaxIterationsMessage)
    ensures r.Success? ==> r.value == MergeConfig(current, payload)
    ensures r.Success? ==>
              (r.value.maxAiReviewIterations == 0 <==> current.maxAiReviewIterations == 0 && payload.maxAiReviewIterations.None?)
  {
    var config := current;
    if payload.enableHumanReview.Some? {
      config := config.(enableHumanReview := payload.enableHumanReview.value);
    }
    if payload.maxAiReviewIterations.Some? {
      if payload.maxAiReviewIterations.value == 0 {
        return Failure(BadRequest(MaxIterationsMessage));
      }
      config := config.(maxAiReviewIterations := payload.maxAiReviewIterations.value);
    }
    if payload.testingRequiresManualExit.Some? {
      config := config.(testingRequiresManualExit := payload.testingRequiresManualExit.value);
    }
    if payload.autoStartAiReview.Some? {
      config := config.(autoStartAiReview := payload.autoStartAiReview.value);
    }
    if payload.aiReviewPromptTemplate.Some? {
      config := config.(aiReviewPromptTemplate := payload.aiReviewPromptTemplate.value);
    }
    return Success(config);
  }

  /** The route checks less than its tests' range: a request that sets the
      limit to any value but 0 is accepted and stores that value, including
      every value above 50, which the tests call invalid. */
  method RouteAcceptsBeyondTestedRange(current: WorkflowConfig, v: U32) returns (r: Result<WorkflowConfig, ApiError>)
    requires v != 0
    ensures r.Success? && r.value.maxAiReviewIterations == v
    ensures !IsValidMaxIterations(v) <==> v > 50
  {
    r := ApplyWorkflowPatch(current, EmptyRequest.(maxAiReviewIterations := Some(v)));
  }

  /** Rust's `char::is_whitespace`: the Unicode White_Space characters. */
  predicate IsWhitespace(c: char) {
    || ('\U{9}' <= c <= '\U{D}') || c == ' ' || c == '\U{85}' || c == '\U{A0}' || c == '\U{1680}'
    || ('\U{2000}' <= c <= '\U{200A}') || c == '\U{2028}' || c == '\U{2029}' || c == '\U{202F}'
    || c == '\U{205F}' || c == '\U{3000}'
  }

  /** `str::trim_start`: `s` without its leading whitespace. */
  function TrimStart(s: string): (r: string)
    ensures |r| <= |s| && r == s[|s| - |r|..]
    ensures r != [] ==> !IsWhitespace(r[0])
    ensures forall k :: 0 <= k < |s| - |r| ==> IsWhitespace(s[k])
  {
    if s != [] && IsWhitespace(s[0]) then TrimStart(s[1..]) else s
  }

  /** `str::trim_end`: `s` without its trailing whitespace. */
  function TrimEnd(s: string): (r: string)
    ensures |r| <= |s| && r == s[..|r|]
    ensures r != [] ==> !IsWhitespace(r[|r| - 1])
    ensures forall k :: |r| <= k < |s| ==> IsWhitespace(s[k])
  {
    if s != [] && IsWhitespace(s[|s| - 1]) then TrimEnd(s[..|s| - 1]) else s
  }

  /** `str::trim`. */
  function Trim(s: string): string {
    TrimEnd(TrimStart(s))
  }

  /** A name trims to nothing exactly when it is all whitespace, and
      trimming twice is trimming once (the route trims the name, then tests
      the trimmed name trimmed again). */
  lemma TrimProperties(s: string)
    ensures Trim(s) == [] <==> forall k :: 0 <= k < |s| ==> IsWhitespace(s[k])
    ensures Trim(Trim(s)) == Trim(s)
  {
    var st := TrimStart(s);
    var t := Trim(s);
    if t != [] {
      assert t == st[..|t|];
      assert !IsWhitespace(t[0]);
      assert TrimStart(t) == t;
    }
  }

  type RemoteProjectId = nat

  /** A project row, as far as these routes read and write it. */
  class Project {
    var workflowConfig: Option<WorkflowConfig>
    var remoteProjectId: Option<RemoteProjectId>

    /** `Project::get_workflow_config`: the stored settings, or the defaults. */
    function GetWorkflowConfig(): (c: WorkflowConfig)
      reads this
      ensures workflowConfig.None? ==> c == DefaultWorkflowConfig()
      ensures workflowConfig.Some? ==> c == workflowConfig.value
    {
      workflowConfig.GetOr(DefaultWorkflowConfig())
    }

    /** `update_workflow_config`: merges the request into the current
        settings, refuses an iteration limit of 0 before writing anything,
        and otherwise stores and returns the merged settings (when the
        database write fails, nothing is stored). */
    method UpdateWorkflowConfig(payload: UpdateWorkflowConfigRequest, writeSucceeds: bool)
      returns (r: Result<WorkflowConfig, ApiError>)
      modifies this
      ensures payload.maxAiReviewIterations == Some(0) ==>
                r == Failure(BadRequest(MaxIterationsMessage)) && workflowConfig == old(workflowConfig)
      ensures payload.maxAiReviewIterations != Some(0) && !writeSucceeds ==>
                r == Failure(Database) && workflowConfig == old(workflowConfig)
      ensures payload.maxAiReviewIterations != Some(0) && writeSucceeds ==>
                && r == Success(MergeConfig(old(GetWorkflowConfig()), payload))
                && workflowConfig == Some(r.value)
                && GetWorkflowConfig() == r.value
      ensures remoteProjectId == old(remoteProjectId)
    {
      var patched := ApplyWorkflowPatch(GetWorkflowConfig(), payload);
      if patched.Failure? {
        return Failure(patched.error);
      }
      if !writeSucceeds {
        return Failure(Database);
      }
      workflowConfig := Some(patched.value);
      r := Success(GetWorkflowConfig());
    }

    /** `apply_remote_project_link`: a project already linked is refused;
        otherwise it is linked to `remote`. */
    method ApplyRemoteProjectLink(remote: RemoteProjectId) returns (r: Result<(), ApiError>)
      modifies this
      ensures old(remoteProjectId).Some? ==> r == Failure(Conflict(AlreadyLinkedMessage)) && remoteProjectId == old(remoteProjectId)
      ensures old(remoteProjectId).None? ==> r == Success(()) && remoteProjectId == Some(remote)
      ensures workflowConfig == old(workflowConfig)
    {
      if remoteProjectId.Some? {
        return Failure(Conflict(AlreadyLinkedMessage));
      }
      remoteProjectId := Some(remote);
      r := Success(());
    }

    /** `create_and_link_remote_project`: a name that trims to nothing is
        refused before the remote service is called; otherwise a remote
        project under the trimmed name is created (`created` is the id the
        service gives it; `requested` the name sent) and then linked. The
        remote project is created even when the link is then refused. */
    method CreateAndLinkRemoteProject(name: string, created: RemoteProjectId)
      returns (r: Result<(), ApiError>, requested: Option<string>)
      modifies this
      ensures (forall k :: 0 <= k < |name| ==> IsWhitespace(name[k])) ==>
                r == Failure(Conflict(EmptyNameMessage)) && requested.None? && remoteProjectId == old(remoteProjectId)
      ensures !(forall k :: 0 <= k < |name| ==> IsWhitespace(name[k])) ==>
                && requested == Some(Trim(name))
                && requested.value != []
                && (old(remoteProjectId).Some? ==> r == Failure(Conflict(AlreadyLinkedMessage)) && remoteProjectId == old(remoteProjectId))
                && (old(remoteProjectId).None? ==> r == Success(()) && remoteProjectId == Some(created))
      ensures workflowConfig == old(workflowConfig)
    {
      var repoName := Trim(name);
      TrimProperties(name);
      if Trim(repoName) == [] {
        return Failure(Conflict(EmptyNameMessage)), None;
      }
      requested := Some(repoName);
      r := ApplyRemoteProjectLink(created);
    }
  }
}
