/** How the task service chains the processes of one attempt (setup
    scripts, the coding agent, cleanup scripts), which run reason each chained
    process gets, when a finished process finalizes its task, and the decision
    whether merge conflicts were resolved during a run.

    Executor actions form a linked chain through `nextAction`. The body of
    `ExecutorAction::append_action` is not part of this model: `AppendAction`
    attaches the new action after the last one, which is what its name and its
    callers rely on. */
module ExecutionChain {
  import opened Wrappers

  datatype RunReason = SetupScript | CleanupScript | CodingAgent | DevServer

  datatype ExecutionStatus = Running | Completed | Failed | Killed

  datatype ScriptContext = SetupScriptContext | CleanupScriptContext

  datatype ScriptLanguage = Bash

  datatype ScriptRequest = ScriptRequest(
    script: string, language: ScriptLanguage, context: ScriptContext, workingDir: Option<string>)

  datatype ActionType =
    | Script(request: ScriptRequest)
    | CodingAgentInitial(prompt: string)
    | CodingAgentFollowUp(prompt: string)
  {
    predicate IsCodingAgent() { CodingAgentInitial? || CodingAgentFollowUp? }
  }

  datatype ExecutorAction = ExecutorAction(typ: ActionType, nextAction: Option<ExecutorAction>)

  /** A repository of a project, with its optional setup and cleanup scripts. */
  datatype ProjectRepo = ProjectRepo(
    repoName: string,
    setupScript: Option<string>,
    cleanupScript: Option<string>,
    parallelSetupScript: bool)

  /** The action types of a chain, first to last. */
  function Steps(a: ExecutorAction): (s: seq<ActionType>)
    ensures |s| >= 1 && s[0] == a.typ
    decreases a
  {
    match a.nextAction
    case None => [a.typ]
    case Some(n) => [a.typ] + Steps(n)
  }

  /** The chain `a` with the chain `b` attached after its last action. */
  function AppendAction(a: ExecutorAction, b: ExecutorAction): (r: ExecutorAction)
    ensures Steps(r) == Steps(a) + Steps(b)
    decreases a
  {
    match a.nextAction
    case None => ExecutorAction(a.typ, Some(b))
    case Some(n) => ExecutorAction(a.typ, Some(AppendAction(n, b)))
  }

  /** The chain that runs `steps` in order and then continues with `tail`. */
  function Prepend(steps: seq<ActionType>, tail: ExecutorAction): (r: ExecutorAction)
    ensures Steps(r) == steps + Steps(tail)
  {
    if steps == [] then tail
    else
      var rest := Prepend(steps[1..], tail);
      assert [steps[0]] + (steps[1..] + Steps(tail)) == steps + Steps(tail);
      ExecutorAction(steps[0], Some(rest))
  }

  /** The last action of a chain. */
  function LastAction(a: ExecutorAction): ExecutorAction
    decreases a
  {
    match a.nextAction
    case None => a
    case Some(n) => LastAction(n)
  }

  /** Whatever steps are put in front, the chain still ends with `tail`'s own
      last action. */
  lemma {:induction false} PrependKeepsTail(steps: seq<ActionType>, tail: ExecutorAction)
    ensures LastAction(Prepend(steps, tail)) == LastAction(tail)
    decreases |steps|
  {
    if steps != [] {
      PrependKeepsTail(steps[1..], tail);
    }
  }

  /** A repository's script for the given context, if it has one. */
  function ScriptFor(repo: ProjectRepo, context: ScriptContext): Option<string> {
    match context
    case SetupScriptContext => repo.setupScript
    case CleanupScriptContext => repo.cleanupScript
  }

  /** The Bash script request that runs `script` inside the repository's
      directory. */
  function RequestFor(repo: ProjectRepo, context: ScriptContext, script: string): ActionType {
    Script(ScriptRequest(script, Bash, context, Some(repo.repoName)))
  }

  /** One script step per repository that has a script for `context`, in
      repository order. */
  function ScriptSteps(repos: seq<ProjectRepo>, context: ScriptContext): (s: seq<ActionType>)
    ensures |s| <= |repos|
    ensures forall k :: 0 <= k < |s| ==> s[k].Script? && s[k].request.context == context && s[k].request.language == Bash
    ensures s == [] <==> forall i :: 0 <= i < |repos| ==> ScriptFor(repos[i], context).None?
  {
    if repos == [] then []
    else
      var rest := ScriptSteps(repos[1..], context);
      assert forall i :: 1 <= i < |repos| ==> repos[i] == repos[1..][i - 1];
      match ScriptFor(repos[0], context)
      case Some(script) => [RequestFor(repos[0], context, script)] + rest
      case None => rest
  }

  lemma ScriptStepsCons(repos: seq<ProjectRepo>, i: nat, context: ScriptContext)
    requires i < |repos|
    ensures ScriptSteps(repos[i..], context) ==
            (match ScriptFor(repos[i], context)
             case Some(script) => [RequestFor(repos[i], context, script)]
             case None => []) + ScriptSteps(repos[i + 1..], context)
  {
    assert repos[i..][1..] == repos[i + 1..];
  }

  /** The chain of one script per repository that has one, in repository
      order (`setup_actions_for_repos` / `cleanup_actions_for_repos`): the
      first becomes the root and each further one is appended to it. */
  method ScriptActionsForRepos(repos: seq<ProjectRepo>, context: ScriptContext) returns (r: Option<ExecutorAction>)
    ensures r.None? <==> forall i :: 0 <= i < |repos| ==> ScriptFor(repos[i], context).None?
    ensures r.Some? ==> Steps(r.value) == ScriptSteps(repos, context)
  {
    var requests := ScriptSteps(repos, context);
    if |requests| == 0 {
      return None;
    }
    var root := ExecutorAction(requests[0], None);
    var i := 1;
    while i < |requests|
      invariant 1 <= i <= |requests|
      invariant Steps(root) == requests[..i]
    {
      root := AppendAction(root, ExecutorAction(requests[i], None));
      assert requests[..i] + [requests[i]] == requests[..i + 1];
      i := i + 1;
    }
    assert requests[..i] == requests;
    return Some(root);
  }

  /** `setup_actions_for_repos`. */
  method SetupActionsForRepos(repos: seq<ProjectRepo>) returns (r: Option<ExecutorAction>)
    ensures r.None? <==> forall i :: 0 <= i < |repos| ==> repos[i].setupScript.None?
    ensures r.Some? ==> Steps(r.value) == ScriptSteps(repos, SetupScriptContext)
  {
    r := ScriptActionsForRepos(repos, SetupScriptContext);
  }

  /** `cleanup_actions_for_repos`. */
  method CleanupActionsForRepos(repos: seq<ProjectRepo>) returns (r: Option<ExecutorAction>)
    ensures r.None? <==> forall i :: 0 <= i < |repos| ==> repos[i].cleanupScript.None?
    ensures r.Some? ==> Steps(r.value) == ScriptSteps(repos, CleanupScriptContext)
  {
    r := ScriptActionsForRepos(repos, CleanupScriptContext);
  }

  /** `build_sequential_setup_chain`: walking the repositories backwards,
      wraps `next` in one setup step per repository that has a setup script,
      so the setups run first, in repository order, and then `next`. */
  method BuildSequentialSetupChain(repos: seq<ProjectRepo>, next: ExecutorAction) returns (chained: ExecutorAction)
    ensures chained == Prepend(ScriptSteps(repos, SetupScriptContext), next)
    ensures Steps(chained) == ScriptSteps(repos, SetupScriptContext) + Steps(next)
  {
    chained := next;
    var i := |repos|;
    while i > 0
      invariant 0 <= i <= |repos|
      invariant chained == Prepend(ScriptSteps(repos[i..], SetupScriptContext), next)
    {
      i := i - 1;
      ScriptStepsCons(repos, i, SetupScriptContext);
      match repos[i].setupScript {
        case Some(script) =>
          var step := RequestFor(repos[i], SetupScriptContext, script);
          assert ([step] + ScriptSteps(repos[i + 1..], SetupScriptContext))[1..]
              == ScriptSteps(repos[i + 1..], SetupScriptContext);
          chained := ExecutorAction(step, Some(chained));
        case None =>
      }
    }
    assert repos[0..] == repos;
  }

  /** `all_parallel`: every repository that has a setup script runs it in
      parallel mode (true when none has one). */
  predicate AllParallel(repos: seq<ProjectRepo>) {
    forall i :: 0 <= i < |repos| && repos[i].setupScript.Some? ==> repos[i].parallelSetupScript
  }

  /** The repositories that have a setup script, in order. */
  function ReposWithSetup(repos: seq<ProjectRepo>): (r: seq<ProjectRepo>)
    ensures forall k :: 0 <= k < |r| ==> r[k].setupScript.Some?
    ensures ScriptSteps(r, SetupScriptContext) == ScriptSteps(repos, SetupScriptContext)
  {
    if repos == [] then []
    else
      var rest := ReposWithSetup(repos[1..]);
      if repos[0].setupScript.Some? then
        assert ([repos[0]] + rest)[1..] == rest;
        [repos[0]] + rest
      else rest
  }

  /** One `start_execution` call made by an attempt. */
  datatype StartRequest = StartRequest(action: ExecutorAction, reason: RunReason)

  /** The process starts of `start_attempt` (task service lines 994-1053):
      the coding agent action is followed by the cleanup chain; in parallel
      mode each setup script is started on its own and then the coding agent,
      otherwise one chain runs every setup script and then the coding agent.
      Failures of parallel setup starts are only logged, so every start is
      listed. */
  method StartAttempt(repos: seq<ProjectRepo>, prompt: string) returns (coding: ExecutorAction, starts: seq<StartRequest>)
    ensures coding.typ == CodingAgentInitial(prompt)
    ensures coding.nextAction.None? <==> forall i :: 0 <= i < |repos| ==> repos[i].cleanupScript.None?
    ensures coding.nextAction.Some? ==> Steps(coding.nextAction.value) == ScriptSteps(repos, CleanupScriptContext)
    ensures AllParallel(repos) ==>
              && |starts| == |ScriptSteps(repos, SetupScriptContext)| + 1
              && starts[|starts| - 1] == StartRequest(coding, CodingAgent)
              && forall k :: 0 <= k < |starts| - 1 ==>
                   starts[k] == StartRequest(ExecutorAction(ScriptSteps(repos, SetupScriptContext)[k], None), SetupScript)
    ensures !AllParallel(repos) ==>
              starts == [StartRequest(Prepend(ScriptSteps(repos, SetupScriptContext), coding), SetupScript)]
    ensures (forall i :: 0 <= i < |repos| ==> repos[i].setupScript.None?) ==>
              starts == [StartRequest(coding, CodingAgent)]
  {
    var withSetup := ReposWithSetup(repos);
    var cleanup := CleanupActionsForRepos(repos);
    coding := ExecutorAction(CodingAgentInitial(prompt), cleanup);
    if AllParallel(repos) {
      ghost var setups := ScriptSteps(repos, SetupScriptContext);
      starts := [];
      var i := 0;
      while i < |withSetup|
        invariant 0 <= i <= |withSetup|
        invariant |starts| <= |setups|
        invariant ScriptSteps(withSetup[i..], SetupScriptContext) == setups[|starts|..]
        invariant forall k :: 0 <= k < |starts| ==> starts[k] == StartRequest(ExecutorAction(setups[k], None), SetupScript)
      {
        ScriptStepsCons(withSetup, i, SetupScriptContext);
        var script := withSetup[i].setupScript.value;
        var action := ExecutorAction(RequestFor(withSetup[i], SetupScriptContext, script), None);
        assert setups[|starts|..][0] == setups[|starts|];
        assert setups[|starts|..][1..] == setups[|starts| + 1..];
        starts := starts + [StartRequest(action, SetupScript)];
        i := i + 1;
      }
      assert withSetup[i..] == [];
      starts := starts + [StartRequest(coding, CodingAgent)];
    } else {
      var main := BuildSequentialSetupChain(withSetup, coding);
      starts := [StartRequest(main, SetupScript)];
    }
  }

  /** The run reason of the process started for the next action of a chain
      (`try_start_next_action`). */
  function NextRunReason(current: ActionType, next: ActionType): (r: RunReason)
    ensures next.IsCodingAgent() ==> r == CodingAgent
    ensures next.Script? && current.Script? ==> r == SetupScript
    ensures next.Script? && current.IsCodingAgent() ==> r == CleanupScript
  {
    match (current, next)
    case (Script(_), Script(_)) => SetupScript
    case (CodingAgentInitial(_), Script(_)) => CleanupScript
    case (CodingAgentFollowUp(_), Script(_)) => CleanupScript
    case (_, CodingAgentFollowUp(_)) => CodingAgent
    case (_, CodingAgentInitial(_)) => CodingAgent
  }

  /** `should_finalize`: whether a finished process finalizes its task. */
  function ShouldFinalize(reason: RunReason, status: ExecutionStatus, action: ExecutorAction): (r: bool)
    ensures reason == DevServer ==> !r
    ensures reason == SetupScript && action.nextAction.None? ==> !r
    ensures (&& reason != DevServer
             && !(reason == SetupScript && action.nextAction.None?)
             && (status == Failed || status == Killed)) ==> r
    ensures reason != DevServer && status != Failed && status != Killed ==>
              (r <==> action.nextAction.None? && reason != SetupScript)
  {
    if reason == DevServer then false
    else if reason == SetupScript && action.nextAction.None? then false
    else if status == Failed || status == Killed then true
    else action.nextAction.None?
  }

  /** The run reasons the processes of a chain get, when its first action is
      started with reason `first` and every later one by `try_start_next_action`. */
  function ChainReasons(a: ExecutorAction, first: RunReason): (rs: seq<RunReason>)
    ensures |rs| == |Steps(a)| && rs[0] == first
    decreases a
  {
    match a.nextAction
    case None => [first]
    case Some(n) => [first] + ChainReasons(n, NextRunReason(a.typ, n.typ))
  }

  /** The action at position `k` of a chain. */
  function ActionAt(a: ExecutorAction, k: nat): ExecutorAction
    requires k < |Steps(a)|
    decreases a
  {
    if k == 0 then a
    else
      match a.nextAction
      case Some(n) => ActionAt(n, k - 1)
  }

  /** The coding agent of an attempt whose project has two or more cleanup
      scripts: the first cleanup runs as CleanupScript, but every later
      cleanup follows a script and so runs as SetupScript; the last one has
      no next action, so `should_finalize` refuses to finalize it whatever
      its exit status, and the task is not finalized by the chain. */
  lemma CleanupChainLastStepNeverFinalizes(prompt: string, cleanup: ExecutorAction, status: ExecutionStatus)
    requires forall k :: 0 <= k < |Steps(cleanup)| ==> Steps(cleanup)[k].Script?
    requires |Steps(cleanup)| >= 2
    ensures var coding := ExecutorAction(CodingAgentInitial(prompt), Some(cleanup));
            var rs := ChainReasons(coding, CodingAgent);
            && rs[1] == CleanupScript
            && rs[|rs| - 1] == SetupScript
            && !ShouldFinalize(rs[|rs| - 1], status, ActionAt(coding, |rs| - 1))
  {
    var coding := ExecutorAction(CodingAgentInitial(prompt), Some(cleanup));
    var second := cleanup.nextAction.value;
    assert Steps(cleanup) == [cleanup.typ] + Steps(second);
    assert forall k :: 0 <= k < |Steps(second)| ==> Steps(second)[k] == Steps(cleanup)[k + 1];
    ScriptChainReasons(second, NextRunReason(cleanup.typ, second.typ));
    LastActionAt(second);
  }

  /** Along a chain of scripts, every process after the first runs as
      SetupScript. */
  lemma {:induction false} ScriptChainReasons(a: ExecutorAction, first: RunReason)
    requires forall k :: 0 <= k < |Steps(a)| ==> Steps(a)[k].Script?
    ensures forall k :: 1 <= k < |ChainReasons(a, first)| ==> ChainReasons(a, first)[k] == SetupScript
    ensures ChainReasons(a, first)[0] == first
    decreases a
  {
    match a.nextAction
    case None =>
    case Some(n) =>
      assert Steps(a) == [a.typ] + Steps(n);
      assert forall k :: 0 <= k < |Steps(n)| ==> Steps(n)[k] == Steps(a)[k + 1];
      ScriptChainReasons(n, NextRunReason(a.typ, n.typ));
  }

  /** The last position of a chain holds an action with no next action. */
  lemma {:induction false} LastActionAt(a: ExecutorAction)
    ensures ActionAt(a, |Steps(a)| - 1).nextAction.None?
    decreases a
  {
    match a.nextAction
    case None =>
    case Some(n) =>
      LastActionAt(n);
  }

  /** A repository's conflict state for one run: whether it had conflicts
      when the run started, whether the repository record was found, and the
      two git probes (a rebase in progress, the conflicted files). */
  datatype RepoConflictState = RepoConflictState(
    hadConflictsBefore: bool,
    repoFound: bool,
    rebaseInProgress: bool,
    conflictedFiles: seq<string>)
  {
    predicate HasConflictsNow() { rebaseInProgress || |conflictedFiles| > 0 }
  }

  datatype ConflictCheckError = MissingContainerRef | RepoNotFound(index: nat)

  predicate AnyHadConflictsBefore(states: seq<RepoConflictState>) {
    exists i :: 0 <= i < |states| && states[i].hadConflictsBefore
  }

  /** The outcome of scanning the repository states from position `i` in
      order: the first missing repository is an error, the first repository
      with conflicts ends the scan with false, and a clean scan gives true. */
  function ConflictScan(states: seq<RepoConflictState>, i: nat): (r: Result<bool, ConflictCheckError>)
    requires i <= |states|
    ensures r == Success(true) <==> forall j :: i <= j < |states| ==> states[j].repoFound && !states[j].HasConflictsNow()
    ensures r.Failure? ==> exists j :: i <= j < |states| && !states[j].repoFound
    decreases |states| - i
  {
    if i == |states| then Success(true)
    else if !states[i].repoFound then Failure(RepoNotFound(i))
    else if states[i].HasConflictsNow() then Success(false)
    else ConflictScan(states, i + 1)
  }

  /** The decision of the task service's `check_conflicts_resolved`: false
      when no repository had conflicts before the run; otherwise, after the
      workspace root is resolved, true exactly when every repository is clean
      now, every repository being checked, not only those that had
      conflicts. */
  method CheckConflictsResolved(states: seq<RepoConflictState>, containerRef: Option<string>)
    returns (r: Result<bool, ConflictCheckError>)
    ensures !AnyHadConflictsBefore(states) ==> r == Success(false)
    ensures AnyHadConflictsBefore(states) && containerRef.None? ==> r == Failure(MissingContainerRef)
    ensures AnyHadConflictsBefore(states) && containerRef.Some? ==> r == ConflictScan(states, 0)
    ensures r == Success(true) ==> forall j :: 0 <= j < |states| ==> !states[j].HasConflictsNow()
  {
    var hadConflictsBefore := false;
    var k := 0;
    while k < |states|
      invariant 0 <= k <= |states|
      invariant hadConflictsBefore <==> exists j :: 0 <= j < k && states[j].hadConflictsBefore
    {
      hadConflictsBefore := hadConflictsBefore || states[k].hadConflictsBefore;
      k := k + 1;
    }
    if !hadConflictsBefore {
      return Success(false);
    }
    if containerRef.None? {
      return Failure(MissingContainerRef);
    }
    var i := 0;
    while i < |states|
      invariant 0 <= i <= |states|
      invariant ConflictScan(states, i) == ConflictScan(states, 0)
    {
      if !states[i].repoFound {
        return Failure(RepoNotFound(i));
      }
      if states[i].HasConflictsNow() {
        return Success(false);
      }
      i := i + 1;
    }
    return Success(true);
  }
}
