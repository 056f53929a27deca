/** The conflict-resolution decision as the service's integration tests
    simulate it, with its own small status enums, and how the simulation
    relates to the task service's own check. */
module ConflictResolutionSim {
  import Chain = ExecutionChain
  import opened Wrappers

  /** No pair of the two lists, taken position by position up to the
      shorter one, had conflicts before and has them now. */
  function NoPairStillConflicted(hadBefore: seq<bool>, current: seq<bool>): (r: bool)
    ensures r <==> forall i :: 0 <= i < |hadBefore| && i < |current| ==> !(hadBefore[i] && current[i])
  {
    if hadBefore == [] || current == [] then true
    else if hadBefore[0] && current[0] then false
    else
      var r := NoPairStillConflicted(hadBefore[1..], current[1..]);
      assert forall i :: 1 <= i < |hadBefore| && i < |current| ==>
               hadBefore[i] == hadBefore[1..][i - 1] && current[i] == current[1..][i - 1];
      r
  }

  /** The simulated `check_conflicts_resolved`: true when some repository had
      conflicts before and no repository that had them still has them.
      Repositories without conflicts before are not looked at, and entries
      past the shorter list are ignored. */
  function CheckConflictsResolved(hadBefore: seq<bool>, current: seq<bool>): (r: bool)
    ensures hadBefore == [] ==> !r
    ensures (forall i :: 0 <= i < |hadBefore| ==> !hadBefore[i]) ==> !r
    ensures r <==> (exists i :: 0 <= i < |hadBefore| && hadBefore[i])
                   && forall i :: 0 <= i < |hadBefore| && i < |current| ==> !(hadBefore[i] && current[i])
  {
    var hadConflicts := exists i :: 0 <= i < |hadBefore| && hadBefore[i];
    if !hadConflicts then false
    else NoPairStillConflicted(hadBefore, current)
  }

  datatype TaskStatus = InProgress | InReview | Done

  datatype ExecutionStatus = Running | Completed | Failed | Killed

  /** The simulated final status: a completed run moves to Done exactly when
      its conflicts were resolved, a failed or killed one stays in review,
      and a running one stays in progress. */
  function DetermineFinalStatus(status: ExecutionStatus, conflictsResolved: bool): (r: TaskStatus)
    ensures r == Done <==> status == Completed && conflictsResolved
    ensures r == InProgress <==> status == Running
    ensures r == InReview <==> (status == Completed && !conflictsResolved) || status == Failed || status == Killed
  {
    match status
    case Completed => if conflictsResolved then Done else InReview
    case Failed => InReview
    case Killed => InReview
    case Running => InProgress
  }

  /** The conflict flags of the service's repository states. */
  function HadFlags(states: seq<Chain.RepoConflictState>): (r: seq<bool>)
    ensures |r| == |states| && forall i :: 0 <= i < |r| ==> r[i] == states[i].hadConflictsBefore
  {
    seq(|states|, i requires 0 <= i < |states| => states[i].hadConflictsBefore)
  }

  function CurrentFlags(states: seq<Chain.RepoConflictState>): (r: seq<bool>)
    ensures |r| == |states| && forall i :: 0 <= i < |r| ==> r[i] == states[i].HasConflictsNow()
  {
    seq(|states|, i requires 0 <= i < |states| => states[i].HasConflictsNow())
  }

  /** The service is stricter than the simulation: whenever the service
      reports the conflicts resolved, the simulation does too. */
  lemma ServiceImpliesSimulation(states: seq<Chain.RepoConflictState>)
    requires Chain.AnyHadConflictsBefore(states)
    requires Chain.ConflictScan(states, 0) == Success(true)
    ensures CheckConflictsResolved(HadFlags(states), CurrentFlags(states))
  {
    var i :| 0 <= i < |states| && states[i].hadConflictsBefore;
    assert HadFlags(states)[i];
  }

  /** The converse fails: a repository that had no conflicts before but has
      them now is ignored by the simulation and not by the service. */
  lemma SimulationIgnoresNewConflicts()
    ensures var states := [Chain.RepoConflictState(true, true, false, []),
                           Chain.RepoConflictState(false, true, true, [])];
            && CheckConflictsResolved(HadFlags(states), CurrentFlags(states))
            && Chain.ConflictScan(states, 0) == Success(false)
  {
    var states := [Chain.RepoConflictState(true, true, false, []),
                   Chain.RepoConflictState(false, true, true, [])];
    assert HadFlags(states)[0];
    assert CurrentFlags(states) == [false, true];
    assert HadFlags(states) == [true, false];
  }
}
