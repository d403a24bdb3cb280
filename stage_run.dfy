/** The whole run of a staged action: the groups it visits when every
    queued stage is delivered once. The run is driven only by the mixin's
    `next_group_index`; what this module assumes of it is stated in
    `WalksInDirection`. */
module StageRun {
  import opened ServiceTypes
  import opened GroupDispatch

  /** A direction that a lifecycle verb uses: +1 walks from group 0 up,
      -1 walks from the last group down. */
  predicate IsDirection(direction: int) { direction == 1 || direction == -1 }

  /** The stage after `(groupIdx, direction)` lies inside
      `[0, last_group_index]` and strictly further in `direction`. */
  predicate StepsInDirection(plan: GroupPlan, groupIdx: int, direction: int)
  {
    match plan.nextGroupIndex(groupIdx, direction)
    case None => true
    case Some(j) =>
      0 <= j <= plan.lastGroupIndex && (direction == 1 ==> j > groupIdx) && (direction == -1 ==> j < groupIdx)
  }

  /** What the run lemmas assume of the mixin: group indices start at 0, and
      every next index moves in the walk's direction without leaving the
      range of groups. */
  ghost predicate WalksInDirection(plan: GroupPlan)
  {
    0 <= plan.lastGroupIndex &&
    forall i, d :: IsDirection(d) ==> StepsInDirection(plan, i, d)
  }

  /** How far a walk from `groupIdx` can still go. */
  function Remaining(plan: GroupPlan, groupIdx: int, direction: int): int
  {
    if direction == 1 then plan.lastGroupIndex - groupIdx else groupIdx
  }

  /** The groups a run starting at `groupIdx` processes, in order: this one,
      then the run from the next index, until there is none. */
  function RunFrom(plan: GroupPlan, groupIdx: int, direction: int): (run: seq<int>)
    requires WalksInDirection(plan) && IsDirection(direction)
    requires 0 <= groupIdx <= plan.lastGroupIndex
    ensures |run| >= 1 && run[0] == groupIdx
    decreases Remaining(plan, groupIdx, direction)
  {
    assert StepsInDirection(plan, groupIdx, direction);
    match plan.nextGroupIndex(groupIdx, direction)
    case None => [groupIdx]
    case Some(j) => [groupIdx] + RunFrom(plan, j, direction)
  }

  /** The first step of a run: this group, then the run from the next. */
  lemma RunStep(plan: GroupPlan, groupIdx: int, direction: int)
    requires WalksInDirection(plan) && IsDirection(direction)
    requires 0 <= groupIdx <= plan.lastGroupIndex
    ensures StepsInDirection(plan, groupIdx, direction)
    ensures plan.nextGroupIndex(groupIdx, direction).None? ==> RunFrom(plan, groupIdx, direction) == [groupIdx]
    ensures plan.nextGroupIndex(groupIdx, direction).Some? ==>
      var j := plan.nextGroupIndex(groupIdx, direction).value;
      && 0 <= j <= plan.lastGroupIndex
      && Remaining(plan, j, direction) < Remaining(plan, groupIdx, direction)
      && RunFrom(plan, groupIdx, direction) == [groupIdx] + RunFrom(plan, j, direction)
  {
    assert StepsInDirection(plan, groupIdx, direction);
  }

  /** A start run walks up from group 0, a stop-class run down from the
      last group. */
  function StartingGroup(plan: GroupPlan, direction: int): int
  {
    if direction == 1 then 0 else plan.lastGroupIndex
  }

  /** Every group of a run lies in `[0, last_group_index]`, and the run
      moves strictly in its direction: up for +1, down for -1. */
  lemma {:induction false} RunIsMonotone(plan: GroupPlan, groupIdx: int, direction: int)
    requires WalksInDirection(plan) && IsDirection(direction)
    requires 0 <= groupIdx <= plan.lastGroupIndex
    ensures var run := RunFrom(plan, groupIdx, direction);
      && run[0] == groupIdx
      && (forall k :: 0 <= k < |run| ==> 0 <= run[k] <= plan.lastGroupIndex)
      && (forall k :: 0 < k < |run| ==> (if direction == 1 then run[k - 1] < run[k] else run[k - 1] > run[k]))
    decreases Remaining(plan, groupIdx, direction)
  {
    assert StepsInDirection(plan, groupIdx, direction);
    var run := RunFrom(plan, groupIdx, direction);
    match plan.nextGroupIndex(groupIdx, direction)
    case None =>
    case Some(j) =>
      RunIsMonotone(plan, j, direction);
      var rest := RunFrom(plan, j, direction);
      assert run == [groupIdx] + rest;
      forall k | 0 < k < |run|
        ensures if direction == 1 then run[k - 1] < run[k] else run[k - 1] > run[k]
      {
        if k > 1 { assert run[k - 1] == rest[k - 2] && run[k] == rest[k - 1]; }
      }
  }

  /** A run never visits a group twice, so it ends after at most
      `last_group_index + 1` stages. */
  lemma {:induction false} RunIsShort(plan: GroupPlan, groupIdx: int, direction: int)
    requires WalksInDirection(plan) && IsDirection(direction)
    requires 0 <= groupIdx <= plan.lastGroupIndex
    ensures |RunFrom(plan, groupIdx, direction)| <= Remaining(plan, groupIdx, direction) + 1
    decreases Remaining(plan, groupIdx, direction)
  {
    assert StepsInDirection(plan, groupIdx, direction);
    match plan.nextGroupIndex(groupIdx, direction)
    case None =>
    case Some(j) =>
      RunIsShort(plan, j, direction);
  }

  /** A run from its starting group visits groups in the order the verb
      asks for: a start run begins at group 0, a stop-class run at the last
      group, and every later group lies strictly further in that
      direction. */
  lemma RunOrder(plan: GroupPlan, direction: int)
    requires WalksInDirection(plan) && IsDirection(direction)
    ensures var run := RunFrom(plan, StartingGroup(plan, direction), direction);
      && run[0] == (if direction == 1 then 0 else plan.lastGroupIndex)
      && |run| <= plan.lastGroupIndex + 1
      && (forall k :: 0 < k < |run| ==> (if direction == 1 then run[k - 1] < run[k] else run[k - 1] > run[k]))
  {
    RunIsMonotone(plan, StartingGroup(plan, direction), direction);
    RunIsShort(plan, StartingGroup(plan, direction), direction);
  }

  /** The invocations a run makes over the groups `run`, stage by stage. */
  function InvokedAlong(plan: GroupPlan, action: ActionName, run: seq<int>): seq<Call>
  {
    if run == [] then []
    else Invoked(action, plan.eachGroupResource(run[0])) + InvokedAlong(plan, action, run[1..])
  }

  /** The log lines a run writes over the groups `run`, stage by stage. */
  function DispatchLogAlong(plan: GroupPlan, action: ActionName, run: seq<int>): seq<LogEntry>
  {
    if run == [] then []
    else DispatchLog(action, run[0], plan.eachGroupResource(run[0])) + DispatchLogAlong(plan, action, run[1..])
  }

  /** A run's invocations and log lines are those of its first stage
      followed by those of the run from the next group. */
  lemma AlongRunStep(plan: GroupPlan, action: ActionName, groupIdx: int, direction: int)
    requires WalksInDirection(plan) && IsDirection(direction)
    requires 0 <= groupIdx <= plan.lastGroupIndex
    ensures var run := RunFrom(plan, groupIdx, direction);
      var group := plan.eachGroupResource(groupIdx);
      match plan.nextGroupIndex(groupIdx, direction)
      case None =>
        && InvokedAlong(plan, action, run) == Invoked(action, group)
        && DispatchLogAlong(plan, action, run) == DispatchLog(action, groupIdx, group)
      case Some(j) =>
        && 0 <= j <= plan.lastGroupIndex
        && InvokedAlong(plan, action, run) == Invoked(action, group) + InvokedAlong(plan, action, RunFrom(plan, j, direction))
        && DispatchLogAlong(plan, action, run) == DispatchLog(action, groupIdx, group) + DispatchLogAlong(plan, action, RunFrom(plan, j, direction))
  {
    RunStep(plan, groupIdx, direction);
    var run := RunFrom(plan, groupIdx, direction);
    match plan.nextGroupIndex(groupIdx, direction)
    case None =>
      assert run[1..] == [];
    case Some(j) =>
      assert run[1..] == RunFrom(plan, j, direction);
  }

  lemma AppendAssoc<T>(a: seq<T>, b: seq<T>, c: seq<T>)
    ensures (a + b) + c == a + (b + c)
  {
  }

  /** `after` is `before` followed by one stage record per group of
      `groups`, in order, each carrying `action` and `direction`. */
  ghost predicate StagesQueued(before: seq<QueueRecord>, after: seq<QueueRecord>,
                               action: ActionName, groups: seq<int>, direction: int)
  {
    && |after| == |before| + |groups|
    && after[..|before|] == before
    && forall k :: 0 <= k < |groups| ==> after[|before| + k].args == StageArgs(action, groups[k], direction)
  }

  lemma StagesQueuedChain(q0: seq<QueueRecord>, q1: seq<QueueRecord>, q2: seq<QueueRecord>,
                          action: ActionName, first: int, rest: seq<int>, direction: int)
    requires StagesQueued(q0, q1, action, [first], direction)
    requires StagesQueued(q1, q2, action, rest, direction)
    ensures StagesQueued(q0, q2, action, [first] + rest, direction)
  {
    var groups := [first] + rest;
    assert q2[..|q0|] == q1[..|q0|];
    forall k | 0 <= k < |groups|
      ensures q2[|q0| + k].args == StageArgs(action, groups[k], direction)
    {
      if k == 0 {
        assert q2[|q0|] == q1[|q0|];
      } else {
        assert q2[|q0| + k] == q2[|q1| + (k - 1)];
      }
    }
  }
}
