/**
 * Facts about a task list shared by both academic components: which tasks a
 * completion toggle credits, and the completion-time invariant.
 */
module Tasks {
  import opened Wrappers
  import opened Storage
  import opened Seqs

  /** The tasks whose toggle earns XP: the id matches and the task was not completed. */
  function EarnsXP(id: TaskId): Task -> bool {
    (t: Task) => t.id == id && !t.completed
  }

  /** The number of tasks in `ts` whose toggle earns XP, counted from the end. */
  function Earned(ts: seq<Task>, id: TaskId): nat {
    if ts == [] then 0
    else Earned(ts[..|ts| - 1], id) + (if EarnsXP(id)(ts[|ts| - 1]) then 1 else 0)
  }

  /** `Earned` counts exactly the tasks the XP filter keeps. */
  lemma {:induction false} EarnedIsFilterCount(ts: seq<Task>, id: TaskId)
    ensures Earned(ts, id) == |Filter(ts, EarnsXP(id))|
    decreases |ts|
  {
    if ts != [] {
      var n := |ts| - 1;
      EarnedIsFilterCount(ts[..n], id);
      assert ts == ts[..n] + [ts[n]];
      FilterAppend(ts[..n], [ts[n]], EarnsXP(id));
    }
  }

  /** Scanning one more task adds one credit exactly when that task earns XP. */
  lemma EarnedStep(ts: seq<Task>, i: nat, id: TaskId)
    requires i < |ts|
    ensures Earned(ts[..i + 1], id) == Earned(ts[..i], id) + (if ts[i].id == id && !ts[i].completed then 1 else 0)
  {
    assert ts[..i + 1][..i] == ts[..i];
  }

  /** A task's completion time is present exactly when it is completed. */
  predicate CompletionTimed(ts: seq<Task>) {
    forall i :: 0 <= i < |ts| ==> (ts[i].completedAt.Some? <==> ts[i].completed)
  }

  /** No XP is credited exactly when no task with the id is pending. */
  lemma {:induction false} EarnedZero(ts: seq<Task>, id: TaskId)
    ensures Earned(ts, id) == 0 <==> forall i :: 0 <= i < |ts| ==> ts[i].id != id || ts[i].completed
    decreases |ts|
  {
    if ts != [] {
      var n := |ts| - 1;
      EarnedZero(ts[..n], id);
      assert forall i :: 0 <= i < n ==> ts[..n][i] == ts[i];
    }
  }
}
