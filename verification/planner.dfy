/**
 * The academic planner (`AcademicPlanner`): string-id tasks with a type, a
 * priority and a completion time, saved under the shared task key; 20 XP
 * for each task that becomes completed.
 */
module Planner {
  import opened Wrappers
  import opened Storage
  import opened Seqs
  import Gamification
  import opened Tasks

  datatype View = AllView | PendingView | CompletedView

  /** The add-task form. */
  datatype TaskForm = TaskForm(title: string, description: string, kind: TaskType, subject: string, dueDate: string, priority: Priority)

  const EmptyForm := TaskForm("", "", Assignment, "", "", NormalPriority)
  const CompletionXP := 20

  /** The task `handleAddTask` builds from the form: not completed, no completion time. */
  function NewTask(id: string, f: TaskForm): Task {
    Task(StrId(id), f.title, f.description, f.subject, f.dueDate, false, Some(f.kind), Some(f.priority), None, None)
  }

  /** One task toggled: the flag flips; the completion time is set on completing and cleared otherwise. */
  function Toggled(t: Task, now: string): Task {
    t.(completed := !t.completed, completedAt := if !t.completed then Some(now) else None)
  }

  /** `toggleTaskCompletion`'s new list: every task with the id toggled, the rest as they were. */
  function ToggleMatching(ts: seq<Task>, id: TaskId, now: string): (r: seq<Task>)
    ensures |r| == |ts|
    ensures forall i :: 0 <= i < |ts| && ts[i].id != id ==> r[i] == ts[i]
    ensures forall i :: 0 <= i < |ts| && ts[i].id == id ==> r[i] == Toggled(ts[i], now)
  {
    seq(|ts|, i requires 0 <= i < |ts| => if ts[i].id == id then Toggled(ts[i], now) else ts[i])
  }

  predicate IsPending(t: Task) {
    !t.completed
  }

  predicate IsDone(t: Task) {
    t.completed
  }

  /**
   * `getFilteredTasks`: every task for the all view; otherwise exactly the
   * tasks of the chosen status, in their original order.
   */
  function FilteredTasks(ts: seq<Task>, view: View): (r: seq<Task>)
    ensures view == AllView ==> r == ts
    ensures IsSubsequence(r, ts)
    ensures view == PendingView ==> forall t :: t in r <==> t in ts && !t.completed
    ensures view == CompletedView ==> forall t :: t in r <==> t in ts && t.completed
  {
    match view
    case AllView =>
      SubsequenceOfSelf(ts);
      ts
    case PendingView =>
      FilterIsSubsequence(ts, IsPending);
      forall t ensures t in Filter(ts, IsPending) <==> t in ts && !t.completed {
        FilterMembership(ts, IsPending, t);
      }
      Filter(ts, IsPending)
    case CompletedView =>
      FilterIsSubsequence(ts, IsDone);
      forall t ensures t in Filter(ts, IsDone) <==> t in ts && t.completed {
        FilterMembership(ts, IsDone, t);
      }
      Filter(ts, IsDone)
  }

  /** The completed count shown in the header. */
  function CompletedCount(ts: seq<Task>): nat {
    |Filter(ts, IsDone)|
  }

  /** The pending and completed views together hold every task once. */
  lemma StatusCountsAddUp(ts: seq<Task>)
    ensures |FilteredTasks(ts, PendingView)| + |FilteredTasks(ts, CompletedView)| == |ts|
    ensures CompletedCount(ts) == |FilteredTasks(ts, CompletedView)|
  {
    FilterPartition(ts, IsPending, IsDone);
  }

  /**
   * Toggling a task twice restores its completed flag and every field but
   * the completion time, which ends up set (to the second toggle's time)
   * exactly when the task is completed again.
   */
  lemma ToggleTwice(ts: seq<Task>, id: TaskId, first: string, second: string)
    ensures var r := ToggleMatching(ToggleMatching(ts, id, first), id, second);
      && |r| == |ts|
      && forall i :: 0 <= i < |ts| ==>
           && r[i].completed == ts[i].completed
           && r[i].(completedAt := ts[i].completedAt) == ts[i]
           && (ts[i].id == id ==> r[i].completedAt == if ts[i].completed then Some(second) else None)
  {
  }

  /** Toggling keeps "completion time present exactly when completed", and new tasks satisfy it. */
  lemma ToggleKeepsCompletionTimed(ts: seq<Task>, id: TaskId, now: string, newId: string, f: TaskForm)
    requires CompletionTimed(ts)
    ensures CompletionTimed(ToggleMatching(ts, id, now))
    ensures CompletionTimed(ts + [NewTask(newId, f)])
  {
  }

  /** Under that invariant, toggling a pending task twice gives the task list back unchanged. */
  lemma ToggleTwiceRestoresPending(ts: seq<Task>, id: TaskId, first: string, second: string)
    requires CompletionTimed(ts)
    requires forall i :: 0 <= i < |ts| && ts[i].id == id ==> !ts[i].completed
    ensures ToggleMatching(ToggleMatching(ts, id, first), id, second) == ts
  {
    var r := ToggleMatching(ToggleMatching(ts, id, first), id, second);
    forall i | 0 <= i < |ts| ensures r[i] == ts[i] {
      ToggleTwice(ts, id, first, second);
    }
  }

  /** The planner card. */
  class AcademicPlanner {
    var tasks: seq<Task>
    var showAddTask: bool
    var selectedView: View
    var newTask: TaskForm
    const storage: BrowserStorage
    const ledger: Gamification.Ledger

    constructor(ledger: Gamification.Ledger)
      ensures this.ledger == ledger && storage == ledger.storage
      ensures tasks == [] && !showAddTask && selectedView == AllView && newTask == EmptyForm
    {
      this.ledger := ledger;
      storage := ledger.storage;
      tasks := [];
      showAddTask := false;
      selectedView := AllView;
      newTask := EmptyForm;
    }

    /** `loadTasks`: the stored list replaces the current one when the key is present. */
    method LoadTasks()
      modifies this`tasks
      ensures tasks == if Has(storage.items, TasksKey) && storage.items[TasksKey].TaskList?
                       then storage.items[TasksKey].tasks else old(tasks)
    {
      if Has(storage.items, TasksKey) && storage.items[TasksKey].TaskList? {
        tasks := storage.items[TasksKey].tasks;
      }
    }

    /** `saveTasks`: the stored list and the in-memory list become the same list. */
    method SaveTasks(updated: seq<Task>)
      modifies this`tasks, storage
      ensures tasks == updated
      ensures storage.items == old(storage.items)[TasksKey := TaskList(updated)]
    {
      storage.SetItem(TasksKey, TaskList(updated));
      tasks := updated;
    }

    /**
     * `handleAddTask`: with a non-empty title and due date, appends the new
     * task, saves, resets the form and closes it; otherwise does nothing.
     * No XP is awarded here.
     */
    method HandleAddTask(id: string)
      modifies this`tasks, this`newTask, this`showAddTask, storage
      ensures old(newTask.title) != "" && old(newTask.dueDate) != "" ==>
        && tasks == old(tasks) + [NewTask(id, old(newTask))]
        && storage.items == old(storage.items)[TasksKey := TaskList(tasks)]
        && newTask == EmptyForm && !showAddTask
      ensures old(newTask.title) == "" || old(newTask.dueDate) == "" ==>
        tasks == old(tasks) && storage.items == old(storage.items)
        && newTask == old(newTask) && showAddTask == old(showAddTask)
    {
      if newTask.title != "" && newTask.dueDate != "" {
        var task := NewTask(id, newTask);
        SaveTasks(tasks + [task]);
        newTask := EmptyForm;
        showAddTask := false;
      }
    }

    /**
     * `toggleTaskCompletion`: toggles every task with the id, crediting 20
     * academic XP once for each of them that was not completed, then saves.
     */
    method ToggleTaskCompletion(taskId: TaskId, now: string, today: string) returns (awarded: nat)
      requires ledger.storage == storage
      modifies this`tasks, storage, ledger
      ensures tasks == ToggleMatching(old(tasks), taskId, now)
      ensures awarded == Earned(old(tasks), taskId)
      ensures ledger.stats.xp == old(ledger.stats.xp) + CompletionXP * awarded
      ensures ledger.stats.academicTasks == old(ledger.stats.academicTasks) + awarded
      ensures Gamification.Latched(old(ledger.badges), ledger.badges)
      ensures awarded == 0 ==> ledger.stats == old(ledger.stats) && ledger.badges == old(ledger.badges)
      ensures (ledger.stats, ledger.badges) ==
        Gamification.Run(old(ledger.stats), old(ledger.badges),
          Gamification.Repeat(Gamification.AwardAt(CompletionXP, Gamification.AcademicActivity, old(storage.items), today), awarded))
      ensures awarded > 0 ==>
        && Gamification.LevelConsistent(ledger.stats)
        && ledger.stats.streak == Gamification.CurrentStreak(old(storage.items))
        && ledger.stats.journalEntries == old(ledger.stats.journalEntries)
        && ledger.stats.communityPosts == old(ledger.stats.communityPosts)
        && ledger.stats.totalActiveDays == old(ledger.stats.totalActiveDays)
        && ledger.badges == Gamification.UpdatedBadges(old(ledger.badges), ledger.stats, Has(old(storage.items), MoodKey(today)))
      ensures storage.items ==
        (if awarded == 0 then old(storage.items)
         else old(storage.items)[Gamification.StatsKey := Stats(ledger.stats)][Gamification.BadgesKey := Badges(ledger.badges)])
        [TasksKey := TaskList(tasks)]
    {
      var updated;
      updated, awarded := MapTasks(taskId, now, today);
      Gamification.RepeatedAcademicCredits(old(ledger.stats), old(ledger.badges),
        Gamification.AwardAt(CompletionXP, Gamification.AcademicActivity, old(storage.items), today), awarded);
      SaveTasks(updated);
    }

    /** The `tasks.map` pass: the toggled list, with one credit per task with the id that was pending. */
    method MapTasks(taskId: TaskId, now: string, today: string) returns (updated: seq<Task>, awarded: nat)
      requires ledger.storage == storage
      modifies storage, ledger
      ensures updated == ToggleMatching(tasks, taskId, now)
      ensures awarded == Earned(tasks, taskId)
      ensures ledger.InRun(CompletionXP, Gamification.AcademicActivity, today,
        old(ledger.stats), old(ledger.badges), old(storage.items), awarded)
    {
      var ts := tasks;
      updated := [];
      awarded := 0;
      var i := 0;
      while i < |ts|
        invariant 0 <= i <= |ts|
        invariant |updated| == i
        invariant forall j :: 0 <= j < i ==> updated[j] == ToggleMatching(ts, taskId, now)[j]
        invariant awarded == Earned(ts[..i], taskId)
        invariant ledger.InRun(CompletionXP, Gamification.AcademicActivity, today,
          old(ledger.stats), old(ledger.badges), old(storage.items), awarded)
      {
        var task, credited := VisitTask(ts[i], taskId, now, today, old(ledger.stats), old(ledger.badges), old(storage.items), awarded);
        updated := updated + [task];
        if credited {
          awarded := awarded + 1;
        }
        EarnedStep(ts, i, taskId);
        i := i + 1;
      }
      assert ts[..|ts|] == ts;
    }

    /**
     * The `tasks.map` callback on one task: a task with the id is toggled,
     * and earns `addXP(20, 'academic_task')` when it was pending; any other
     * task is kept as it is.
     */
    method VisitTask(task: Task, taskId: TaskId, now: string, today: string,
                     ghost stats0: UserStats, ghost badges0: seq<Badge>, ghost items0: Items, ghost n: nat)
      returns (visited: Task, credited: bool)
      requires ledger.storage == storage
      requires ledger.InRun(CompletionXP, Gamification.AcademicActivity, today, stats0, badges0, items0, n)
      modifies storage, ledger
      ensures visited == if task.id == taskId then Toggled(task, now) else task
      ensures credited <==> task.id == taskId && !task.completed
      ensures ledger.InRun(CompletionXP, Gamification.AcademicActivity, today,
        stats0, badges0, items0, if credited then n + 1 else n)
    {
      visited, credited := task, false;
      if task.id == taskId {
        if !task.completed {
          ledger.AddXPInRun(CompletionXP, Gamification.AcademicActivity, today, stats0, badges0, items0, n);
          credited := true;
        }
        visited := Toggled(task, now);
      }
    }

    /** The tasks shown for the selected view. */
    function GetFilteredTasks(): (r: seq<Task>)
      reads this
      ensures IsSubsequence(r, tasks)
      ensures selectedView == AllView ==> r == tasks
    {
      FilteredTasks(tasks, selectedView)
    }
  }
}
