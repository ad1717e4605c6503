/**
 * The academic dashboard page: an access gate on two stored keys, and a
 * numeric-id task list that shares the task key with the planner, written
 * back after every change. Adding credits 10 academic XP, completing 25.
 */
module Dashboard {
  import opened Wrappers
  import opened Storage
  import opened Seqs
  import opened Text
  import opened Tasks
  import Gamification

  const AddXP := 10
  const CompletionXP := 25

  /** The two tasks shown when nothing is stored. */
  const SeedTasks := [
    Task(NumId(1), "Complete Data Structures Assignment", "Implement binary tree operations and submit by Friday",
         "Computer Science", "2025-01-20", false, None, None, Some("high"), None),
    Task(NumId(2), "Study for Calculus Midterm", "Review chapters 5-8, practice integration problems",
         "Mathematics", "2025-01-25", false, None, None, Some("normal"), None)
  ]

  /** The lazily initialised task state: the stored list when present, else the seeds. */
  function InitialTasks(items: Items): seq<Task> {
    if Has(items, TasksKey) && items[TasksKey].TaskList? then items[TasksKey].tasks else SeedTasks
  }

  /** The task `handleAddTask` builds: untrimmed title, no due date, subject "General". */
  function NewTask(now: int, title: string, description: string, importance: string): Task {
    Task(NumId(now), title, description, "General", "", false, None, None, Some(importance), None)
  }

  /** One task toggled by the dashboard: only the flag flips; the completion time is not touched. */
  function Flipped(t: Task): Task {
    t.(completed := !t.completed)
  }

  /** `toggleTask`'s new list: tasks with the numeric id flipped, the rest as they were, in order. */
  function FlipMatching(ts: seq<Task>, id: int): (r: seq<Task>)
    ensures |r| == |ts|
    ensures forall i :: 0 <= i < |ts| && ts[i].id != NumId(id) ==> r[i] == ts[i]
    ensures forall i :: 0 <= i < |ts| && ts[i].id == NumId(id) ==> r[i] == Flipped(ts[i])
  {
    seq(|ts|, i requires 0 <= i < |ts| => if ts[i].id == NumId(id) then Flipped(ts[i]) else ts[i])
  }

  /** Toggling the same id twice gives the list back exactly. */
  lemma FlipTwice(ts: seq<Task>, id: int)
    ensures FlipMatching(FlipMatching(ts, id), id) == ts
  {
    var r := FlipMatching(FlipMatching(ts, id), id);
    assert forall i :: 0 <= i < |ts| ==> r[i] == ts[i];
  }

  /**
   * The dashboard toggle does not keep the planner's completion-time
   * invariant: completing a seeded task leaves it completed with no time.
   */
  lemma FlipBreaksCompletionTime()
    ensures CompletionTimed(SeedTasks)
    ensures !CompletionTimed(FlipMatching(SeedTasks, 1))
  {
    var r := FlipMatching(SeedTasks, 1);
    assert r[0].completed && r[0].completedAt == None;
  }

  function KeepsTask(id: int): Task -> bool {
    (t: Task) => t.id != NumId(id)
  }

  /** `deleteTask`: every task with the id goes; the others stay, in order. */
  function Without(ts: seq<Task>, id: int): (r: seq<Task>)
    ensures IsSubsequence(r, ts)
    ensures forall t :: t in r <==> t in ts && t.id != NumId(id)
    ensures forall t :: multiset(r)[t] == if t.id != NumId(id) then multiset(ts)[t] else 0
  {
    FilterIsSubsequence(ts, KeepsTask(id));
    forall t ensures multiset(Filter(ts, KeepsTask(id)))[t] == if t.id != NumId(id) then multiset(ts)[t] else 0 {
      FilterMultiplicity(ts, KeepsTask(id), t);
    }
    forall t ensures t in Filter(ts, KeepsTask(id)) <==> t in ts && t.id != NumId(id) {
      FilterMembership(ts, KeepsTask(id), t);
    }
    Filter(ts, KeepsTask(id))
  }

  /** Deleting an id no task carries leaves the list as it was. */
  lemma DeleteAbsent(ts: seq<Task>, id: int)
    requires forall i :: 0 <= i < |ts| ==> ts[i].id != NumId(id)
    ensures Without(ts, id) == ts
  {
    FilterKeepsAll(ts, KeepsTask(id));
  }

  /** `getImportanceClass`: the four known importances map to their own tag; anything else to the normal tag. */
  function ImportanceClass(importance: string): (r: string)
    ensures importance in {"urgent", "high", "normal", "low"} ==> r == "tag-" + importance
    ensures importance !in {"urgent", "high", "normal", "low"} ==> r == "tag-normal"
  {
    match importance
    case "urgent" => "tag-urgent"
    case "high" => "tag-high"
    case "normal" => "tag-normal"
    case "low" => "tag-low"
    case _ => "tag-normal"
  }

  /** The dashboard page. */
  class AcademicDashboard {
    var hasAccess: bool
    var tasks: seq<Task>
    var newTask: string
    var newTaskDescription: string
    var newTaskImportance: string
    var showAddTask: bool
    const storage: BrowserStorage
    const ledger: Gamification.Ledger

    constructor(ledger: Gamification.Ledger)
      ensures this.ledger == ledger && storage == ledger.storage
      ensures tasks == InitialTasks(ledger.storage.items)
      ensures !hasAccess && !showAddTask
      ensures newTask == "" && newTaskDescription == "" && newTaskImportance == "normal"
    {
      this.ledger := ledger;
      storage := ledger.storage;
      tasks := InitialTasks(ledger.storage.items);
      hasAccess := false;
      newTask, newTaskDescription, newTaskImportance := "", "", "normal";
      showAddTask := false;
    }

    /** The mount effects: the access check, and the first write-back of the task list. */
    method Mount()
      modifies this`hasAccess, storage
      ensures hasAccess <==> old(hasAccess) || Registered(old(storage.items))
      ensures storage.items == old(storage.items)[TasksKey := TaskList(tasks)]
    {
      if Registered(storage.items) {
        hasAccess := true;
      }
      storage.SetItem(TasksKey, TaskList(tasks));
    }

    /** `handleInstitutionAccess`: the selector's callback opens the page. */
    method HandleInstitutionAccess(institution: string, passkey: string)
      modifies this`hasAccess
      ensures hasAccess
    {
      hasAccess := true;
    }

    /** The write-back effect after a change of the task list. */
    method Persist(updated: seq<Task>)
      modifies this`tasks, storage
      ensures tasks == updated
      ensures storage.items == old(storage.items)[TasksKey := TaskList(updated)]
    {
      tasks := updated;
      storage.SetItem(TasksKey, TaskList(updated));
    }

    /** One call of `addXP(amount, 'academic_task')`. */
    method Credit(amount: int, today: string)
      requires ledger.storage == storage
      modifies storage, ledger
      ensures ledger.stats == Gamification.NextStats(old(ledger.stats), amount, Gamification.AcademicActivity, Gamification.CurrentStreak(old(storage.items)))
      ensures ledger.badges == Gamification.UpdatedBadges(old(ledger.badges), ledger.stats, Has(old(storage.items), MoodKey(today)))
      ensures ledger.stats.xp == old(ledger.stats.xp) + amount
      ensures ledger.stats.academicTasks == old(ledger.stats.academicTasks) + 1
      ensures Gamification.Latched(old(ledger.badges), ledger.badges)
      ensures storage.items == old(storage.items)[Gamification.StatsKey := Stats(ledger.stats)][Gamification.BadgesKey := Badges(ledger.badges)]
    {
      var _, _ := ledger.AddXP(amount, Gamification.AcademicActivity, today);
    }

    /**
     * `handleAddTask`: a title that is not blank appends the new task, resets
     * the form (importance back to normal), closes it and credits 10 XP;
     * a blank title changes nothing.
     */
    method HandleAddTask(now: int, today: string)
      requires ledger.storage == storage
      modifies this`tasks, this`newTask, this`newTaskDescription, this`newTaskImportance, this`showAddTask, storage, ledger
      ensures !IsBlank(old(newTask)) ==>
        && tasks == old(tasks) + [NewTask(now, old(newTask), old(newTaskDescription), old(newTaskImportance))]
        && newTask == "" && newTaskDescription == "" && newTaskImportance == "normal" && !showAddTask
        && ledger.stats == Gamification.NextStats(old(ledger.stats), AddXP, Gamification.AcademicActivity, Gamification.CurrentStreak(old(storage.items)))
        && ledger.badges == Gamification.UpdatedBadges(old(ledger.badges), ledger.stats, Has(old(storage.items), MoodKey(today)))
        && ledger.stats.xp == old(ledger.stats.xp) + AddXP
        && ledger.stats.academicTasks == old(ledger.stats.academicTasks) + 1
        && Gamification.Latched(old(ledger.badges), ledger.badges)
        && storage.items == old(storage.items)[Gamification.StatsKey := Stats(ledger.stats)]
                             [Gamification.BadgesKey := Badges(ledger.badges)][TasksKey := TaskList(tasks)]
      ensures IsBlank(old(newTask)) ==>
        && tasks == old(tasks) && storage.items == old(storage.items)
        && ledger.stats == old(ledger.stats) && ledger.badges == old(ledger.badges)
        && newTask == old(newTask) && newTaskDescription == old(newTaskDescription)
        && newTaskImportance == old(newTaskImportance) && showAddTask == old(showAddTask)
    {
      if Trim(newTask) != "" {
        var task := NewTask(now, newTask, newTaskDescription, newTaskImportance);
        newTask, newTaskDescription, newTaskImportance := "", "", "normal";
        showAddTask := false;
        Credit(AddXP, today);
        Persist(tasks + [task]);
      }
    }

    /**
     * `toggleTask`: flips every task with the numeric id, crediting 25 XP
     * once for each of them that was pending, then writes the list back.
     */
    method ToggleTask(id: int, today: string) returns (awarded: nat)
      requires ledger.storage == storage
      modifies this`tasks, storage, ledger
      ensures tasks == FlipMatching(old(tasks), id)
      ensures awarded == Earned(old(tasks), NumId(id))
      ensures ledger.stats.xp == old(ledger.stats.xp) + CompletionXP * awarded
      ensures ledger.stats.academicTasks == old(ledger.stats.academicTasks) + awarded
      ensures Gamification.Latched(old(ledger.badges), ledger.badges)
      ensures awarded == 0 ==> ledger.stats == old(ledger.stats) && ledger.badges == old(ledger.badges)
      ensures (ledger.stats, ledger.badges) ==
        Gamification.Run(old(ledger.stats), old(ledger.badges),
          Gamification.Repeat(Gamification.AwardAt(CompletionXP, Gamification.AcademicActivity, old(storage.items), today), awarded))
      ensures awarded > 0 ==>
        && Gamification.LevelConsistent(ledger.stats)
        && ledger.stats.streak == Gamification.CurrentStreak(old(storage.items))
        && ledger.stats.journalEntries == old(ledger.stats.journalEntries)
        && ledger.stats.communityPosts == old(ledger.stats.communityPosts)
        && ledger.stats.totalActiveDays == old(ledger.stats.totalActiveDays)
        && ledger.badges == Gamification.UpdatedBadges(old(ledger.badges), ledger.stats, Has(old(storage.items), MoodKey(today)))
      ensures storage.items ==
        (if awarded == 0 then old(storage.items)
         else old(storage.items)[Gamification.StatsKey := Stats(ledger.stats)][Gamification.BadgesKey := Badges(ledger.badges)])
        [TasksKey := TaskList(tasks)]
    {
      var ts := tasks;
      var updated: seq<Task> := [];
      awarded := 0;
      var i := 0;
      while i < |ts|
        invariant 0 <= i <= |ts|
        invariant |updated| == i
        invariant forall j :: 0 <= j < i ==> updated[j] == FlipMatching(ts, id)[j]
        invariant awarded == Earned(ts[..i], NumId(id))
        invariant ledger.InRun(CompletionXP, Gamification.AcademicActivity, today,
          old(ledger.stats), old(ledger.badges), old(storage.items), awarded)
      {
        var task, credited := VisitTask(ts[i], id, today, old(ledger.stats), old(ledger.badges), old(storage.items), awarded);
        updated := updated + [task];
        if credited {
          awarded := awarded + 1;
        }
        EarnedStep(ts, i, NumId(id));
        i := i + 1;
      }
      assert updated == FlipMatching(ts, id);
      assert ts[..|ts|] == ts;
      Gamification.RepeatedAcademicCredits(old(ledger.stats), old(ledger.badges),
        Gamification.AwardAt(CompletionXP, Gamification.AcademicActivity, old(storage.items), today), awarded);
      Persist(updated);
    }

    /**
     * The `tasks.map` callback on one task: a task with the id is flipped,
     * and earns `addXP(25, 'academic_task')` when it was pending; any other
     * task is kept as it is.
     */
    method VisitTask(task: Task, id: int, today: string,
                     ghost stats0: UserStats, ghost badges0: seq<Badge>, ghost items0: Items, ghost n: nat)
      returns (visited: Task, credited: bool)
      requires ledger.storage == storage
      requires ledger.InRun(CompletionXP, Gamification.AcademicActivity, today, stats0, badges0, items0, n)
      modifies storage, ledger
      ensures visited == if task.id == NumId(id) then Flipped(task) else task
      ensures credited <==> task.id == NumId(id) && !task.completed
      ensures ledger.InRun(CompletionXP, Gamification.AcademicActivity, today,
        stats0, badges0, items0, if credited then n + 1 else n)
    {
      visited, credited := task, false;
      if task.id == NumId(id) {
        if !task.completed {
          ledger.AddXPInRun(CompletionXP, Gamification.AcademicActivity, today, stats0, badges0, items0, n);
          credited := true;
        }
        visited := Flipped(task);
      }
    }

    /** `deleteTask`: drops every task with the id and writes the list back. */
    method DeleteTask(id: int)
      modifies this`tasks, storage
      ensures tasks == Without(old(tasks), id)
      ensures storage.items == old(storage.items)[TasksKey := TaskList(tasks)]
    {
      Persist(Without(tasks, id));
    }
  }
}
