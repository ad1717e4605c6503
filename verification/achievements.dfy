/**
 * The achievements panel of the gamification dashboard. On mount it reads
 * the streak, the journal list and the completed-task count from storage
 * and recomputes each achievement's progress (capped at its maximum) and
 * its unlocked flag. Unlike the ledger's badges, the flag is overwritten,
 * not latched.
 */
module Achievements {
  import opened Wrappers
  import opened Storage

  const JournalsKey := "journal_entries"
  const CompletedKey := "completed_tasks"

  /** An achievement card; `first_mood` has no progress bar. */
  datatype Achievement = Achievement(id: string, title: string, unlocked: bool, progress: Option<int>, maxProgress: Option<int>)

  const InitialAchievements: seq<Achievement> := [
    Achievement("first_mood", "First Check-in", false, None, None),
    Achievement("streak_7", "Week Warrior", false, Some(0), Some(7)),
    Achievement("journal_10", "Thoughtful Writer", false, Some(0), Some(10)),
    Achievement("tasks_25", "Task Master", false, Some(0), Some(25))
  ]

  /** The three counts the panel reads, with the defaults used for missing keys. */
  datatype Readings = Readings(streak: int, journals: int, tasks: int, moodToday: bool)

  /**
   * `parseInt(getItem('current_streak') || '0')`, the length of
   * `getItem('journal_entries') || '[]'`, `parseInt(getItem('completed_tasks') || '0')`
   * and whether today's mood key is set.
   */
  function Read(items: Items, today: string): (r: Readings)
    ensures StreakKey !in items ==> r.streak == 0
    ensures JournalsKey !in items ==> r.journals == 0
    ensures CompletedKey !in items ==> r.tasks == 0
    ensures r.journals >= 0
    ensures r.moodToday <==> Has(items, MoodKey(today))
  {
    Readings(
      if Has(items, StreakKey) && items[StreakKey].Num? then items[StreakKey].num else 0,
      if Has(items, JournalsKey) && items[JournalsKey].Journal? then |items[JournalsKey].entries| else 0,
      if Has(items, CompletedKey) && items[CompletedKey].Num? then items[CompletedKey].num else 0,
      Has(items, MoodKey(today)))
  }

  function Min(a: int, b: int): int {
    if a <= b then a else b
  }

  /** The value an achievement id measures and its maximum, for the three capped ones. */
  function Measure(id: string, r: Readings): Option<(int, int)> {
    if id == "streak_7" then Some((r.streak, 7))
    else if id == "journal_10" then Some((r.journals, 10))
    else if id == "tasks_25" then Some((r.tasks, 25))
    else None
  }

  /** One card after the mount effect. */
  function Derive(a: Achievement, r: Readings): (d: Achievement)
    ensures d.id == a.id && d.title == a.title && d.maxProgress == a.maxProgress
    ensures a.id == "first_mood" ==> d.unlocked == r.moodToday && d.progress == a.progress
    ensures Measure(a.id, r).Some? ==>
      var (value, max) := Measure(a.id, r).value;
      d.progress == Some(Min(value, max)) && (d.unlocked <==> value >= max)
    ensures a.id != "first_mood" && Measure(a.id, r).None? ==> d == a
  {
    if a.id == "first_mood" then a.(unlocked := r.moodToday)
    else match Measure(a.id, r)
      case Some((value, max)) => a.(progress := Some(Min(value, max)), unlocked := value >= max)
      case None => a
  }

  /** The whole list after the mount effect, card by card in the same order. */
  function DeriveAll(cards: seq<Achievement>, r: Readings): (d: seq<Achievement>)
    ensures |d| == |cards|
  {
    if cards == [] then [] else [Derive(cards[0], r)] + DeriveAll(cards[1..], r)
  }

  /** Card `i` of the derived list is card `i` derived: same ids, same order. */
  lemma {:induction false} DeriveAllAt(cards: seq<Achievement>, r: Readings, i: int)
    requires 0 <= i < |cards|
    ensures DeriveAll(cards, r)[i] == Derive(cards[i], r)
    decreases |cards|
  {
    if i > 0 {
      DeriveAllAt(cards[1..], r, i - 1);
    }
  }

  /**
   * Deriving depends on the readings alone, not on the flags held before:
   * a second mount with the same readings changes nothing.
   */
  lemma {:induction false} DeriveAllIdempotent(cards: seq<Achievement>, r: Readings)
    ensures DeriveAll(DeriveAll(cards, r), r) == DeriveAll(cards, r)
    decreases |cards|
  {
    if cards != [] {
      DeriveAllIdempotent(cards[1..], r);
      var a := cards[0];
      var d := Derive(a, r);
      assert Derive(d, r) == d by {
        if a.id != "first_mood" && Measure(a.id, r).Some? {
          var (value, max) := Measure(a.id, r).value;
          assert d == a.(progress := Some(Min(value, max)), unlocked := value >= max);
        }
      }
    }
  }

  /** Not a latch: an unlocked streak card is locked again when the streak has dropped. */
  lemma UnlockIsNotLatched()
    ensures var before := Achievement("streak_7", "Week Warrior", true, Some(7), Some(7));
      before.unlocked && !Derive(before, Readings(3, 0, 0, false)).unlocked
  {
  }

  /** With none of the keys present every counted card shows progress 0 and is locked. */
  lemma EmptyStorageLocksAll(today: string)
    ensures var d := DeriveAll(InitialAchievements, Read(map[], today));
      && |d| == 4
      && (forall i :: 0 <= i < 4 ==> d[i].id == InitialAchievements[i].id && !d[i].unlocked)
      && d[1].progress == Some(0) && d[2].progress == Some(0) && d[3].progress == Some(0)
  {
    var r := Read(map[], today);
    forall i | 0 <= i < 4
      ensures DeriveAll(InitialAchievements, r)[i] == Derive(InitialAchievements[i], r)
    {
      DeriveAllAt(InitialAchievements, r, i);
    }
  }

  /** The dashboard's counters and cards. */
  class GamificationDashboard {
    var currentStreak: int
    var totalJournalEntries: int
    var completedTasks: int
    var achievements: seq<Achievement>
    const storage: BrowserStorage

    constructor(storage: BrowserStorage)
      ensures this.storage == storage
      ensures currentStreak == 0 && totalJournalEntries == 0 && completedTasks == 0
      ensures achievements == InitialAchievements
    {
      this.storage := storage;
      currentStreak, totalJournalEntries, completedTasks := 0, 0, 0;
      achievements := InitialAchievements;
    }

    /** The mount effect: the three counters take the readings and every card is re-derived. */
    method Mount(today: string)
      modifies this`currentStreak, this`totalJournalEntries, this`completedTasks, this`achievements
      ensures var r := Read(storage.items, today);
        && currentStreak == r.streak && totalJournalEntries == r.journals && completedTasks == r.tasks
        && achievements == DeriveAll(old(achievements), r)
    {
      var r := Read(storage.items, today);
      currentStreak, totalJournalEntries, completedTasks := r.streak, r.journals, r.tasks;
      achievements := DeriveAll(achievements, r);
    }
  }
}
