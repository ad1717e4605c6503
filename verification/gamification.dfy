/**
 * The progress ledger (`useGamification`): XP, level, streak, activity
 * counters and badges, changed only by `addXP` and written to storage
 * after every call.
 */
module Gamification {
  import opened Wrappers
  import opened Storage

  const StatsKey := "mitra-gamification-stats"
  const BadgesKey := "mitra-gamification-badges"

  /** The activity strings `addXP` recognises; any other string bumps no counter. */
  const MoodCheckin := "mood_checkin"
  const JournalActivity := "journal_entry"
  const AcademicActivity := "academic_task"
  const CommunityActivity := "community_post"

  const InitialStats := UserStats(0, 1, 0, 0, 0, 0, 0)

  const InitialBadges: seq<Badge> := [
    Badge("first_mood", "First Check-in", "Complete your first mood check-in", false, 1, 0),
    Badge("streak_7", "Week Warrior", "Maintain a 7-day streak", false, 7, 0),
    Badge("journal_master", "Journal Master", "Write 10 journal entries", false, 10, 0),
    Badge("academic_achiever", "Academic Achiever", "Complete 25 academic tasks", false, 25, 0),
    Badge("community_helper", "Community Helper", "Make 5 helpful community posts", false, 5, 0)
  ]

  /** The level a ledger should hold for its XP: one level per full hundred, starting at 1. */
  predicate LevelConsistent(s: UserStats) {
    s.level == s.xp / 100 + 1
  }

  function Max(a: int, b: int): int {
    if a >= b then a else b
  }

  /** `getCurrentStreak`: the stored `current_streak`, or 0 when it is absent. */
  function CurrentStreak(items: Items): int {
    if Has(items, StreakKey) && items[StreakKey].Num? then items[StreakKey].num else 0
  }

  /** The ledger after one `addXP` call, given the streak stored at that moment. */
  function NextStats(s: UserStats, amount: int, activity: string, streak: int): UserStats {
    var gained := s.(xp := s.xp + amount);
    var leveled := gained.(level := gained.xp / 100 + 1);
    var counted :=
      if activity == MoodCheckin then
        leveled.(totalActiveDays := Max(leveled.totalActiveDays, if streak != 0 then streak else 1))
      else if activity == JournalActivity then leveled.(journalEntries := leveled.journalEntries + 1)
      else if activity == AcademicActivity then leveled.(academicTasks := leveled.academicTasks + 1)
      else if activity == CommunityActivity then leveled.(communityPosts := leveled.communityPosts + 1)
      else leveled;
    counted.(streak := streak)
  }

  /**
   * The counter rules stated additively: each counting activity adds one to
   * its own counter, a mood check-in raises the active days to the streak
   * (1 when the streak is 0), and nothing else moves.
   */
  predicate CountersFollow(b: UserStats, a: UserStats, activity: string, streak: int) {
    && a.journalEntries == b.journalEntries + (if activity == JournalActivity then 1 else 0)
    && a.academicTasks == b.academicTasks + (if activity == AcademicActivity then 1 else 0)
    && a.communityPosts == b.communityPosts + (if activity == CommunityActivity then 1 else 0)
    && a.totalActiveDays ==
         (if activity == MoodCheckin then Max(b.totalActiveDays, if streak == 0 then 1 else streak)
          else b.totalActiveDays)
  }

  /** `getBadgeProgress`: the progress each badge id measures; unknown ids measure 0. */
  function BadgeProgress(id: string, s: UserStats, moodToday: bool): int {
    if id == "first_mood" then (if moodToday then 1 else 0)
    else if id == "streak_7" then s.streak
    else if id == "journal_master" then s.journalEntries
    else if id == "academic_achiever" then s.academicTasks
    else if id == "community_helper" then s.communityPosts
    else 0
  }

  /** One badge after a call: fresh progress, and `unlocked` latched on. */
  function UpdatedBadge(b: Badge, s: UserStats, moodToday: bool): Badge {
    var progress := BadgeProgress(b.id, s, moodToday);
    b.(currentProgress := progress, unlocked := progress >= b.requirement || b.unlocked)
  }

  function UpdatedBadges(bs: seq<Badge>, s: UserStats, moodToday: bool): (r: seq<Badge>)
    ensures |r| == |bs|
    ensures forall i :: 0 <= i < |bs| ==> r[i] == UpdatedBadge(bs[i], s, moodToday)
  {
    seq(|bs|, i requires 0 <= i < |bs| => UpdatedBadge(bs[i], s, moodToday))
  }

  /** The badge list keeps its ids, requirements and order, and no unlocked badge is locked again. */
  predicate Latched(before: seq<Badge>, after: seq<Badge>) {
    && |after| == |before|
    && forall i :: 0 <= i < |before| ==>
         && after[i].id == before[i].id
         && after[i].requirement == before[i].requirement
         && (before[i].unlocked ==> after[i].unlocked)
  }

  /** XP still needed for the next level (`getXPToNextLevel`). */
  function XPToNextLevel(s: UserStats): (r: int)
    ensures LevelConsistent(s) ==> 1 <= r <= 100
  {
    s.level * 100 - s.xp
  }

  /** `addXP` adds exactly the amount, recomputes the level from XP alone and copies the stored streak. */
  lemma NextStatsXP(s: UserStats, amount: int, activity: string, streak: int)
    ensures NextStats(s, amount, activity, streak).xp == s.xp + amount
    ensures LevelConsistent(NextStats(s, amount, activity, streak))
    ensures NextStats(s, amount, activity, streak).streak == streak
  {
  }

  /** `addXP` moves the counters exactly as the additive rules say. */
  lemma NextStatsCounters(s: UserStats, amount: int, activity: string, streak: int)
    ensures CountersFollow(s, NextStats(s, amount, activity, streak), activity, streak)
  {
  }

  /** An activity string outside the four known ones leaves every counter as it was. */
  lemma UnknownActivityCountsNothing(s: UserStats, amount: int, activity: string, streak: int)
    requires activity !in {MoodCheckin, JournalActivity, AcademicActivity, CommunityActivity}
    ensures var r := NextStats(s, amount, activity, streak);
      r.journalEntries == s.journalEntries && r.academicTasks == s.academicTasks
      && r.communityPosts == s.communityPosts && r.totalActiveDays == s.totalActiveDays
  {
  }

  /**
   * `levelUp` is reported exactly when the XP crosses a multiple of 100,
   * provided the level held before the call matched the XP.
   */
  lemma LevelUpWhenCrossingHundred(s: UserStats, amount: int, activity: string, streak: int)
    requires LevelConsistent(s)
    ensures NextStats(s, amount, activity, streak).level > s.level <==> (s.xp + amount) / 100 > s.xp / 100
  {
  }

  /** Badge progress and the unlock latch, badge by badge. */
  lemma BadgesAfterCall(bs: seq<Badge>, s: UserStats, moodToday: bool)
    ensures Latched(bs, UpdatedBadges(bs, s, moodToday))
    ensures forall i :: 0 <= i < |bs| ==>
      var r := UpdatedBadges(bs, s, moodToday)[i];
      && r.currentProgress == BadgeProgress(bs[i].id, s, moodToday)
      && (r.unlocked <==> bs[i].unlocked || r.currentProgress >= bs[i].requirement)
  {
  }

  /** One `addXP` call as seen by the ledger: its amount, its activity and what storage held at the time. */
  datatype Award = Award(amount: int, activity: string, streak: int, moodToday: bool)

  /** The ledger and badges after a run of calls, in order. */
  function Run(s: UserStats, bs: seq<Badge>, awards: seq<Award>): (UserStats, seq<Badge>)
    decreases |awards|
  {
    if awards == [] then (s, bs)
    else
      var a := awards[0];
      var s' := NextStats(s, a.amount, a.activity, a.streak);
      Run(s', UpdatedBadges(bs, s', a.moodToday), awards[1..])
  }

  function TotalAmount(awards: seq<Award>): int {
    if awards == [] then 0 else awards[0].amount + TotalAmount(awards[1..])
  }

  lemma LatchedTransitive(a: seq<Badge>, b: seq<Badge>, c: seq<Badge>)
    requires Latched(a, b) && Latched(b, c)
    ensures Latched(a, c)
  {
  }

  /** However many calls are made, no badge that was unlocked is ever locked again. */
  lemma {:induction false} RunLatched(s: UserStats, bs: seq<Badge>, awards: seq<Award>)
    ensures Latched(bs, Run(s, bs, awards).1)
    decreases |awards|
  {
    if awards != [] {
      var a := awards[0];
      var s' := NextStats(s, a.amount, a.activity, a.streak);
      var bs' := UpdatedBadges(bs, s', a.moodToday);
      BadgesAfterCall(bs, s', a.moodToday);
      RunLatched(s', bs', awards[1..]);
      LatchedTransitive(bs, bs', Run(s', bs', awards[1..]).1);
    }
  }

  /** XP is strictly additive over a run of calls, and after any call the level matches the XP. */
  lemma {:induction false} RunXP(s: UserStats, bs: seq<Badge>, awards: seq<Award>)
    ensures Run(s, bs, awards).0.xp == s.xp + TotalAmount(awards)
    ensures awards != [] ==> LevelConsistent(Run(s, bs, awards).0)
    decreases |awards|
  {
    if awards != [] {
      var a := awards[0];
      var s' := NextStats(s, a.amount, a.activity, a.streak);
      NextStatsXP(s, a.amount, a.activity, a.streak);
      RunXP(s', UpdatedBadges(bs, s', a.moodToday), awards[1..]);
    }
  }

  /** The award an `addXP(amount, activity)` call makes while storage holds `items` on `today`. */
  function AwardAt(amount: int, activity: string, items: Items, today: string): Award {
    Award(amount, activity, CurrentStreak(items), Has(items, MoodKey(today)))
  }

  /** Writing the ledger's own two keys changes neither the stored streak nor today's mood. */
  lemma AwardAfterLedgerWrite(amount: int, activity: string, items: Items, today: string, st: Value, bd: Value)
    ensures AwardAt(amount, activity, items[StatsKey := st][BadgesKey := bd], today) == AwardAt(amount, activity, items, today)
  {
    assert MoodKey(today)[1] != StatsKey[1] && MoodKey(today)[1] != BadgesKey[1];
  }

  /** `n` calls in a row with the same award. */
  function Repeat(a: Award, n: nat): seq<Award> {
    seq(n, _ => a)
  }

  /** A run followed by one more call is that call applied to the run's outcome. */
  lemma {:induction false} RunSnoc(s: UserStats, bs: seq<Badge>, awards: seq<Award>, a: Award)
    ensures Run(s, bs, awards + [a]) ==
      var r := Run(s, bs, awards);
      var s' := NextStats(r.0, a.amount, a.activity, a.streak);
      (s', UpdatedBadges(r.1, s', a.moodToday))
    decreases |awards|
  {
    if awards != [] {
      var b := awards[0];
      var s' := NextStats(s, b.amount, b.activity, b.streak);
      assert (awards + [a])[1..] == awards[1..] + [a];
      RunSnoc(s', UpdatedBadges(bs, s', b.moodToday), awards[1..], a);
    }
  }

  /** One more identical call extends a repeated run by one step. */
  lemma RepeatStep(s: UserStats, bs: seq<Badge>, a: Award, n: nat)
    ensures Run(s, bs, Repeat(a, n + 1)) ==
      var r := Run(s, bs, Repeat(a, n));
      var s' := NextStats(r.0, a.amount, a.activity, a.streak);
      (s', UpdatedBadges(r.1, s', a.moodToday))
  {
    assert Repeat(a, n + 1) == Repeat(a, n) + [a];
    RunSnoc(s, bs, Repeat(a, n), a);
  }

  /**
   * Badges refreshed against stats that only grew since the last refresh,
   * with the same streak and mood, are as if refreshed once against the later stats.
   */
  lemma UpdatedBadgesAbsorb(bs: seq<Badge>, s1: UserStats, s2: UserStats, moodToday: bool)
    requires s1.streak == s2.streak
    requires s1.journalEntries <= s2.journalEntries && s1.academicTasks <= s2.academicTasks
    requires s1.communityPosts <= s2.communityPosts
    ensures UpdatedBadges(UpdatedBadges(bs, s1, moodToday), s2, moodToday) == UpdatedBadges(bs, s2, moodToday)
  {
    var once := UpdatedBadges(bs, s2, moodToday);
    var twice := UpdatedBadges(UpdatedBadges(bs, s1, moodToday), s2, moodToday);
    forall i | 0 <= i < |bs| ensures twice[i] == once[i] {
      assert BadgeProgress(bs[i].id, s1, moodToday) <= BadgeProgress(bs[i].id, s2, moodToday);
    }
  }

  /**
   * `n` academic credits in a row, made while storage keeps the same streak
   * and mood: the XP grows by `n` times the amount, only the task counter
   * moves (by `n`), and no badge is relocked; when `n > 0` the level follows
   * the XP, the streak is the stored one, and the badges are those one
   * refresh against the final stats gives.
   */
  lemma {:induction false} RepeatedAcademicCredits(s: UserStats, bs: seq<Badge>, a: Award, n: nat)
    requires a.activity == AcademicActivity
    ensures var r := Run(s, bs, Repeat(a, n));
      && r.0.xp == s.xp + n * a.amount
      && r.0.academicTasks == s.academicTasks + n
      && r.0.journalEntries == s.journalEntries
      && r.0.communityPosts == s.communityPosts
      && r.0.totalActiveDays == s.totalActiveDays
      && Latched(bs, r.1)
      && (n == 0 ==> r == (s, bs))
      && (n > 0 ==> LevelConsistent(r.0) && r.0.streak == a.streak && r.1 == UpdatedBadges(bs, r.0, a.moodToday))
    decreases n
  {
    RunLatched(s, bs, Repeat(a, n));
    if n == 0 {
      assert Repeat(a, 0) == [];
    } else {
      RepeatStep(s, bs, a, n - 1);
      var r := Run(s, bs, Repeat(a, n - 1));
      var s' := NextStats(r.0, a.amount, a.activity, a.streak);
      RepeatedAcademicCredits(s, bs, a, n - 1);
      if n > 1 {
        UpdatedBadgesAbsorb(bs, r.0, s', a.moodToday);
      }
      assert s'.xp == s.xp + (n - 1) * a.amount + a.amount;
    }
  }

  /** A fresh ledger credited 20 then 85 academic XP reaches 105 XP, level 2, two tasks. */
  lemma AcademicScenario()
    ensures var s1 := NextStats(InitialStats, 20, AcademicActivity, 0);
      && s1.xp == 20 && s1.level == 1 && s1.academicTasks == 1
      && var s2 := NextStats(s1, 85, AcademicActivity, 0);
      && s2.xp == 105 && s2.level == 2 && s2.academicTasks == 2 && s2.level > s1.level
  {
  }

  /** The ledger held by one component (`useGamification`), saved to storage after every change. */
  class Ledger {
    var stats: UserStats
    var badges: seq<Badge>
    const storage: BrowserStorage

    constructor(storage: BrowserStorage)
      ensures this.storage == storage
      ensures stats == InitialStats && badges == InitialBadges
    {
      this.storage := storage;
      stats := InitialStats;
      badges := InitialBadges;
    }

    /** `loadGamificationData`: the stored ledger and badges replace the defaults when present. */
    method LoadGamificationData()
      modifies this
      ensures stats == if Has(storage.items, StatsKey) && storage.items[StatsKey].Stats?
                       then storage.items[StatsKey].stats else old(stats)
      ensures badges == if Has(storage.items, BadgesKey) && storage.items[BadgesKey].Badges?
                        then storage.items[BadgesKey].badges else old(badges)
    {
      if Has(storage.items, StatsKey) && storage.items[StatsKey].Stats? {
        stats := storage.items[StatsKey].stats;
      }
      if Has(storage.items, BadgesKey) && storage.items[BadgesKey].Badges? {
        badges := storage.items[BadgesKey].badges;
      }
    }

    /**
     * `addXP`: credits the amount, recomputes the level, bumps the counter
     * the activity names, copies the stored streak, refreshes the badges
     * (latching unlocks) and saves ledger and badges.
     */
    method AddXP(amount: int, activity: string, today: string) returns (xpGained: int, levelUp: bool)
      modifies this, storage
      ensures stats == NextStats(old(stats), amount, activity, CurrentStreak(old(storage.items)))
      ensures stats.xp == old(stats.xp) + amount && LevelConsistent(stats)
      ensures stats.streak == CurrentStreak(old(storage.items))
      ensures CountersFollow(old(stats), stats, activity, CurrentStreak(old(storage.items)))
      ensures badges == UpdatedBadges(old(badges), stats, Has(old(storage.items), MoodKey(today)))
      ensures Latched(old(badges), badges)
      ensures storage.items == old(storage.items)[StatsKey := Stats(stats)][BadgesKey := Badges(badges)]
      ensures xpGained == amount
      ensures levelUp <==> stats.level > old(stats.level)
    {
      var newStats := stats.(xp := stats.xp + amount);
      newStats := newStats.(level := newStats.xp / 100 + 1);
      var current := CurrentStreak(storage.items);
      if activity == MoodCheckin {
        newStats := newStats.(totalActiveDays := Max(newStats.totalActiveDays, if current != 0 then current else 1));
      } else if activity == JournalActivity {
        newStats := newStats.(journalEntries := newStats.journalEntries + 1);
      } else if activity == AcademicActivity {
        newStats := newStats.(academicTasks := newStats.academicTasks + 1);
      } else if activity == CommunityActivity {
        newStats := newStats.(communityPosts := newStats.communityPosts + 1);
      }
      newStats := newStats.(streak := current);
      var updatedBadges := UpdatedBadges(badges, newStats, Has(storage.items, MoodKey(today)));
      BadgesAfterCall(badges, newStats, Has(storage.items, MoodKey(today)));
      xpGained, levelUp := amount, newStats.level > stats.level;
      stats, badges := newStats, updatedBadges;
      storage.SetItem(StatsKey, Stats(newStats));
      storage.SetItem(BadgesKey, Badges(updatedBadges));
    }

    /**
     * The ledger and its storage after `n` identical `addXP` calls that
     * started from `stats0`, `badges0` and storage `items0`: the ledger is
     * the run's outcome, and storage differs from `items0` only by the
     * ledger's own two keys once a call was made.
     */
    ghost predicate InRun(amount: int, activity: string, today: string,
                          stats0: UserStats, badges0: seq<Badge>, items0: Items, n: nat)
      reads this, storage
    {
      && (stats, badges) == Run(stats0, badges0, Repeat(AwardAt(amount, activity, items0, today), n))
      && storage.items == if n == 0 then items0 else items0[StatsKey := Stats(stats)][BadgesKey := Badges(badges)]
    }

    /**
     * One more `addXP` call in such a run. The ledger's own writes leave the
     * stored streak and today's mood as they were, so the run grows by one call.
     */
    method AddXPInRun(amount: int, activity: string, today: string,
                      ghost stats0: UserStats, ghost badges0: seq<Badge>, ghost items0: Items, ghost n: nat)
      requires InRun(amount, activity, today, stats0, badges0, items0, n)
      modifies this, storage
      ensures InRun(amount, activity, today, stats0, badges0, items0, n + 1)
    {
      if n > 0 {
        AwardAfterLedgerWrite(amount, activity, items0, today, Stats(stats), Badges(badges));
      }
      RepeatStep(stats0, badges0, AwardAt(amount, activity, items0, today), n);
      var _, _ := AddXP(amount, activity, today);
    }

    /** `getXPToNextLevel` on the current ledger: between 1 and 100 while the level matches the XP. */
    function GetXPToNextLevel(): (r: int)
      reads this
      ensures LevelConsistent(stats) ==> 1 <= r <= 100
    {
      XPToNextLevel(stats)
    }
  }
}
