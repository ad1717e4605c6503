/**
 * The browser's local storage and the record shapes the application keeps
 * in it. Storage is a map from keys to already-decoded values: the JSON
 * encoding of each value is not modelled, only the shape that is read back.
 */
module Storage {
  import opened Wrappers

  /** The signed-in user (`mitra-user`). */
  datatype User = User(id: string, name: string, email: string)

  /** The five mood bands, with their label and their colour. */
  datatype MoodLabel = Excellent | Good | Neutral | Low | Critical
  datatype MoodColor = Emerald | Primary | Violet | Gold | Rose

  /** One day's mood check-in (`mood_<day>`). */
  datatype MoodEntry = MoodEntry(value: int, date: string, color: MoodColor, moodLabel: MoodLabel)

  /**
   * Task ids: the planner uses strings, the dashboard and the mentor
   * numbers. JavaScript's `===` never equates a string with a number, which
   * is what equality on this datatype gives.
   */
  datatype TaskId = StrId(str: string) | NumId(num: int)

  datatype TaskType = Assignment | Project | Exam | Study
  datatype Priority = LowPriority | NormalPriority | HighPriority | UrgentPriority

  /**
   * An academic task as stored under `mitra-academic-tasks`. The planner
   * writes `kind` and `priority` (and `completedAt` once completed); the
   * dashboard and the mentor write `importance`. Absent fields are `None`.
   */
  datatype Task = Task(
    id: TaskId,
    title: string,
    description: string,
    subject: string,
    dueDate: string,
    completed: bool,
    kind: Option<TaskType>,
    priority: Option<Priority>,
    importance: Option<string>,
    completedAt: Option<string>)

  /** A journal entry (`mitra-journal-entries`). */
  datatype JournalEntry = JournalEntry(id: string, title: string, content: string, tags: seq<string>, date: string, time: string)

  /**
   * The text of a support-chat message: what the user typed, or one of the
   * bot's fixed texts, named rather than spelled out (the wording is given
   * by `ChatBot.Wording`).
   */
  datatype BotText =
    | UserText(typed: string)
    | BotGreeting | StressReply | AnxietyReply | SadnessReply
    | MotivationReply | SleepReply | StudyReply | ThankYouReply

  /** A message of the support chat transcript (`mitra-personality-chat`). */
  datatype ChatMessage = ChatMessage(id: int, text: BotText, isBot: bool)

  /** The task-creating action a mentor reply may offer. */
  datatype MentorAction = CreateSyllabusTasks | CreateStudyPlanTasks

  /**
   * The text of a mentor-chat message: what the user typed, or one of the
   * assistant's fixed texts, named (the wording is given by `Mentor.Wording`).
   */
  datatype MentorText =
    | Typed(text: string)
    | MentorGreeting | SyllabusGuide | StudyPlanGuide | DoubtGuide
    | SyllabusTasksAck | StudyPlanTasksAck

  /** A message of the mentor transcript (`mitra-mentor-chat`). */
  datatype MentorMessage = MentorMessage(id: string, fromUser: bool, content: MentorText, action: Option<MentorAction>)

  /** A volunteer application (`volunteer-applications`). */
  datatype Application = Application(
    id: string, name: string, course: string, year: string,
    specialization: string, motivation: string, appliedAt: string)

  /** The progress ledger (`mitra-gamification-stats`). */
  datatype UserStats = UserStats(
    xp: int, level: int, streak: int,
    journalEntries: int, academicTasks: int, communityPosts: int, totalActiveDays: int)

  /** A ledger badge (`mitra-gamification-badges`). */
  datatype Badge = Badge(
    id: string, name: string, description: string,
    unlocked: bool, requirement: int, currentProgress: int)

  /** What a storage key can hold, already decoded. */
  datatype Value =
    | Text(text: string)
    | Num(num: int)
    | UserRecord(user: User)
    | Mood(mood: MoodEntry)
    | TaskList(tasks: seq<Task>)
    | Journal(entries: seq<JournalEntry>)
    | ChatLog(messages: seq<ChatMessage>)
    | MentorLog(mentorMessages: seq<MentorMessage>)
    | Applications(applications: seq<Application>)
    | Stats(stats: UserStats)
    | Badges(badges: seq<Badge>)

  type Items = map<string, Value>

  const TasksKey := "mitra-academic-tasks"
  const StreakKey := "current_streak"
  const InstitutionKey := "mitra_institution"
  const PasskeyKey := "mitra_passkey"

  /** The per-day mood key, `mood_` followed by the day key. */
  function MoodKey(day: string): string {
    "mood_" + day
  }

  /**
   * `localStorage.getItem(key)` used as a condition: the key is present and
   * its raw text is not the empty string (a decoded JSON value never is).
   */
  predicate Has(items: Items, key: string) {
    key in items && items[key] != Text("")
  }

  /** An institution and its passkey have been recorded: the academic dashboard opens on mount. */
  predicate Registered(items: Items) {
    Has(items, InstitutionKey) && Has(items, PasskeyKey)
  }

  /** `JSON.parse(getItem(TasksKey) || '[]')`: the stored task list, or the empty list. */
  function StoredTasks(items: Items): seq<Task> {
    if Has(items, TasksKey) && items[TasksKey].TaskList? then items[TasksKey].tasks else []
  }

  /** The browser's `localStorage`. */
  class BrowserStorage {
    var items: Items

    constructor(initial: Items)
      ensures items == initial
    {
      items := initial;
    }

    /** `setItem`: the key now holds the value; every other key is as it was. */
    method SetItem(key: string, v: Value)
      modifies this
      ensures items == old(items)[key := v]
    {
      items := items[key := v];
    }

    /** `removeItem`: the key is gone; every other key is as it was. */
    method RemoveItem(key: string)
      modifies this
      ensures items == old(items) - {key}
    {
      items := items - {key};
    }

    /** `clear`: no key is left. */
    method Clear()
      modifies this
      ensures items == map[]
    {
      items := map[];
    }
  }
}
