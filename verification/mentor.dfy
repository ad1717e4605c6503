/**
 * The Mentor AI chat: a keyword router over the lower-cased input, replies
 * that may carry an action button, and actions that append tasks to the
 * shared task key. The transcript is written back after every change.
 */
module Mentor {
  import opened Wrappers
  import opened Storage
  import opened Text

  const ChatKey := "mitra-mentor-chat"

  /** The three canned replies. */
  datatype Reply = SyllabusReply | StudyPlanReply | DoubtReply

  /**
   * The routing chain on the lower-cased input: the first rule whose
   * keywords occur wins, and the doubt reply is also the fallback.
   */
  function Route(input: string): (r: Reply)
    ensures r == SyllabusReply <==> Contains(input, "syllabus") || Contains(input, "curriculum")
    ensures r == StudyPlanReply <==>
      && !(Contains(input, "syllabus") || Contains(input, "curriculum"))
      && (Contains(input, "study plan") || Contains(input, "planning") || Contains(input, "schedule"))
  {
    if Contains(input, "syllabus") || Contains(input, "curriculum") then SyllabusReply
    else if Contains(input, "study plan") || Contains(input, "planning") || Contains(input, "schedule") then StudyPlanReply
    else if Contains(input, "doubt") || Contains(input, "help") || Contains(input, "explain") then DoubtReply
    else DoubtReply
  }

  /** The reply routed for what the user typed: matching ignores ASCII case. */
  function RouteMessage(text: string): Reply {
    Route(Lower(text))
  }

  /** Upper-casing a message never changes the route it takes. */
  lemma RouteIgnoresCase(text: string)
    ensures RouteMessage(Upper(text)) == RouteMessage(text)
  {
    LowerOfUpper(text);
  }

  /** A message naming the syllabus gets the syllabus reply whatever else it mentions. */
  lemma SyllabusWins(text: string, k: nat)
    requires OccursAt(Lower(text), "syllabus", k)
    ensures RouteMessage(text) == SyllabusReply
  {
    ContainsAt(Lower(text), "syllabus");
  }

  /** The fixed text each reply posts. */
  function ReplyText(r: Reply): MentorText {
    match r
    case SyllabusReply => SyllabusGuide
    case StudyPlanReply => StudyPlanGuide
    case DoubtReply => DoubtGuide
  }

  /** The wording of a message, one line per element; a typed message is its own single line. */
  function WordingLines(t: MentorText): seq<string> {
    match t
    case Typed(text) => [text]
    case MentorGreeting => [
      "Hi! I'm your Mentor AI. I " + "can help you with syllabus " + "guidance, study planning, " + "and academic doubts. How " + "can I assist you today?"]
    case SyllabusGuide => [
      "Based on your Computer " + "Science syllabus, I " + "recommend focusing on:", "",
      "1. **Data Structures** " + "(Weeks 1-4)", "   - Arrays, Linked Lists, " + "Stacks, Queues", "   - Trees and Graphs", "",
      "2. **Algorithms** (Weeks 5-8)", "   - Sorting and Searching", "   - Dynamic Programming", "",
      "3. **Database Systems** " + "(Weeks 9-12)", "   - SQL Fundamentals", "   - Normalization", "",
      "Would you like me to " + "create study tasks for any " + "specific topic?"]
    case StudyPlanGuide => [
      "Here's a recommended study " + "plan for your upcoming " + "exams:", "",
      "**Week 1-2: Foundation " + "Building**", "- Review core concepts (2 " + "hrs/day)", "- Practice basic problems", "",
      "**Week 3-4: Advanced Topics**", "- Complex problem solving " + "(3 hrs/day)", "- Group study sessions", "",
      "**Week 5: Revision & Mock " + "Tests**", "- Full-length practice tests", "- Weak area reinforcement", "",
      "Shall I create specific " + "tasks for this plan?"]
    case DoubtGuide => [
      "I'd be happy to help " + "clarify your doubts! Here " + "are some common academic " + "questions I can assist " + "with:", "",
      "\U{2022} **Programming " + "Concepts**: Data " + "structures, algorithms, " + "OOP",
      "\U{2022} **Mathematics**: " + "Calculus, linear algebra, " + "statistics",
      "\U{2022} **Science**: " + "Physics problems, " + "chemistry equations",
      "\U{2022} **Research**: " + "Paper writing, citation " + "formats", "",
      "What specific topic would " + "you like help with?"]
    case SyllabusTasksAck => ["I've created study tasks " + "for you! Check your task " + "planner to see them."]
    case StudyPlanTasksAck => ["Study plan tasks created! " + "You can find them in your " + "task planner."]
  }

  /** The text a message shows. */
  function Wording(t: MentorText): string {
    var lines := WordingLines(t);
    if lines == [] then "" else Join(lines, '\n')
  }

  /** A typed message shows exactly what was typed. */
  lemma TypedWording(text: string)
    ensures Wording(Typed(text)) == text
  {
  }

  /** The action button a reply carries: the doubt reply has none. */
  function ActionOf(r: Reply): (a: Option<MentorAction>)
    ensures a.None? <==> r == DoubtReply
  {
    match r
    case SyllabusReply => Some(CreateSyllabusTasks)
    case StudyPlanReply => Some(CreateStudyPlanTasks)
    case DoubtReply => None
  }

  /** The titles of the tasks an action creates, in creation order. */
  function ActionTitles(a: MentorAction): (titles: seq<string>)
    ensures a == CreateSyllabusTasks ==> |titles| == 2
    ensures a == CreateStudyPlanTasks ==> |titles| == 3
  {
    match a
    case CreateSyllabusTasks => ["Complete Data Structures " + "Practice Problems", "Study SQL Fundamentals"]
    case CreateStudyPlanTasks => ["Review Core Concepts - Week 1", "Practice Complex Problems " + "- Week 3", "Take Mock Test - Week 5"]
  }

  /** The acknowledgement the assistant posts after running an action. */
  function ActionAck(a: MentorAction): MentorText {
    match a
    case CreateSyllabusTasks => SyllabusTasksAck
    case CreateStudyPlanTasks => StudyPlanTasksAck
  }

  const Greeting := MentorMessage("1", false, MentorGreeting, None)

  /** The task `createTaskFromChat` builds. */
  function ChatTask(now: int, title: string): Task {
    Task(NumId(now), title, "Created by Mentor AI", "AI Generated", "", false, None, None, Some("normal"), None)
  }

  /** The tasks an action creates, one per title, with the clock reading taken for each. */
  function ChatTasks(stamps: seq<int>, titles: seq<string>): (r: seq<Task>)
    requires |stamps| == |titles|
    ensures |r| == |titles|
    ensures forall i :: 0 <= i < |r| ==> r[i] == ChatTask(stamps[i], titles[i])
  {
    seq(|titles|, i requires 0 <= i < |titles| => ChatTask(stamps[i], titles[i]))
  }

  /**
   * Two tasks created in the same millisecond share their id, so a
   * dashboard toggle or delete by that id reaches both.
   */
  lemma SameClockSameId(now: int, a: MentorAction)
    ensures var ts := ChatTasks(seq(|ActionTitles(a)|, _ => now), ActionTitles(a));
      |ts| >= 2 && ts[0].id == ts[1].id
  {
  }

  /** What the transcript key holds: the messages with their action callbacks dropped. */
  function Stripped(ms: seq<MentorMessage>): (r: seq<MentorMessage>)
    ensures |r| == |ms|
    ensures forall i :: 0 <= i < |ms| ==> r[i].action.None? && r[i].(action := ms[i].action) == ms[i]
  {
    seq(|ms|, i requires 0 <= i < |ms| => ms[i].(action := None))
  }

  /** The lazily initialised transcript: the stored one when present, else the greeting. */
  function InitialMessages(items: Items): seq<MentorMessage> {
    if Has(items, ChatKey) && items[ChatKey].MentorLog? then items[ChatKey].mentorMessages else [Greeting]
  }

  /**
   * After a write-back and a reload the transcript comes back with the same
   * texts but without any working action.
   */
  lemma ReloadDropsActions(items: Items, ms: seq<MentorMessage>)
    ensures var back := InitialMessages(items[ChatKey := MentorLog(Stripped(ms))]);
      && |back| == |ms|
      && forall i :: 0 <= i < |ms| ==> back[i].action.None? && back[i].content == ms[i].content
  {
  }

  /** The Mentor AI panel. */
  class MentorAI {
    var messages: seq<MentorMessage>
    var inputMessage: string
    const storage: BrowserStorage

    constructor(storage: BrowserStorage)
      ensures this.storage == storage
      ensures messages == InitialMessages(storage.items) && inputMessage == ""
    {
      this.storage := storage;
      messages := InitialMessages(storage.items);
      inputMessage := "";
    }

    /** The write-back effect after a change of the transcript. */
    method Persist(updated: seq<MentorMessage>)
      modifies this`messages, storage
      ensures messages == updated
      ensures storage.items == old(storage.items)[ChatKey := MentorLog(Stripped(updated))]
    {
      messages := updated;
      storage.SetItem(ChatKey, MentorLog(Stripped(updated)));
    }

    /** `addAIMessage`, with the typing delay left out: the reply is appended at once. */
    method AddAIMessage(id: string, content: MentorText, action: Option<MentorAction>)
      modifies this`messages, storage
      ensures messages == old(messages) + [MentorMessage(id, false, content, action)]
      ensures storage.items == old(storage.items)[ChatKey := MentorLog(Stripped(messages))]
    {
      Persist(messages + [MentorMessage(id, false, content, action)]);
    }

    /**
     * `createTaskFromChat`: read the stored task list (empty when absent),
     * append one task, write it back.
     */
    method CreateTaskFromChat(now: int, title: string)
      modifies storage
      ensures storage.items == old(storage.items)[TasksKey := TaskList(StoredTasks(old(storage.items)) + [ChatTask(now, title)])]
    {
      var existing := StoredTasks(storage.items);
      storage.SetItem(TasksKey, TaskList(existing + [ChatTask(now, title)]));
    }

    /**
     * `handleSendMessage`: a blank input does nothing; otherwise the
     * untrimmed text is appended as the user's message, the input is
     * cleared, and the routed reply follows with its action button.
     */
    method HandleSendMessage(userId: string, replyId: string)
      modifies this`messages, this`inputMessage, storage
      ensures IsBlank(old(inputMessage)) ==>
        messages == old(messages) && inputMessage == old(inputMessage) && storage.items == old(storage.items)
      ensures !IsBlank(old(inputMessage)) ==>
        var r := RouteMessage(old(inputMessage));
        && messages == old(messages) + [MentorMessage(userId, true, Typed(old(inputMessage)), None),
                                        MentorMessage(replyId, false, ReplyText(r), ActionOf(r))]
        && inputMessage == ""
        && storage.items == old(storage.items)[ChatKey := MentorLog(Stripped(messages))]
    {
      if !IsBlank(inputMessage) {
        var text := inputMessage;
        var userMessage := MentorMessage(userId, true, Typed(text), None);
        Persist(messages + [userMessage]);
        inputMessage := "";
        var r := RouteMessage(text);
        var reply := MentorMessage(replyId, false, ReplyText(r), ActionOf(r));
        AddAIMessage(replyId, ReplyText(r), ActionOf(r));
        assert messages == old(messages) + [userMessage, reply];
      }
    }

    /**
     * A click on the action button of message `index`: when the message
     * still carries its action, the action's tasks are appended to the
     * stored task list and the acknowledgement is posted; a button whose
     * action was lost in a reload does nothing.
     */
    method ClickAction(index: nat, stamps: seq<int>, replyId: string)
      requires index < |messages|
      requires messages[index].action.Some? ==> |stamps| == |ActionTitles(messages[index].action.value)|
      modifies this`messages, storage
      ensures old(messages[index].action).None? ==>
        messages == old(messages) && storage.items == old(storage.items)
      ensures old(messages[index].action).Some? ==>
        var a := old(messages[index].action).value;
        && StoredTasks(storage.items) == StoredTasks(old(storage.items)) + ChatTasks(stamps, ActionTitles(a))
        && messages == old(messages) + [MentorMessage(replyId, false, ActionAck(a), None)]
        && storage.items == old(storage.items)[TasksKey := TaskList(StoredTasks(storage.items))]
                                               [ChatKey := MentorLog(Stripped(messages))]
    {
      if messages[index].action.None? {
        return;
      }
      var a := messages[index].action.value;
      var titles := ActionTitles(a);
      match a {
        case CreateSyllabusTasks =>
          CreateTaskFromChat(stamps[0], titles[0]);
          CreateTaskFromChat(stamps[1], titles[1]);
        case CreateStudyPlanTasks =>
          CreateTaskFromChat(stamps[0], titles[0]);
          CreateTaskFromChat(stamps[1], titles[1]);
          CreateTaskFromChat(stamps[2], titles[2]);
      }
      assert StoredTasks(storage.items) == StoredTasks(old(storage.items)) + ChatTasks(stamps, titles);
      AddAIMessage(replyId, ActionAck(a), None);
    }
  }
}
