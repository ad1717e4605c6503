/**
 * The personal support chat: a keyword priority chain over the lower-cased
 * input picks one of six canned replies, or a thank-you text when nothing
 * matches. The transcript starts from storage (or a greeting) and is
 * written back after every change.
 */
module ChatBot {
  import opened Storage
  import opened Text

  const ChatKey := "mitra-personality-chat"

  /** The keyword groups of the chain, in priority order, and the reply of each. */
  const Keywords: seq<seq<string>> := [
    ["stress", "overwhelm"],
    ["anxious", "worry", "nervous"],
    ["sad", "down", "depressed"],
    ["motivation", "lazy", "procrastination"],
    ["sleep", "tired", "insomnia"],
    ["study", "exam", "assignment"]
  ]
  const Replies: seq<BotText> := [StressReply, AnxietyReply, SadnessReply, MotivationReply, SleepReply, StudyReply]

  /** Some keyword of the group occurs in the input. */
  predicate Mentions(input: string, words: seq<string>) {
    exists w :: w in words && Contains(input, w)
  }

  /** The reply chain on the lower-cased input, as `handleSendMessage` writes it. */
  function Respond(input: string): BotText {
    if Contains(input, "stress") || Contains(input, "overwhelm") then StressReply
    else if Contains(input, "anxious") || Contains(input, "worry") || Contains(input, "nervous") then AnxietyReply
    else if Contains(input, "sad") || Contains(input, "down") || Contains(input, "depressed") then SadnessReply
    else if Contains(input, "motivation") || Contains(input, "lazy") || Contains(input, "procrastination") then MotivationReply
    else if Contains(input, "sleep") || Contains(input, "tired") || Contains(input, "insomnia") then SleepReply
    else if Contains(input, "study") || Contains(input, "exam") || Contains(input, "assignment") then StudyReply
    else ThankYouReply
  }

  /** No keyword of a group the input does not mention occurs in it. */
  lemma Unmentioned(input: string, j: int)
    requires 0 <= j < |Keywords| && !Mentions(input, Keywords[j])
    ensures forall v :: v in Keywords[j] ==> !Contains(input, v)
  {
  }

  /** The first keyword group the input mentions decides the reply. */
  lemma RespondFirstMatch(input: string, i: int)
    requires 0 <= i < |Keywords|
    requires Mentions(input, Keywords[i])
    requires forall j :: 0 <= j < i ==> !Mentions(input, Keywords[j])
    ensures Respond(input) == Replies[i]
  {
    forall j | 0 <= j < i ensures forall v :: v in Keywords[j] ==> !Contains(input, v) {
      Unmentioned(input, j);
    }
    if i > 0 {
      assert !Contains(input, "stress") && !Contains(input, "overwhelm") by {
        assert "stress" in Keywords[0] && "overwhelm" in Keywords[0];
      }
    }
    if i > 1 {
      assert !Contains(input, "anxious") && !Contains(input, "worry") && !Contains(input, "nervous") by {
        assert "anxious" in Keywords[1] && "worry" in Keywords[1] && "nervous" in Keywords[1];
      }
    }
    if i > 2 {
      assert !Contains(input, "sad") && !Contains(input, "down") && !Contains(input, "depressed") by {
        assert "sad" in Keywords[2] && "down" in Keywords[2] && "depressed" in Keywords[2];
      }
    }
    if i > 3 {
      assert !Contains(input, "motivation") && !Contains(input, "lazy") && !Contains(input, "procrastination") by {
        assert "motivation" in Keywords[3] && "lazy" in Keywords[3] && "procrastination" in Keywords[3];
      }
    }
    if i > 4 {
      assert !Contains(input, "sleep") && !Contains(input, "tired") && !Contains(input, "insomnia") by {
        assert "sleep" in Keywords[4] && "tired" in Keywords[4] && "insomnia" in Keywords[4];
      }
    }
  }

  /** An input that mentions no group gets the thank-you text. */
  lemma RespondFallback(input: string)
    requires forall j :: 0 <= j < |Keywords| ==> !Mentions(input, Keywords[j])
    ensures Respond(input) == ThankYouReply
  {
    forall j | 0 <= j < |Keywords| ensures forall v :: v in Keywords[j] ==> !Contains(input, v) {
      Unmentioned(input, j);
    }
    assert !Contains(input, "stress") && !Contains(input, "overwhelm") by {
      assert "stress" in Keywords[0] && "overwhelm" in Keywords[0];
    }
    assert !Contains(input, "anxious") && !Contains(input, "worry") && !Contains(input, "nervous") by {
      assert "anxious" in Keywords[1] && "worry" in Keywords[1] && "nervous" in Keywords[1];
    }
    assert !Contains(input, "sad") && !Contains(input, "down") && !Contains(input, "depressed") by {
      assert "sad" in Keywords[2] && "down" in Keywords[2] && "depressed" in Keywords[2];
    }
    assert !Contains(input, "motivation") && !Contains(input, "lazy") && !Contains(input, "procrastination") by {
      assert "motivation" in Keywords[3] && "lazy" in Keywords[3] && "procrastination" in Keywords[3];
    }
    assert !Contains(input, "sleep") && !Contains(input, "tired") && !Contains(input, "insomnia") by {
      assert "sleep" in Keywords[4] && "tired" in Keywords[4] && "insomnia" in Keywords[4];
    }
    assert !Contains(input, "study") && !Contains(input, "exam") && !Contains(input, "assignment") by {
      assert "study" in Keywords[5] && "exam" in Keywords[5] && "assignment" in Keywords[5];
    }
  }

  /** "stressed about exam" mentions both the stress and the study group; stress comes first. */
  lemma StressBeatsExam()
    ensures var input := Lower("stressed about exam");
      Mentions(input, Keywords[5]) && Respond(input) == StressReply
  {
    var input := Lower("stressed about exam");
    assert input == "stressed about exam";
    assert OccursAt(input, "exam", 15);
    ContainsAt(input, "exam");
    assert "stress" <= input;
  }

  /** The wording of a message, one line per element; a typed message is its own single line. */
  function WordingLines(t: BotText): seq<string> {
    match t
    case UserText(typed) => [typed]
    case BotGreeting => [
      "Hi! I'm your Personality " + "AI companion. I'm here to " + "support your mental health " + "and wellbeing. How are you " + "feeling today?"]
    case StressReply => [
      "I understand you're " + "feeling stressed. Here are " + "some quick techniques that " + "can help:",
      "",
      "\U{2022} Try the 4-7-8 breathing: " + "Inhale for 4, hold for 7, " + "exhale for 8",
      "\U{2022} Take a 5-minute walk outside",
      "\U{2022} Practice progressive " + "muscle relaxation",
      "",
      "Remember, it's okay to " + "feel stressed sometimes. " + "You're doing great by " + "reaching out!"]
    case AnxietyReply => [
      "Anxiety can be " + "overwhelming, but you're " + "not alone. Here are some " + "grounding techniques:",
      "",
      "\U{2022} 5-4-3-2-1 method: Name 5 " + "things you see, 4 you can " + "touch, 3 you hear, 2 you " + "smell, 1 you taste",
      "\U{2022} Deep breathing exercises",
      "\U{2022} Gentle stretching or yoga",
      "",
      "Would you like me to guide " + "you through a quick " + "breathing exercise?"]
    case SadnessReply => [
      "I'm sorry you're feeling " + "sad. Your feelings are " + "valid and important. Some " + "things that might help:",
      "",
      "\U{2022} Reach out to a trusted " + "friend or family member",
      "\U{2022} Engage in a favorite " + "activity, even briefly",
      "\U{2022} Practice self-compassion",
      "\U{2022} Consider journaling your " + "thoughts",
      "",
      "Remember, this feeling " + "won't last forever. You " + "have support available."]
    case MotivationReply => [
      "Here are some gentle ways " + "to boost your motivation:",
      "",
      "\U{2022} Start with one tiny task " + "- even making your bed " + "counts!",
      "\U{2022} Break big goals into " + "smaller steps",
      "\U{2022} Celebrate small wins",
      "\U{2022} Remember your 'why'",
      "",
      "You don't need to be " + "perfect. Just taking one " + "small step forward is " + "enough for today."]
    case SleepReply => [
      "Good sleep is crucial for " + "mental health. Here are " + "some tips:",
      "",
      "\U{2022} Create a bedtime routine " + "(no screens 1 hour before " + "bed)",
      "\U{2022} Keep your room cool and dark",
      "\U{2022} Try relaxation " + "techniques like meditation",
      "\U{2022} Avoid caffeine after 2 PM",
      "",
      "Consistent sleep schedule " + "can make a huge difference " + "in how you feel!"]
    case StudyReply => [
      "Study stress is real! Here " + "are some strategies:",
      "",
      "\U{2022} Use the Pomodoro " + "technique (25 min study, 5 " + "min break)",
      "\U{2022} Find a study buddy or group",
      "\U{2022} Create a comfortable " + "study environment",
      "\U{2022} Take regular breaks for " + "mental health",
      "",
      "Remember: Your worth isn't " + "defined by your grades. " + "You're more than your " + "academic performance."]
    case ThankYouReply => [
      "Thank you for sharing that " + "with me. I'm here to " + "listen and support you. " + "While I'm a demo AI, I " + "want you to know that your " + "feelings matter."]
  }

  /** The text a message shows. */
  function Wording(t: BotText): string {
    var lines := WordingLines(t);
    if lines == [] then "" else Join(lines, '\n')
  }

  /** A user message shows exactly what was typed. */
  lemma TypedWording(text: string)
    ensures Wording(UserText(text)) == text
  {
  }

  const Greeting := ChatMessage(1, BotGreeting, true)

  /** The lazily initialised transcript: the stored one when present, else the greeting. */
  function InitialMessages(items: Items): (ms: seq<ChatMessage>)
    ensures ms != [] || (Has(items, ChatKey) && items[ChatKey].ChatLog?)
  {
    if Has(items, ChatKey) && items[ChatKey].ChatLog? then items[ChatKey].messages else [Greeting]
  }

  /** A transcript that was written back is exactly what a reload starts from. */
  lemma ReloadRestores(items: Items, ms: seq<ChatMessage>)
    ensures InitialMessages(items[ChatKey := ChatLog(ms)]) == ms
  {
  }

  /** The chat panel. */
  class ChatBotPanel {
    var messages: seq<ChatMessage>
    var inputValue: string
    const storage: BrowserStorage

    constructor(storage: BrowserStorage)
      ensures this.storage == storage
      ensures messages == InitialMessages(storage.items) && inputValue == ""
    {
      this.storage := storage;
      messages := InitialMessages(storage.items);
      inputValue := "";
    }

    /** The write-back effect after a change of the transcript. */
    method Persist(updated: seq<ChatMessage>)
      modifies this`messages, storage
      ensures messages == updated
      ensures storage.items == old(storage.items)[ChatKey := ChatLog(updated)]
    {
      messages := updated;
      storage.SetItem(ChatKey, ChatLog(updated));
    }

    /**
     * `handleSendMessage`: a blank input does nothing; otherwise the
     * untrimmed text is appended as the user's message (id `userNow`), the
     * input is cleared, and the chosen reply follows (id `replyNow + 1`,
     * the clock read again when the typing delay, left out here, ends).
     */
    method HandleSendMessage(userNow: int, replyNow: int)
      modifies this`messages, this`inputValue, storage
      ensures IsBlank(old(inputValue)) ==>
        messages == old(messages) && inputValue == old(inputValue) && storage.items == old(storage.items)
      ensures !IsBlank(old(inputValue)) ==>
        && messages == old(messages) + [ChatMessage(userNow, UserText(old(inputValue)), false),
                                        ChatMessage(replyNow + 1, Respond(Lower(old(inputValue))), true)]
        && inputValue == ""
        && storage.items == old(storage.items)[ChatKey := ChatLog(messages)]
    {
      if !IsBlank(inputValue) {
        var text := inputValue;
        var userMessage := ChatMessage(userNow, UserText(text), false);
        Persist(messages + [userMessage]);
        var input := Lower(text);
        inputValue := "";
        var reply := ChatMessage(replyNow + 1, Respond(input), true);
        Persist(messages + [reply]);
        assert messages == old(messages) + [userMessage, reply];
      }
    }
  }
}
