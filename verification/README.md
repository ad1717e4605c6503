# Mitra: the gamification ledger and feature stores

Mitra is a student wellbeing web app. The browser's `localStorage` is its
only persistent store. This project models the parts of it that keep state
and make decisions.

- **Storage.** The browser's storage is a `BrowserStorage` object holding a
  map from key to a stored value. `getItem` truthiness is `Has`: the key is
  present and does not hold the empty string.
- **Gamification ledger (`useGamification`).** The XP total, the level,
  the per-activity counters, the streak and the five badges. `addXP` changes
  all of them and writes them back.
- **Mood check-in (`MoodTracker`).** A five-band classifier of the slider
  value, and a per-day submitted entry.
- **Task lists.**
  - The academic planner: toggling, filtering and 20 XP per completion.
  - The academic dashboard: the institution gate, adding (10 XP),
    toggling, deleting and importance classes.
  - The task-creating actions of the Mentor AI chat.
- **Chats.**
  - The Mentor AI: keyword routing, an action button per reply, and the
    transcript written back on every change.
  - The personality chat bot: a first-match keyword chain over six groups.
- **Community page.** Vote toggling, the displayed score, the category
  filter, and new posts from the create-post dialog, whose tags are the
  trimmed non-empty comma-separated pieces.
- **Journals.**
  - The Notion-style journal: title fallback, tags, date, and 15 XP per
    entry.
  - The simple diary.
- **Other stores and pages.**
  - The achievements page, which re-derives its cards from storage on
    mount.
  - The institution passkey gate.
  - The mock sign-in.
  - The groups and resources pages.
  - The volunteer application form.
  - The one-time storage wipe at start-up.

Each React component whose state its handlers update is a `class`. Each
handler is a method whose `ensures` clause gives its new fields and the
new storage. A handler that calls `addXP` once states the ledger's new
stats and badges exactly, through `Gamification.NextStats` and
`Gamification.UpdatedBadges`. The two task-toggle loops, which may call it
several times, state the ledger exactly as `Gamification.Run` over that
many identical credits, and from it the new XP, level, streak, counters and
badges.
The pure decisions are functions with named
results, and lemmas relate them (round trips, toggling twice, latching,
first-match routing).

Clocks (`Date.now()`, `new Date()`) are method parameters: `now`, `today`,
`iso` and the ids. Nothing in the model reads a clock.

## Model

| member | source | states |
|---|---|---|
| Text.Trim | src/components/app/CreatePostModal.tsx:30 | the trimmed text is empty exactly when the input is blank; otherwise it starts and ends with a non-whitespace character; it is never longer than the input |
| Text.TrimIdempotent | src/components/app/CreatePostModal.tsx:34-35 | trimming an already trimmed text changes nothing |
| Text.TrimStartSplits | src/components/app/CreatePostModal.tsx:30 | the left-trimmed text is a suffix of the input and what was cut off is all whitespace |
| Text.TrimEndSplits | src/components/app/CreatePostModal.tsx:30 | the right-trimmed text is a prefix of the input and what was cut off is all whitespace |
| Text.Lower | src/components/app/ChatBot.tsx:72 | `toLowerCase` keeps the length, turns each ASCII capital into its small letter (32 code points on), and keeps every other character |
| Text.Upper | src/pages/app/Resources.tsx:153-154 | `toUpperCase` keeps the length, turns each ASCII small letter into its capital (32 code points back), and keeps every other character |
| Text.LowerOfUpper | src/pages/app/Resources.tsx:153-154 | lower-casing an upper-cased text gives the same result as lower-casing the original |
| Text.ContainsAt | src/components/app/ChatBot.tsx:79-91 | `includes` holds exactly when the fragment occurs at some position |
| Text.Split | src/components/app/CreatePostModal.tsx:43 | `split` always returns at least one piece |
| Text.IndexOf | src/hooks/useAuth.ts:26 | the first position of a character: it does not occur before that position, and the position holds it unless it is the end |
| Text.SplitFirstPiece | src/hooks/useAuth.ts:26 | the first piece of a split is the text before the first separator |
| Text.FirstPiece | src/hooks/useAuth.ts:26 | `split(sep)[0]` is the text before the first separator and does not contain it; the sign-in name and the journal date are both this |
| Text.SplitPieces | src/components/app/CreatePostModal.tsx:43 | no piece of a split contains the separator |
| Text.SplitThenJoin | src/components/app/CreatePostModal.tsx:43 | joining the pieces of a split with the same separator gives the text back |
| Text.SplitJoin | src/components/app/CreatePostModal.tsx:43 | splitting a join of separator-free pieces gives the pieces back |
| Text.SplitNoSep | src/components/app/CreatePostModal.tsx:43 | a text without the separator splits into itself alone |
| Text.TrimAllAt | src/components/app/CreatePostModal.tsx:43 | the mapped trim puts the trimmed piece at each position |
| Text.NonEmptyMembership | src/components/app/CreatePostModal.tsx:43 | the tag filter keeps exactly the non-empty pieces |
| Text.NonEmptyIsFilter | src/components/app/CreatePostModal.tsx:43 | the tag filter is the order-keeping `filter` with the non-empty test |
| Text.TagsInOrder | src/components/app/CreatePostModal.tsx:43 | the tags appear in the order of the pieces they come from |
| Text.TagsWellFormed | src/components/app/NotionStyleJournal.tsx:48 | every tag is non-empty, comma-free and already trimmed, and comes from a piece of the field |
| Text.TagsComplete | src/components/app/CreatePostModal.tsx:43 | every non-blank piece of the tag field appears, trimmed, among the tags |
| Text.Blank | src/components/app/DigitalJournal.tsx:64 | `!s.trim()` holds exactly when every character is whitespace; both journals' Save buttons are disabled exactly then |
| Text.TrimIsSlice | src/components/app/CreatePostModal.tsx:34-35 | the trimmed text is a contiguous slice of the input, so it has no character the input lacks |
| Gamification.UpdatedBadges | src/hooks/useGamification.ts:138-145 | the badge list keeps its length, and each badge is re-evaluated against the new stats |
| Gamification.XPToNextLevel | src/hooks/useGamification.ts:176-178 | for consistent stats, between 1 and 100 XP remain to the next level |
| Gamification.NextStatsXP | src/hooks/useGamification.ts:113-116 | `addXP` adds exactly the amount, the level stays `floor(xp/100)+1`, and the streak is the stored one |
| Gamification.NextStatsCounters | src/hooks/useGamification.ts:119-135 | each activity string bumps exactly its own counter, and the mood check-in also bumps the active days |
| Gamification.UnknownActivityCountsNothing | src/hooks/useGamification.ts:119-132 | any other activity string moves XP and level but no counter |
| Gamification.LevelUpWhenCrossingHundred | src/hooks/useGamification.ts:114-116 | the level goes up exactly when the XP crosses a multiple of 100 |
| Gamification.BadgesAfterCall | src/hooks/useGamification.ts:138-145 | an earned badge stays earned, and a badge becomes earned once its progress reaches the requirement |
| Gamification.LatchedTransitive | src/hooks/useGamification.ts:138-145 | the badge latch composes over two calls |
| Gamification.RunLatched | src/hooks/useGamification.ts:112-152 | over any sequence of `addXP` calls no earned badge is ever lost |
| Gamification.RunXP | src/hooks/useGamification.ts:112-152 | over any sequence of calls the XP is the sum of the amounts, and the level stays consistent |
| Gamification.RunSnoc | src/hooks/useGamification.ts:112-152 | a run of calls followed by one more call ends where that call, applied to the run's outcome, ends |
| Gamification.RepeatStep | src/hooks/useGamification.ts:112-152 | a run of `n + 1` identical calls is the run of `n` followed by one more call |
| Gamification.UpdatedBadgesAbsorb | src/hooks/useGamification.ts:138-145 | re-evaluating the badges against stats whose streak is unchanged and whose counters only grew gives the same badges as one re-evaluation against the later stats |
| Gamification.RepeatedAcademicCredits | src/hooks/useGamification.ts:112-152 | `n` identical academic credits add `n` times the amount to the XP and `n` to the task counter, move no other counter and relock no badge; after at least one, the level matches the XP, the streak is the stored one, and the badges are one re-evaluation against the final stats |
| Gamification.AwardAfterLedgerWrite | src/hooks/useGamification.ts:105-110 | writing the ledger's two keys changes neither the stored streak nor today's mood check-in, so a later call sees the same ones |
| Gamification.AcademicScenario | src/hooks/useGamification.ts:112-152 | from a fresh ledger, an academic credit of 20 XP stays at level 1 and a second of 85 XP reaches 105 XP, level 2 and two academic tasks |
| Gamification.Ledger.constructor | src/hooks/useGamification.ts:25-86 | initial stats are level 1 with everything else 0, and the five badges are unearned |
| Gamification.Ledger.LoadGamificationData | src/hooks/useGamification.ts:92-103 | stored stats and badges replace the current ones only when their keys hold them |
| Gamification.Ledger.AddXP | src/hooks/useGamification.ts:112-152 | the new stats are `NextStats` of the old ones with the stored streak; the badges are re-evaluated and latched; exactly the two ledger keys are written; the result gives the amount and whether the level rose |
| Gamification.Ledger.AddXPInRun | src/hooks/useGamification.ts:112-152 | one more call in a run of identical `addXP` calls: the ledger and storage go from the outcome of `n` calls to that of `n + 1` |
| Gamification.Ledger.GetXPToNextLevel | src/hooks/useGamification.ts:176-178 | between 1 and 100 for consistent stats |
| Mood.MoodDataBands | src/components/app/MoodTracker.tsx:18-49 | a value gets a label exactly when it reaches that band's threshold and not the next one's; the colour always goes with the label |
| Mood.MoodDataMonotone | src/components/app/MoodTracker.tsx:18-49 | a higher value never falls in a lower band |
| Mood.SubmitThenRestore | src/components/app/MoodTracker.tsx:51-75 | submitting and then remounting on the same day restores exactly the submitted entry |
| Mood.ResetThenRestore | src/components/app/MoodTracker.tsx:51-82 | after a reset a remount finds nothing for that day, and other days are untouched |
| Mood.MoodTracker.constructor | src/components/app/MoodTracker.tsx:14-16 | the slider starts at 50, not submitted |
| Mood.MoodTracker.Mount | src/components/app/MoodTracker.tsx:51-60 | the card is submitted, with the stored value, exactly when today's key holds an entry |
| Mood.MoodTracker.SetMoodValue | src/components/app/MoodTracker.tsx:144-151 | the slider value is set and nothing else changes |
| Mood.MoodTracker.SubmitMood | src/components/app/MoodTracker.tsx:62-75 | only today's key is (over)written; the entry's label and colour are those of the value; a remount restores it |
| Mood.MoodTracker.ResetMood | src/components/app/MoodTracker.tsx:77-82 | not submitted any more, and only today's key is removed |
| Tasks.EarnedIsFilterCount | src/components/app/AcademicPlanner.tsx:89-109 | the XP count is the number of tasks with that id that were still pending |
| Tasks.EarnedStep | src/components/app/AcademicPlanner.tsx:90-106 | each task in the map adds one to the count exactly when it matches and was pending |
| Tasks.EarnedZero | src/components/app/AcademicPlanner.tsx:98-101 | nothing is earned exactly when every matching task was already completed |
| Planner.ToggleMatching | src/components/app/AcademicPlanner.tsx:89-109 | the length is kept; tasks with another id are unchanged; matching tasks flip their flag and get or lose the completion time |
| Planner.FilteredTasks | src/components/app/AcademicPlanner.tsx:130-136 | a subsequence of the tasks; all of them for the "all" view; for the other views exactly the pending or exactly the completed ones |
| Planner.StatusCountsAddUp | src/components/app/AcademicPlanner.tsx:146-147 | the pending and completed counts add up to the total, and the completed count is the completed view's length |
| Planner.ToggleTwice | src/components/app/AcademicPlanner.tsx:89-109 | toggling twice restores every flag and field except the completion time, which is the second toggle's time exactly for a task that was completed |
| Planner.ToggleKeepsCompletionTimed | src/components/app/AcademicPlanner.tsx:63-109 | toggling and adding keep "a completion time exactly for completed tasks" |
| Planner.ToggleTwiceRestoresPending | src/components/app/AcademicPlanner.tsx:89-109 | for a task that was pending, toggling twice restores the list exactly |
| Planner.AcademicPlanner.constructor | src/components/app/AcademicPlanner.tsx:33-49 | no tasks, the "all" view, an empty form |
| Planner.AcademicPlanner.LoadTasks | src/components/app/AcademicPlanner.tsx:51-56 | the stored task list, when present, replaces the current one |
| Planner.AcademicPlanner.SaveTasks | src/components/app/AcademicPlanner.tsx:58-61 | the list is set and written under the tasks key, and nothing else is written |
| Planner.AcademicPlanner.HandleAddTask | src/components/app/AcademicPlanner.tsx:63-87 | with a title and a due date the task is appended and saved and the form is reset; otherwise nothing changes; no XP is awarded |
| Planner.AcademicPlanner.ToggleTaskCompletion | src/components/app/AcademicPlanner.tsx:89-109 | the list is `ToggleMatching` of the old one; the ledger is `Run` of one `addXP(20, 'academic_task')` per matching task that was pending, all seeing the stored streak and mood; with at least one credit the level matches the XP, the streak is the stored one, only the task counter moves, and the badges are one re-evaluation against the final stats; the tasks and ledger keys are written |
| Planner.AcademicPlanner.MapTasks | src/components/app/AcademicPlanner.tsx:90-106 | the map-with-side-effect loop computes the toggled list, counts exactly the pending matches, and leaves the ledger and storage at the outcome of that many credits |
| Planner.AcademicPlanner.VisitTask | src/components/app/AcademicPlanner.tsx:90-105 | the callback toggles a task with the id (others are kept) and credits 20 XP exactly when that task was pending, extending the run of credits by one |
| Planner.AcademicPlanner.GetFilteredTasks | src/components/app/AcademicPlanner.tsx:130-136 | a subsequence of the tasks; all of them in the "all" view |
| Dashboard.FlipMatching | src/pages/app/AcademicDashboard.tsx:103-115 | the length is kept; matching tasks flip the completed flag only; others are unchanged |
| Dashboard.FlipTwice | src/pages/app/AcademicDashboard.tsx:103-115 | toggling twice on the dashboard restores the list exactly |
| Dashboard.FlipBreaksCompletionTime | src/pages/app/AcademicDashboard.tsx:103-115 | the dashboard's toggle leaves a completed task without a completion time, unlike the planner's |
| Seqs.FilterMultiplicity | src/pages/app/AcademicDashboard.tsx:117-119 | `filter` keeps every copy of a value that passes the test and no copy of one that fails it |
| Dashboard.Without | src/pages/app/AcademicDashboard.tsx:117-119 | deleting keeps, in order, exactly the tasks with another id, every copy of each of them, and no copy of a task with the id |
| Dashboard.DeleteAbsent | src/pages/app/AcademicDashboard.tsx:117-119 | deleting an id no task carries changes nothing |
| Dashboard.ImportanceClass | src/pages/app/AcademicDashboard.tsx:121-129 | the four known importances map to their own class; anything else maps to the normal one |
| Dashboard.AcademicDashboard.constructor | src/pages/app/AcademicDashboard.tsx:48-73 | the tasks start as the stored list or the seed list; no access; an empty form with normal importance |
| Dashboard.AcademicDashboard.Mount | src/pages/app/AcademicDashboard.tsx:40-46 | access is granted exactly when storage holds both an institution and a passkey; the list is written back |
| Dashboard.AcademicDashboard.HandleInstitutionAccess | src/pages/app/AcademicDashboard.tsx:79-81 | the gate's callback grants access |
| Dashboard.AcademicDashboard.Persist | src/pages/app/AcademicDashboard.tsx:75-77 | the list is set and written under the tasks key only |
| Dashboard.AcademicDashboard.Credit | src/pages/app/AcademicDashboard.tsx:83-115 | one academic credit of the given amount: the stats become `NextStats` with the stored streak, the badges are re-evaluated and latched, and the two ledger keys are written |
| Dashboard.AcademicDashboard.HandleAddTask | src/pages/app/AcademicDashboard.tsx:83-101 | a non-blank title appends the task, resets and closes the form, and credits 10 academic XP (stats become `NextStats`, badges re-evaluated and latched); a blank one changes nothing |
| Dashboard.AcademicDashboard.ToggleTask | src/pages/app/AcademicDashboard.tsx:103-115 | the list is `FlipMatching` of the old one; the ledger is `Run` of one `addXP(25, 'academic_task')` per matching task that was pending, all seeing the stored streak and mood; with at least one credit the level matches the XP, the streak is the stored one, only the task counter moves, and the badges are one re-evaluation against the final stats |
| Dashboard.AcademicDashboard.VisitTask | src/pages/app/AcademicDashboard.tsx:104-112 | the callback flips a task with the numeric id (others are kept) and credits 25 XP exactly when that task was pending, extending the run of credits by one |
| Dashboard.AcademicDashboard.DeleteTask | src/pages/app/AcademicDashboard.tsx:117-119 | the list is `Without` the id, and it is written back |
| Mentor.Route | src/components/app/MentorAI.tsx:119-128 | the syllabus reply exactly when "syllabus" or "curriculum" occurs; the study-plan reply exactly when none of those but one of its three words occurs; the doubt reply otherwise |
| Mentor.RouteIgnoresCase | src/components/app/MentorAI.tsx:119 | upper-casing the message does not change the reply |
| Mentor.SyllabusWins | src/components/app/MentorAI.tsx:122-123 | "syllabus" anywhere in the lower-cased text wins over every other keyword |
| Mentor.TypedWording | src/components/app/MentorAI.tsx:108-113 | a user message's wording is exactly what was typed |
| Mentor.ActionOf | src/components/app/MentorAI.tsx:61-88 | only the doubt reply comes without an action button |
| Mentor.ActionTitles | src/components/app/MentorAI.tsx:64-83 | the syllabus action creates two tasks and the study-plan action three |
| Mentor.ChatTasks | src/components/app/MentorAI.tsx:47-59 | one task per title, each built from its own clock reading |
| Mentor.SameClockSameId | src/components/app/MentorAI.tsx:47-59 | tasks created in the same millisecond share their id |
| Mentor.Stripped | src/components/app/MentorAI.tsx:42-45 | the stored transcript is the messages with only their action callbacks removed |
| Mentor.ReloadDropsActions | src/components/app/MentorAI.tsx:20-45 | after a write-back and a reload the texts return, but no working action does |
| Mentor.MentorAI.constructor | src/components/app/MentorAI.tsx:20-38 | the stored transcript or the greeting; an empty input |
| Mentor.MentorAI.Persist | src/components/app/MentorAI.tsx:42-45 | the transcript, stripped of its actions, is written under the chat key only |
| Mentor.MentorAI.AddAIMessage | src/components/app/MentorAI.tsx:90-103 | appends exactly one reply, with its action, and writes the transcript back |
| Mentor.MentorAI.CreateTaskFromChat | src/components/app/MentorAI.tsx:47-59 | appends one task to the stored task list, and changes nothing else |
| Mentor.MentorAI.HandleSendMessage | src/components/app/MentorAI.tsx:105-131 | a blank input does nothing; otherwise the untrimmed text and then the routed reply with its action are appended, and the input is cleared |
| Mentor.MentorAI.ClickAction | src/components/app/MentorAI.tsx:64-83 | a live action appends its tasks to the stored list and posts its acknowledgement; a button whose action was lost in a reload does nothing |
| PostModal.BuildPost | src/components/app/CreatePostModal.tsx:32-44 | title and content are the trimmed inputs (non-empty under the guard) and the tags are the tag list of the field; authored by "You", "Just now", no votes or replies, not helpful |
| PostModal.BuiltPostWellFormed | src/components/app/CreatePostModal.tsx:32-44 | title and content have no whitespace at either end; tags are non-empty, trimmed and comma-free; every non-blank piece of the tag field is among them, in the order of the pieces |
| PostModal.CreatePostModal.constructor | src/components/app/CreatePostModal.tsx:16-19 | four empty fields |
| PostModal.CreatePostModal.HandleSubmit | src/components/app/CreatePostModal.tsx:28-54 | under the guard hands over the built post, clears the fields and closes; otherwise does nothing |
| PostModal.CreatePostModal.PostDisabled | src/components/app/CreatePostModal.tsx:149 | the button is disabled exactly when the submit guard fails |
| Community.NextVotes | src/pages/app/Community.tsx:125-130 | repeating the recorded vote clears it, any other vote records that direction, and no other post's vote moves |
| Community.VoteTwice | src/pages/app/Community.tsx:125-130 | voting the same way twice restores the vote unless it started opposite, in which case it ends cleared |
| Community.DisplayedScore | src/pages/app/Community.tsx:283 | the shown score is upvotes minus downvotes, plus one for the viewer's up vote, minus one for a down vote, unchanged without a vote |
| Community.VoteMovesScore | src/pages/app/Community.tsx:125-133 | a vote moves only that post's shown score, by the change in the viewer's vote weight |
| Community.FilteredPosts | src/pages/app/Community.tsx:121-123 | a subsequence; every post for "all"; otherwise exactly the posts of that category, with every copy of each kept and no copy of any other post |
| Community.CommunityPage.constructor | src/pages/app/Community.tsx:25-94 | the five seed posts, no votes, the "all" category |
| Community.CommunityPage.HandleVote | src/pages/app/Community.tsx:125-133 | the vote map is `NextVotes`; the stats become `NextStats` with 5 XP under an activity no counter recognises and the stored streak; the badges are re-evaluated and latched; the two ledger keys are written |
| Community.CommunityPage.HandleCreatePost | src/pages/app/Community.tsx:98-110 | the new post goes first; the stats become `NextStats` with 10 XP under an activity no counter recognises (so the community-post counter does not move) and the stored streak; the badges are re-evaluated and latched; the two ledger keys are written |
| Community.CommunityPage.GetFilteredPosts | src/pages/app/Community.tsx:121-123 | a subsequence of the posts, all of them for "all" |
| DigitalJournal.Diary.constructor | src/components/app/DigitalJournal.tsx:15-29 | the two seed entries and an empty input |
| DigitalJournal.Diary.HandleSaveEntry | src/components/app/DigitalJournal.tsx:31-42 | a blank input does nothing; otherwise the untrimmed entry goes first and the input is cleared |
| NotionJournal.EntryTitle | src/components/app/NotionStyleJournal.tsx:46 | never empty: the trimmed title, or "Untitled Entry" for a blank one |
| NotionJournal.NewEntryTags | src/components/app/NotionStyleJournal.tsx:42-56 | the new entry's tags are well-formed, its title is non-empty, and its date is the timestamp's text before the first `T` |
| NotionJournal.NotionStyleJournal.constructor | src/components/app/NotionStyleJournal.tsx:19-24 | empty fields and no entries |
| NotionJournal.NotionStyleJournal.LoadJournalEntries | src/components/app/NotionStyleJournal.tsx:30-35 | the stored entries, when present, replace the current ones |
| NotionJournal.NotionStyleJournal.SaveJournalEntries | src/components/app/NotionStyleJournal.tsx:37-40 | the entries are set and written under the journal key only |
| NotionJournal.NotionStyleJournal.HandleSaveEntry | src/components/app/NotionStyleJournal.tsx:42-64 | a blank entry changes nothing; otherwise the new entry goes first, the stats become `NextStats` with 15 journal XP (so one more journal entry), the badges are re-evaluated and latched, and the three fields clear |
| NotionJournal.NotionStyleJournal.Credit | src/components/app/NotionStyleJournal.tsx:56-57 | the stats become `NextStats` with 15 journal XP and the stored streak (so +15 XP and +1 journal entry), the badges are re-evaluated and latched, and the two ledger keys are written |
| Achievements.Read | src/components/app/GamificationDashboard.tsx:63-65 | missing keys read as 0, and the mood card reads today's mood key |
| Achievements.Derive | src/components/app/GamificationDashboard.tsx:72-95 | id, title and maximum are kept; the mood card follows today's key; a counted card shows its value capped at the maximum, and is unlocked exactly when the value reaches it |
| Achievements.DeriveAll | src/components/app/GamificationDashboard.tsx:72-95 | one card out per card in |
| Achievements.DeriveAllAt | src/components/app/GamificationDashboard.tsx:72-95 | each card is derived independently of the others |
| Achievements.DeriveAllIdempotent | src/components/app/GamificationDashboard.tsx:61-99 | re-running the mount effect on the same storage changes nothing |
| Achievements.UnlockIsNotLatched | src/components/app/GamificationDashboard.tsx:81-84 | an unlocked streak card is locked again when the streak drops |
| Achievements.EmptyStorageLocksAll | src/components/app/GamificationDashboard.tsx:61-99 | with empty storage every card is locked and every counted card shows 0 |
| Achievements.GamificationDashboard.constructor | src/components/app/GamificationDashboard.tsx:17-59 | counters at 0, and the four initial cards |
| Achievements.GamificationDashboard.Mount | src/components/app/GamificationDashboard.tsx:61-99 | the counters take the readings, and every card is re-derived from them |
| Institution.PasskeyOutcome | src/components/InstitutionSelector.tsx:31-42 | ignored exactly for a blank passkey; accepted exactly for an untrimmed all-digit one |
| Institution.DigitsAreNotBlank | src/components/InstitutionSelector.tsx:32-34 | an all-digit passkey always passes the blank guard |
| Institution.SpacedPasskeyRejected | src/components/InstitutionSelector.tsx:32-34 | a passkey with a leading space passes the guard but is refused |
| Institution.AcceptedRegisters | src/components/InstitutionSelector.tsx:35-37 | an accepted passkey for a chosen institution leaves storage registered for the dashboard |
| Institution.InstitutionSelector.constructor | src/components/InstitutionSelector.tsx:13-15 | step 1, nothing chosen, an empty passkey |
| Institution.InstitutionSelector.HandleInstitutionSelect | src/components/InstitutionSelector.tsx:26-29 | records the choice and moves to step 2 |
| Institution.InstitutionSelector.Back | src/components/InstitutionSelector.tsx:114 | back to step 1 |
| Institution.InstitutionSelector.SetPasskey | src/components/InstitutionSelector.tsx:107 | the typed passkey is recorded |
| Institution.InstitutionSelector.HandlePasskeySubmit | src/components/InstitutionSelector.tsx:31-42 | an accepted passkey writes both keys and calls back with the choice; otherwise nothing is stored and nothing is called |
| Institution.InstitutionSelector.SubmitDisabled | src/components/InstitutionSelector.tsx:121 | disabled exactly when a press would be ignored |
| Auth.LocalPartWithoutAt | src/hooks/useAuth.ts:26 | an email without `@` is its own name |
| Auth.LocalPartBeforeAt | src/hooks/useAuth.ts:26 | with an `@`, the name, the `@` and a rest make up the email |
| Auth.SignInUser | src/hooks/useAuth.ts:22-32 | id "1", the given email, and the name from the email |
| Auth.AuthState.constructor | src/hooks/useAuth.ts:9-11 | nobody signed in, still loading |
| Auth.AuthState.Load | src/hooks/useAuth.ts:13-20 | loading ends; a stored user is restored |
| Auth.AuthState.SignIn | src/hooks/useAuth.ts:22-32 | always succeeds with `SignInUser`, which is stored under the user key |
| Auth.AuthState.SignUp | src/hooks/useAuth.ts:34-44 | the given name and email with the clock id, stored under the user key |
| Auth.AuthState.SignOut | src/hooks/useAuth.ts:46-49 | nobody signed in, and only the user key is removed |
| Auth.SignInSurvivesReload | src/hooks/useAuth.ts:13-32 | a reload after a sign-in restores that user |
| Auth.SignOutSurvivesReload | src/hooks/useAuth.ts:13-20 | a reload after a sign-out finds nobody |
| Groups.Toggled | src/pages/app/Groups.tsx:148-156 | the id changes side, every other id stays, and the count moves by one |
| Groups.ToggleTwice | src/pages/app/Groups.tsx:148-156 | joining then leaving (or the reverse) restores the set |
| Groups.FilteredGroups | src/pages/app/Groups.tsx:135-146 | the college list, the interest list, exactly the joined groups in order, or all groups for any other tab |
| Groups.GroupsPage.constructor | src/pages/app/Groups.tsx:21-22 | the "all" tab, and groups 1, 3 and 5 joined |
| Groups.GroupsPage.HandleJoinLeave | src/pages/app/Groups.tsx:148-156 | the joined set becomes `Toggled` |
| Resources.Catalogue | src/pages/app/Resources.tsx:152 | a list exactly for the four known tabs |
| Resources.Search | src/pages/app/Resources.tsx:152-155 | a subsequence holding exactly the items whose title or description contains the query, ignoring ASCII case, each as many times as in the tab |
| Resources.FilteredResources | src/pages/app/Resources.tsx:152-155 | undefined for an unknown tab; otherwise a subsequence of that tab's list |
| Resources.EmptyQueryShowsAll | src/pages/app/Resources.tsx:152-155 | an empty query shows the whole tab |
| Resources.UpperCasedQuery | src/pages/app/Resources.tsx:153-154 | the query's case does not matter |
| Resources.FoundByTitle | src/pages/app/Resources.tsx:153 | searching for an item's own title finds it |
| ChatBot.Unmentioned | src/components/app/ChatBot.tsx:79-91 | a group not mentioned has none of its words in the input |
| ChatBot.RespondFirstMatch | src/components/app/ChatBot.tsx:79-91 | the reply is that of the first keyword group the input mentions |
| ChatBot.RespondFallback | src/components/app/ChatBot.tsx:77 | without any keyword the thank-you reply is given |
| ChatBot.StressBeatsExam | src/components/app/ChatBot.tsx:79-91 | an input mentioning stress and exams gets the stress reply |
| ChatBot.TypedWording | src/components/app/ChatBot.tsx:63-68 | a user message's wording is exactly what was typed |
| ChatBot.InitialMessages | src/components/app/ChatBot.tsx:16-32 | the transcript starts empty only when storage holds an empty one |
| ChatBot.ReloadRestores | src/components/app/ChatBot.tsx:16-48 | after a write-back a reload restores the transcript exactly |
| ChatBot.ChatBotPanel.constructor | src/components/app/ChatBot.tsx:16-33 | the stored transcript or the greeting; an empty input |
| ChatBot.ChatBotPanel.Persist | src/components/app/ChatBot.tsx:46-48 | the transcript is written under the chat key only |
| ChatBot.ChatBotPanel.HandleSendMessage | src/components/app/ChatBot.tsx:59-103 | a blank input does nothing; otherwise the untrimmed text and then the reply to its lower-cased form are appended (ids now and later+1), and the input is cleared |
| FirstRun.SavedTheme | src/main.tsx:12 | the hyphenated key's theme first, then the underscored one's, or none |
| FirstRun.AfterFirstRun | src/main.tsx:10-18 | with the flag set, storage is untouched; otherwise only the flag and, when there was a theme, that theme under `mitra_theme` remain |
| FirstRun.NoThemeLeavesOnlyFlag | src/main.tsx:10-18 | without a saved theme only the flag remains |
| FirstRun.FirstRunIdempotent | src/main.tsx:10-18 | running the routine twice is the same as running it once |
| FirstRun.ClearOnFirstRun | src/main.tsx:10-18 | the step-by-step routine leaves exactly `AfterFirstRun` of the old storage |
| FirstRun.ProviderThemeLostAsWritten | src/main.tsx:11-15 | a theme saved under the provider's key `mitra-theme` is moved to `mitra_theme`, which the provider does not read |
| FirstRun.AfterFirstRunKeepingTheme | src/main.tsx:11 | the corrected wipe keeps only the two theme keys and sets the flag |
| FirstRun.KeepingThemePreservesProviderTheme | src/main.tsx:11-29 | with the correction the provider's theme survives, and the wipe stays idempotent |
| Counselor.StoredApplications | src/components/app/CollegeCounselor.tsx:94 | a missing key reads as no applications |
| Counselor.CollegeCounselor.constructor | src/components/app/CollegeCounselor.tsx:31-38 | the form is closed and empty |
| Counselor.CollegeCounselor.HandleVolunteerApply | src/components/app/CollegeCounselor.tsx:92-110 | the application is appended to the stored list, which is written back; the form closes and empties |
| Counselor.CollegeCounselor.SubmitDisabled | src/components/app/CollegeCounselor.tsx:301 | disabled exactly when the name or the course is empty: enabled only with both, and enabled whenever both are filled |
| Counselor.TwoApplicationsKeepOrder | src/components/app/CollegeCounselor.tsx:92-110 | two applications in a row are both kept, in order |

## Left out

- JSON encoding and decoding. Stored values are a tagged union, `Value`. A key that holds a value of the wrong shape reads as missing, where `JSON.parse` would throw or produce something else.
- `parseInt` of the stored counters on the achievements page. The streak, journal and task readings are stored numbers.
- Timers: the one-second typing delay of both chats, and the toast and alert calls. Bot replies are appended in the same step as the user's message. The reply's clock reading is a separate parameter.
- Clocks and `Math.random`. Dates, times and ids are parameters.
- Each React component's own closure over stale state, apart from the consequence in the three lines below.
- Planner.AcademicPlanner.ToggleTaskCompletion: every `addXP` call of one toggle starts from the stats and badges of the same render (src/hooks/useGamification.ts:113, 138), so two pending tasks with the id are credited 20 XP and one task, not 40 XP and two. The model credits each of them in turn.
- Planner.AcademicPlanner.MapTasks: credits cumulatively for the same reason; the program's ledger after the pass is that of its last credit alone.
- Dashboard.AcademicDashboard.ToggleTask: the same, with 25 XP. Two pending tasks share an id when one Mentor action creates them in the same millisecond (`Mentor.SameClockSameId`).
- Floating point: completion rates, `getLevelProgress`, and `getDaysUntilDue` in the planner are not modelled.
- Unicode case mapping. `toLowerCase` and `toUpperCase` map ASCII letters only.
- Mentor.Stripped: the stored transcript keeps each action button's label, because the stringifier drops only the callback, so after a reload the page still shows an inert labelled button. The model drops the whole action, and a click on such a button changes nothing.
- The long reply texts of both chats are symbols (`BotText`, `MentorText`). Their wording is written out once, through `Wording`, and the empty case of `Wording` cannot arise.
- Message timestamps, and the descriptions, icons and colours of groups, resources and posts.
- The create-post dialog hands its post to the community page. That wiring is modelled by the two operations separately: `PostModal.CreatePostModal.HandleSubmit` returns the post, and `Community.CommunityPage.HandleCreatePost` takes one.
- The leaderboard, profile, landing and static pages, and the theme provider itself. The theme provider's storage key appears only in the finding below.
- Gamification.Ledger.LoadGamificationData: does not model a stored value that is not a stats record or a badge list being used as one.
- Mentor.MentorAI.AddAIMessage: the id is a parameter, so two replies in the same millisecond sharing an id is shown only for tasks (`Mentor.SameClockSameId`).

## Findings

| source | as written | input that shows it | evidently intended | confidence | as-written member | corrected member |
|---|---|---|---|---|---|---|
| src/main.tsx:11-15 | the wipe copies a saved theme to `mitra_theme`; `keysToKeep` is never used | storage holding only `mitra-theme` = "dark" and no flag: afterwards `mitra-theme` is gone, so the theme provider (storage key `mitra-theme`, line 29) falls back to light | keep both theme keys as they were | medium, not executed | FirstRun.ProviderThemeLostAsWritten | FirstRun.KeepingThemePreservesProviderTheme |

`FirstRun.ClearOnFirstRun` models the routine as written.
