/**
 * The notion-style journal: titled, tagged entries kept newest first and
 * saved under `mitra-journal-entries`; each saved entry earns 15 journal XP.
 */
module NotionJournal {
  import opened Storage
  import opened Text
  import Gamification

  const JournalKey := "mitra-journal-entries"
  const EntryXP := 15
  const Untitled := "Untitled Entry"

  /** The entry title: the trimmed title, or "Untitled Entry" when that is empty. */
  function EntryTitle(title: string): (r: string)
    ensures r != []
    ensures !IsBlank(title) ==> r == Trim(title)
    ensures IsBlank(title) ==> r == Untitled
  {
    var t := Trim(title);
    if t != "" then t else Untitled
  }

  /** The calendar date of an ISO timestamp: `split('T')[0]`, everything before the first `T`. */
  function IsoDate(iso: string): string {
    FirstPiece(iso, 'T')
  }

  /** The entry `handleSaveEntry` builds; the content is kept exactly as typed. */
  function NewEntry(id: string, title: string, content: string, tagField: string, iso: string, time: string): JournalEntry {
    JournalEntry(id, EntryTitle(title), content, Tags(tagField), IsoDate(iso), time)
  }

  /** The built entry's tags are non-empty, trimmed, comma-free pieces of the tag field. */
  lemma NewEntryTags(id: string, title: string, content: string, tagField: string, iso: string, time: string)
    ensures var e := NewEntry(id, title, content, tagField, iso, time);
      && e.content == content && e.title != []
      && e.date == iso[..IndexOf(iso, 'T')] && 'T' !in e.date
      && forall t :: t in e.tags ==> t != [] && ',' !in t && Trim(t) == t
  {
    forall t | t in Tags(tagField) ensures t != [] && ',' !in t && Trim(t) == t {
      TagsWellFormed(tagField, t);
    }
  }

  /** The journal panel. */
  class NotionStyleJournal {
    var currentEntry: string
    var currentTitle: string
    var currentTags: string
    var entries: seq<JournalEntry>
    const storage: BrowserStorage
    const ledger: Gamification.Ledger

    constructor(ledger: Gamification.Ledger)
      ensures this.ledger == ledger && storage == ledger.storage
      ensures currentEntry == "" && currentTitle == "" && currentTags == "" && entries == []
    {
      this.ledger := ledger;
      storage := ledger.storage;
      currentEntry, currentTitle, currentTags := "", "", "";
      entries := [];
    }

    /** `loadJournalEntries`: the stored list replaces the current one when present. */
    method LoadJournalEntries()
      modifies this`entries
      ensures entries == if Has(storage.items, JournalKey) && storage.items[JournalKey].Journal?
                         then storage.items[JournalKey].entries else old(entries)
    {
      if Has(storage.items, JournalKey) && storage.items[JournalKey].Journal? {
        entries := storage.items[JournalKey].entries;
      }
    }

    /** `saveJournalEntries`: the stored list and the in-memory list become the same list. */
    method SaveJournalEntries(updated: seq<JournalEntry>)
      modifies this`entries, storage
      ensures entries == updated
      ensures storage.items == old(storage.items)[JournalKey := Journal(updated)]
    {
      storage.SetItem(JournalKey, Journal(updated));
      entries := updated;
    }

    /**
     * `handleSaveEntry`: blank content does nothing; otherwise the new entry
     * goes first, the list is saved, 15 journal XP is awarded and the three
     * fields are cleared.
     */
    method HandleSaveEntry(id: string, iso: string, time: string, today: string)
      requires ledger.storage == storage
      modifies this`entries, this`currentEntry, this`currentTitle, this`currentTags, storage, ledger
      ensures IsBlank(old(currentEntry)) ==>
        && entries == old(entries) && storage.items == old(storage.items)
        && ledger.stats == old(ledger.stats) && ledger.badges == old(ledger.badges)
        && currentEntry == old(currentEntry) && currentTitle == old(currentTitle) && currentTags == old(currentTags)
      ensures !IsBlank(old(currentEntry)) ==>
        && entries == [NewEntry(id, old(currentTitle), old(currentEntry), old(currentTags), iso, time)] + old(entries)
        && ledger.stats == Gamification.NextStats(old(ledger.stats), EntryXP, Gamification.JournalActivity, Gamification.CurrentStreak(old(storage.items)))
        && ledger.badges == Gamification.UpdatedBadges(old(ledger.badges), ledger.stats, Has(old(storage.items), MoodKey(today)))
        && ledger.stats.xp == old(ledger.stats.xp) + EntryXP
        && ledger.stats.journalEntries == old(ledger.stats.journalEntries) + 1
        && ledger.stats.academicTasks == old(ledger.stats.academicTasks)
        && Gamification.Latched(old(ledger.badges), ledger.badges)
        && storage.items == old(storage.items)[JournalKey := Journal(entries)]
                             [Gamification.StatsKey := Stats(ledger.stats)][Gamification.BadgesKey := Badges(ledger.badges)]
        && currentEntry == "" && currentTitle == "" && currentTags == ""
    {
      if !IsBlank(currentEntry) {
        var entry := NewEntry(id, currentTitle, currentEntry, currentTags, iso, time);
        SaveJournalEntries([entry] + entries);
        assert MoodKey(today)[1] != JournalKey[1];
        Credit(today);
        currentEntry, currentTitle, currentTags := "", "", "";
      }
    }

    /** One call of `addXP(15, 'journal_entry')`. */
    method Credit(today: string)
      requires ledger.storage == storage
      modifies storage, ledger
      ensures ledger.stats == Gamification.NextStats(old(ledger.stats), EntryXP, Gamification.JournalActivity, Gamification.CurrentStreak(old(storage.items)))
      ensures ledger.badges == Gamification.UpdatedBadges(old(ledger.badges), ledger.stats, Has(old(storage.items), MoodKey(today)))
      ensures ledger.stats.xp == old(ledger.stats.xp) + EntryXP
      ensures ledger.stats.journalEntries == old(ledger.stats.journalEntries) + 1
      ensures ledger.stats.academicTasks == old(ledger.stats.academicTasks)
      ensures Gamification.Latched(old(ledger.badges), ledger.badges)
      ensures storage.items == old(storage.items)[Gamification.StatsKey := Stats(ledger.stats)][Gamification.BadgesKey := Badges(ledger.badges)]
    {
      var _, _ := ledger.AddXP(EntryXP, Gamification.JournalActivity, today);
    }
  }
}
