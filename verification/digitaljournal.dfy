/**
 * The in-memory digital journal: plain entries kept newest first, starting
 * from two seeded entries. Nothing is stored and no XP is awarded.
 */
module DigitalJournal {
  import opened Text

  /** An entry of this journal: no title and no tags. */
  datatype DiaryEntry = DiaryEntry(id: string, content: string, date: string, time: string)

  const SeedEntries := [
    DiaryEntry("1", "Today was a good day. I " + "managed to complete my " + "assignment early and had " + "time to relax. Feeling " + "grateful for the support " + "from my friends.",
               "2025-01-15", "18:30"),
    DiaryEntry("2", "Feeling a bit overwhelmed " + "with upcoming exams. Need " + "to create a better study " + "schedule and maybe talk to " + "someone about managing " + "stress.",
               "2025-01-14", "22:15")
  ]

  /** The journal card. */
  class Diary {
    var currentEntry: string
    var entries: seq<DiaryEntry>

    constructor()
      ensures currentEntry == "" && entries == SeedEntries
    {
      currentEntry := "";
      entries := SeedEntries;
    }

    /**
     * `handleSaveEntry`: blank input does nothing; otherwise one entry with
     * the untrimmed text goes first, the older ones follow in order, and
     * the input is cleared.
     */
    method HandleSaveEntry(id: string, date: string, time: string)
      modifies this
      ensures IsBlank(old(currentEntry)) ==> entries == old(entries) && currentEntry == old(currentEntry)
      ensures !IsBlank(old(currentEntry)) ==>
        && entries == [DiaryEntry(id, old(currentEntry), date, time)] + old(entries)
        && currentEntry == ""
    {
      if !IsBlank(currentEntry) {
        entries := [DiaryEntry(id, currentEntry, date, time)] + entries;
        currentEntry := "";
      }
    }
  }
}
