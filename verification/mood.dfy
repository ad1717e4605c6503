/** The daily mood check-in (`MoodTracker`): a five-band classifier and a per-day submitted state. */
module Mood {
  import opened Wrappers
  import opened Storage

  /** `getMoodData`: the label and colour of a mood value. */
  function MoodData(v: int): (MoodLabel, MoodColor) {
    if v >= 80 then (Excellent, Emerald)
    else if v >= 60 then (Good, Primary)
    else if v >= 40 then (Neutral, Violet)
    else if v >= 20 then (Low, Gold)
    else (Critical, Rose)
  }

  /** The bands from worst (0) to best (4). */
  function Rank(l: MoodLabel): nat {
    match l
    case Critical => 0
    case Low => 1
    case Neutral => 2
    case Good => 3
    case Excellent => 4
  }

  /** The lower bound of each band. */
  function Threshold(l: MoodLabel): int {
    match l
    case Critical => -1
    case Low => 20
    case Neutral => 40
    case Good => 60
    case Excellent => 80
  }

  /** Each label's colour. */
  function ColorOf(l: MoodLabel): MoodColor {
    match l
    case Excellent => Emerald
    case Good => Primary
    case Neutral => Violet
    case Low => Gold
    case Critical => Rose
  }

  /**
   * A value falls in a band exactly when it reaches the band's threshold
   * and not the next one's, and the colour always goes with the label.
   */
  lemma MoodDataBands(v: int, l: MoodLabel)
    ensures MoodData(v).1 == ColorOf(MoodData(v).0)
    ensures MoodData(v).0 == l <==>
      (l == Critical || v >= Threshold(l)) && forall m :: Rank(m) == Rank(l) + 1 ==> v < Threshold(m)
  {
    var next := match l
      case Critical => Low
      case Low => Neutral
      case Neutral => Good
      case Good => Excellent
      case Excellent => Excellent;
    if l != Excellent {
      assert Rank(next) == Rank(l) + 1;
    }
    assert forall m :: Rank(m) == Rank(l) + 1 ==> m == next;
  }

  /** A higher value never falls in a lower band. */
  lemma MoodDataMonotone(a: int, b: int)
    requires a <= b
    ensures Rank(MoodData(a).0) <= Rank(MoodData(b).0)
  {
  }

  /** The slider offers 0..100 in steps of 5. */
  predicate SliderValue(v: int) {
    0 <= v <= 100 && v % 5 == 0
  }

  /** The entry `handleSubmitMood` stores for a value on a day. */
  function EntryFor(v: int, day: string): MoodEntry {
    MoodEntry(v, day, MoodData(v).1, MoodData(v).0)
  }

  /** What the mount effect restores for a day: the stored entry, if the key holds one. */
  function Restore(items: Items, day: string): Option<MoodEntry> {
    var key := MoodKey(day);
    if Has(items, key) && items[key].Mood? then Some(items[key].mood) else None
  }

  /** Submitting and then reloading on the same day restores exactly the submitted entry. */
  lemma SubmitThenRestore(items: Items, v: int, day: string)
    ensures Restore(items[MoodKey(day) := Mood(EntryFor(v, day))], day) == Some(EntryFor(v, day))
  {
  }

  /** After a reset, reloading on that day finds nothing, and other days are unaffected. */
  lemma ResetThenRestore(items: Items, day: string, other: string)
    requires other != day
    ensures Restore(items - {MoodKey(day)}, day) == None
    ensures Restore(items - {MoodKey(day)}, other) == Restore(items, other)
  {
    assert MoodKey(other)[5..] == other && MoodKey(day)[5..] == day;
  }

  /** The check-in card. */
  class MoodTracker {
    var moodValue: int
    var isSubmitted: bool
    var todaysMood: Option<MoodEntry>
    const storage: BrowserStorage

    constructor(storage: BrowserStorage)
      ensures this.storage == storage
      ensures moodValue == 50 && !isSubmitted && todaysMood == None
    {
      this.storage := storage;
      moodValue := 50;
      isSubmitted := false;
      todaysMood := None;
    }

    /** The mount effect: submitted exactly when today's key holds an entry; the slider takes its value. */
    method Mount(today: string)
      modifies this
      ensures todaysMood == (if Restore(storage.items, today).Some? then Restore(storage.items, today) else old(todaysMood))
      ensures isSubmitted == (Restore(storage.items, today).Some? || old(isSubmitted))
      ensures moodValue == (if Restore(storage.items, today).Some? then Restore(storage.items, today).value.value else old(moodValue))
    {
      var saved := Restore(storage.items, today);
      if saved.Some? {
        todaysMood := saved;
        isSubmitted := true;
        moodValue := saved.value.value;
      }
    }

    /** Moving the slider. */
    method SetMoodValue(v: int)
      requires SliderValue(v)
      modifies this
      ensures moodValue == v && isSubmitted == old(isSubmitted) && todaysMood == old(todaysMood)
    {
      moodValue := v;
    }

    /** `handleSubmitMood`: stores today's entry (overwriting any earlier one) and shows it as submitted. */
    method SubmitMood(today: string)
      modifies this, storage
      ensures storage.items == old(storage.items)[MoodKey(today) := Mood(EntryFor(moodValue, today))]
      ensures todaysMood == Some(EntryFor(moodValue, today)) && isSubmitted
      ensures todaysMood.value.moodLabel == MoodData(moodValue).0 && todaysMood.value.color == MoodData(moodValue).1
      ensures Restore(storage.items, today) == todaysMood
      ensures moodValue == old(moodValue)
    {
      var data := MoodData(moodValue);
      var entry := MoodEntry(moodValue, today, data.1, data.0);
      storage.SetItem(MoodKey(today), Mood(entry));
      todaysMood := Some(entry);
      isSubmitted := true;
    }

    /** `resetMood`: back to not submitted, and only today's key is removed. */
    method ResetMood(today: string)
      modifies this, storage
      ensures !isSubmitted && todaysMood == None && moodValue == old(moodValue)
      ensures storage.items == old(storage.items) - {MoodKey(today)}
      ensures Restore(storage.items, today) == None
    {
      isSubmitted := false;
      todaysMood := None;
      storage.RemoveItem(MoodKey(today));
    }
  }
}
