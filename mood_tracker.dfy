/**
 * The mood, energy and focus form: level labels, slider defaults, the
 * `isSaving` flag around a save, and the save-button label.
 */
module MoodTracker {
  import opened Types

  const Labels: seq<string> := ["Very Low", "Low", "Medium", "High", "Very High"]

  /** `labels[value - 1] || 'Medium'` */
  function GetLevelLabel(value: int): (text: string)
    ensures 1 <= value <= 5 ==> text == Labels[value - 1]
    ensures !(1 <= value <= 5) ==> text == "Medium"
    ensures text in Labels
  {
    if 1 <= value <= 5 then Labels[value - 1] else "Medium"
  }

  /** On the slider's range 1..5 each level has its own label, in increasing order. */
  lemma LevelLabelsDistinct(a: int, b: int)
    requires 1 <= a <= 5 && 1 <= b <= 5 && a != b
    ensures GetLevelLabel(a) != GetLevelLabel(b)
  {
  }

  /** Every value outside 1..5 reads as the middle level. */
  lemma OutOfRangeIsMedium(value: int)
    requires value < 1 || value > 5
    ensures GetLevelLabel(value) == GetLevelLabel(3)
  {
  }

  /** `moodEntry?.sleep || 7`: no entry, no sleep value, or 0 hours all give 7. */
  function SleepOrDefault(entry: Option<MoodEntry>): (hours: real)
    ensures entry.None? || entry.value.sleep.None? ==> hours == 7.0
    ensures entry.Some? && entry.value.sleep == Some(0.0) ==> hours == 7.0
    ensures entry.Some? && entry.value.sleep.Some? && entry.value.sleep.value != 0.0
      ==> hours == entry.value.sleep.value
  {
    if entry.Some? && entry.value.sleep.Some? && entry.value.sleep.value != 0.0
    then entry.value.sleep.value else 7.0
  }

  /** `isSaving ? 'Saving...' : moodEntry ? 'Update' : 'Submit'` */
  function ButtonLabel(isSaving: bool, hasEntry: bool): (text: string)
    ensures text == "Saving..." <==> isSaving
    ensures text == "Update" <==> !isSaving && hasEntry
    ensures text == "Submit" <==> !isSaving && !hasEntry
  {
    if isSaving then "Saving..." else if hasEntry then "Update" else "Submit"
  }

  class MoodForm {
    var entry: Option<MoodEntry>
    var mood: int
    var energy: int
    var focus: int
    var sleep: real
    var isSaving: bool

    /** Initial state: the entry's levels, or 3 for each level and 7 hours of sleep. */
    constructor(moodEntry: Option<MoodEntry>)
      ensures entry == moodEntry && !isSaving
      ensures moodEntry.None? ==> mood == 3 && energy == 3 && focus == 3 && sleep == 7.0
      ensures moodEntry.Some? ==>
        (mood == moodEntry.value.mood && energy == moodEntry.value.energy && focus == moodEntry.value.focus)
      ensures sleep == SleepOrDefault(moodEntry)
    {
      entry := moodEntry;
      mood := if moodEntry.Some? then moodEntry.value.mood else 3;
      energy := if moodEntry.Some? then moodEntry.value.energy else 3;
      focus := if moodEntry.Some? then moodEntry.value.focus else 3;
      sleep := SleepOrDefault(moodEntry);
      isSaving := false;
    }

    /** The effect that reloads the sliders when a (new) entry arrives; no entry keeps them. */
    method SyncEntry(moodEntry: Option<MoodEntry>)
      modifies this
      ensures entry == moodEntry && isSaving == old(isSaving)
      ensures moodEntry.None? ==>
        (mood == old(mood) && energy == old(energy) && focus == old(focus) && sleep == old(sleep))
      ensures moodEntry.Some? ==>
        (mood == moodEntry.value.mood && energy == moodEntry.value.energy
         && focus == moodEntry.value.focus && sleep == SleepOrDefault(moodEntry))
    {
      entry := moodEntry;
      if moodEntry.Some? {
        mood := moodEntry.value.mood;
        energy := moodEntry.value.energy;
        focus := moodEntry.value.focus;
        sleep := SleepOrDefault(moodEntry);
      }
    }

    /** The sliders' `onValueChange` handlers: each sets its own value only. */
    method SetMood(value: MoodLevel)
      modifies this
      ensures mood == value
      ensures entry == old(entry) && energy == old(energy) && focus == old(focus)
      ensures sleep == old(sleep) && isSaving == old(isSaving)
    {
      mood := value;
    }

    method SetEnergy(value: MoodLevel)
      modifies this
      ensures energy == value
      ensures entry == old(entry) && mood == old(mood) && focus == old(focus)
      ensures sleep == old(sleep) && isSaving == old(isSaving)
    {
      energy := value;
    }

    method SetFocus(value: MoodLevel)
      modifies this
      ensures focus == value
      ensures entry == old(entry) && mood == old(mood) && energy == old(energy)
      ensures sleep == old(sleep) && isSaving == old(isSaving)
    {
      focus := value;
    }

    method SetSleep(hours: real)
      modifies this
      ensures sleep == hours
      ensures entry == old(entry) && mood == old(mood) && energy == old(energy)
      ensures focus == old(focus) && isSaving == old(isSaving)
    {
      sleep := hours;
    }

    /** `handleSave` up to the call: raise `isSaving` and hand over the slider values. */
    method BeginSave() returns (request: (int, int, int, real))
      modifies this
      ensures isSaving
      ensures request == (mood, energy, focus, sleep)
      ensures entry == old(entry) && mood == old(mood) && energy == old(energy)
      ensures focus == old(focus) && sleep == old(sleep)
    {
      isSaving := true;
      request := (mood, energy, focus, sleep);
    }

    /** The `finally` of `handleSave`: whether the save succeeded or failed, `isSaving` drops. */
    method FinishSave(saveSucceeded: bool)
      modifies this
      ensures !isSaving
      ensures entry == old(entry) && mood == old(mood) && energy == old(energy)
      ensures focus == old(focus) && sleep == old(sleep)
    {
      isSaving := false;
    }
  }
}
