/**
 * The counting rules of the daily habit checklist and its "new habit" dialog.
 */
module HabitTracker {
  import opened Types

  /** `entries[i]` is the first entry for `habitId`. */
  predicate FirstFor(entries: seq<HabitEntry>, habitId: string, i: int) {
    0 <= i < |entries| && entries[i].habitId == habitId
    && forall j :: 0 <= j < i ==> entries[j].habitId != habitId
  }

  /** `habitEntries.find(e => e.habitId === habitId)?.completed || false` */
  function IsHabitCompleted(entries: seq<HabitEntry>, habitId: string): (done: bool)
    ensures (forall i :: 0 <= i < |entries| ==> entries[i].habitId != habitId) ==> !done
    ensures forall i :: FirstFor(entries, habitId, i) ==> done == entries[i].completed
  {
    if entries == [] then false
    else if entries[0].habitId == habitId then entries[0].completed
    else
      var done := IsHabitCompleted(entries[1..], habitId);
      assert forall i :: FirstFor(entries, habitId, i) ==> FirstFor(entries[1..], habitId, i - 1);
      done
  }

  /** A later entry for the same habit does not matter once an earlier one exists. */
  lemma FirstEntryDecides(entries: seq<HabitEntry>, habitId: string, later: HabitEntry)
    requires exists i :: 0 <= i < |entries| && entries[i].habitId == habitId
    ensures IsHabitCompleted(entries + [later], habitId) == IsHabitCompleted(entries, habitId)
  {
    var i :| 0 <= i < |entries| && entries[i].habitId == habitId;
    FirstIndexExists(entries, habitId, i);
    var k :| FirstFor(entries, habitId, k);
    assert FirstFor(entries + [later], habitId, k);
  }

  lemma FirstIndexExists(entries: seq<HabitEntry>, habitId: string, i: int)
    requires 0 <= i < |entries| && entries[i].habitId == habitId
    ensures exists k :: FirstFor(entries, habitId, k)
    decreases i
  {
    if !FirstFor(entries, habitId, i) {
      var j :| 0 <= j < i && entries[j].habitId == habitId;
      FirstIndexExists(entries, habitId, j);
    }
  }

  /** `habits.filter(h => h.category === category)` */
  function GetHabitsByCategory(habits: seq<Habit>, category: HabitCategory): (r: seq<Habit>)
    ensures |r| <= |habits|
    ensures forall h :: h in r <==> h in habits && h.category == category
  {
    if habits == [] then []
    else (if habits[0].category == category then [habits[0]] else []) + GetHabitsByCategory(habits[1..], category)
  }

  /** Filtering a concatenation filters each part and keeps them in order. */
  lemma {:induction false} GetHabitsByCategoryAppend(a: seq<Habit>, b: seq<Habit>, category: HabitCategory)
    ensures GetHabitsByCategory(a + b, category) == GetHabitsByCategory(a, category) + GetHabitsByCategory(b, category)
  {
    if a == [] {
      assert a + b == b;
    } else {
      assert (a + b)[0] == a[0] && (a + b)[1..] == a[1..] + b;
      GetHabitsByCategoryAppend(a[1..], b, category);
    }
  }

  /** The number of habits in `hs` that `IsHabitCompleted` reports done. */
  function CountCompleted(hs: seq<Habit>, entries: seq<HabitEntry>): (n: nat)
    ensures n <= |hs|
    ensures n == 0 <==> forall h :: h in hs ==> !IsHabitCompleted(entries, h.id)
    ensures n == |hs| <==> forall h :: h in hs ==> IsHabitCompleted(entries, h.id)
  {
    if hs == [] then 0
    else
      assert forall h :: h in hs <==> h == hs[0] || h in hs[1..];
      (if IsHabitCompleted(entries, hs[0].id) then 1 else 0) + CountCompleted(hs[1..], entries)
  }

  /** Counting the completed habits of a concatenation adds the counts of its parts. */
  lemma {:induction false} CountCompletedAppend(a: seq<Habit>, b: seq<Habit>, entries: seq<HabitEntry>)
    ensures CountCompleted(a + b, entries) == CountCompleted(a, entries) + CountCompleted(b, entries)
  {
    if a == [] {
      assert a + b == b;
    } else {
      assert (a + b)[0] == a[0] && (a + b)[1..] == a[1..] + b;
      CountCompletedAppend(a[1..], b, entries);
    }
  }

  datatype CategoryCompletion = CategoryCompletion(completed: nat, total: nat)

  function GetCategoryCompletion(habits: seq<Habit>, entries: seq<HabitEntry>, category: HabitCategory)
    : (c: CategoryCompletion)
    ensures c.completed <= c.total
    ensures c.total == |GetHabitsByCategory(habits, category)|
    ensures c.completed == CountCompleted(GetHabitsByCategory(habits, category), entries)
    ensures c.completed == 0 <==>
      forall h :: h in habits && h.category == category ==> !IsHabitCompleted(entries, h.id)
    ensures c.completed == c.total <==>
      forall h :: h in habits && h.category == category ==> IsHabitCompleted(entries, h.id)
    ensures entries == [] ==> c.completed == 0
  {
    var categoryHabits := GetHabitsByCategory(habits, category);
    NoEntriesNoneCompleted(categoryHabits, entries);
    CategoryCompletion(CountCompleted(categoryHabits, entries), |categoryHabits|)
  }

  lemma {:induction false} NoEntriesNoneCompleted(hs: seq<Habit>, entries: seq<HabitEntry>)
    ensures entries == [] ==> CountCompleted(hs, entries) == 0
  {
    if hs != [] {
      NoEntriesNoneCompleted(hs[1..], entries);
    }
  }

  /** The three category groups together list every habit exactly once. */
  lemma {:induction false} CategoryTotalsSum(habits: seq<Habit>)
    ensures |GetHabitsByCategory(habits, Mind)| + |GetHabitsByCategory(habits, Body)|
      + |GetHabitsByCategory(habits, Skill)| == |habits|
  {
    if habits != [] {
      CategoryTotalsSum(habits[1..]);
    }
  }

  /**
   * The "N of M completed" header (`totalCompleted`, the number of
   * completed entries, over `habits.length`) counts entries, not habits: a completed
   * entry whose habit is not in the list still counts, so N can exceed M.
   */
  lemma TotalCompletedCanExceedHabits(habits: seq<Habit>, entries: seq<HabitEntry>)
    requires |entries| > |habits|
    requires forall i :: 0 <= i < |entries| ==> entries[i].completed
    ensures NumCompleted(entries) > |habits|
  {
  }

  /** The "new habit" dialog state. */
  class CreateHabitDialog {
    var category: HabitCategory
    var title: string
    var description: string
    var isOpen: bool

    constructor()
      ensures category == Mind && title == "" && description == "" && !isOpen
    {
      category := Mind;
      title := "";
      description := "";
      isOpen := false;
    }

    /**
     * `handleCreateHabit`: an empty title does nothing. Otherwise the form
     * is handed to `onCreateHabit` (returned in `request`); when that call
     * succeeds the form is reset and the dialog closes, and when it fails
     * the form is left as it was.
     */
    method HandleCreateHabit(createSucceeds: bool) returns (request: Option<(HabitCategory, string, string)>)
      modifies this
      ensures old(title) == "" ==> request.None? && unchanged(this)
      ensures old(title) != "" ==> request == Some((old(category), old(title), old(description)))
      ensures old(title) != "" && createSucceeds ==>
        category == Mind && title == "" && description == "" && !isOpen
      ensures old(title) != "" && !createSucceeds ==> unchanged(this)
    {
      if title == "" {
        return None;
      }
      request := Some((category, title, description));
      if createSucceeds {
        category, title, description := Mind, "", "";
        isOpen := false;
      }
    }
  }
}
