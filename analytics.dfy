/**
 * The streak and analytics engine (`AnalyticsService`).
 *
 * The service's collaborators are replaced by their answers, passed in as
 * parameters:
 *   - `entriesOf(habitId)` is `habitService.getHabitEntries(userId, habitId)`,
 *   - `entriesOn(day)` is `habitService.getUserHabitEntriesForDate(userId, day)`,
 *   - the habit and mood lists are what `getHabits` / `getMoodEntries` return,
 *   - `today` / `now` replace `new Date()`.
 */
module Analytics {
  import opened Types
  import Calendar

  /** The backward walk for the current streak looks at most this many days. */
  const StreakWindow: nat := 90

  // ---------------------------------------------------------------------
  // Completed dates, sorted newest first

  /** The dates of the completed entries, in their original order. */
  function CompletedDates(entries: seq<HabitEntry>): (r: seq<Day>)
    ensures |r| == NumCompleted(entries)
    ensures forall d :: d in r <==> exists e :: e in entries && e.completed && e.date == d
  {
    if entries == [] then []
    else (if entries[0].completed then [entries[0].date] else []) + CompletedDates(entries[1..])
  }

  predicate SortedDescending(s: seq<Day>) {
    forall i, j :: 0 <= i < j < |s| ==> s[i] >= s[j]
  }

  lemma ConsSorted(x: Day, s: seq<Day>)
    requires SortedDescending(s)
    requires forall y :: y in s ==> y <= x
    ensures SortedDescending([x] + s)
  {
    var r := [x] + s;
    forall i, j | 0 <= i < j < |r| ensures r[i] >= r[j] {
      assert r[j] == s[j - 1];
      if i > 0 { assert r[i] == s[i - 1]; } else { assert s[j - 1] in s; }
    }
  }

  function Insert(x: Day, s: seq<Day>): (r: seq<Day>)
    requires SortedDescending(s)
    ensures |r| == |s| + 1
    ensures forall y :: y in r <==> y == x || y in s
    ensures SortedDescending(r)
    ensures multiset(r) == multiset(s) + multiset{x}
  {
    if s == [] || x >= s[0] then
      ConsSorted(x, s);
      [x] + s
    else
      var rest := Insert(x, s[1..]);
      assert s == [s[0]] + s[1..];
      ConsSorted(s[0], rest);
      [s[0]] + rest
  }

  /** The `sort((a, b) => b.date.localeCompare(a.date))` step. */
  function SortDescending(s: seq<Day>): (r: seq<Day>)
    ensures SortedDescending(r)
    ensures multiset(r) == multiset(s)
  {
    if s == [] then []
    else
      assert s == [s[0]] + s[1..];
      Insert(s[0], SortDescending(s[1..]))
  }

  // ---------------------------------------------------------------------
  // What a streak is

  /**
   * `current` counts today (when completed) plus the completed days
   * immediately before today, walking back at most 89 days before today.
   * A missing today does not stop the walk; the first missing earlier day does.
   */
  ghost predicate IsCurrentStreak(dates: seq<Day>, today: Day, current: nat) {
    var base := if today in dates then 1 else 0;
    var back := current - base;
    && base <= current
    && back <= StreakWindow - 1
    && (forall d :: today - back <= d < today ==> d in dates)
    && (back == StreakWindow - 1 || today - back - 1 !in dates)
  }

  /** In a newest-first list, position `k` is exactly one day before position `k - 1`. */
  predicate StepAt(s: seq<Day>, k: int) {
    0 < k < |s| && s[k - 1] - s[k] == 1
  }

  /** `s[a..b]` is a run of consecutive days. */
  ghost predicate IsRun(s: seq<Day>, a: int, b: int) {
    0 <= a < b <= |s| && forall k :: a < k < b ==> StepAt(s, k)
  }

  /** Every run of two or more within `s[..upTo]` is at most `bound` long. */
  ghost predicate RunsBoundedBy(s: seq<Day>, upTo: int, bound: int) {
    forall a, b :: b <= upTo && IsRun(s, a, b) && b - a >= 2 ==> b - a <= bound
  }

  ghost predicate HasRun(s: seq<Day>, len: int) {
    exists a, b :: IsRun(s, a, b) && b - a == len
  }

  /**
   * `longest` is the larger of `current` and the longest run of two or more
   * consecutive days in the sorted list (a lone day is not a run).
   */
  ghost predicate IsLongestStreak(sorted: seq<Day>, current: nat, longest: nat) {
    && longest >= current
    && RunsBoundedBy(sorted, |sorted|, longest)
    && (longest == current || (longest >= 2 && HasRun(sorted, longest)))
  }

  /** The full contract of `getStreakForHabit` on one habit's entries. */
  ghost predicate IsStreakOf(entries: seq<HabitEntry>, today: Day, s: StreakData) {
    var sorted := SortDescending(CompletedDates(entries));
    && s.total == NumCompleted(entries)
    && (sorted == [] ==> s == StreakData(0, 0, 0))
    && (sorted != [] ==> IsCurrentStreak(sorted, today, s.current))
    && (sorted != [] ==> IsLongestStreak(sorted, s.current, s.longest))
  }

  // ---------------------------------------------------------------------
  // getStreakForHabit

  /** Sorting keeps the dates: same length, same members. */
  lemma SameMembers(a: seq<Day>, b: seq<Day>)
    requires multiset(a) == multiset(b)
    ensures |a| == |b|
    ensures forall d :: d in a <==> d in b
  {
    assert |a| == |multiset(a)|;
    assert |b| == |multiset(b)|;
    forall d ensures d in a <==> d in b {
      assert d in a <==> d in multiset(a);
      assert d in b <==> d in multiset(b);
    }
  }

  /**
   * One more one-day step after the maximal run `s[j - c..j]`: the run grows
   * to `c + 1`, and every run ending at `j + 1` is within it.
   */
  lemma RunGrows(s: seq<Day>, j: int, c: int, bound: nat)
    requires 1 <= c <= j < |s|
    requires IsRun(s, j - c, j)
    requires j - c == 0 || !StepAt(s, j - c)
    requires RunsBoundedBy(s, j, bound)
    requires StepAt(s, j)
    ensures IsRun(s, j - c, j + 1)
    ensures RunsBoundedBy(s, j + 1, Max(bound, c + 1))
  {
    forall a, b | b <= j + 1 && IsRun(s, a, b) && b - a >= 2
      ensures b - a <= Max(bound, c + 1)
    {
      if b == j + 1 {
        assert a < j - c ==> StepAt(s, j - c);
      }
    }
  }

  /** A gap after position `j - 1`: no run of two or more ends at `j + 1`. */
  lemma RunBreaks(s: seq<Day>, j: int, bound: int)
    requires 1 <= j < |s|
    requires RunsBoundedBy(s, j, bound)
    requires !StepAt(s, j)
    ensures IsRun(s, j, j + 1)
    ensures RunsBoundedBy(s, j + 1, bound)
  {
    forall a, b | b <= j + 1 && IsRun(s, a, b) && b - a >= 2
      ensures b - a <= bound
    {
    }
  }

  /**
   * `getStreakForHabit`: completed entries newest first, then the two loops
   * of the source (the walk back from today and the scan for one-day steps),
   * then `longest := max(longest, current)`.
   */
  method GetStreakForHabit(entries: seq<HabitEntry>, today: Day) returns (streak: StreakData)
    ensures IsStreakOf(entries, today, streak)
  {
    var completed := SortDescending(CompletedDates(entries));
    assert |completed| == NumCompleted(entries) by {
      assert |multiset(completed)| == |multiset(CompletedDates(entries))|;
    }
    if |completed| == 0 {
      return StreakData(0, 0, 0);
    }
    var currentStreak := CurrentStreak(completed, today);
    var longestStreak := LongestRun(completed);
    longestStreak := Max(longestStreak, currentStreak);
    streak := StreakData(currentStreak, longestStreak, |completed|);
  }

  /** The first loop of `getStreakForHabit`: walk back from today. */
  method CurrentStreak(completed: seq<Day>, today: Day) returns (currentStreak: nat)
    ensures IsCurrentStreak(completed, today, currentStreak)
  {
    currentStreak := 0;
    ghost var base := if today in completed then 1 else 0;
    var i := 0;
    while i < StreakWindow
      invariant 0 <= i <= StreakWindow
      invariant i == 0 ==> currentStreak == 0
      invariant i >= 1 ==> currentStreak == base + (i - 1)
      invariant forall d :: today - (i - 1) <= d < today ==> d in completed
    {
      var date := today - i;
      var hasEntry := date in completed;
      if hasEntry {
        if date <= today {
          currentStreak := currentStreak + 1;
        }
      } else if date < today {
        break;
      }
      i := i + 1;
    }
  }

  /**
   * The second loop of `getStreakForHabit`: `consecutiveDays` counts the
   * run ending at `j - 1`, and `longestStreak` records it once it reaches two.
   */
  method LongestRun(completed: seq<Day>) returns (longestStreak: nat)
    requires |completed| > 0
    ensures RunsBoundedBy(completed, |completed|, longestStreak)
    ensures longestStreak == 0 || (longestStreak >= 2 && HasRun(completed, longestStreak))
  {
    longestStreak := 0;
    var consecutiveDays: nat := 1;
    var j := 1;
    while j < |completed|
      invariant 1 <= j <= |completed|
      invariant 1 <= consecutiveDays <= j
      invariant IsRun(completed, j - consecutiveDays, j)
      invariant j - consecutiveDays == 0 || !StepAt(completed, j - consecutiveDays)
      invariant consecutiveDays == 1 || longestStreak >= consecutiveDays
      invariant RunsBoundedBy(completed, j, longestStreak)
      invariant longestStreak == 0 || (longestStreak >= 2 && HasRun(completed, longestStreak))
    {
      var dayDiff := completed[j - 1] - completed[j];
      if dayDiff == 1 {
        RunGrows(completed, j, consecutiveDays, longestStreak);
        consecutiveDays := consecutiveDays + 1;
        longestStreak := Max(longestStreak, consecutiveDays);
      } else {
        RunBreaks(completed, j, longestStreak);
        consecutiveDays := 1;
      }
      j := j + 1;
    }
  }

  function Max(a: nat, b: nat): (m: nat)
    ensures m >= a && m >= b && (m == a || m == b)
  {
    if a >= b then a else b
  }

  // ---------------------------------------------------------------------
  // Consequences of the streak contract

  /** The contract pins the streak down: it admits exactly one result. */
  lemma CurrentStreakUnique(dates: seq<Day>, today: Day, c1: nat, c2: nat)
    requires IsCurrentStreak(dates, today, c1) && IsCurrentStreak(dates, today, c2)
    ensures c1 == c2
  {
    var base := if today in dates then 1 else 0;
    var b1, b2 := c1 - base, c2 - base;
    assert b1 < b2 ==> today - b1 - 1 in dates;
    assert b2 < b1 ==> today - b2 - 1 in dates;
  }

  lemma LongestStreakUnique(sorted: seq<Day>, current: nat, l1: nat, l2: nat)
    requires IsLongestStreak(sorted, current, l1) && IsLongestStreak(sorted, current, l2)
    ensures l1 == l2
  {
    assert HasRun(sorted, l1) ==> l1 <= l2;
    assert HasRun(sorted, l2) ==> l2 <= l1;
  }

  /** The contract pins the streak down: it admits exactly one result. */
  lemma StreakIsDetermined(entries: seq<HabitEntry>, today: Day, s1: StreakData, s2: StreakData)
    requires IsStreakOf(entries, today, s1) && IsStreakOf(entries, today, s2)
    ensures s1 == s2
  {
    var sorted := SortDescending(CompletedDates(entries));
    if sorted != [] {
      CurrentStreakUnique(sorted, today, s1.current, s2.current);
      LongestStreakUnique(sorted, s1.current, s1.longest, s2.longest);
    }
  }

  /** The days `lo`, …, `hi - 1`: `hi - lo` distinct values. */
  function DayRange(lo: int, hi: int): (r: set<Day>)
    requires lo <= hi
    ensures |r| == hi - lo
    ensures forall d :: d in r <==> lo <= d < hi
    decreases hi - lo
  {
    if lo == hi then {} else DayRange(lo, hi - 1) + {hi - 1}
  }

  /** A list holds at most as many distinct values as it has elements. */
  lemma {:induction false} DistinctAtMostLength(s: seq<Day>)
    ensures |set d | d in s| <= |s|
  {
    if s != [] {
      DistinctAtMostLength(s[1..]);
      assert (set d | d in s) == (set d | d in s[1..]) + {s[0]};
    }
  }

  /** The current streak's days are distinct dates of the list, so it is no longer than the list. */
  lemma CurrentAtMostLength(dates: seq<Day>, today: Day, current: nat)
    requires IsCurrentStreak(dates, today, current)
    ensures current <= |dates|
  {
    var base := if today in dates then 1 else 0;
    var streakDays := DayRange(today - (current - base), today + base);
    var dateSet := set d | d in dates;
    assert streakDays <= dateSet;
    assert dateSet == streakDays + (dateSet - streakDays);
    DistinctAtMostLength(dates);
  }

  /**
   * Both streaks are at most the number of completions: the current streak's
   * days and a run's days are distinct completed dates.
   */
  lemma StreakBounds(entries: seq<HabitEntry>, today: Day, s: StreakData)
    requires IsStreakOf(entries, today, s)
    ensures s.current <= StreakWindow
    ensures s.current <= s.longest
    ensures s.total <= |entries|
    ensures s.total == 0 ==> s == StreakData(0, 0, 0)
    ensures s.current <= s.total
    ensures s.longest <= s.total
  {
    var sorted := SortDescending(CompletedDates(entries));
    assert |sorted| == s.total by {
      SameMembers(sorted, CompletedDates(entries));
    }
    if sorted != [] {
      CurrentAtMostLength(sorted, today, s.current);
      if s.longest != s.current {
        var a, b :| IsRun(sorted, a, b) && b - a == s.longest;
      }
    }
  }

  /**
   * A single completion that is neither today nor yesterday gives a
   * longest streak of 0, not 1: the run counter only records runs of two.
   */
  lemma LoneOldCompletion(entries: seq<HabitEntry>, today: Day, d: Day, s: StreakData)
    requires CompletedDates(entries) == [d] && d < today - 1
    requires IsStreakOf(entries, today, s)
    ensures s == StreakData(0, 0, 1)
  {
    var sorted := SortDescending(CompletedDates(entries));
    SameMembers(sorted, [d]);
    assert sorted == [d];
    assert today !in sorted && today - 1 !in sorted;
    assert s.current == 0;
    assert forall a, b :: IsRun(sorted, a, b) ==> b - a <= 1;
  }

  /**
   * Completed on each of the `n` days before today but not (yet) today:
   * the current streak is `n`, today's missing entry does not break it.
   */
  lemma StreakThroughUnloggedToday(entries: seq<HabitEntry>, today: Day, n: nat, s: StreakData)
    requires 1 <= n < StreakWindow
    requires forall d :: d in CompletedDates(entries) <==> today - n <= d < today
    requires IsStreakOf(entries, today, s)
    ensures s.current == n
  {
    var sorted := SortDescending(CompletedDates(entries));
    SameMembers(sorted, CompletedDates(entries));
    assert today - 1 in sorted;
    assert today - n - 1 !in sorted;
    var back := s.current;
    assert back < n ==> today - back - 1 in sorted;
  }

  // ---------------------------------------------------------------------
  // calculateCompletionRate

  /** Completed entries summed over the habits (each habit's full history). */
  function TotalCompleted(habits: seq<Habit>, entriesOf: string -> seq<HabitEntry>): nat
  {
    if habits == [] then 0
    else TotalCompleted(habits[..|habits| - 1], entriesOf) + NumCompleted(entriesOf(habits[|habits| - 1].id))
  }

  /**
   * The source computes `dayCount` and `totalPossible` but returns the raw
   * completed count whenever the window is non-empty: the window only
   * decides between that count and 0.
   */
  method CalculateCompletionRate(habits: seq<Habit>, entriesOf: string -> seq<HabitEntry>, startDay: Day, endDay: Day)
    returns (rate: int)
    ensures |habits| == 0 ==> rate == 0
    ensures |habits| > 0 && startDay <= endDay ==> rate == TotalCompleted(habits, entriesOf)
    ensures endDay < startDay ==> rate == 0
  {
    if |habits| == 0 {
      return 0;
    }
    var totalCompleted := 0;
    var dayCount := Calendar.CeilDiv((endDay - startDay) * Calendar.MsPerDay, Calendar.MsPerDay) + 1;
    Calendar.CeilDays(endDay - startDay, 0);

    for i := 0 to |habits|
      invariant totalCompleted == TotalCompleted(habits[..i], entriesOf)
    {
      assert habits[..i + 1][..i] == habits[..i];
      totalCompleted := totalCompleted + NumCompleted(entriesOf(habits[i].id));
    }
    assert habits[..|habits|] == habits;

    var totalPossible := |habits| * dayCount;
    rate := if totalPossible > 0 then totalCompleted else 0;
  }

  // ---------------------------------------------------------------------
  // getMoodCorrelation

  /** Share of a day's logged entries that are completed (0 when none). */
  function DayCompletionRate(dayEntries: seq<HabitEntry>): (r: real)
    ensures 0.0 <= r <= 1.0
    ensures r == 0.0 <==> NumCompleted(dayEntries) == 0
    ensures r == 1.0 <==> |dayEntries| > 0 && NumCompleted(dayEntries) == |dayEntries|
  {
    if |dayEntries| > 0 then
      FractionBounds(NumCompleted(dayEntries) as real, |dayEntries| as real, 1.0);
      NumCompleted(dayEntries) as real / |dayEntries| as real
    else 0.0
  }

  /** The average of a mood entry's three levels. */
  function AverageLevel(m: MoodEntry): (r: real)
    ensures 1.0 <= r <= 5.0
  {
    (m.mood + m.energy + m.focus) as real / 3.0
  }

  lemma ProductBounds(a: real, b: real)
    requires 0.0 <= a <= 5.0 && 0.0 <= b <= 1.0
    ensures 0.0 <= a * b <= 5.0
  {
    assert 0.0 <= a * b by { MulNonnegative(a, b); }
    assert a * b <= a by { MulNonnegative(a, 1.0 - b); }
  }

  lemma ProductZero(a: real, b: real)
    requires a > 0.0
    ensures a * b == 0.0 <==> b == 0.0
  {
    if a * b == 0.0 {
      assert b == a * b / a;
    }
  }

  lemma MulNonnegative(a: real, b: real)
    requires 0.0 <= a && 0.0 <= b
    ensures 0.0 <= a * b
  {
  }

  /**
   * One mood entry's contribution, `avgMood * completionRate`: its average
   * level weighted by that day's completion rate.
   */
  function Weighted(m: MoodEntry, dayEntries: seq<HabitEntry>): (t: real)
    ensures 0.0 <= t <= 5.0
    ensures t == 0.0 <==> NumCompleted(dayEntries) == 0
  {
    ProductBounds(AverageLevel(m), DayCompletionRate(dayEntries));
    ProductZero(AverageLevel(m), DayCompletionRate(dayEntries));
    AverageLevel(m) * DayCompletionRate(dayEntries)
  }

  /** Sum over the mood entries of their weighted levels. */
  function CorrelationSum(moods: seq<MoodEntry>, entriesOn: Day -> seq<HabitEntry>): (r: real)
    ensures 0.0 <= r <= 5.0 * |moods| as real
  {
    if moods == [] then 0.0
    else
      var last := moods[|moods| - 1];
      CorrelationSum(moods[..|moods| - 1], entriesOn) + Weighted(last, entriesOn(last.date))
  }

  method GetMoodCorrelation(habits: seq<Habit>, moodEntries: seq<MoodEntry>, entriesOn: Day -> seq<HabitEntry>)
    returns (r: real)
    ensures |moodEntries| == 0 || |habits| == 0 ==> r == 0.0
    ensures |moodEntries| > 0 && |habits| > 0 ==> r == CorrelationSum(moodEntries, entriesOn) / |moodEntries| as real
    ensures 0.0 <= r <= 5.0
  {
    if |moodEntries| == 0 || |habits| == 0 {
      return 0.0;
    }
    var correlation := 0.0;
    var count := 0;
    for i := 0 to |moodEntries|
      invariant count == i
      invariant correlation == CorrelationSum(moodEntries[..i], entriesOn)
    {
      var moodEntry := moodEntries[i];
      var habitEntries := entriesOn(moodEntry.date);
      assert moodEntries[..i + 1][..i] == moodEntries[..i];
      correlation := correlation + Weighted(moodEntry, habitEntries);
      count := count + 1;
    }
    assert moodEntries[..|moodEntries|] == moodEntries;
    FractionBounds(correlation, count as real, 5.0);
    r := if count > 0 then correlation / count as real else 0.0;
  }

  // ---------------------------------------------------------------------
  // getDailyProgress

  function GetDailyProgress(
    date: Day,
    habits: seq<Habit>,
    dayEntries: seq<HabitEntry>,
    moodEntry: Option<MoodEntry>,
    journalEntry: Option<JournalEntry>): (p: DailyProgress)
    ensures p.date == date && p.totalHabits == |habits|
    ensures p.habitsCompleted == NumCompleted(dayEntries)
    ensures p.hasMoodEntry <==> moodEntry.Some?
    ensures p.hasJournalEntry <==> journalEntry.Some?
    ensures p.completionPercentage == Percentage(p.habitsCompleted, |habits|)
  {
    var habitsCompleted := NumCompleted(dayEntries);
    var totalHabits := |habits|;
    DailyProgress(date, habitsCompleted, totalHabits, moodEntry.Some?, journalEntry.Some?,
      Percentage(habitsCompleted, totalHabits))
  }

  // ---------------------------------------------------------------------
  // getAnalytics

  /** `Math.min(100, Math.max(0, x))` */
  function ClampPercentage(x: real): (r: real)
    ensures 0.0 <= r <= 100.0
    ensures 0.0 <= x <= 100.0 ==> r == x
    ensures x < 0.0 ==> r == 0.0
    ensures x > 100.0 ==> r == 100.0
  {
    if x < 0.0 then 0.0 else if x > 100.0 then 100.0 else x
  }

  function HabitIds(habits: seq<Habit>): set<string> {
    set h | h in habits :: h.id
  }

  method GetAnalytics(
    habits: seq<Habit>,
    entriesOf: string -> seq<HabitEntry>,
    arcMoodEntries: seq<MoodEntry>,
    allMoodEntries: seq<MoodEntry>,
    entriesOn: Day -> seq<HabitEntry>,
    now: Calendar.Instant)
    returns (a: AnalyticsData)
    ensures a.streaks.Keys == HabitIds(habits)
    ensures forall id :: id in a.streaks ==> IsStreakOf(entriesOf(id), Calendar.DayNumber(now.date), a.streaks[id])
    ensures (|habits| == 0 || Calendar.DayNumber(now.date) < Calendar.DayNumber(Calendar.October1(now.date.year)))
      ==> a.completionRate == 0
    ensures (|habits| > 0 && Calendar.DayNumber(Calendar.October1(now.date.year)) <= Calendar.DayNumber(now.date))
      ==> a.completionRate == TotalCompleted(habits, entriesOf)
    ensures |a.moodTrend| == |arcMoodEntries|
    ensures forall k :: 0 <= k < |arcMoodEntries| ==>
              a.moodTrend[k] == MoodPoint(arcMoodEntries[k].date, arcMoodEntries[k].mood)
    ensures 0.0 <= a.energyCorrelation <= 5.0
    ensures |allMoodEntries| == 0 || |habits| == 0 ==> a.energyCorrelation == 0.0
    ensures |allMoodEntries| > 0 && |habits| > 0 ==>
              a.energyCorrelation == CorrelationSum(allMoodEntries, entriesOn) / |allMoodEntries| as real
    ensures a.daysRemaining == Calendar.GetDaysUntilNewYear(now)
    ensures 0.0 <= a.consistencyPercentage <= 100.0
    ensures Calendar.DaysSinceArcStart(now) <= 0 ==> a.consistencyPercentage == 0.0
    ensures Calendar.DaysSinceArcStart(now) > 0 ==>
              a.consistencyPercentage
              == ClampPercentage(a.completionRate as real / Calendar.DaysSinceArcStart(now) as real * 100.0)
  {
    var today := Calendar.DayNumber(now.date);
    var streaks: map<string, StreakData> := map[];
    for i := 0 to |habits|
      invariant streaks.Keys == HabitIds(habits[..i])
      invariant forall id :: id in streaks ==> IsStreakOf(entriesOf(id), today, streaks[id])
    {
      assert habits[..i + 1] == habits[..i] + [habits[i]];
      var s := GetStreakForHabit(entriesOf(habits[i].id), today);
      streaks := streaks[habits[i].id := s];
    }
    assert habits[..|habits|] == habits;

    var winterStart := Calendar.Midnight(Calendar.October1(now.date.year));
    var daysRemaining := Calendar.GetDaysUntilNewYear(now);

    var completionRate := CalculateCompletionRate(habits, entriesOf, Calendar.DayNumber(winterStart.date), today);

    var moodTrend := seq(|arcMoodEntries|, k requires 0 <= k < |arcMoodEntries| =>
      MoodPoint(arcMoodEntries[k].date, arcMoodEntries[k].mood));

    var energyCorrelation := GetMoodCorrelation(habits, allMoodEntries, entriesOn);

    var totalDays := Calendar.DaysSinceArcStart(now);
    var consistencyPercentage := if totalDays > 0 then completionRate as real / totalDays as real * 100.0 else 0.0;

    a := AnalyticsData(streaks, completionRate, moodTrend, energyCorrelation, daysRemaining,
      ClampPercentage(consistencyPercentage));
  }
}
