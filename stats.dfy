/**
 * The derived statistics shown in the application header
 * (`calculateAppStats` and `calculateCompletionRate` in the stats utilities).
 * The wall clock is the parameter `now`.
 */
module StatsCalculator {
  import opened Types
  import Calendar

  /** Length of the arc shown as "day N of 90". */
  const ArcLength: int := 90

  /** The placeholder badge counters of the header. */
  const EarnedBadges: int := 0
  const TotalBadges: int := 8

  datatype AppStats = AppStats(
    completedToday: nat,
    totalHabits: nat,
    todayProgress: real,
    daysUntilNewYear: int,
    currentStreak: nat,
    currentDay: int,
    earnedBadges: int,
    totalBadges: int,
    isToday: bool)

  /** Every non-empty finite set of naturals has a largest element. */
  lemma {:induction false} MaxExists(s: set<nat>)
    requires s != {}
    ensures exists m :: m in s && forall x :: x in s ==> x <= m
  {
    var y :| y in s;
    if s != {y} {
      var rest := s - {y};
      MaxExists(rest);
      var m :| m in rest && forall x :: x in rest ==> x <= m;
      assert s == rest + {y};
      if m < y {
        assert forall x :: x in s ==> x <= y;
      } else {
        assert forall x :: x in s ==> x <= m;
      }
    } else {
      assert forall x :: x in s ==> x <= y;
    }
  }

  /** `Math.max(...s)` of a non-empty set. */
  function MaxOf(s: set<nat>): (m: nat)
    requires s != {}
    ensures m in s
    ensures forall x :: x in s ==> x <= m
  {
    MaxExists(s);
    var m :| m in s && forall x :: x in s ==> x <= m;
    m
  }

  /** `Math.max(...Object.values(streaks).map(s => s.current), 0)` */
  function MaxCurrent(streaks: map<string, StreakData>): (m: nat)
    ensures forall id :: id in streaks ==> streaks[id].current <= m
    ensures m == 0 || exists id :: id in streaks && streaks[id].current == m
  {
    var currents := set id | id in streaks :: streaks[id].current;
    assert forall id :: id in streaks ==> streaks[id].current in currents;
    MaxOf({0} + currents)
  }

  /** `dateString === todayString`: the canonical strings of the two dates agree. */
  function SameCalendarDay(selectedDate: Calendar.Instant, now: Calendar.Instant): (b: bool)
    ensures b <==> selectedDate.date == now.date
  {
    if Calendar.Format(selectedDate.date) == Calendar.Format(now.date) then
      Calendar.FormatInjective(selectedDate.date, now.date);
      true
    else false
  }

  /** `Math.max(1, Math.min(daysSinceStart, 90))` */
  function CurrentDay(now: Calendar.Instant): (d: int)
    ensures 1 <= d <= ArcLength
    ensures 1 <= Calendar.DaysSinceArcStart(now) <= ArcLength ==> d == Calendar.DaysSinceArcStart(now)
    ensures Calendar.DaysSinceArcStart(now) < 1 ==> d == 1
    ensures Calendar.DaysSinceArcStart(now) > ArcLength ==> d == ArcLength
  {
    Max(1, Min(Calendar.DaysSinceArcStart(now), ArcLength))
  }

  function CalculateAppStats(
    habits: seq<Habit>,
    habitEntries: seq<HabitEntry>,
    analytics: Option<AnalyticsData>,
    selectedDate: Calendar.Instant,
    now: Calendar.Instant): (st: AppStats)
    ensures st.completedToday == NumCompleted(habitEntries)
    ensures st.totalHabits == |habits|
    ensures st.todayProgress == Percentage(st.completedToday, |habits|)
    ensures st.daysUntilNewYear >= 1
    ensures st.daysUntilNewYear == Calendar.NewYearDay(now.date.year) - Calendar.DayNumber(now.date)
    ensures analytics.None? ==> st.currentStreak == 0
    ensures analytics.Some? ==>
      (forall id :: id in analytics.value.streaks ==> analytics.value.streaks[id].current <= st.currentStreak)
    ensures analytics.Some? && st.currentStreak != 0 ==>
      exists id :: id in analytics.value.streaks && analytics.value.streaks[id].current == st.currentStreak
    ensures st.currentDay == CurrentDay(now)
    ensures st.earnedBadges == 0 && st.totalBadges == 8
    ensures st.isToday <==> selectedDate.date == now.date
  {
    var completedToday := NumCompleted(habitEntries);
    var totalHabits := |habits|;
    var todayProgress := Percentage(completedToday, totalHabits);
    var currentStreak := if analytics.Some? then MaxCurrent(analytics.value.streaks) else 0;
    AppStats(completedToday, totalHabits, todayProgress, Calendar.GetDaysUntilNewYear(now),
      currentStreak, CurrentDay(now), EarnedBadges, TotalBadges, SameCalendarDay(selectedDate, now))
  }

  function Max(a: int, b: int): int { if a >= b then a else b }
  function Min(a: int, b: int): int { if a <= b then a else b }

  /** The placeholder badge total disagrees with the nine-badge catalog. */
  lemma TotalBadgesIsConstant(habits: seq<Habit>, habitEntries: seq<HabitEntry>,
    analytics: Option<AnalyticsData>, selectedDate: Calendar.Instant, now: Calendar.Instant)
    ensures CalculateAppStats(habits, habitEntries, analytics, selectedDate, now).totalBadges == 8
    ensures CalculateAppStats(habits, habitEntries, analytics, selectedDate, now).earnedBadges == 0
  {
  }

  /**
   * `Math.round(completed / total * 100)`, or 0 when `total <= 0`.
   * `Math.round(x)` is `floor(x + 1/2)`, which for `total > 0` is the
   * floor of `(200 * completed + total) / (2 * total)`.
   */
  function CalculateCompletionRate(completed: int, total: int): (r: int)
    ensures total <= 0 ==> r == 0
    ensures total > 0 ==> 2 * total * r - total <= 200 * completed < 2 * total * r + total
  {
    if total > 0 then
      var q := (200 * completed + total) / (2 * total);
      DivBounds(200 * completed + total, 2 * total);
      q
    else 0
  }

  lemma DivBounds(a: int, b: int)
    requires b > 0
    ensures b * (a / b) <= a < b * (a / b) + b
  {
  }

  /** The rounded percentage is the nearest integer: one answer only, ties going up. */
  lemma CompletionRateIsNearest(completed: int, total: int, r: int)
    requires total > 0
    requires 2 * total * r - total <= 200 * completed < 2 * total * r + total
    ensures r == CalculateCompletionRate(completed, total)
  {
    var q := CalculateCompletionRate(completed, total);
    if r < q {
      MulLess(2 * total, r + 1, q);
    } else if q < r {
      MulLess(2 * total, q + 1, r);
    }
  }

  lemma MulLess(k: int, a: int, b: int)
    requires k > 0 && a <= b
    ensures k * a <= k * b
  {
  }

  lemma CompletionRateExamples()
    ensures CalculateCompletionRate(3, 3) == 100
    ensures CalculateCompletionRate(0, 5) == 0
    ensures CalculateCompletionRate(1, 3) == 33
    ensures CalculateCompletionRate(2, 3) == 67
    ensures CalculateCompletionRate(1, 8) == 13
    ensures CalculateCompletionRate(4, 0) == 0
  {
  }

  /** For 0 <= completed <= total the rate is a percentage, 100 exactly when all are done. */
  lemma CompletionRateIsPercentage(completed: int, total: int)
    requires total > 0 && 0 <= completed <= total
    ensures 0 <= CalculateCompletionRate(completed, total) <= 100
    ensures CalculateCompletionRate(completed, total) == 100 <== completed == total
  {
    var r := CalculateCompletionRate(completed, total);
    if r < 0 {
      MulLess(2 * total, r + 1, 0);
    } else if r > 100 {
      MulLess(2 * total, 101, r);
    }
    if completed == total {
      CompletionRateIsNearest(completed, total, 100);
    }
  }
}
