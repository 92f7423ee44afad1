/**
 * Domain types of the Winter Arc tracker (habits, habit entries, mood and
 * journal entries, derived streak and analytics records), plus the one
 * counting rule every statistic shares: "how many entries are completed".
 *
 * Calendar dates are integer day numbers (`Day`): two dates are consecutive
 * calendar days exactly when their numbers differ by one, and the module
 * Calendar proves that canonical `YYYY-MM-DD` strings compare in the same
 * order as these numbers.
 */
module Types {

  datatype Option<+T> = None | Some(value: T)

  datatype Result<+T, +E> = Ok(value: T) | Err(error: E)

  datatype HabitCategory = Mind | Body | Skill

  /** A mood, energy or focus reading on the 1..5 scale. */
  type MoodLevel = x: int | 1 <= x <= 5 witness 3

  /** A calendar date as a day number. */
  type Day = int

  datatype Habit = Habit(
    id: string,
    userId: string,
    category: HabitCategory,
    title: string,
    description: Option<string>,
    createdAt: string,
    isActive: bool)

  datatype HabitEntry = HabitEntry(
    id: string,
    habitId: string,
    userId: string,
    date: Day,
    completed: bool,
    notes: Option<string>,
    createdAt: string)

  datatype MoodEntry = MoodEntry(
    id: string,
    userId: string,
    date: Day,
    mood: MoodLevel,
    energy: MoodLevel,
    focus: MoodLevel,
    sleep: Option<real>,
    notes: Option<string>,
    createdAt: string)

  datatype JournalEntry = JournalEntry(
    id: string,
    userId: string,
    date: Day,
    content: string,
    createdAt: string,
    updatedAt: string)

  datatype StreakData = StreakData(current: nat, longest: nat, total: nat)

  datatype MoodPoint = MoodPoint(date: Day, mood: int)

  datatype AnalyticsData = AnalyticsData(
    streaks: map<string, StreakData>,  // habit id -> streak
    completionRate: int,
    moodTrend: seq<MoodPoint>,
    energyCorrelation: real,
    daysRemaining: int,
    consistencyPercentage: real)

  datatype DailyProgress = DailyProgress(
    date: Day,
    habitsCompleted: nat,
    totalHabits: nat,
    hasMoodEntry: bool,
    hasJournalEntry: bool,
    completionPercentage: real)

  /** `entries.filter(e => e.completed).length` */
  function NumCompleted(entries: seq<HabitEntry>): (n: nat)
    ensures n <= |entries|
    ensures n == 0 <==> forall i :: 0 <= i < |entries| ==> !entries[i].completed
    ensures n == |entries| <==> forall i :: 0 <= i < |entries| ==> entries[i].completed
  {
    if entries == [] then 0
    else (if entries[0].completed then 1 else 0) + NumCompleted(entries[1..])
  }

  /** Counting completed entries distributes over concatenation. */
  lemma {:induction false} NumCompletedAppend(a: seq<HabitEntry>, b: seq<HabitEntry>)
    ensures NumCompleted(a + b) == NumCompleted(a) + NumCompleted(b)
  {
    if a == [] {
      assert a + b == b;
    } else {
      assert (a + b)[1..] == a[1..] + b;
      NumCompletedAppend(a[1..], b);
    }
  }

  /**
   * `total > 0 ? (part / total) * 100 : 0`, the percentage rule shared by
   * the daily progress and the header statistics.
   */
  function Percentage(part: nat, total: nat): (p: real)
    ensures total == 0 ==> p == 0.0
    ensures total > 0 ==> p * total as real == 100.0 * part as real
    ensures part <= total ==> 0.0 <= p <= 100.0
    ensures total > 0 ==> (p == 100.0 <==> part == total)
  {
    if total > 0 then
      var fraction := part as real / total as real;
      assert fraction * total as real == part as real;
      if part <= total then
        FractionBounds(part as real, total as real, 1.0);
        fraction * 100.0
      else
        fraction * 100.0
    else 0.0
  }

  lemma FractionBounds(x: real, n: real, k: real)
    requires n > 0.0 && 0.0 <= x <= k * n
    ensures 0.0 <= x / n <= k
    ensures x / n == 0.0 <==> x == 0.0
    ensures x / n == k <==> x == k * n
  {
    assert x / n * n == x;
  }
}
