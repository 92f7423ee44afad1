/**
 * The badge catalog and the requirement evaluator.
 */
module Badges {
  import opened Types

  datatype Badge = Badge(id: string, name: string, description: string, icon: string, requirement: string)

  /** The static catalog, in display order. */
  const BADGES: seq<Badge> := [
    Badge("frost_focused", "Frost Focused", "Complete all habits for 7 consecutive days",
      "\U{2744}\U{FE0F}", "7_day_streak"),
    Badge("winter_warrior", "Winter Warrior", "Complete all habits for 30 consecutive days",
      "\U{2694}\U{FE0F}", "30_day_streak"),
    Badge("consistency_penguin", "Consistency Penguin", "Log your mood for 14 consecutive days",
      "\U{1F427}", "14_mood_entries"),
    Badge("mindful_monk", "Mindful Monk", "Complete 20 journal entries",
      "\U{1F9D8}", "20_journal_entries"),
    Badge("early_bird", "Early Bird", "Complete all habits before 12 PM for 5 days",
      "\U{1F426}", "early_completion"),
    Badge("perfect_week", "Perfect Week", "Complete all daily activities (habits, mood, journal) for 7 days",
      "\U{2B50}", "perfect_week"),
    Badge("habit_master", "Habit Master", "Create and maintain 3 active habits",
      "\U{1F3AF}", "3_active_habits"),
    Badge("summit_seeker", "Summit Seeker", "Reach 80% overall completion",
      "\U{1F3D4}\U{FE0F}", "80_percent_completion"),
    Badge("winter_champion", "Winter Champion", "Complete your entire winter arc with 90%+ consistency",
      "\U{1F3C6}", "90_percent_completion")
  ]

  /** `badges[i]` is the first badge carrying `badgeId`. */
  predicate FirstWithId(badges: seq<Badge>, badgeId: string, i: int) {
    0 <= i < |badges| && badges[i].id == badgeId && forall j :: 0 <= j < i ==> badges[j].id != badgeId
  }

  /** `BADGES.find(badge => badge.id === badgeId)`: the first badge with that id. */
  function FindBadge(badges: seq<Badge>, badgeId: string): (r: Option<Badge>)
    ensures r.None? <==> forall i :: 0 <= i < |badges| ==> badges[i].id != badgeId
    ensures r.Some? ==> exists i :: FirstWithId(badges, badgeId, i) && badges[i] == r.value
  {
    if badges == [] then None
    else if badges[0].id == badgeId then
      assert FirstWithId(badges, badgeId, 0);
      Some(badges[0])
    else
      var r := FindBadge(badges[1..], badgeId);
      if r.Some? then
        var k :| FirstWithId(badges[1..], badgeId, k) && badges[1..][k] == r.value;
        assert FirstWithId(badges, badgeId, k + 1);
        r
      else
        r
  }

  function GetBadgeById(badgeId: string): (r: Option<Badge>)
    ensures r.Some? ==> r.value in BADGES && r.value.id == badgeId
    ensures r.None? <==> forall b :: b in BADGES ==> b.id != badgeId
  {
    FindBadge(BADGES, badgeId)
  }

  /** The catalog holds nine badges whose ids are pairwise distinct. */
  lemma CatalogIdsDistinct()
    ensures |BADGES| == 9
    ensures forall i, j :: 0 <= i < j < |BADGES| ==> BADGES[i].id != BADGES[j].id
  {
  }

  /** Every catalog badge is found by its own id. */
  lemma {:induction false} EveryBadgeFound(i: int)
    requires 0 <= i < |BADGES|
    ensures GetBadgeById(BADGES[i].id) == Some(BADGES[i])
  {
    CatalogIdsDistinct();
    var r := GetBadgeById(BADGES[i].id);
    var k :| FirstWithId(BADGES, BADGES[i].id, k) && BADGES[k] == r.value;
  }

  /**
   * The statistics a requirement may read. Each field is optional and a
   * missing one counts as 0 (`stat || 0`).
   */
  datatype UserStats = UserStats(
    longestStreak: Option<int>,
    moodEntryCount: Option<int>,
    journalEntryCount: Option<int>,
    activeHabitCount: Option<int>,
    completionPercentage: Option<real>)

  function OrZero(x: Option<int>): int {
    if x.Some? then x.value else 0
  }

  function OrZeroReal(x: Option<real>): real {
    if x.Some? then x.value else 0.0
  }

  /** The requirement keys the evaluator recognises. */
  const KnownRequirements: set<string> := {
    "7_day_streak", "30_day_streak", "14_mood_entries", "20_journal_entries",
    "3_active_habits", "80_percent_completion", "90_percent_completion"
  }

  function CheckBadgeRequirement(requirement: string, userStats: UserStats): (met: bool)
    ensures met ==> requirement in KnownRequirements
  {
    match requirement
    case "7_day_streak" => OrZero(userStats.longestStreak) >= 7
    case "30_day_streak" => OrZero(userStats.longestStreak) >= 30
    case "14_mood_entries" => OrZero(userStats.moodEntryCount) >= 14
    case "20_journal_entries" => OrZero(userStats.journalEntryCount) >= 20
    case "3_active_habits" => OrZero(userStats.activeHabitCount) >= 3
    case "80_percent_completion" => OrZeroReal(userStats.completionPercentage) >= 80.0
    case "90_percent_completion" => OrZeroReal(userStats.completionPercentage) >= 90.0
    case _ => false
  }

  /**
   * Two catalog badges carry requirements the evaluator does not know, so
   * they can never be earned.
   */
  lemma UnreachableBadges(userStats: UserStats)
    ensures BADGES[4].requirement == "early_completion" && BADGES[5].requirement == "perfect_week"
    ensures !CheckBadgeRequirement(BADGES[4].requirement, userStats)
    ensures !CheckBadgeRequirement(BADGES[5].requirement, userStats)
  {
  }

  /** Every other catalog requirement is a known one. */
  lemma CatalogRequirementsKnown()
    ensures forall i :: 0 <= i < |BADGES| ==> (BADGES[i].requirement in KnownRequirements <==> i != 4 && i != 5)
  {
  }

  lemma SevenDayStreak(userStats: UserStats)
    ensures CheckBadgeRequirement("7_day_streak", userStats)
      <==> userStats.longestStreak.Some? && userStats.longestStreak.value >= 7
  {
  }

  lemma LongerStreakImpliesShorter(userStats: UserStats)
    ensures CheckBadgeRequirement("30_day_streak", userStats) ==> CheckBadgeRequirement("7_day_streak", userStats)
    ensures CheckBadgeRequirement("90_percent_completion", userStats)
      ==> CheckBadgeRequirement("80_percent_completion", userStats)
  {
  }

  /** `b` is at least `a` in every statistic. */
  predicate AtLeast(b: UserStats, a: UserStats) {
    && OrZero(b.longestStreak) >= OrZero(a.longestStreak)
    && OrZero(b.moodEntryCount) >= OrZero(a.moodEntryCount)
    && OrZero(b.journalEntryCount) >= OrZero(a.journalEntryCount)
    && OrZero(b.activeHabitCount) >= OrZero(a.activeHabitCount)
    && OrZeroReal(b.completionPercentage) >= OrZeroReal(a.completionPercentage)
  }

  /** Raising statistics never takes a badge away. */
  lemma RequirementsMonotone(requirement: string, a: UserStats, b: UserStats)
    requires AtLeast(b, a)
    ensures CheckBadgeRequirement(requirement, a) ==> CheckBadgeRequirement(requirement, b)
  {
  }
}
