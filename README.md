# Winter Arc Tracker — a verified model of its derived statistics and rules

Winter Arc Tracker is a habit, mood and journal tracker for a 90-day
"winter arc" that starts on October 1. This project models, in Dafny, the
parts of it that compute something:

- the streak and analytics engine (`AnalyticsService`);
- the stats aggregator and the date helpers;
- the badge catalog and badge requirements;
- the rules embedded in the UI (arc phase, per-category completion, mood labels and form state);
- the habit-list cache of the `useHabits` hook;
- the validation, row building and reply mapping of the four `/api/*` request handlers.

Calendar dates are civil dates (years 1..9999). `Calendar.DayNumber` gives
each date an integer day number, and `Calendar.Format` gives its canonical
`YYYY-MM-DD` string. Several lemmas tie the two together: the string is
injective, it parses back, and its code-point order is the chronological
order. That is why the analytics engine can work on integer day numbers
(`Types.Day`) while the source compares and sorts strings. The clock is a
parameter `now: Calendar.Instant` (a date plus milliseconds into the day).

The services that `AnalyticsService` and `useHabits` call are replaced by
their results, passed in as parameters:

- a sequence or a function from habit id or day to entries;
- `Ok(value)` / `Err(message)` for a call that may reject.

Each request handler is split in two:

- `PlanGet`/`PlanPost` map the request to either an immediate response or
  the query or write handed to the store;
- `FinishGet`/`FinishPost` map the store's `{data, error}` reply to the response.

Request bodies are JSON values (`Http.Json`) with JavaScript truthiness. The
components and the hook are classes whose methods update their fields:

- `HabitTracker.CreateHabitDialog`;
- `MoodTracker.MoodForm`;
- `HabitsHook.HabitsState`.

Modules: `Types`, `Calendar`, `Analytics`, `StatsCalculator`, `Badges`,
`ArcProgress`, `HabitTracker`, `MoodTracker`, `HabitsHook`, `Http`,
`HabitEntriesRoute`, `MoodEntriesRoute`, `JournalEntriesRoute`, `HabitsRoute`.

Several behaviours of the source are modelled as written, because they are
what the code does, even though they may surprise a reader:

- A lone completion that is not part of the current streak gives `longest = 0`.
- The service's completion "rate" is the raw number of completed entries of all habits. The date window only decides whether that count or 0 is returned.
- `totalBadges` is 8 while the catalog holds 9 badges.
- Two catalog requirements (`early_completion`, `perfect_week`) can never be met.
- A sleep value of 0 becomes 7 in the mood form and `null` in the stored row.

## Model

| member | source | states |
|---|---|---|
| Types.NumCompleted | src/services/analytics.service.ts:85 | `filter(e => e.completed).length`: at most the number of entries; 0 iff no entry is completed, and equal to the length iff all are |
| Types.NumCompletedAppend | src/services/analytics.service.ts:164-167 | counting completed entries distributes over concatenation |
| Types.Percentage | src/services/analytics.service.ts:94-95 | `(part / total) * 100`, or 0 without a total: `p * total == 100 * part`, lies in [0,100] when part <= total, and is 100 iff part == total |
| Types.FractionBounds | src/utils/stats-calculator.ts:43-44 | a quotient x/n of 0 <= x <= k*n lies in [0,k], and hits 0 or k exactly at the ends |
| Calendar.Format | src/utils/date-helpers.ts:4-7 | the canonical date string is 10 characters long |
| Calendar.ParseFormat | src/utils/date-helpers.ts:4-7 | every formatted date is canonical and parses back to the same date |
| Calendar.FormatParse | src/utils/date-helpers.ts:4-7 | every canonical string is the format of the date it parses to |
| Calendar.FormatInjective | src/utils/date-helpers.ts:30-32 | two dates have the same string iff they are the same date |
| Calendar.DayNumberOrder | src/services/analytics.service.ts:104-106 | day numbers order dates chronologically and identify them |
| Calendar.StrLessTrichotomy | src/utils/date-helpers.ts:34-40 | string comparison is a strict total order |
| Calendar.FormatOrder | src/utils/date-helpers.ts:34-40 | one canonical string sorts before another iff its date is earlier, iff its day number is smaller |
| Calendar.CeilDays | src/utils/date-helpers.ts:13-17 | `Math.ceil` of a millisecond difference over a day length, for whole days plus a remainder |
| Calendar.FormatDate | src/utils/date-helpers.ts:4-7 | an instant gives its date's canonical string; a string gives a result exactly when it is canonical, and that result is 10 characters long |
| Calendar.FormatDateIdempotent | src/utils/date-helpers.ts:4-7 | formatting a canonical string returns it, so formatting twice equals formatting once |
| Calendar.GetDaysBetween | src/utils/date-helpers.ts:24-28 | defined exactly for two canonical strings, and then the exact difference of their day numbers |
| Calendar.DaysBetweenSelf | src/utils/date-helpers.ts:24-28 | the days between a date and itself are 0 |
| Calendar.DaysBetweenAntisymmetric | src/utils/date-helpers.ts:24-28 | swapping the arguments negates the result |
| Calendar.Today | src/utils/date-helpers.ts:9-11 | today's string is canonical and parses to today's date |
| Calendar.ExactlyOneClassification | src/utils/date-helpers.ts:30-40 | for a fixed today exactly one of isToday, isPastDate, isFutureDate holds |
| Calendar.ClassificationIsChronological | src/utils/date-helpers.ts:30-40 | for canonical strings, today/past/future agree with equal, smaller and larger day numbers |
| Calendar.ArcIs92Days | src/utils/date-helpers.ts:13-22 | October 1 lies 92 days before the next January 1 |
| Calendar.GetDaysUntilNewYear | src/utils/date-helpers.ts:13-17 | the days to the next January 1 lie in [1,366], and equal that day's number minus today's |
| Calendar.GetWinterStartDate | src/utils/date-helpers.ts:19-22 | the canonical string of October 1 of the current year |
| Calendar.DaysSinceArcStart | src/services/analytics.service.ts:56-58 | `Math.ceil` of the days since October 1: the whole days elapsed, plus 1 when the time of day is past midnight |
| Analytics.CompletedDates | src/services/analytics.service.ts:104-105 | the dates of the completed entries: one per completed entry, and a date occurs iff some completed entry has it |
| Analytics.ConsSorted | src/services/analytics.service.ts:106 | a date no smaller than the head of a descending list keeps it descending |
| Analytics.Insert | src/services/analytics.service.ts:106 | inserting into a descending list keeps it descending and adds exactly that element |
| Analytics.SortDescending | src/services/analytics.service.ts:106 | the result is sorted newest first and is a permutation of the input |
| Analytics.SameMembers | src/services/analytics.service.ts:104-106 | the sorted dates have the same length and members as the unsorted ones |
| Analytics.RunGrows | src/services/analytics.service.ts:136-138 | a step of exactly one day extends the run ending at the previous date, and the bound on runs grows to cover it |
| Analytics.RunBreaks | src/services/analytics.service.ts:139 | a gap or duplicate date ends every run, so the bound on runs is kept |
| Analytics.GetStreakForHabit | src/services/analytics.service.ts:99-148 | the result satisfies `IsStreakOf`: (0,0,0) without completions; total = number of completed entries; current as defined by the backward walk; longest = max(current, longest run of one-day steps, or 0 when no step exists) |
| Analytics.CurrentStreak | src/services/analytics.service.ts:116-127 | the backward walk from today: counts completed days, does not stop at a missing today, stops at the first missing earlier day, and covers at most 90 days |
| Analytics.LongestRun | src/services/analytics.service.ts:112-141 | the loop's `longestStreak`: no run of one-day steps is longer, and it is 0 when there is no step, otherwise the length of a run that exists |
| Analytics.CurrentStreakUnique | src/services/analytics.service.ts:116-127 | the walk's definition admits exactly one current streak |
| Analytics.LongestStreakUnique | src/services/analytics.service.ts:129-142 | the run definition admits exactly one longest streak |
| Analytics.StreakIsDetermined | src/services/analytics.service.ts:99-148 | the entries and today determine the streak record completely |
| Analytics.StreakBounds | src/services/analytics.service.ts:142-146 | longest >= current, current <= 90, and both current and longest are at most total (their days are distinct completed dates) |
| Analytics.CurrentAtMostLength | src/services/analytics.service.ts:116-127 | the current streak is no longer than the list of completed dates it walks |
| Analytics.LoneOldCompletion | src/services/analytics.service.ts:112-142 | one completion older than yesterday gives (0, 0, 1): its run of one date counts as no streak |
| Analytics.StreakThroughUnloggedToday | src/services/analytics.service.ts:120-127 | completions on each of the n days before today, but not today or the day before them, give current = n |
| Analytics.CalculateCompletionRate | src/services/analytics.service.ts:150-171 | 0 without habits or when the window ends before it starts, otherwise the number of completed entries of all habits, whatever the window |
| Analytics.DayCompletionRate | src/services/analytics.service.ts:187-191 | completed over logged entries of the day, 0 when none were logged; lies in [0,1] |
| Analytics.AverageLevel | src/services/analytics.service.ts:193 | the mean of three levels 1..5 lies in [1,5] |
| Analytics.ProductBounds | src/services/analytics.service.ts:194 | a level in [1,5] times a rate in [0,1] lies in [0,5] |
| Analytics.ProductZero | src/services/analytics.service.ts:194 | with a positive level the product is 0 iff the rate is 0 |
| Analytics.Weighted | src/services/analytics.service.ts:187-194 | one mood entry's contribution lies in [0,5] and is 0 iff no entry of its day is completed |
| Analytics.CorrelationSum | src/services/analytics.service.ts:181-196 | the summed contributions lie in [0, 5 * number of mood entries] |
| Analytics.GetMoodCorrelation | src/services/analytics.service.ts:173-199 | 0 without mood entries or habits; otherwise the mean contribution, which lies in [0,5] |
| Analytics.GetDailyProgress | src/services/analytics.service.ts:73-97 | the date, the number of habits, the number of completed entries, whether a mood and a journal entry exist, and `Percentage(completed, habits)` |
| Analytics.ClampPercentage | src/services/analytics.service.ts:69 | the clamp lies in [0,100] and leaves values inside it unchanged |
| Analytics.GetAnalytics | src/services/analytics.service.ts:22-71 | one streak per habit id and no other key, each satisfying `IsStreakOf`; the completion rate as above for the window October 1..today; the mood trend as (date, mood) in the entries' order; correlation in [0,5], equal to `CorrelationSum` over the number of mood entries when there are habits and mood entries, else 0; days remaining; consistency is `100 * completionRate / elapsed days` clamped to [0,100], and 0 when no day has elapsed |
| StatsCalculator.MaxExists | src/utils/stats-calculator.ts:53-54 | a non-empty finite set of naturals has a largest element |
| StatsCalculator.MaxOf | src/utils/stats-calculator.ts:53-54 | the largest element of a non-empty set of naturals: a member, and at least every member |
| StatsCalculator.MaxCurrent | src/utils/stats-calculator.ts:53-55 | the largest `current` over the streaks, 0 when there are none: no streak's current exceeds it, and it is 0 or attained |
| StatsCalculator.SameCalendarDay | src/utils/stats-calculator.ts:36-69 | the two date strings are equal iff the two instants fall on the same date |
| StatsCalculator.CurrentDay | src/utils/stats-calculator.ts:57-62 | the day of the arc lies in [1,90] and equals the elapsed days when those are in range |
| StatsCalculator.CalculateAppStats | src/utils/stats-calculator.ts:30-82 | completedToday is the number of completed entries; totalHabits the number of habits; todayProgress `Percentage(...)`; daysUntilNewYear >= 1; currentStreak `MaxCurrent`, 0 without analytics; currentDay in [1,90]; 0 of 8 badges; isToday iff same date |
| StatsCalculator.TotalBadgesIsConstant | src/utils/stats-calculator.ts:64-66 | every input gives 0 earned of 8, while the catalog holds 9 badges |
| StatsCalculator.CalculateCompletionRate | src/utils/stats-calculator.ts:98-103 | 0 when total <= 0; otherwise r satisfies `2tr - t <= 200c < 2tr + t`, i.e. r = round(100c/t) |
| StatsCalculator.DivBounds | src/utils/stats-calculator.ts:102 | bounds of the integer quotient used for rounding |
| StatsCalculator.CompletionRateIsNearest | src/utils/stats-calculator.ts:102 | the rounding bounds admit exactly one integer, so the rate is determined by them |
| StatsCalculator.MulLess | src/utils/stats-calculator.ts:102 | multiplying by a positive total preserves strict order |
| StatsCalculator.CompletionRateExamples | src/utils/stats-calculator.ts:98-103 | 3/3 gives 100, 0/5 gives 0, 1/3 gives 33, 2/3 gives 67, 1/8 gives 13 (half rounds up), 4/0 gives 0 |
| StatsCalculator.CompletionRateIsPercentage | src/utils/stats-calculator.ts:98-103 | with completed <= total the rate lies in [0,100], and it is 100 when completed = total > 0 |
| Badges.FindBadge | src/constants/badges.ts:72-74 | `find`: the first entry with the id, or none when no entry has it |
| Badges.GetBadgeById | src/constants/badges.ts:72-74 | a found badge has the requested id and is in the catalog; none is found only for ids not in the catalog |
| Badges.CatalogIdsDistinct | src/constants/badges.ts:6-70 | the catalog has 9 entries with pairwise distinct ids |
| Badges.EveryBadgeFound | src/constants/badges.ts:6-74 | looking up each catalog entry's id returns that entry |
| Badges.CheckBadgeRequirement | src/constants/badges.ts:76-104 | only the seven known requirement keys can be met |
| Badges.UnreachableBadges | src/constants/badges.ts:36-102 | `early_completion` and `perfect_week` are never met, whatever the stats |
| Badges.CatalogRequirementsKnown | src/constants/badges.ts:6-103 | every other catalog requirement is one of the known keys |
| Badges.SevenDayStreak | src/constants/badges.ts:87-88 | `7_day_streak` holds iff longestStreak >= 7, a missing stat counting as 0 |
| Badges.LongerStreakImpliesShorter | src/constants/badges.ts:87-100 | `30_day_streak` implies `7_day_streak`, and `90_percent_completion` implies `80_percent_completion` |
| Badges.RequirementsMonotone | src/constants/badges.ts:86-103 | raising the stats never turns a met requirement into an unmet one |
| ArcProgress.GetCurrentPhase | src/components/WinterArcProgress.tsx:16-20 | the phase index is 0, 1 or 2; for days 1..90 the phase's range contains the day; before day 1 it is 0 and after day 90 it is 2 |
| ArcProgress.ExactlyOneActive | src/components/WinterArcProgress.tsx:35-37 | exactly one card is active, and no card is both active and completed |
| ArcProgress.PhaseMonotone | src/components/WinterArcProgress.tsx:16-37 | a later day is never in an earlier phase, and a completed card stays completed |
| ArcProgress.PhasesPartitionArc | src/components/WinterArcProgress.tsx:10-14 | the ranges 1-30, 31-60, 61-90 are contiguous, disjoint and cover 1..90 |
| HabitTracker.IsHabitCompleted | src/components/HabitTracker.tsx:61-64 | false when no entry has the habit id; otherwise the first such entry's `completed` |
| HabitTracker.FirstEntryDecides | src/components/HabitTracker.tsx:62 | a later entry for the same habit does not change the answer |
| HabitTracker.FirstIndexExists | src/components/HabitTracker.tsx:62 | whenever some entry has the habit id, a first one exists |
| HabitTracker.GetHabitsByCategory | src/components/HabitTracker.tsx:66-68 | a habit is listed iff it is among the habits and has that category |
| HabitTracker.GetHabitsByCategoryAppend | src/components/HabitTracker.tsx:66-68 | filtering distributes over concatenation, so the input order is kept |
| HabitTracker.CountCompleted | src/components/HabitTracker.tsx:72 | the number of habits `IsHabitCompleted` reports done: at most the number of habits, 0 iff none is done, and all of them iff every one is done |
| HabitTracker.CountCompletedAppend | src/components/HabitTracker.tsx:72 | the count distributes over concatenation |
| HabitTracker.GetCategoryCompletion | src/components/HabitTracker.tsx:70-74 | total is the size of the category's group; completed is `CountCompleted` of that group, at most total, 0 iff no habit of the category is completed and equal to total iff all are; no entries means 0 completed |
| HabitTracker.NoEntriesNoneCompleted | src/components/HabitTracker.tsx:61-72 | without entries no habit counts as completed |
| HabitTracker.CategoryTotalsSum | src/components/HabitTracker.tsx:66-68 | the mind, body and skill groups together have exactly as many habits as the list |
| HabitTracker.TotalCompletedCanExceedHabits | src/components/HabitTracker.tsx:76-77 | the "completed" count counts entries, so it exceeds the number of habits when there are more completed entries than habits |
| HabitTracker.CreateHabitDialog.constructor | src/components/HabitTracker.tsx:41-46 | the dialog starts closed with category mind and empty title and description |
| HabitTracker.CreateHabitDialog.HandleCreateHabit | src/components/HabitTracker.tsx:53-59 | an empty title does nothing; otherwise the form is handed over; on success the form resets to mind/''/'' and the dialog closes, and a failed call leaves the state unchanged |
| MoodTracker.GetLevelLabel | src/components/MoodTracker.tsx:40-43 | 1..5 map to Very Low, Low, Medium, High, Very High in order, and anything else to Medium |
| MoodTracker.LevelLabelsDistinct | src/components/MoodTracker.tsx:40-43 | the five levels have five different labels |
| MoodTracker.OutOfRangeIsMedium | src/components/MoodTracker.tsx:42 | an out-of-range value reads like level 3 |
| MoodTracker.SleepOrDefault | src/components/MoodTracker.tsx:19-27 | `sleep \|\| 7`: no entry, no value or 0 hours give 7, any other value is kept |
| MoodTracker.ButtonLabel | src/components/MoodTracker.tsx:130 | 'Saving...' iff saving; otherwise 'Update' iff an entry exists and 'Submit' iff none does |
| MoodTracker.MoodForm.constructor | src/components/MoodTracker.tsx:15-20 | sliders start at the entry's levels, or 3/3/3, with `SleepOrDefault` hours and not saving |
| MoodTracker.MoodForm.SyncEntry | src/components/MoodTracker.tsx:22-29 | a new entry reloads all four sliders, and no entry keeps them |
| MoodTracker.MoodForm.SetMood | src/components/MoodTracker.tsx:65 | sets the mood slider and nothing else |
| MoodTracker.MoodForm.SetEnergy | src/components/MoodTracker.tsx:81 | sets the energy slider and nothing else |
| MoodTracker.MoodForm.SetFocus | src/components/MoodTracker.tsx:97 | sets the focus slider and nothing else |
| MoodTracker.MoodForm.SetSleep | src/components/MoodTracker.tsx:113 | sets the sleep slider and nothing else |
| MoodTracker.MoodForm.BeginSave | src/components/MoodTracker.tsx:31-34 | raises `isSaving` and hands over the four slider values unchanged |
| MoodTracker.MoodForm.FinishSave | src/components/MoodTracker.tsx:35-37 | `isSaving` drops whether the save succeeded or failed; the sliders are kept |
| HabitsHook.MessageOr | src/hooks/useHabits.ts:37-112 | `err.message \|\| fallback`: the message when non-empty, otherwise exactly the fallback (non-empty when the fallback is) |
| HabitsHook.ReplaceById | src/hooks/useHabits.ts:69 | same length; each habit with the id becomes the updated one, and every other position is unchanged |
| HabitsHook.RemoveById | src/hooks/useHabits.ts:81 | exactly the habits without the id remain |
| HabitsHook.RemoveByIdAppend | src/hooks/useHabits.ts:81 | removal distributes over concatenation, so the survivors keep their order |
| HabitsHook.RemoveAbsentId | src/hooks/useHabits.ts:81 | removing an id no habit has changes nothing |
| HabitsHook.DeleteUndoesCreate | src/hooks/useHabits.ts:57-81 | deleting a habit just appended under a fresh id restores the earlier list |
| HabitsHook.ReplaceByIdIdempotent | src/hooks/useHabits.ts:69 | applying the same update twice equals applying it once |
| HabitsHook.RemoveByIdIdempotent | src/hooks/useHabits.ts:81 | deleting twice equals deleting once |
| HabitsHook.HabitsState.constructor | src/hooks/useHabits.ts:16-18 | an empty list, loading, and no error |
| HabitsHook.HabitsState.LoadHabits | src/hooks/useHabits.ts:28-41 | without a user nothing changes; otherwise the list becomes the fetched one or the error is recorded, and loading ends |
| HabitsHook.HabitsState.CreateHabit | src/hooks/useHabits.ts:43-64 | without a user: "User not authenticated" and no change; otherwise the created habit is appended at the end, or on failure the list is kept and the error recorded |
| HabitsHook.HabitsState.UpdateHabit | src/hooks/useHabits.ts:66-76 | the list becomes `ReplaceById`, or on failure is kept and the error recorded |
| HabitsHook.HabitsState.DeleteHabit | src/hooks/useHabits.ts:78-87 | the list becomes `RemoveById`, or on failure is kept and the error recorded |
| HabitsHook.HabitsState.LogEntry | src/hooks/useHabits.ts:89-115 | without a user: "User not authenticated" and no change; the list is never touched; success calls `onEntryLogged` once when given, and failure records the error |
| HabitsHook.HabitsState.GetEntriesForDate | src/hooks/useHabits.ts:117-126 | [] without a user or when the fetch fails, the fetched entries otherwise |
| Http.Field | app/api/habit-entries/route.ts:63 | a destructured property is the body's value for the key, or undefined |
| Http.OrNull | app/api/habit-entries/route.ts:81 | `v \|\| null`: truthy values are kept, everything else becomes null |
| Http.ErrorResponse | app/api/habit-entries/route.ts:12-15 | the given status with a body holding exactly the key `error` |
| Http.CaughtError | app/api/habit-entries/route.ts:51-57 | status 500 with the thrown message, or "Internal server error" when it is empty |
| Http.ReadBody | app/api/habit-entries/route.ts:62-63 | a body that does not parse, or a null body, ends in the 500 of the `catch`; any other JSON value is destructured |
| Http.StoreFailure | app/api/habit-entries/route.ts:31-37 | a store error answers 500 with the store's message |
| Http.ListReply | app/api/mood-entries/route.ts:40-47 | 500 on a store error; otherwise 200 with the data, or with [] when the data is falsy and `data \|\| []` applies |
| Http.SingleReply | app/api/mood-entries/route.ts:25-32 | a store error other than code PGRST116 answers 500; otherwise 200 with the data, which may be null |
| Http.CreatedReply | app/api/mood-entries/route.ts:98-103 | 500 on a store error, otherwise 201 with the stored row |
| HabitEntriesRoute.ToCamel | app/api/habit-entries/route.ts:99-107 | the response object has exactly the seven camelCase keys, each holding the row's matching snake_case column |
| HabitEntriesRoute.ToSnake | app/api/habit-entries/route.ts:40-48 | the reverse renaming: exactly the seven columns, each from its camelCase field |
| HabitEntriesRoute.ToCamelRoundTrip | app/api/habit-entries/route.ts:40-48 | a row holding exactly the seven columns survives renaming and renaming back |
| HabitEntriesRoute.ToCamelInjective | app/api/habit-entries/route.ts:40-48 | two rows answered alike agree on all seven columns |
| HabitEntriesRoute.MapToCamel | app/api/habit-entries/route.ts:40-48 | the list keeps its length and order, each row renamed |
| HabitEntriesRoute.MapToCamelAppend | app/api/habit-entries/route.ts:40-48 | renaming a concatenation renames each part |
| HabitEntriesRoute.PlanGet | app/api/habit-entries/route.ts:7-29 | 400 "userId is required" iff userId is missing or empty; otherwise equality filters on user_id first, on habit_id iff given, on date iff given, ordered newest first |
| HabitEntriesRoute.FinishGet | app/api/habit-entries/route.ts:29-50 | 500 with the store's message on error; otherwise 200 with the list renamed element by element |
| HabitEntriesRoute.EntryRow | app/api/habit-entries/route.ts:76-82 | the row has exactly user_id, habit_id, date, completed and notes, notes being null when falsy |
| HabitEntriesRoute.PlanPost | app/api/habit-entries/route.ts:60-88 | unreadable bodies end in the `catch`; 400 unless userId, habitId and date are truthy and completed is defined; otherwise the entry row is upserted keyed on (habit_id, date) |
| HabitEntriesRoute.FinishPost | app/api/habit-entries/route.ts:90-109 | 500 with the store's message on error, otherwise 201 with the renamed row |
| HabitEntriesRoute.CompletedFalseAccepted | app/api/habit-entries/route.ts:65-70 | `completed: false` passes the check and is stored as false, notes as null |
| HabitEntriesRoute.MissingCompletedRejected | app/api/habit-entries/route.ts:65-70 | a body without `completed` is refused with 400 whatever else it holds |
| HabitEntriesRoute.SameHabitAndDateCollide | app/api/habit-entries/route.ts:73-86 | two accepted posts for one habit and date carry the same conflict key and key values |
| MoodEntriesRoute.PlanGet | app/api/mood-entries/route.ts:7-40 | 400 iff userId is missing; with a date, a single-entry query on user and date; otherwise newest first, with both range filters iff both ends are given and none otherwise |
| MoodEntriesRoute.FinishGet | app/api/mood-entries/route.ts:25-47 | single mode: PGRST116 is not an error and the data (possibly null) answers 200; list mode: 500 on error, otherwise `data \|\| []` |
| MoodEntriesRoute.DateIgnoresRange | app/api/mood-entries/route.ts:23-33 | with a date, startDate and endDate make no difference |
| MoodEntriesRoute.OneEndAloneIgnored | app/api/mood-entries/route.ts:36-38 | one end of the range alone adds no filter |
| MoodEntriesRoute.NoEntryForDateIsNull | app/api/mood-entries/route.ts:25-32 | no entry for the date answers 200 with null |
| MoodEntriesRoute.ValidLevelMeaning | app/api/mood-entries/route.ts:70-71 | a level is accepted iff it is a one-character string '1'..'5' |
| MoodEntriesRoute.MoodRow | app/api/mood-entries/route.ts:83-92 | the row has exactly user_id, date, mood, energy, focus, sleep, notes and created_at; falsy sleep and notes become null |
| MoodEntriesRoute.PlanPost | app/api/mood-entries/route.ts:57-96 | unreadable bodies end in the `catch`; 400 "…are required" unless all five fields are truthy; then 400 "…between 1 and 5" unless all levels are valid; otherwise the row is upserted keyed on (user_id, date) |
| MoodEntriesRoute.FinishPost | app/api/mood-entries/route.ts:98-103 | 500 with the store's message on error, otherwise 201 with the stored row |
| MoodEntriesRoute.StoredLevelsInRange | app/api/mood-entries/route.ts:70-88 | every stored level is a string '1'..'5' |
| MoodEntriesRoute.NumericLevelRejected | app/api/mood-entries/route.ts:70-76 | a level sent as a number is refused even when in range |
| MoodEntriesRoute.SleepZeroStoredAsNull | app/api/mood-entries/route.ts:89 | a sleep of 0, or none, is stored as null |
| JournalEntriesRoute.PlanGet | app/api/journal-entries/route.ts:7-39 | 400 iff userId is missing; with a date, a single-entry query; otherwise newest first, with a lower bound iff startDate is given and an upper bound iff endDate is given |
| JournalEntriesRoute.FinishGet | app/api/journal-entries/route.ts:25-46 | as for mood entries: PGRST116 ignored in single mode, `data \|\| []` in list mode, 500 on other errors |
| JournalEntriesRoute.StartDateAloneFilters | app/api/journal-entries/route.ts:36-37 | a start date alone already adds its filter |
| JournalEntriesRoute.DateIgnoresRange | app/api/journal-entries/route.ts:23-33 | with a date, startDate and endDate make no difference |
| JournalEntriesRoute.JournalRow | app/api/journal-entries/route.ts:73-78 | the row has exactly user_id, date, content and created_at |
| JournalEntriesRoute.PlanPost | app/api/journal-entries/route.ts:56-82 | unreadable bodies end in the `catch`; 400 unless userId, date and content are truthy; otherwise the row is upserted keyed on (user_id, date) |
| JournalEntriesRoute.FinishPost | app/api/journal-entries/route.ts:84-89 | 500 with the store's message on error, otherwise 201 with the stored row |
| JournalEntriesRoute.EmptyVersusBlankContent | app/api/journal-entries/route.ts:61-66 | empty content is refused, content of blanks only is stored as sent |
| HabitsRoute.PlanGet | app/api/habits/route.ts:4-18 | 400 iff userId is missing; otherwise the user's habits with is_active = true |
| HabitsRoute.FinishGet | app/api/habits/route.ts:20-31 | 500 with the store's message on error, otherwise 200 with the data as sent |
| HabitsRoute.HabitRow | app/api/habits/route.ts:56-63 | the row has exactly user_id, category, title, description (null when falsy), is_active = true and created_at |
| HabitsRoute.PlanPost | app/api/habits/route.ts:41-65 | unreadable bodies end in the `catch`; 400 unless userId, category and title are truthy; otherwise the row is inserted |
| HabitsRoute.FinishPost | app/api/habits/route.ts:67-75 | 500 with the store's message on error, otherwise 201 with the stored row |
| HabitsRoute.CreatedHabitIsListed | app/api/habits/route.ts:17-63 | a created habit matches every filter of its user's next GET |
| HabitsRoute.AnyCategoryAccepted | app/api/habits/route.ts:44-51 | any non-empty category is accepted and stored as sent, not only mind, body or skill |

## Left out

- Calendar.StrLess: compares code points where JavaScript compares UTF-16 code units; the two orders agree whenever one string is ASCII, as every date string is.
- Network, the hosted store and authentication. Service calls and store replies are parameters. The store's conflict resolution, filtering and ordering are not modelled; only the query or row handed to it is.
- The clock. `new Date()` is a parameter. Local time and UTC are not told apart: October 1, January 1 and "today" are taken in one time zone.
- Calendar years outside 1..9999, and date strings that are not canonical `YYYY-MM-DD`. `Calendar.FormatDate` and `Calendar.GetDaysBetween` answer `None` for those, where JavaScript would parse other formats or give `NaN`.
- Floating point. Percentages, the correlation and the averages are exact reals, and `Math.round` is floor(x + 1/2) on exact rationals.
- Analytics.GetStreakForHabit: sorting uses code-point string order for `localeCompare`, which agrees with it on canonical date strings; equal dates are not ordered further, which does not change the result.
- Analytics.GetStreakForHabit: completed entries are identified by date only, as the walk and the run count use nothing else.
- Analytics.GetMoodCorrelation: mood levels are integers 1..5. The stored rows hold them as strings, which the service would concatenate rather than add; that mismatch is not modelled.
- Analytics.GetAnalytics: `getHabitEntries` is modelled with the arguments of the service class; the interface's differing signature is not.
- StatsCalculator.CalculateAppStats: the locale-dependent `formatDate` of the same file is not modelled.
- HabitsHook.HabitsState.UpdateHabit: the partial update sent to the service is not modelled, only the habit it returns.
- HabitsHook.HabitsState: the effect that loads habits when the user changes, and the rethrow of a failed call to the caller, are not modelled beyond the returned `Err`.
- MoodTracker.MoodForm.SetSleep: the slider bound 0..12 of sleep is not enforced; the level setters take a `MoodLevel` (1..5), which the sliders guarantee.
- HabitEntriesRoute.FinishPost: a reply with neither data nor error (which a `.single()` write does not produce) answers 201 with undefined fields, where JavaScript would throw on `null.id`.
- Http.ReadBody: the 500 message for a `null` body is the JavaScript engine's destructuring error text.
- The `[id]` routes, the other services, the orchestration hooks, the render-only components and the randomised decorations are outside this model.
