/**
 * The client-side habit list kept by the `useHabits` hook: load, create,
 * update and delete keep a local copy of the list in step with the habit
 * service, and failures are recorded in `error`.
 *
 * Each service call is replaced by its outcome, passed in as a parameter:
 * `Ok(value)` when the awaited call resolves, `Err(message)` when it
 * rejects with an error whose `message` is the given string.
 */
module HabitsHook {
  import opened Types

  const NotAuthenticated: string := "User not authenticated"
  const LoadFailed: string := "Failed to load habits"
  const CreateFailed: string := "Failed to create habit"
  const UpdateFailed: string := "Failed to update habit"
  const DeleteFailed: string := "Failed to delete habit"
  const LogFailed: string := "Failed to log habit entry"

  /** `err.message || fallback` */
  function MessageOr(message: string, fallback: string): (m: string)
    ensures m != ""  <== fallback != ""
    ensures message != "" ==> m == message
    ensures message == "" ==> m == fallback
  {
    if message != "" then message else fallback
  }

  /** `prev.map(h => h.id === habitId ? updated : h)` */
  function ReplaceById(habits: seq<Habit>, habitId: string, updated: Habit): (r: seq<Habit>)
    ensures |r| == |habits|
    ensures forall i :: 0 <= i < |habits| && habits[i].id == habitId ==> r[i] == updated
    ensures forall i :: 0 <= i < |habits| && habits[i].id != habitId ==> r[i] == habits[i]
  {
    if habits == [] then []
    else [if habits[0].id == habitId then updated else habits[0]] + ReplaceById(habits[1..], habitId, updated)
  }

  /** `prev.filter(h => h.id !== habitId)` */
  function RemoveById(habits: seq<Habit>, habitId: string): (r: seq<Habit>)
    ensures |r| <= |habits|
    ensures forall h :: h in r <==> h in habits && h.id != habitId
  {
    if habits == [] then []
    else (if habits[0].id != habitId then [habits[0]] else []) + RemoveById(habits[1..], habitId)
  }

  /** Removing distributes over concatenation, so the survivors keep their relative order. */
  lemma {:induction false} RemoveByIdAppend(a: seq<Habit>, b: seq<Habit>, habitId: string)
    ensures RemoveById(a + b, habitId) == RemoveById(a, habitId) + RemoveById(b, habitId)
  {
    if a == [] {
      assert a + b == b;
    } else {
      assert (a + b)[1..] == a[1..] + b;
      RemoveByIdAppend(a[1..], b, habitId);
    }
  }

  /** A list without that id is left exactly as it was. */
  lemma {:induction false} RemoveAbsentId(habits: seq<Habit>, habitId: string)
    requires forall i :: 0 <= i < |habits| ==> habits[i].id != habitId
    ensures RemoveById(habits, habitId) == habits
  {
    if habits != [] {
      RemoveAbsentId(habits[1..], habitId);
    }
  }

  /** Deleting a habit just created under a fresh id gives back the earlier list. */
  lemma DeleteUndoesCreate(habits: seq<Habit>, created: Habit)
    requires forall i :: 0 <= i < |habits| ==> habits[i].id != created.id
    ensures RemoveById(habits + [created], created.id) == habits
  {
    RemoveByIdAppend(habits, [created], created.id);
    RemoveAbsentId(habits, created.id);
  }

  /** Applying the same update twice changes nothing more. */
  lemma ReplaceByIdIdempotent(habits: seq<Habit>, habitId: string, updated: Habit)
    ensures ReplaceById(ReplaceById(habits, habitId, updated), habitId, updated)
      == ReplaceById(habits, habitId, updated)
  {
  }

  /** Deleting twice removes nothing more. */
  lemma {:induction false} RemoveByIdIdempotent(habits: seq<Habit>, habitId: string)
    ensures RemoveById(RemoveById(habits, habitId), habitId) == RemoveById(habits, habitId)
  {
    var once := RemoveById(habits, habitId);
    assert forall i :: 0 <= i < |once| ==> once[i].id != habitId by {
      forall i | 0 <= i < |once| ensures once[i].id != habitId {
        assert once[i] in once;
      }
    }
    RemoveAbsentId(once, habitId);
  }

  class HabitsState {
    const userId: Option<string>
    const hasEntryLoggedCallback: bool
    var habits: seq<Habit>
    var loading: bool
    var error: Option<string>
    /** How many times `onEntryLogged` has been called. */
    var entryLoggedCalls: nat

    /** `!userId`: no user, or an empty user id. */
    predicate SignedIn() {
      userId.Some? && userId.value != ""
    }

    constructor(userId: Option<string>, hasEntryLoggedCallback: bool)
      ensures this.userId == userId && this.hasEntryLoggedCallback == hasEntryLoggedCallback
      ensures habits == [] && loading && error.None? && entryLoggedCalls == 0
    {
      this.userId := userId;
      this.hasEntryLoggedCallback := hasEntryLoggedCallback;
      habits := [];
      loading := true;
      error := None;
      entryLoggedCalls := 0;
    }

    /** `loadHabits`: replace the list by the fetched one, or record the failure. */
    method LoadHabits(fetched: Result<seq<Habit>, string>)
      modifies this
      ensures !SignedIn() ==> unchanged(this)
      ensures SignedIn() ==> !loading && entryLoggedCalls == old(entryLoggedCalls)
      ensures SignedIn() && fetched.Ok? ==> habits == fetched.value && error == old(error)
      ensures SignedIn() && fetched.Err? ==>
        habits == old(habits) && error == Some(MessageOr(fetched.error, LoadFailed))
    {
      if !SignedIn() {
        return;
      }
      loading := true;
      if fetched.Ok? {
        habits := fetched.value;
      } else {
        error := Some(MessageOr(fetched.error, LoadFailed));
      }
      loading := false;
    }

    /** `createHabit`: append the created habit at the end. */
    method CreateHabit(created: Result<Habit, string>) returns (outcome: Result<Habit, string>)
      modifies this
      ensures !SignedIn() ==> outcome == Err(NotAuthenticated) && unchanged(this)
      ensures SignedIn() ==> outcome == created
      ensures SignedIn() && created.Ok? ==>
        habits == old(habits) + [created.value] && error == old(error) && loading == old(loading)
      ensures SignedIn() && created.Err? ==>
        habits == old(habits) && error == Some(MessageOr(created.error, CreateFailed)) && loading == old(loading)
      ensures entryLoggedCalls == old(entryLoggedCalls)
    {
      if !SignedIn() {
        return Err(NotAuthenticated);
      }
      if created.Ok? {
        habits := habits + [created.value];
      } else {
        error := Some(MessageOr(created.error, CreateFailed));
      }
      outcome := created;
    }

    /** `updateHabit`: every habit with that id becomes the updated habit. */
    method UpdateHabit(habitId: string, updated: Result<Habit, string>) returns (outcome: Result<Habit, string>)
      modifies this
      ensures outcome == updated
      ensures updated.Ok? ==>
        habits == ReplaceById(old(habits), habitId, updated.value) && error == old(error)
      ensures updated.Err? ==>
        habits == old(habits) && error == Some(MessageOr(updated.error, UpdateFailed))
      ensures loading == old(loading) && entryLoggedCalls == old(entryLoggedCalls)
    {
      if updated.Ok? {
        habits := ReplaceById(habits, habitId, updated.value);
      } else {
        error := Some(MessageOr(updated.error, UpdateFailed));
      }
      outcome := updated;
    }

    /** `deleteHabit`: drop every habit with that id; `failure` is the rejected call's message. */
    method DeleteHabit(habitId: string, failure: Option<string>) returns (outcome: Option<string>)
      modifies this
      ensures outcome == failure
      ensures failure.None? ==> habits == RemoveById(old(habits), habitId) && error == old(error)
      ensures failure.Some? ==>
        habits == old(habits) && error == Some(MessageOr(failure.value, DeleteFailed))
      ensures loading == old(loading) && entryLoggedCalls == old(entryLoggedCalls)
    {
      if failure.None? {
        habits := RemoveById(habits, habitId);
      } else {
        error := Some(MessageOr(failure.value, DeleteFailed));
      }
      outcome := failure;
    }

    /**
     * `logEntry`: the list is not touched; a logged entry triggers the
     * `onEntryLogged` callback when one was given.
     */
    method LogEntry(logged: Result<HabitEntry, string>) returns (outcome: Result<HabitEntry, string>)
      modifies this
      ensures !SignedIn() ==> outcome == Err(NotAuthenticated) && unchanged(this)
      ensures SignedIn() ==> outcome == logged
      ensures habits == old(habits) && loading == old(loading)
      ensures SignedIn() && logged.Ok? ==>
        (error == old(error)
         && entryLoggedCalls == old(entryLoggedCalls) + (if hasEntryLoggedCallback then 1 else 0))
      ensures SignedIn() && logged.Err? ==>
        error == Some(MessageOr(logged.error, LogFailed)) && entryLoggedCalls == old(entryLoggedCalls)
    {
      if !SignedIn() {
        return Err(NotAuthenticated);
      }
      if logged.Ok? {
        if hasEntryLoggedCallback {
          entryLoggedCalls := entryLoggedCalls + 1;
        }
      } else {
        error := Some(MessageOr(logged.error, LogFailed));
      }
      outcome := logged;
    }

    /** `getEntriesForDate`: the fetched entries, or [] without a user or on failure. */
    method GetEntriesForDate(fetched: Result<seq<HabitEntry>, string>) returns (entries: seq<HabitEntry>)
      ensures !SignedIn() || fetched.Err? ==> entries == []
      ensures SignedIn() && fetched.Ok? ==> entries == fetched.value
    {
      if !SignedIn() {
        return [];
      }
      entries := if fetched.Ok? then fetched.value else [];
    }
  }
}
