/**
 * The three phases of the 90-day arc and which phase card is active or
 * completed for a given day of the arc.
 */
module ArcProgress {

  datatype Phase = Phase(name: string, days: string, first: int, last: int)

  const Phases: seq<Phase> := [
    Phase("Foundation", "1-30", 1, 30),
    Phase("Focus", "31-60", 31, 60),
    Phase("Finish", "61-90", 61, 90)
  ]

  /** The index of the phase card for `currentDay` (any integer is accepted). */
  function GetCurrentPhase(currentDay: int): (p: nat)
    ensures p < |Phases|
    ensures 1 <= currentDay <= 90 ==> Phases[p].first <= currentDay <= Phases[p].last
    ensures currentDay < 1 ==> p == 0
    ensures currentDay > 90 ==> p == 2
  {
    if currentDay <= 30 then 0
    else if currentDay <= 60 then 1
    else 2
  }

  predicate IsActive(index: int, currentDay: int) {
    index == GetCurrentPhase(currentDay)
  }

  predicate IsCompleted(index: int, currentDay: int) {
    index < GetCurrentPhase(currentDay)
  }

  /** Exactly one of the three cards is active, and no card is both active and completed. */
  lemma ExactlyOneActive(currentDay: int)
    ensures exists index :: 0 <= index < |Phases| && IsActive(index, currentDay)
    ensures forall i, j :: IsActive(i, currentDay) && IsActive(j, currentDay) ==> i == j
    ensures forall index :: !(IsActive(index, currentDay) && IsCompleted(index, currentDay))
  {
    assert IsActive(GetCurrentPhase(currentDay), currentDay);
  }

  /** A later day is never in an earlier phase; a completed card stays completed. */
  lemma PhaseMonotone(day1: int, day2: int)
    requires day1 <= day2
    ensures GetCurrentPhase(day1) <= GetCurrentPhase(day2)
    ensures forall index :: IsCompleted(index, day1) ==> IsCompleted(index, day2)
  {
  }

  /** The ranges are contiguous and every day 1..90 lies in exactly one of them. */
  lemma PhasesPartitionArc()
    ensures Phases[0].first == 1 && Phases[|Phases| - 1].last == 90
    ensures forall k :: 0 < k < |Phases| ==> Phases[k].first == Phases[k - 1].last + 1
    ensures forall d, i, j :: InPhase(i, d) && InPhase(j, d) ==> i == j
    ensures forall d :: 1 <= d <= 90 ==> InPhase(GetCurrentPhase(d), d)
  {
  }

  /** Day `d` falls in the range of phase `i`. */
  predicate InPhase(i: int, d: int) {
    0 <= i < |Phases| && Phases[i].first <= d <= Phases[i].last
  }
}
