/**
 * `/api/mood-entries`: GET answers the one entry of a date, or the user's
 * entries newest first, optionally within a date range; POST validates the
 * three levels and upserts the entry of a user on a date.
 */
module MoodEntriesRoute {
  import opened Types
  import opened Http

  const Table: string := "mood_entries"
  const UserIdRequired: string := "userId is required"
  const FieldsRequired: string := "userId, date, mood, energy, and focus are required"
  const LevelsOutOfRange: string := "mood, energy, and focus must be between 1 and 5"
  /** One entry per user and date: a second POST for the pair replaces the first. */
  const ConflictKey: string := "user_id,date"
  const ValidLevels: seq<Json> := [Str("1"), Str("2"), Str("3"), Str("4"), Str("5")]

  /** GET up to the store call: single-entry mode for a date, list mode otherwise. */
  function PlanGet(userId: Option<string>, date: Option<string>, startDate: Option<string>, endDate: Option<string>)
    : (p: Plan<Query>)
    ensures p.Reject? <==> !Present(userId)
    ensures p.Reject? ==> p.response == ErrorResponse(UserIdRequired, 400)
    ensures p.Run? ==> p.request.table == Table && p.request.single == Present(date)
    ensures p.Run? && Present(date) ==>
      p.request == Query(Table, [UserFilter(userId.value), Eq("date", Str(date.value))], false, true)
    ensures p.Run? && !Present(date) ==> p.request.newestFirst
    ensures p.Run? && !Present(date) && Present(startDate) && Present(endDate) ==>
      p.request.filters == [UserFilter(userId.value), Gte("date", startDate.value), Lte("date", endDate.value)]
    ensures p.Run? && !Present(date) && !(Present(startDate) && Present(endDate)) ==>
      p.request.filters == [UserFilter(userId.value)]
  {
    if !Present(userId) then Reject(ErrorResponse(UserIdRequired, 400))
    else if Present(date) then
      Run(Query(Table, [UserFilter(userId.value), Eq("date", Str(date.value))], false, true))
    else
      var range := if Present(startDate) && Present(endDate)
        then [Gte("date", startDate.value), Lte("date", endDate.value)] else [];
      Run(Query(Table, [UserFilter(userId.value)] + range, true, false))
  }

  /** GET after the store call: the entry or `null` in single mode, `data || []` in list mode. */
  function FinishGet(q: Query, reply: StoreReply): (r: Response)
    ensures q.single && reply.error.Some? && reply.error.value.code != NoRowsCode ==>
      r == ErrorResponse(reply.error.value.message, 500)
    ensures q.single && (reply.error.None? || reply.error.value.code == NoRowsCode) ==> r == Response(200, reply.data)
    ensures !q.single && reply.error.Some? ==> r == ErrorResponse(reply.error.value.message, 500)
    ensures !q.single && reply.error.None? && Truthy(reply.data) ==> r == Response(200, reply.data)
    ensures !q.single && reply.error.None? && !Truthy(reply.data) ==> r == Response(200, Arr([]))
  {
    if q.single then SingleReply(reply) else ListReply(reply, true)
  }

  /** With a date, the range parameters make no difference. */
  lemma DateIgnoresRange(userId: Option<string>, date: Option<string>,
                         s1: Option<string>, e1: Option<string>, s2: Option<string>, e2: Option<string>)
    requires Present(date)
    ensures PlanGet(userId, date, s1, e1) == PlanGet(userId, date, s2, e2)
  {
  }

  /** A range needs both ends: one end alone filters nothing. */
  lemma OneEndAloneIgnored(userId: string, startDate: string)
    requires userId != "" && startDate != ""
    ensures PlanGet(Some(userId), None, Some(startDate), None).request.filters == [UserFilter(userId)]
    ensures PlanGet(Some(userId), None, None, Some(startDate)).request.filters == [UserFilter(userId)]
  {
  }

  /** A missing entry for the date is answered 200 with `null`, not as an error. */
  lemma NoEntryForDateIsNull(userId: string, date: string, message: string)
    requires userId != "" && date != ""
    ensures var q := PlanGet(Some(userId), Some(date), None, None).request;
      FinishGet(q, StoreReply(Null, Some(StoreError(NoRowsCode, message)))) == Response(200, Null)
  {
  }

  predicate HasRequired(body: Json) {
    Truthy(Field(body, "userId")) && Truthy(Field(body, "date")) && Truthy(Field(body, "mood"))
    && Truthy(Field(body, "energy")) && Truthy(Field(body, "focus"))
  }

  /** `validLevels.includes(v)`: strict equality with one of the strings '1'..'5'. */
  predicate ValidLevel(v: Json) {
    v in ValidLevels
  }

  /** The accepted levels are exactly the one-digit strings 1 to 5. */
  lemma ValidLevelMeaning(v: Json)
    ensures ValidLevel(v) <==> v.Str? && |v.s| == 1 && '1' <= v.s[0] <= '5'
  {
    if v.Str? && |v.s| == 1 && '1' <= v.s[0] <= '5' {
      assert v.s == [v.s[0]];
      assert v == Str("1") || v == Str("2") || v == Str("3") || v == Str("4") || v == Str("5");
    }
  }

  predicate LevelsValid(body: Json) {
    ValidLevel(Field(body, "mood")) && ValidLevel(Field(body, "energy")) && ValidLevel(Field(body, "focus"))
  }

  /** The upserted row; `createdAt` is `new Date().toISOString()` at the time of the call. */
  function MoodRow(body: Json, createdAt: string): (row: map<string, Json>)
    ensures row.Keys == {"user_id", "date", "mood", "energy", "focus", "sleep", "notes", "created_at"}
    ensures row["user_id"] == Field(body, "userId") && row["date"] == Field(body, "date")
    ensures row["mood"] == Field(body, "mood") && row["energy"] == Field(body, "energy")
    ensures row["focus"] == Field(body, "focus")
    ensures row["sleep"] == OrNull(Field(body, "sleep")) && row["notes"] == OrNull(Field(body, "notes"))
    ensures row["created_at"] == Str(createdAt)
  {
    map[
      "user_id" := Field(body, "userId"),
      "date" := Field(body, "date"),
      "mood" := Field(body, "mood"),
      "energy" := Field(body, "energy"),
      "focus" := Field(body, "focus"),
      "sleep" := OrNull(Field(body, "sleep")),
      "notes" := OrNull(Field(body, "notes")),
      "created_at" := Str(createdAt)]
  }

  /** POST up to the store call: required fields first, then the level check. */
  function PlanPost(body: Result<Json, string>, createdAt: string): (p: Plan<Write>)
    ensures ReadBody(body).Err? ==> p == Reject(ReadBody(body).error)
    ensures ReadBody(body).Ok? && !HasRequired(body.value) ==> p == Reject(ErrorResponse(FieldsRequired, 400))
    ensures ReadBody(body).Ok? && HasRequired(body.value) && !LevelsValid(body.value) ==>
      p == Reject(ErrorResponse(LevelsOutOfRange, 400))
    ensures p.Run? <==> ReadBody(body).Ok? && HasRequired(body.value) && LevelsValid(body.value)
    ensures p.Run? ==> p.request == Upsert(Table, MoodRow(body.value, createdAt), ConflictKey)
  {
    match ReadBody(body)
    case Err(response) => Reject(response)
    case Ok(b) =>
      if !HasRequired(b) then Reject(ErrorResponse(FieldsRequired, 400))
      else if !LevelsValid(b) then Reject(ErrorResponse(LevelsOutOfRange, 400))
      else Run(Upsert(Table, MoodRow(b, createdAt), ConflictKey))
  }

  /** POST after the store call: the stored row with 201, or the store's error. */
  function FinishPost(reply: StoreReply): (r: Response)
    ensures reply.error.Some? ==> r == ErrorResponse(reply.error.value.message, 500)
    ensures reply.error.None? ==> r == Response(201, reply.data)
  {
    CreatedReply(reply)
  }

  /** Every stored level is one of the strings '1'..'5'. */
  lemma StoredLevelsInRange(body: Result<Json, string>, createdAt: string)
    requires PlanPost(body, createdAt).Run?
    ensures forall k :: k in ["mood", "energy", "focus"] ==>
      var v := PlanPost(body, createdAt).request.row[k];
      v.Str? && |v.s| == 1 && '1' <= v.s[0] <= '5'
  {
    var b := body.value;
    ValidLevelMeaning(Field(b, "mood"));
    ValidLevelMeaning(Field(b, "energy"));
    ValidLevelMeaning(Field(b, "focus"));
  }

  /** A level sent as a number, even an in-range one, is refused. */
  lemma NumericLevelRejected(body: Json, level: real, createdAt: string)
    requires HasRequired(body) && !body.Null? && !body.Undefined?
    requires Field(body, "mood") == Num(level)
    ensures PlanPost(Ok(body), createdAt) == Reject(ErrorResponse(LevelsOutOfRange, 400))
  {
  }

  /** A sleep value of 0 hours is stored as `null`, like a missing one. */
  lemma SleepZeroStoredAsNull(body: Json, createdAt: string)
    requires PlanPost(Ok(body), createdAt).Run?
    requires Field(body, "sleep") == Num(0.0) || Field(body, "sleep") == Undefined
    ensures PlanPost(Ok(body), createdAt).request.row["sleep"] == Null
  {
  }
}
