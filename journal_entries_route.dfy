/**
 * `/api/journal-entries`: GET answers the one entry of a date, or the
 * user's entries newest first, each end of the date range optional on its
 * own; POST upserts the entry of a user on a date.
 */
module JournalEntriesRoute {
  import opened Types
  import opened Http

  const Table: string := "journal_entries"
  const UserIdRequired: string := "userId is required"
  const FieldsRequired: string := "userId, date, and content are required"
  /** One entry per user and date: a second POST for the pair replaces the first. */
  const ConflictKey: string := "user_id,date"

  /** GET up to the store call: single-entry mode for a date, list mode otherwise. */
  function PlanGet(userId: Option<string>, date: Option<string>, startDate: Option<string>, endDate: Option<string>)
    : (p: Plan<Query>)
    ensures p.Reject? <==> !Present(userId)
    ensures p.Reject? ==> p.response == ErrorResponse(UserIdRequired, 400)
    ensures p.Run? ==> p.request.table == Table && p.request.single == Present(date)
    ensures p.Run? && Present(date) ==>
      p.request == Query(Table, [UserFilter(userId.value), Eq("date", Str(date.value))], false, true)
    ensures p.Run? && !Present(date) ==>
      |p.request.filters| == 1 + (if Present(startDate) then 1 else 0) + (if Present(endDate) then 1 else 0)
    ensures p.Run? && !Present(date) ==> p.request.newestFirst && p.request.filters[0] == UserFilter(userId.value)
    ensures p.Run? && !Present(date) && Present(startDate) ==> Gte("date", startDate.value) in p.request.filters
    ensures p.Run? && !Present(date) && !Present(startDate) ==> forall f :: f in p.request.filters ==> !f.Gte?
    ensures p.Run? && !Present(date) && Present(endDate) ==> Lte("date", endDate.value) in p.request.filters
    ensures p.Run? && !Present(date) && !Present(endDate) ==> forall f :: f in p.request.filters ==> !f.Lte?
  {
    if !Present(userId) then Reject(ErrorResponse(UserIdRequired, 400))
    else if Present(date) then
      Run(Query(Table, [UserFilter(userId.value), Eq("date", Str(date.value))], false, true))
    else
      var from := if Present(startDate) then [Gte("date", startDate.value)] else [];
      var upTo := if Present(endDate) then [Lte("date", endDate.value)] else [];
      Run(Query(Table, [UserFilter(userId.value)] + from + upTo, true, false))
  }

  /** GET after the store call: the entry or `null` in single mode, `data || []` in list mode. */
  function FinishGet(q: Query, reply: StoreReply): (r: Response)
    ensures q.single && reply.error.Some? && reply.error.value.code != NoRowsCode ==>
      r == ErrorResponse(reply.error.value.message, 500)
    ensures q.single && (reply.error.None? || reply.error.value.code == NoRowsCode) ==> r == Response(200, reply.data)
    ensures !q.single && reply.error.Some? ==> r == ErrorResponse(reply.error.value.message, 500)
    ensures !q.single && reply.error.None? && Truthy(reply.data) ==> r == Response(200, reply.data)
    ensures !q.single && reply.error.None? && !Truthy(reply.data) ==> r == Response(200, Arr([]))
  {
    if q.single then SingleReply(reply) else ListReply(reply, true)
  }

  /** Unlike the mood entries, a start date alone already narrows the list. */
  lemma StartDateAloneFilters(userId: string, startDate: string)
    requires userId != "" && startDate != ""
    ensures PlanGet(Some(userId), None, Some(startDate), None).request.filters
      == [UserFilter(userId), Gte("date", startDate)]
  {
  }

  /** With a date, the range parameters make no difference. */
  lemma DateIgnoresRange(userId: Option<string>, date: Option<string>,
                         s1: Option<string>, e1: Option<string>, s2: Option<string>, e2: Option<string>)
    requires Present(date)
    ensures PlanGet(userId, date, s1, e1) == PlanGet(userId, date, s2, e2)
  {
  }

  predicate HasRequired(body: Json) {
    Truthy(Field(body, "userId")) && Truthy(Field(body, "date")) && Truthy(Field(body, "content"))
  }

  /** The upserted row; `createdAt` is `new Date().toISOString()` at the time of the call. */
  function JournalRow(body: Json, createdAt: string): (row: map<string, Json>)
    ensures row.Keys == {"user_id", "date", "content", "created_at"}
    ensures row["user_id"] == Field(body, "userId") && row["date"] == Field(body, "date")
    ensures row["content"] == Field(body, "content") && row["created_at"] == Str(createdAt)
  {
    map[
      "user_id" := Field(body, "userId"),
      "date" := Field(body, "date"),
      "content" := Field(body, "content"),
      "created_at" := Str(createdAt)]
  }

  /** POST up to the store call. */
  function PlanPost(body: Result<Json, string>, createdAt: string): (p: Plan<Write>)
    ensures ReadBody(body).Err? ==> p == Reject(ReadBody(body).error)
    ensures ReadBody(body).Ok? && !HasRequired(body.value) ==> p == Reject(ErrorResponse(FieldsRequired, 400))
    ensures p.Run? <==> ReadBody(body).Ok? && HasRequired(body.value)
    ensures p.Run? ==> p.request == Upsert(Table, JournalRow(body.value, createdAt), ConflictKey)
  {
    match ReadBody(body)
    case Err(response) => Reject(response)
    case Ok(b) =>
      if !HasRequired(b) then Reject(ErrorResponse(FieldsRequired, 400))
      else Run(Upsert(Table, JournalRow(b, createdAt), ConflictKey))
  }

  /** POST after the store call: the stored row with 201, or the store's error. */
  function FinishPost(reply: StoreReply): (r: Response)
    ensures reply.error.Some? ==> r == ErrorResponse(reply.error.value.message, 500)
    ensures reply.error.None? ==> r == Response(201, reply.data)
  {
    CreatedReply(reply)
  }

  /** Empty content is refused, but content of blanks only is stored as sent. */
  lemma EmptyVersusBlankContent(userId: string, date: string, createdAt: string)
    requires userId != "" && date != ""
    ensures PlanPost(Ok(Obj(map["userId" := Str(userId), "date" := Str(date), "content" := Str("")])), createdAt)
      == Reject(ErrorResponse(FieldsRequired, 400))
    ensures var p := PlanPost(Ok(Obj(map["userId" := Str(userId), "date" := Str(date), "content" := Str("   ")])), createdAt);
      p.Run? && p.request.row["content"] == Str("   ")
  {
  }
}
