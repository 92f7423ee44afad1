/**
 * `/api/habit-entries`: GET lists a user's entries newest first, optionally
 * for one habit and/or one date; POST upserts the entry of a habit on a date.
 * Stored rows use snake_case columns and are answered in camelCase.
 */
module HabitEntriesRoute {
  import opened Types
  import opened Http

  const Table: string := "habit_entries"
  const UserIdRequired: string := "userId is required"
  const FieldsRequired: string := "userId, habitId, date, and completed are required"
  /** One entry per habit and date: a second POST for the pair replaces the first. */
  const ConflictKey: string := "habit_id,date"

  /** The seven columns of an entry and the names the API answers with, pairwise. */
  const StoredColumns: seq<string> := ["id", "habit_id", "user_id", "date", "completed", "notes", "created_at"]
  const ApiFields: seq<string> := ["id", "habitId", "userId", "date", "completed", "notes", "createdAt"]
  const StoredColumnSet: set<string> := {"id", "habit_id", "user_id", "date", "completed", "notes", "created_at"}
  const ApiFieldSet: set<string> := {"id", "habitId", "userId", "date", "completed", "notes", "createdAt"}

  /** The response object for one stored row. */
  function ToCamel(row: Json): (r: Json)
    ensures r.Obj? && r.fields.Keys == ApiFieldSet
    ensures forall i :: 0 <= i < |ApiFields| ==> r.fields[ApiFields[i]] == Field(row, StoredColumns[i])
  {
    Obj(map[
      "id" := Field(row, "id"),
      "habitId" := Field(row, "habit_id"),
      "userId" := Field(row, "user_id"),
      "date" := Field(row, "date"),
      "completed" := Field(row, "completed"),
      "notes" := Field(row, "notes"),
      "createdAt" := Field(row, "created_at")])
  }

  /** The row a response object came from. */
  function ToSnake(dto: Json): (r: Json)
    ensures r.Obj? && r.fields.Keys == StoredColumnSet
    ensures forall i :: 0 <= i < |StoredColumns| ==> r.fields[StoredColumns[i]] == Field(dto, ApiFields[i])
  {
    Obj(map[
      "id" := Field(dto, "id"),
      "habit_id" := Field(dto, "habitId"),
      "user_id" := Field(dto, "userId"),
      "date" := Field(dto, "date"),
      "completed" := Field(dto, "completed"),
      "notes" := Field(dto, "notes"),
      "created_at" := Field(dto, "createdAt")])
  }

  /** A row holding exactly the seven columns comes back unchanged: the renaming loses nothing. */
  lemma ToCamelRoundTrip(row: Json)
    requires row.Obj? && row.fields.Keys == StoredColumnSet
    ensures ToSnake(ToCamel(row)) == row
  {
    var back := ToSnake(ToCamel(row)).fields;
    assert back.Keys == row.fields.Keys;
    forall c | c in StoredColumnSet
      ensures back[c] == row.fields[c]
    {
      assert c in StoredColumns;
      var i :| 0 <= i < |StoredColumns| && StoredColumns[i] == c;
      assert back[c] == Field(ToCamel(row), ApiFields[i]);
    }
  }

  /** Two rows answered the same way agree on all seven columns. */
  lemma ToCamelInjective(a: Json, b: Json)
    requires ToCamel(a) == ToCamel(b)
    ensures forall c :: c in StoredColumns ==> Field(a, c) == Field(b, c)
  {
    forall c | c in StoredColumns
      ensures Field(a, c) == Field(b, c)
    {
      var i :| 0 <= i < |StoredColumns| && StoredColumns[i] == c;
      assert ToCamel(a).fields[ApiFields[i]] == ToCamel(b).fields[ApiFields[i]];
    }
  }

  /** `data?.map(...)` on a list: same length, same order, each row renamed. */
  function MapToCamel(rows: seq<Json>): (r: seq<Json>)
    ensures |r| == |rows|
    ensures forall i :: 0 <= i < |rows| ==> r[i] == ToCamel(rows[i])
  {
    if rows == [] then [] else [ToCamel(rows[0])] + MapToCamel(rows[1..])
  }

  /** Renaming a concatenation renames each part; responses can be paged or merged freely. */
  lemma {:induction false} MapToCamelAppend(a: seq<Json>, b: seq<Json>)
    ensures MapToCamel(a + b) == MapToCamel(a) + MapToCamel(b)
  {
    if a != [] {
      assert (a + b)[1..] == a[1..] + b;
      MapToCamelAppend(a[1..], b);
    }
  }

  /** GET up to the store call: the `userId` check and the filters. */
  function PlanGet(userId: Option<string>, habitId: Option<string>, date: Option<string>): (p: Plan<Query>)
    ensures p.Reject? <==> !Present(userId)
    ensures p.Reject? ==> p.response == ErrorResponse(UserIdRequired, 400)
    ensures p.Run? ==> p.request.table == Table && p.request.newestFirst && !p.request.single
    ensures p.Run? ==> |p.request.filters| == 1 + (if Present(habitId) then 1 else 0) + (if Present(date) then 1 else 0)
    ensures p.Run? ==> p.request.filters[0] == UserFilter(userId.value)
    ensures p.Run? ==> forall f :: f in p.request.filters ==> f.Eq?
    ensures p.Run? && Present(habitId) ==> Eq("habit_id", Str(habitId.value)) in p.request.filters
    ensures p.Run? && !Present(habitId) ==> forall f :: f in p.request.filters ==> f.column != "habit_id"
    ensures p.Run? && Present(date) ==> Eq("date", Str(date.value)) in p.request.filters
    ensures p.Run? && !Present(date) ==> forall f :: f in p.request.filters ==> f.column != "date"
  {
    if !Present(userId) then Reject(ErrorResponse(UserIdRequired, 400))
    else
      var byHabit := if Present(habitId) then [Eq("habit_id", Str(habitId.value))] else [];
      var byDate := if Present(date) then [Eq("date", Str(date.value))] else [];
      Run(Query(Table, [UserFilter(userId.value)] + byHabit + byDate, true, false))
  }

  /** GET after the store call: the store's list renamed, or its error. */
  function FinishGet(reply: StoreReply): (r: Response)
    ensures reply.error.Some? ==> r == StoreFailure(reply.error.value)
    ensures reply.error.None? ==> r.status == 200
    ensures reply.error.None? && reply.data.Arr? ==>
      r.body.Arr? && |r.body.items| == |reply.data.items|
      && forall i :: 0 <= i < |reply.data.items| ==> r.body.items[i] == ToCamel(reply.data.items[i])
    ensures reply.error.None? && !reply.data.Arr? ==> r.body == Undefined
  {
    if reply.error.Some? then StoreFailure(reply.error.value)
    else if reply.data.Arr? then Response(200, Arr(MapToCamel(reply.data.items)))
    else Response(200, Undefined)
  }

  /** `!userId || !habitId || !date || completed === undefined` fails. */
  predicate HasRequired(body: Json) {
    Truthy(Field(body, "userId")) && Truthy(Field(body, "habitId")) && Truthy(Field(body, "date"))
    && !Field(body, "completed").Undefined?
  }

  /** The upserted row. */
  function EntryRow(body: Json): (row: map<string, Json>)
    ensures row.Keys == {"user_id", "habit_id", "date", "completed", "notes"}
    ensures row["user_id"] == Field(body, "userId") && row["habit_id"] == Field(body, "habitId")
    ensures row["date"] == Field(body, "date") && row["completed"] == Field(body, "completed")
    ensures row["notes"] == OrNull(Field(body, "notes"))
  {
    map[
      "user_id" := Field(body, "userId"),
      "habit_id" := Field(body, "habitId"),
      "date" := Field(body, "date"),
      "completed" := Field(body, "completed"),
      "notes" := OrNull(Field(body, "notes"))]
  }

  /** POST up to the store call. */
  function PlanPost(body: Result<Json, string>): (p: Plan<Write>)
    ensures ReadBody(body).Err? ==> p == Reject(ReadBody(body).error)
    ensures ReadBody(body).Ok? && !HasRequired(body.value) ==> p == Reject(ErrorResponse(FieldsRequired, 400))
    ensures p.Run? <==> ReadBody(body).Ok? && HasRequired(body.value)
    ensures p.Run? ==> p.request == Upsert(Table, EntryRow(body.value), ConflictKey)
  {
    match ReadBody(body)
    case Err(response) => Reject(response)
    case Ok(b) =>
      if !HasRequired(b) then Reject(ErrorResponse(FieldsRequired, 400))
      else Run(Upsert(Table, EntryRow(b), ConflictKey))
  }

  /** POST after the store call: the stored row renamed, with 201. */
  function FinishPost(reply: StoreReply): (r: Response)
    ensures reply.error.Some? ==> r == StoreFailure(reply.error.value)
    ensures reply.error.None? ==> r == Response(201, ToCamel(reply.data))
  {
    if reply.error.Some? then StoreFailure(reply.error.value) else Response(201, ToCamel(reply.data))
  }

  /** `completed: false` is a value, not a missing field: it is stored as false. */
  lemma CompletedFalseAccepted(userId: string, habitId: string, date: string)
    requires userId != "" && habitId != "" && date != ""
    ensures var body := Obj(map["userId" := Str(userId), "habitId" := Str(habitId),
                                "date" := Str(date), "completed" := Bool(false)]);
      PlanPost(Ok(body)).Run? && PlanPost(Ok(body)).request.row["completed"] == Bool(false)
      && PlanPost(Ok(body)).request.row["notes"] == Null
  {
  }

  /** Without `completed` the request is refused whatever else it holds. */
  lemma MissingCompletedRejected(body: Json)
    requires !body.Null? && !body.Undefined?
    requires !(body.Obj? && "completed" in body.fields)
    ensures PlanPost(Ok(body)) == Reject(ErrorResponse(FieldsRequired, 400))
  {
  }

  /** Two accepted posts for the same habit and date carry the same conflict key values. */
  lemma SameHabitAndDateCollide(b1: Json, b2: Json)
    requires PlanPost(Ok(b1)).Run? && PlanPost(Ok(b2)).Run?
    requires Field(b1, "habitId") == Field(b2, "habitId") && Field(b1, "date") == Field(b2, "date")
    ensures PlanPost(Ok(b1)).request.onConflict == PlanPost(Ok(b2)).request.onConflict == ConflictKey
    ensures PlanPost(Ok(b1)).request.row["habit_id"] == PlanPost(Ok(b2)).request.row["habit_id"]
    ensures PlanPost(Ok(b1)).request.row["date"] == PlanPost(Ok(b2)).request.row["date"]
  {
  }
}
