/**
 * `/api/habits`: GET lists a user's active habits; POST inserts a new,
 * active habit.
 */
module HabitsRoute {
  import opened Types
  import opened Http

  const Table: string := "habits"
  const UserIdRequired: string := "userId is required"
  const FieldsRequired: string := "userId, category, and title are required"

  /** GET up to the store call: the user's habits that are still active. */
  function PlanGet(userId: Option<string>): (p: Plan<Query>)
    ensures p.Reject? <==> !Present(userId)
    ensures p.Reject? ==> p.response == ErrorResponse(UserIdRequired, 400)
    ensures p.Run? ==>
      p.request == Query(Table, [UserFilter(userId.value), Eq("is_active", Bool(true))], false, false)
  {
    if !Present(userId) then Reject(ErrorResponse(UserIdRequired, 400))
    else Run(Query(Table, [UserFilter(userId.value), Eq("is_active", Bool(true))], false, false))
  }

  /** GET after the store call: `data` as the store sent it, or the store's error. */
  function FinishGet(reply: StoreReply): (r: Response)
    ensures reply.error.Some? ==> r == ErrorResponse(reply.error.value.message, 500)
    ensures reply.error.None? ==> r == Response(200, reply.data)
  {
    ListReply(reply, false)
  }

  predicate HasRequired(body: Json) {
    Truthy(Field(body, "userId")) && Truthy(Field(body, "category")) && Truthy(Field(body, "title"))
  }

  /** The inserted row; `createdAt` is `new Date().toISOString()` at the time of the call. */
  function HabitRow(body: Json, createdAt: string): (row: map<string, Json>)
    ensures row.Keys == {"user_id", "category", "title", "description", "is_active", "created_at"}
    ensures row["user_id"] == Field(body, "userId") && row["category"] == Field(body, "category")
    ensures row["title"] == Field(body, "title") && row["description"] == OrNull(Field(body, "description"))
    ensures row["is_active"] == Bool(true) && row["created_at"] == Str(createdAt)
  {
    map[
      "user_id" := Field(body, "userId"),
      "category" := Field(body, "category"),
      "title" := Field(body, "title"),
      "description" := OrNull(Field(body, "description")),
      "is_active" := Bool(true),
      "created_at" := Str(createdAt)]
  }

  /** POST up to the store call. */
  function PlanPost(body: Result<Json, string>, createdAt: string): (p: Plan<Write>)
    ensures ReadBody(body).Err? ==> p == Reject(ReadBody(body).error)
    ensures ReadBody(body).Ok? && !HasRequired(body.value) ==> p == Reject(ErrorResponse(FieldsRequired, 400))
    ensures p.Run? <==> ReadBody(body).Ok? && HasRequired(body.value)
    ensures p.Run? ==> p.request == Insert(Table, HabitRow(body.value, createdAt))
  {
    match ReadBody(body)
    case Err(response) => Reject(response)
    case Ok(b) =>
      if !HasRequired(b) then Reject(ErrorResponse(FieldsRequired, 400))
      else Run(Insert(Table, HabitRow(b, createdAt)))
  }

  /** POST after the store call: the stored row with 201, or the store's error. */
  function FinishPost(reply: StoreReply): (r: Response)
    ensures reply.error.Some? ==> r == ErrorResponse(reply.error.value.message, 500)
    ensures reply.error.None? ==> r == Response(201, reply.data)
  {
    CreatedReply(reply)
  }

  /** A newly created habit is active, so the next GET's `is_active` filter includes it. */
  lemma CreatedHabitIsListed(body: Result<Json, string>, createdAt: string, userId: string)
    requires PlanPost(body, createdAt).Run?
    requires Field(body.value, "userId") == Str(userId)
    ensures var row := PlanPost(body, createdAt).request.row;
      forall f :: f in PlanGet(Some(userId)).request.filters ==> f.Eq? && f.column in row && row[f.column] == f.value
  {
  }

  /** The category is only checked for being non-empty: any other name is stored as sent. */
  lemma AnyCategoryAccepted(userId: string, category: string, title: string, createdAt: string)
    requires userId != "" && category != "" && title != ""
    ensures var p := PlanPost(Ok(Obj(map["userId" := Str(userId), "category" := Str(category),
                                        "title" := Str(title)])), createdAt);
      p.Run? && p.request.row["category"] == Str(category) && p.request.row["description"] == Null
  {
  }
}
