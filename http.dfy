/**
 * What the request handlers see and produce: JSON values with JavaScript
 * truthiness, query-string parameters, responses, and the requests handed
 * to the hosted store together with the store's replies.
 *
 * Each handler is modelled in two steps. `Plan…` maps the request to either
 * an immediate response (`Reject`) or the store request it issues (`Run`);
 * `Finish…` maps the store's reply to the response. The store itself
 * (conflict resolution, filtering, ordering) is not part of the model.
 */
module Http {
  import opened Types

  datatype Json =
    | Undefined
    | Null
    | Bool(b: bool)
    | Num(n: real)
    | Str(s: string)
    | Arr(items: seq<Json>)
    | Obj(fields: map<string, Json>)

  /** JavaScript truthiness (`NaN` aside, which a real cannot be). */
  predicate Truthy(v: Json) {
    match v
    case Undefined => false
    case Null => false
    case Bool(b) => b
    case Num(n) => n != 0.0
    case Str(s) => s != ""
    case Arr(_) => true
    case Obj(_) => true
  }

  /** Property read `v[key]` on a destructured body or a stored row: missing is `undefined`. */
  function Field(v: Json, key: string): (r: Json)
    ensures v.Obj? && key in v.fields ==> r == v.fields[key]
    ensures !(v.Obj? && key in v.fields) ==> r == Undefined
  {
    if v.Obj? && key in v.fields then v.fields[key] else Undefined
  }

  /** `v || null` */
  function OrNull(v: Json): (r: Json)
    ensures Truthy(v) ==> r == v
    ensures !Truthy(v) ==> r == Null
  {
    if Truthy(v) then v else Null
  }

  /** `searchParams.get(name)` is a string or null; `!param` also rejects "". */
  predicate Present(param: Option<string>) {
    param.Some? && param.value != ""
  }

  datatype Response = Response(status: int, body: Json)

  /** `NextResponse.json({ error: message }, { status })` */
  function ErrorResponse(message: string, status: int): (r: Response)
    ensures r.status == status
    ensures r.body.Obj? && r.body.fields.Keys == {"error"} && r.body.fields["error"] == Str(message)
  {
    Response(status, Obj(map["error" := Str(message)]))
  }

  const InternalServerError: string := "Internal server error"

  /**
   * The `TypeError` raised when the handlers destructure a JSON `null` body
   * (every handler destructures `userId` first).
   */
  const NullBodyMessage: string := "Cannot destructure property 'userId' of 'body' as it is null."

  /** The `catch` of every handler: `{ error: error.message || "Internal server error" }`, 500. */
  function CaughtError(message: string): (r: Response)
    ensures r.status == 500
    ensures message != "" ==> r == ErrorResponse(message, 500)
    ensures message == "" ==> r == ErrorResponse(InternalServerError, 500)
  {
    ErrorResponse(if message != "" then message else InternalServerError, 500)
  }

  /**
   * `const body = await request.json(); const { … } = body;`
   * `Err(message)` is a body that does not parse; a parsed `null` cannot be
   * destructured. Both end in the `catch`.
   */
  function ReadBody(body: Result<Json, string>): (r: Result<Json, Response>)
    ensures body.Err? ==> r == Err(CaughtError(body.error))
    ensures body.Ok? && (body.value.Null? || body.value.Undefined?) ==> r == Err(CaughtError(NullBodyMessage))
    ensures body.Ok? && !body.value.Null? && !body.value.Undefined? ==> r == Ok(body.value)
  {
    if body.Err? then Err(CaughtError(body.error))
    else if body.value.Null? || body.value.Undefined? then Err(CaughtError(NullBodyMessage))
    else Ok(body.value)
  }

  datatype Filter =
    | Eq(column: string, value: Json)
    | Gte(column: string, bound: string)
    | Lte(column: string, bound: string)

  /**
   * A read: the table, its filters in the order they are added, whether it
   * is ordered by date descending, and whether it asks for at most one row
   * (`maybeSingle`).
   */
  datatype Query = Query(table: string, filters: seq<Filter>, newestFirst: bool, single: bool)

  /** A write: an upsert keyed on `onConflict`, or an insert. */
  datatype Write =
    | Upsert(table: string, row: map<string, Json>, onConflict: string)
    | Insert(table: string, row: map<string, Json>)

  datatype StoreError = StoreError(code: string, message: string)

  /** `{ data, error }` as the store returns it. */
  datatype StoreReply = StoreReply(data: Json, error: Option<StoreError>)

  datatype Plan<R> = Reject(response: Response) | Run(request: R)

  /** `{ error: error.message }`, 500, for a store error. */
  function StoreFailure(e: StoreError): (r: Response)
    ensures r == ErrorResponse(e.message, 500)
  {
    ErrorResponse(e.message, 500)
  }

  /** The list-mode reply shared by several handlers: 500 on error, else `data` (or `data || []`). */
  function ListReply(reply: StoreReply, emptyWhenFalsy: bool): (r: Response)
    ensures reply.error.Some? ==> r == StoreFailure(reply.error.value)
    ensures reply.error.None? ==> r.status == 200
    ensures reply.error.None? && (Truthy(reply.data) || !emptyWhenFalsy) ==> r.body == reply.data
    ensures reply.error.None? && !Truthy(reply.data) && emptyWhenFalsy ==> r.body == Arr([])
  {
    if reply.error.Some? then StoreFailure(reply.error.value)
    else if emptyWhenFalsy && !Truthy(reply.data) then Response(200, Arr([]))
    else Response(200, reply.data)
  }

  /**
   * The single-entry reply (`maybeSingle`): a store error other than
   * "no row" (code `PGRST116`) is a 500; otherwise `data`, possibly `null`, with 200.
   */
  const NoRowsCode: string := "PGRST116"

  function SingleReply(reply: StoreReply): (r: Response)
    ensures reply.error.Some? && reply.error.value.code != NoRowsCode ==> r == StoreFailure(reply.error.value)
    ensures reply.error.None? || reply.error.value.code == NoRowsCode ==> r == Response(200, reply.data)
  {
    if reply.error.Some? && reply.error.value.code != NoRowsCode then StoreFailure(reply.error.value)
    else Response(200, reply.data)
  }

  /** A successful write answers 201 with the stored row; a store error answers 500. */
  function CreatedReply(reply: StoreReply): (r: Response)
    ensures reply.error.Some? ==> r == StoreFailure(reply.error.value)
    ensures reply.error.None? ==> r == Response(201, reply.data)
  {
    if reply.error.Some? then StoreFailure(reply.error.value) else Response(201, reply.data)
  }

  /** The user filter every read starts with. */
  function UserFilter(userId: string): Filter {
    Eq("user_id", Str(userId))
  }
}
